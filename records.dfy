/**
 * The last step of every operator: a prepared UPDATE applies the generator in place
 * to the record that matched the payload, a prepared CREATE applies it to a new
 * record of the operator's table.
 */
module Records {
  import opened Wrappers
  import opened JsValue
  import opened Operators

  /** A database record: the table it lives in, and its stored id and columns. */
  class Record {
    const table: string
    var row: Row

    constructor (table: string, row: Row)
      ensures this.table == table && this.row == row
    {
      this.table := table;
      this.row := row;
    }
  }

  /** `operateBaseRecord`. On UPDATE the matched record is changed in place (even
      when the generator throws half-way, the assignments before the throw stay)
      and is returned; UPDATE without a matched record throws. On CREATE a new
      record of `tableName`, whose own id is `freshId`, is prepared and returned. */
  method OperateBaseRecord(action: Action, tableName: string, raw: Payload, matched: Record?,
                           g: Generator, sanitize: string -> string, freshId: Value)
    returns (r: Result<Record, Error>)
    modifies matched
    ensures action == Update && matched == null ==> r == Failure(MissingMatchedRecord)
    ensures action == Update && matched != null ==>
              var out := Run(g, Ctx(Update, raw, old(matched.row.id), sanitize), old(matched.row));
              && matched.row == out.row
              && (out.failure == None ==> r == Success(matched))
              && (out.failure != None ==> r == Failure(out.failure.value))
    ensures action == Create ==> matched == null || unchanged(matched)
    ensures action == Create ==>
              var out := Run(g, Ctx(Create, raw, Undefined, sanitize), Row(freshId, map[]));
              && (out.failure == None ==> r.Success? && fresh(r.value) && r.value.table == tableName
                                          && r.value.row == out.row)
              && (out.failure != None ==> r == Failure(out.failure.value))
  {
    if action == Update {
      if matched == null {
        return Failure(MissingMatchedRecord);
      }
      var out := Run(g, Ctx(Update, raw, matched.row.id, sanitize), matched.row);
      matched.row := out.row;
      if out.failure == None {
        r := Success(matched);
      } else {
        r := Failure(out.failure.value);
      }
    } else {
      var out := Run(g, Ctx(Create, raw, Undefined, sanitize), Row(freshId, map[]));
      if out.failure == None {
        var created := new Record(tableName, out.row);
        r := Success(created);
      } else {
        r := Failure(out.failure.value);
      }
    }
  }

  /** Preparing the same UPDATE twice leaves the record as preparing it once: the
      second run finds the id the first one left, and assigns the same columns. */
  method UpdateTwice(raw: Payload, record: Record, g: Generator, sanitize: string -> string)
    returns (first: Result<Record, Error>, second: Result<Record, Error>)
    modifies record
    ensures record.row == Run(g, Ctx(Update, raw, old(record.row.id), sanitize), old(record.row)).row
    ensures first == second
  {
    ghost var c := Ctx(Update, raw, record.row.id, sanitize);
    ghost var target := record.row;
    first := OperateBaseRecord(Update, "", raw, record, g, sanitize, Undefined);
    assert record.row.id == target.id;
    RunIsIdempotent(g, c, target);
    second := OperateBaseRecord(Update, "", raw, record, g, sanitize, Undefined);
  }
}
