/**
 * The data operators of the local database: one generator per entity kind that
 * assigns a record's id and copies fields from an untyped payload onto it, and
 * `OperateBaseRecord`, which applies a generator either in place to the matched
 * record (UPDATE) or to a freshly created record of the named table (CREATE).
 *
 * A generator is data: an id policy and the ordered list of column assignments of
 * the source's `generator` closure. `Run` executes those assignments one after the
 * other, stopping at the first one that throws.
 */
module Operators {
  import opened Wrappers
  import opened JsValue

  /** One entity kind per `operate*Record` function; each is stored in its own table. */
  datatype Kind =
    | App | Global | Servers
    | CustomEmoji | Role | System | TermsOfService
    | Post | PostsInThread | Reaction | File | PostMetadata | Draft | PostsInChannel
    | User | Preference | TeamMembership | GroupMembership | ChannelMembership
    | Group | GroupsInTeam | GroupsInChannel | Team | TeamChannelHistory | TeamSearchHistory
    | SlashCommand | MyTeam | Channel | MyChannelSettings | ChannelInfo | MyChannel

  datatype Action = Create | Update

  /** The `raw` payload object; `None` stands for an undefined payload. */
  type Payload = Option<map<string, Value>>

  /** What can make preparing a record throw. */
  datatype Error =
    | MissingPayload(key: string)   // `raw.key` read while `raw` is undefined
    | NoIncludes(key: string)       // `raw.key.includes(..)` on a value without `includes`
    | NotAString(key: string)       // `Q.sanitizeLikeString(raw?.key)` on a value that is not a string
    | MissingMatchedRecord          // UPDATE without a matched record

  /** What a generator closure closes over: the action, the payload, the matched
      record's id, and the foreign `Q.sanitizeLikeString`, a function on strings. */
  datatype Ctx = Ctx(action: Action, raw: Payload, matchedId: Value, sanitize: string -> string)

  /** A payload key read by a field assignment. The payload's `id` is read only by
      the id policy, never by a field assignment. */
  type FieldKey = k: string | k != "id" witness "name"

  /** The right-hand sides of the generators' field assignments. None of them
      depends on the action or on the matched record. The one right-hand side of the
      source that does, posts-in-thread's `postId` (index.ts:355), is not a `Source`:
      `Generators.RunPostsInThreadAsWritten` models it on its own. */
  datatype Source =
    | Get(key: FieldKey)                   // raw.key
    | GetOpt(key: FieldKey)                // raw?.key
    | GetOr(key: FieldKey, default: Value) // raw?.key ?? default
    | ZeroUnlessSet(key: FieldKey)         // raw?.key || raw?.key === 0 ? raw?.key : 0
    | BooleanOf(key: FieldKey)             // Boolean(raw.key)
    | HasRole(key: FieldKey, role: string) // raw.key.includes(role)
    | Sanitized(key: FieldKey)             // Q.sanitizeLikeString(raw?.key)

  /** `target.column = from` */
  datatype Assignment = Assign(column: string, from: Source)

  /** How a generator sets `_raw.id`. */
  datatype IdPolicy =
    | ServerAssigned   // isCreateAction ? (raw?.id ?? target.id) : record.id
    | LocalOnly        // isCreateAction ? target.id : record.id
    | KeepOwn          // the instance keeps its own id (draft's `draft._raw.id = draft.id`,
                       // and posts-in-thread, which assigns no id)

  datatype Generator = Generator(ids: IdPolicy, fields: seq<Assignment>)

  /** The stored state of a record: its id and its named columns. */
  datatype Row = Row(id: Value, columns: map<string, Value>)

  /** The state a generator leaves its target in, and the error it threw, if any. */
  datatype Outcome = Outcome(row: Row, failure: Option<Error>)

  datatype Applied = Applied(columns: map<string, Value>, failure: Option<Error>)

  // ---------------------------------------------------------------------------
  // Reading the payload

  /** `raw?.key` */
  function Field(raw: Payload, key: string): Value {
    match raw
    case None => Undefined
    case Some(m) => if key in m then m[key] else Undefined
  }

  /** `raw.key`: throws when the payload itself is undefined. */
  function Prop(raw: Payload, key: string): Result<Value, Error> {
    if raw.None? then Failure(MissingPayload(key)) else Success(Field(raw, key))
  }

  /** The payload key a source reads. */
  function KeyOf(src: Source): FieldKey {
    src.key
  }

  /** What a right-hand side needs of the payload to evaluate without a throw:
      nothing for `?.` reads, a payload for `raw.key`, a payload whose `key` has an
      `includes` method for `.includes`, and a string for the sanitizer. */
  predicate CanRead(src: Source, raw: Payload) {
    match src
    case Get(_) => raw.Some?
    case BooleanOf(_) => raw.Some?
    case HasRole(k, _) => raw.Some? && IncludesDefined(raw, k)
    case Sanitized(k) => Field(raw, k).Str?
    case _ => true
  }

  /** The value of one right-hand side, or the error its evaluation throws. */
  function Eval(src: Source, c: Ctx): Result<Value, Error> {
    match src
    case Get(k) => Prop(c.raw, k)
    case GetOpt(k) => Success(Field(c.raw, k))
    case GetOr(k, d) => Success(Coalesce(Field(c.raw, k), d))
    case ZeroUnlessSet(k) =>
      var v := Field(c.raw, k);
      Success(if Truthy(v) || v == Num(0) then v else Num(0))
    case BooleanOf(k) =>
      (match Prop(c.raw, k)
       case Failure(e) => Failure(e)
       case Success(v) => Success(Bool(Truthy(v))))
    case HasRole(k, role) =>
      (match Prop(c.raw, k)
       case Failure(e) => Failure(e)
       case Success(Str(s)) => Success(Bool(Includes(s, role)))
       case Success(List(items)) => Success(Bool(Str(role) in items))
       case Success(_) => Failure(NoIncludes(k)))
    case Sanitized(k) =>
      var v := Field(c.raw, k);
      if v.Str? then Success(Str(c.sanitize(v.s))) else Failure(NotAString(k))
  }

  /** A right-hand side throws exactly when `CanRead` fails, and the error names the
      key it was reading; without a payload, `raw.key` throws `MissingPayload`. */
  lemma EvalFailsIffCannotRead(src: Source, c: Ctx)
    ensures Eval(src, c).Success? <==> CanRead(src, c.raw)
    ensures Eval(src, c).Failure? ==> !Eval(src, c).error.MissingMatchedRecord? && Eval(src, c).error.key == src.key
    ensures c.raw.None? && (src.Get? || src.BooleanOf? || src.HasRole?) ==> Eval(src, c) == Failure(MissingPayload(src.key))
  {
  }

  /** `roles` contains `role`: as a substring when it is a string, as an element
      when it is an array. */
  ghost predicate RolesInclude(roles: Value, role: string) {
    match roles
    case Str(s) => exists i :: OccursAt(s, role, i)
    case List(items) => Str(role) in items
    case _ => false
  }

  /** `raw.key.includes(role)` throws unless the payload is present and its `key`
      is a string or an array, and then says whether `key` contains `role`. */
  lemma HasRoleMeans(src: Source, c: Ctx)
    requires src.HasRole?
    ensures Eval(src, c).Success? <==> c.raw.Some? && IncludesDefined(c.raw, src.key)
    ensures Eval(src, c).Success? ==> Eval(src, c) == Success(Bool(RolesInclude(Field(c.raw, src.key), src.role)))
  {
    var v := Field(c.raw, src.key);
    if c.raw.Some? && v.Str? {
      IncludesIffOccurs(v.s, src.role);
    }
  }

  // ---------------------------------------------------------------------------
  // Running a generator

  /** The id the generator leaves on an instance whose own id is `own`. */
  function IdFor(p: IdPolicy, c: Ctx, own: Value): Value {
    match p
    case ServerAssigned => if c.action == Create then Coalesce(Field(c.raw, "id"), own) else c.matchedId
    case LocalOnly => if c.action == Create then own else c.matchedId
    case KeepOwn => own
  }

  /** The assignments of a generator body, in order, stopping at the first that throws. */
  function AssignAll(fs: seq<Assignment>, c: Ctx, columns: map<string, Value>): Applied
    decreases |fs|
  {
    if fs == [] then Applied(columns, None)
    else match Eval(fs[0].from, c)
      case Failure(e) => Applied(columns, Some(e))
      case Success(v) => AssignAll(fs[1..], c, columns[fs[0].column := v])
  }

  /** Applies generator `g` to `target`: the id first, then the field assignments. */
  function Run(g: Generator, c: Ctx, target: Row): Outcome {
    var applied := AssignAll(g.fields, c, target.columns);
    Outcome(Row(IdFor(g.ids, c, target.id), applied.columns), applied.failure)
  }

  /** The columns a generator assigns. */
  function Targets(fs: seq<Assignment>): set<string> {
    set a | a in fs :: a.column
  }

  /** The net effect of the assignments, independent of the target: each column that
      is reached before the first failure, mapped to the value last assigned to it. */
  function Written(fs: seq<Assignment>, c: Ctx): map<string, Value>
    decreases |fs|
  {
    if fs == [] then map[]
    else match Eval(fs[0].from, c)
      case Failure(_) => map[]
      case Success(v) => map[fs[0].column := v] + Written(fs[1..], c)
  }

  /** The error of the first assignment that throws, if any. */
  function FirstFailure(fs: seq<Assignment>, c: Ctx): Option<Error>
    decreases |fs|
  {
    if fs == [] then None
    else match Eval(fs[0].from, c)
      case Failure(e) => Some(e)
      case Success(_) => FirstFailure(fs[1..], c)
  }

  // ---------------------------------------------------------------------------
  // What running a generator does

  /** Executing the assignments one by one has the net effect of overriding the
      target's columns with `Written`, and throws what `FirstFailure` says. */
  lemma {:induction false} AssignAllIsOverride(fs: seq<Assignment>, c: Ctx, columns: map<string, Value>)
    ensures AssignAll(fs, c, columns) == Applied(columns + Written(fs, c), FirstFailure(fs, c))
    decreases |fs|
  {
    if fs == [] {
      assert columns + map[] == columns;
    } else {
      match Eval(fs[0].from, c)
      case Failure(_) =>
        assert columns + map[] == columns;
      case Success(v) =>
        var rest := Written(fs[1..], c);
        AssignAllIsOverride(fs[1..], c, columns[fs[0].column := v]);
        assert columns[fs[0].column := v] + rest == columns + (map[fs[0].column := v] + rest);
    }
  }

  /** A generator writes only the columns it names. */
  lemma {:induction false} WrittenWithinTargets(fs: seq<Assignment>, c: Ctx)
    ensures Written(fs, c).Keys <= Targets(fs)
    decreases |fs|
  {
    if fs != [] {
      WrittenWithinTargets(fs[1..], c);
      forall a | a in fs[1..]
        ensures a.column in Targets(fs)
      {
        assert a in fs;
      }
      assert fs[0] in fs;
    }
  }

  /** Applying a generator a second time with the same payload changes nothing:
      the id and every column it assigns depend only on the payload and the matched
      record, never on the target's earlier contents. */
  lemma RunIsIdempotent(g: Generator, c: Ctx, target: Row)
    ensures Run(g, c, Run(g, c, target).row) == Run(g, c, target)
  {
    var once := Run(g, c, target);
    AssignAllIsOverride(g.fields, c, target.columns);
    AssignAllIsOverride(g.fields, c, once.row.columns);
    var w := Written(g.fields, c);
    assert (target.columns + w) + w == target.columns + w;
  }

  /** Columns a generator does not name keep their value (and their absence), and
      no column outside the target's and the generator's appears. */
  lemma RunFrame(g: Generator, c: Ctx, target: Row)
    ensures Run(g, c, target).row.columns - Targets(g.fields) == target.columns - Targets(g.fields)
    ensures Run(g, c, target).row.columns.Keys <= target.columns.Keys + Targets(g.fields)
  {
    AssignAllIsOverride(g.fields, c, target.columns);
    WrittenWithinTargets(g.fields, c);
  }

  /** The id a run leaves is the one its id policy picks; the field assignments
      never touch it. */
  lemma RunSetsIdByPolicy(g: Generator, c: Ctx, target: Row)
    ensures Run(g, c, target).row.id == IdFor(g.ids, c, target.id)
  {
  }

  /** The payload is read only at the keys the sources name: two payloads that agree
      there (and are both present or both absent) give the same assignments. */
  lemma {:induction false} WrittenReadsOnlyKeys(fs: seq<Assignment>, action: Action, raw1: Payload, raw2: Payload,
                                                matchedId: Value, sanitize: string -> string)
    requires raw1.None? <==> raw2.None?
    requires forall a :: a in fs ==> Field(raw1, KeyOf(a.from)) == Field(raw2, KeyOf(a.from))
    ensures Written(fs, Ctx(action, raw1, matchedId, sanitize)) == Written(fs, Ctx(action, raw2, matchedId, sanitize))
    ensures FirstFailure(fs, Ctx(action, raw1, matchedId, sanitize)) == FirstFailure(fs, Ctx(action, raw2, matchedId, sanitize))
    decreases |fs|
  {
    if fs != [] {
      assert fs[0] in fs;
      forall a | a in fs[1..]
        ensures Field(raw1, KeyOf(a.from)) == Field(raw2, KeyOf(a.from))
      {
        assert a in fs;
      }
      WrittenReadsOnlyKeys(fs[1..], action, raw1, raw2, matchedId, sanitize);
    }
  }

  /** The field assignments are the same under CREATE and UPDATE and whatever the
      matched record's id: only the id policy looks at those. */
  lemma {:induction false} WrittenIgnoresAction(fs: seq<Assignment>, raw: Payload, sanitize: string -> string,
                                                a1: Action, id1: Value, a2: Action, id2: Value)
    ensures Written(fs, Ctx(a1, raw, id1, sanitize)) == Written(fs, Ctx(a2, raw, id2, sanitize))
    ensures FirstFailure(fs, Ctx(a1, raw, id1, sanitize)) == FirstFailure(fs, Ctx(a2, raw, id2, sanitize))
    decreases |fs|
  {
    if fs != [] {
      WrittenIgnoresAction(fs[1..], raw, sanitize, a1, id1, a2, id2);
    }
  }

  /** The assignment at index `i` decides its column when every assignment up to it
      succeeds and no later one names the same column. */
  lemma {:induction false} WrittenAt(fs: seq<Assignment>, c: Ctx, i: nat)
    requires i < |fs|
    requires forall j :: 0 <= j <= i ==> Eval(fs[j].from, c).Success?
    requires forall j :: i < j < |fs| ==> fs[j].column != fs[i].column
    ensures fs[i].column in Written(fs, c)
    ensures Written(fs, c)[fs[i].column] == Eval(fs[i].from, c).value
    decreases i
  {
    assert Eval(fs[0].from, c).Success?;
    if i == 0 {
      WrittenWithinTargets(fs[1..], c);
      assert fs[0].column !in Targets(fs[1..]) by {
        forall a | a in fs[1..]
          ensures a.column != fs[0].column
        {
          var j :| 0 <= j < |fs[1..]| && fs[1..][j] == a;
          assert fs[j + 1] == a;
        }
      }
    } else {
      WrittenAt(fs[1..], c, i - 1);
      assert fs[1..][i - 1] == fs[i];
    }
  }

  /** The column that assignment `i` names holds that assignment's value after a
      run that reaches it without a throw, when no later assignment names it. */
  lemma RunColumn(g: Generator, c: Ctx, target: Row, i: nat)
    requires LastAssignsAt(g.fields, i)
    requires CannotThrowBefore(g.fields, i, c.raw)
    requires Eval(g.fields[i].from, c).Success?
    ensures var a := g.fields[i];
            a.column in Run(g, c, target).row.columns
            && Eval(a.from, c) == Success(Run(g, c, target).row.columns[a.column])
  {
    SourcesSucceed(g.fields, i, c);
    UnassignedFromIff(g.fields, i + 1, g.fields[i].column);
    WrittenAt(g.fields, c, i);
    AssignAllIsOverride(g.fields, c, target.columns);
  }

  /** A run whose assignment `i` is the first that throws fails with that error;
      when that is the very first assignment, the columns are left as they were. */
  lemma RunFailsAt(g: Generator, c: Ctx, target: Row, i: nat)
    requires i < |g.fields|
    requires CannotThrowBefore(g.fields, i, c.raw)
    requires Eval(g.fields[i].from, c).Failure?
    ensures Run(g, c, target).failure == Some(Eval(g.fields[i].from, c).error)
    ensures i == 0 ==> Run(g, c, target).row.columns == target.columns
  {
    SourcesSucceed(g.fields, i, c);
    FirstFailureAt(g.fields, c, i);
    AssignAllIsOverride(g.fields, c, target.columns);
    if i == 0 {
      assert target.columns + map[] == target.columns;
    }
  }

  /** A run does not throw when none of its sources can throw, or when the payload
      is present and every `.includes` test in it is on a string or an array. */
  lemma RunSucceeds(g: Generator, c: Ctx, target: Row)
    requires CannotThrowBefore(g.fields, |g.fields|, c.raw)
    ensures Run(g, c, target).failure == None
  {
    SourcesSucceed(g.fields, |g.fields|, c);
    FailsIffSomeSourceFails(g.fields, c);
    AssignAllIsOverride(g.fields, c, target.columns);
  }

  /** A run throws the error of its first assignment that throws. */
  lemma {:induction false} FirstFailureAt(fs: seq<Assignment>, c: Ctx, i: nat)
    requires i < |fs|
    requires forall j :: 0 <= j < i ==> Eval(fs[j].from, c).Success?
    requires Eval(fs[i].from, c).Failure?
    ensures FirstFailure(fs, c) == Some(Eval(fs[i].from, c).error)
    decreases i
  {
    if i > 0 {
      assert Eval(fs[0].from, c).Success?;
      assert fs[1..][i - 1] == fs[i];
      FirstFailureAt(fs[1..], c, i - 1);
    }
  }

  /** A run throws exactly when one of its right-hand sides throws. */
  lemma {:induction false} FailsIffSomeSourceFails(fs: seq<Assignment>, c: Ctx)
    ensures FirstFailure(fs, c).None? <==> forall j :: 0 <= j < |fs| ==> Eval(fs[j].from, c).Success?
    decreases |fs|
  {
    if fs != [] {
      FailsIffSomeSourceFails(fs[1..], c);
      assert forall j :: 1 <= j < |fs| ==> fs[1..][j - 1] == fs[j];
    }
  }

  // ---------------------------------------------------------------------------
  // The shape of a generator's table

  /** No assignment of `fs` from index `i` on names column `col`. */
  predicate UnassignedFrom(fs: seq<Assignment>, i: nat, col: string)
    decreases |fs| - i
  {
    i >= |fs| || (fs[i].column != col && UnassignedFrom(fs, i + 1, col))
  }

  lemma {:induction false} UnassignedFromIff(fs: seq<Assignment>, i: nat, col: string)
    ensures UnassignedFrom(fs, i, col) <==> forall j :: i <= j < |fs| ==> fs[j].column != col
    decreases |fs| - i
  {
    if i < |fs| {
      UnassignedFromIff(fs, i + 1, col);
    }
  }

  /** No assignment after index `i` of `fs` names the column assignment `i` names. */
  predicate LastAssignsAt(fs: seq<Assignment>, i: nat) {
    i < |fs| && UnassignedFrom(fs, i + 1, fs[i].column)
  }

  /** The right-hand sides that read the payload with `?.` and use the value as it
      is, and so never throw. */
  predicate NeverThrows(src: Source) {
    src.GetOpt? || src.GetOr? || src.ZeroUnlessSet?
  }

  /** None of the first `n` right-hand sides of `fs` can throw. */
  predicate SafePrefix(fs: seq<Assignment>, n: nat) {
    n <= |fs| && forall j :: 0 <= j < n ==> NeverThrows(fs[j].from)
  }

  /** None of the right-hand sides of `fs` is an `.includes` test or a sanitizer
      call: they throw only when the payload is missing. */
  predicate NoCheckedRead(fs: seq<Assignment>) {
    forall j :: 0 <= j < |fs| ==> !fs[j].from.HasRole? && !fs[j].from.Sanitized?
  }

  /** Assignment `n` is the only one of `fs` whose right-hand side is an `.includes`
      test or a sanitizer call. */
  predicate CheckedReadOnlyAt(fs: seq<Assignment>, n: nat) {
    forall j :: 0 <= j < |fs| && (fs[j].from.HasRole? || fs[j].from.Sanitized?) ==> j == n
  }

  /** `.includes` is defined on the payload's `key`: it is a string or an array. */
  predicate IncludesDefined(raw: Payload, key: string) {
    Field(raw, key).Str? || Field(raw, key).List?
  }

  /** Read off the shape of the table: no assignment before index `i` can throw
      with payload `raw`. */
  predicate CannotThrowBefore(fs: seq<Assignment>, i: nat, raw: Payload) {
    || SafePrefix(fs, i)
    || (&& raw.Some? && i <= |fs|
        && (forall j :: 0 <= j < i && fs[j].from.HasRole? ==> IncludesDefined(raw, fs[j].from.key))
        && (forall j :: 0 <= j < i && fs[j].from.Sanitized? ==> Field(raw, fs[j].from.key).Str?))
  }

  /** Which right-hand sides succeed, read off the shape of the table. */
  lemma SourcesSucceed(fs: seq<Assignment>, n: nat, c: Ctx)
    requires CannotThrowBefore(fs, n, c.raw)
    ensures forall j :: 0 <= j < n ==> Eval(fs[j].from, c).Success?
  {
  }

  /** Preparing an UPDATE of a record with the payload it was created from leaves
      that record exactly as it was, for every generator. */
  lemma UpdateAfterCreateIsStable(g: Generator, raw: Payload, sanitize: string -> string, newRow: Row, noMatch: Value)
    ensures var created := Run(g, Ctx(Create, raw, noMatch, sanitize), newRow);
            Run(g, Ctx(Update, raw, created.row.id, sanitize), created.row) == created
  {
    var cc := Ctx(Create, raw, noMatch, sanitize);
    var created := Run(g, cc, newRow);
    var cu := Ctx(Update, raw, created.row.id, sanitize);
    WrittenIgnoresAction(g.fields, raw, sanitize, Create, noMatch, Update, created.row.id);
    AssignAllIsOverride(g.fields, cc, newRow.columns);
    AssignAllIsOverride(g.fields, cu, created.row.columns);
    var w := Written(g.fields, cc);
    assert (newRow.columns + w) + w == newRow.columns + w;
  }

  /** A generator whose id is not server-assigned never reads the payload's `id`:
      payloads that differ only there prepare the same record under either action. */
  lemma RunIgnoresRawIdUnlessServerAssigned(g: Generator, action: Action, m1: map<string, Value>, m2: map<string, Value>,
                                            matchedId: Value, sanitize: string -> string, target: Row)
    requires g.ids != ServerAssigned
    requires m1 - {"id"} == m2 - {"id"}
    ensures Run(g, Ctx(action, Some(m1), matchedId, sanitize), target)
         == Run(g, Ctx(action, Some(m2), matchedId, sanitize), target)
  {
    forall a | a in g.fields
      ensures Field(Some(m1), KeyOf(a.from)) == Field(Some(m2), KeyOf(a.from))
    {
      var key := KeyOf(a.from);
      assert key in m1 <==> key in m1 - {"id"};
      assert key in m2 <==> key in m2 - {"id"};
      if key in m1 {
        assert m1[key] == (m1 - {"id"})[key];
        assert m2[key] == (m2 - {"id"})[key];
      }
    }
    WrittenReadsOnlyKeys(g.fields, action, Some(m1), Some(m2), matchedId, sanitize);
    AssignAllIsOverride(g.fields, Ctx(action, Some(m1), matchedId, sanitize), target.columns);
    AssignAllIsOverride(g.fields, Ctx(action, Some(m2), matchedId, sanitize), target.columns);
  }
}
