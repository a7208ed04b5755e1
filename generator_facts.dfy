/**
 * What each kind's generator promises: which id a prepared record gets under
 * CREATE and UPDATE, the defaults that replace missing optional fields, and the
 * derived booleans.
 */
module GeneratorFacts {
  import opened Wrappers
  import opened JsValue
  import opened Operators
  import opened Generators

  // ---------------------------------------------------------------------------
  // Identifiers: the id policy of each kind (`Operators.RunSetsIdByPolicy` says a
  // run leaves exactly the id its policy picks)

  /** Kinds whose id comes from the server: on CREATE the record takes the payload's
      `id`, or keeps the freshly generated one when the payload has none. */
  lemma ServerIdOnCreate(k: Kind, raw: Payload, matchedId: Value, sanitize: string -> string, own: Value)
    requires k in ServerKinds
    ensures var id := IdFor(IdPolicyOf(k), Ctx(Create, raw, matchedId, sanitize), own);
            && (Nullish(Field(raw, "id")) ==> id == own)
            && (!Nullish(Field(raw, "id")) ==> id == Field(raw, "id"))
  {
  }

  /** Kinds with client-side ids, including draft and posts-in-thread: on CREATE the
      record keeps the id the new instance was created with, whatever the payload says. */
  lemma LocalIdOnCreate(k: Kind, raw: Payload, matchedId: Value, sanitize: string -> string, own: Value)
    requires k !in ServerKinds
    ensures IdFor(IdPolicyOf(k), Ctx(Create, raw, matchedId, sanitize), own) == own
  {
  }

  /** Every kind but draft and posts-in-thread assigns the matched record's id on
      UPDATE, whatever the payload's `id` says. */
  lemma UpdateTakesMatchedId(k: Kind, raw: Payload, matchedId: Value, sanitize: string -> string, own: Value)
    requires k != Draft && k != PostsInThread
    ensures IdFor(IdPolicyOf(k), Ctx(Update, raw, matchedId, sanitize), own) == matchedId
  {
  }

  /** Draft and posts-in-thread never change the id of the instance they run on, under
      either action. */
  lemma DraftKeepsOwnId(k: Kind, c: Ctx, own: Value)
    requires k == Draft || k == PostsInThread
    ensures IdFor(IdPolicyOf(k), c, own) == own
  {
  }

  /** A kind whose id is not server-assigned never looks at the payload's `id`:
      payloads that differ only there prepare the same record, under either action. */
  lemma LocalKindsNeverReadRawId(k: Kind, action: Action, m1: map<string, Value>, m2: map<string, Value>,
                                 matchedId: Value, sanitize: string -> string, target: Row)
    requires k !in ServerKinds
    requires m1 - {"id"} == m2 - {"id"}
    ensures Run(GeneratorOf(k), Ctx(action, Some(m1), matchedId, sanitize), target)
         == Run(GeneratorOf(k), Ctx(action, Some(m2), matchedId, sanitize), target)
  {
    RunIgnoresRawIdUnlessServerAssigned(GeneratorOf(k), action, m1, m2, matchedId, sanitize, target);
  }

  /** A server-id kind does look at it: on CREATE, a payload `{id: "s"}` gives the
      record id "s", where an empty payload leaves the instance's own id. */
  lemma ServerKindsReadRawId(k: Kind, sanitize: string -> string, own: Value)
    requires k in ServerKinds
    ensures Run(GeneratorOf(k), Ctx(Create, Some(map["id" := Str("s")]), Undefined, sanitize), Row(own, map[])).row.id == Str("s")
    ensures Run(GeneratorOf(k), Ctx(Create, Some(map[]), Undefined, sanitize), Row(own, map[])).row.id == own
  {
    RunSetsIdByPolicy(GeneratorOf(k), Ctx(Create, Some(map["id" := Str("s")]), Undefined, sanitize), Row(own, map[]));
    RunSetsIdByPolicy(GeneratorOf(k), Ctx(Create, Some(map[]), Undefined, sanitize), Row(own, map[]));
  }

  /** As written, posts-in-thread takes `postId` from the payload on CREATE but from
      the matched record's own id on UPDATE. */
  lemma PostsInThreadAsWrittenPostId(action: Action, m: map<string, Value>, matchedId: Value,
                                     sanitize: string -> string, target: Row)
    ensures var r := RunPostsInThreadAsWritten(Ctx(action, Some(m), matchedId, sanitize), target);
            && "postId" in r.row.columns
            && r.row.columns["postId"] == (if action == Create then Field(Some(m), "post_id") else matchedId)
  {
    var c := Ctx(action, Some(m), matchedId, sanitize);
    if action == Create {
      AsWrittenPostIdOnCreate(c, target);
    } else {
      AsWrittenPostIdOnUpdate(c, target);
    }
  }

  lemma AsWrittenPostIdOnCreate(c: Ctx, target: Row)
    requires c.action == Create && c.raw.Some?
    ensures var r := RunPostsInThreadAsWritten(c, target);
            "postId" in r.row.columns && r.row.columns["postId"] == Field(c.raw, "post_id")
  {
    var fs := [Assign("postId", Get("post_id"))] + [Assign("earliest", Get("earliest")), Assign("latest", Get("latest"))];
    SourcesSucceed(fs, 1, c);
    WrittenAt(fs, c, 0);
    AssignAllIsOverride(fs, c, target.columns);
  }

  lemma AsWrittenPostIdOnUpdate(c: Ctx, target: Row)
    requires c.action == Update
    ensures var r := RunPostsInThreadAsWritten(c, target);
            "postId" in r.row.columns && r.row.columns["postId"] == c.matchedId
  {
    var rest := [Assign("earliest", Get("earliest")), Assign("latest", Get("latest"))];
    AssignAllIsOverride(rest, c, target.columns["postId" := c.matchedId]);
    WrittenWithinTargets(rest, c);
  }

  /** The as-written posts-in-thread generator loses the thread's post id: a row
      created for post "p1" with generated id "x", updated with the very same payload,
      ends with `postId` "x". */
  lemma PostsInThreadAsWrittenLosesPostId(sanitize: string -> string)
    ensures var raw := Some(map["post_id" := Str("p1")]);
            var created := RunPostsInThreadAsWritten(Ctx(Create, raw, Undefined, sanitize), Row(Str("x"), map[]));
            var updated := RunPostsInThreadAsWritten(Ctx(Update, raw, created.row.id, sanitize), created.row);
            && "postId" in created.row.columns && created.row.columns["postId"] == Str("p1")
            && "postId" in updated.row.columns && updated.row.columns["postId"] == Str("x")
            && updated != created
  {
    var raw := Some(map["post_id" := Str("p1")]);
    PostsInThreadAsWrittenPostId(Create, raw.value, Undefined, sanitize, Row(Str("x"), map[]));
    var created := RunPostsInThreadAsWritten(Ctx(Create, raw, Undefined, sanitize), Row(Str("x"), map[]));
    PostsInThreadAsWrittenPostId(Update, raw.value, created.row.id, sanitize, created.row);
  }

  /** The corrected posts-in-thread generator keeps the payload's `post_id` under
      both actions. */
  lemma PostsInThreadKeepsPostId(action: Action, m: map<string, Value>, matchedId: Value,
                                 sanitize: string -> string, target: Row)
    ensures var r := Run(Generator(KeepOwn, PostsInThreadFields()), Ctx(action, Some(m), matchedId, sanitize), target);
            && "postId" in r.row.columns
            && r.row.columns["postId"] == Field(Some(m), "post_id")
            && r.failure == None
  {
    var c := Ctx(action, Some(m), matchedId, sanitize);
    var fs := PostsInThreadFields();
    SourcesSucceed(fs, |fs|, c);
    FailsIffSomeSourceFails(fs, c);
    WrittenAt(fs, c, 0);
    AssignAllIsOverride(fs, c, target.columns);
  }
}
