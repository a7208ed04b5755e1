/**
 * The per-kind defaults and derived values: what the generators of posts, files,
 * drafts, users, teams and channels store when an optional payload field is
 * missing, how the derived booleans are computed, and when those generators throw.
 *
 * Each `...Shape` lemma records the facts about a kind's table that the lemma
 * after it needs: what assignment `i` is, that no later one names its column, and
 * which right-hand sides before it can throw. The column is then read off with a
 * lemma that holds for every generator of that shape.
 */
module KindDefaults {
  import opened Wrappers
  import opened JsValue
  import opened Operators
  import opened Generators

  /** `v` is the payload's `key` when that is set (neither undefined nor null), and
      `d` otherwise. */
  predicate DefaultsTo(v: Value, raw: Payload, key: string, d: Value) {
    (Nullish(Field(raw, key)) ==> v == d) && (!Nullish(Field(raw, key)) ==> v == Field(raw, key))
  }

  /** A column assigned `raw?.key ?? d`, and reached without a throw, holds `d` when
      the payload's `key` is unset and the payload's `key` otherwise. */
  lemma DefaultColumn(g: Generator, c: Ctx, target: Row, i: nat)
    requires LastAssignsAt(g.fields, i) && g.fields[i].from.GetOr?
    requires CannotThrowBefore(g.fields, i, c.raw)
    ensures var a := g.fields[i];
            var cols := Run(g, c, target).row.columns;
            a.column in cols && DefaultsTo(cols[a.column], c.raw, a.from.key, a.from.default)
  {
    RunColumn(g, c, target, i);
  }

  /** A column assigned `Boolean(raw.key)`, reached without a throw, holds whether
      the payload's `key` is truthy. */
  lemma BooleanColumn(g: Generator, c: Ctx, target: Row, i: nat)
    requires c.raw.Some?
    requires LastAssignsAt(g.fields, i) && g.fields[i].from.BooleanOf?
    requires CannotThrowBefore(g.fields, i, c.raw)
    ensures var a := g.fields[i];
            var cols := Run(g, c, target).row.columns;
            a.column in cols && cols[a.column] == Bool(Truthy(Field(c.raw, a.from.key)))
  {
    RunColumn(g, c, target, i);
  }

  // ---------------------------------------------------------------------------
  // Posts

  lemma PostChannelIdShape()
    ensures LastAssignsAt(PostFields(), 0) && PostFields()[0] == Assign("channelId", GetOpt("channel_id"))
  {
    UnassignedFromIff(PostFields(), 1, PostFields()[0].column);
  }

  /** A post's `channelId` is the payload's `channel_id`, undefined when that is
      missing; it is assigned even when the payload is missing. */
  lemma PostChannelId(c: Ctx, target: Row)
    ensures var cols := Run(GeneratorOf(Post), c, target).row.columns;
            "channelId" in cols && cols["channelId"] == Field(c.raw, "channel_id")
  {
    PostChannelIdShape();
    RunColumn(GeneratorOf(Post), c, target, 0);
  }

  lemma PostCreateAtShape()
    ensures LastAssignsAt(PostFields(), 1) && PostFields()[1] == Assign("createAt", GetOpt("create_at"))
    ensures SafePrefix(PostFields(), 1)
  {
    UnassignedFromIff(PostFields(), 2, PostFields()[1].column);
  }

  /** A post's `createAt` is the payload's `create_at`, undefined when that is
      missing; it is assigned even when the payload is missing. */
  lemma PostCreateAt(c: Ctx, target: Row)
    ensures var cols := Run(GeneratorOf(Post), c, target).row.columns;
            "createAt" in cols && cols["createAt"] == Field(c.raw, "create_at")
  {
    PostCreateAtShape();
    RunColumn(GeneratorOf(Post), c, target, 1);
  }

  lemma PostDeleteAtShape()
    ensures LastAssignsAt(PostFields(), 2) && PostFields()[2] == Assign("deleteAt", ZeroUnlessSet("delete_at"))
    ensures SafePrefix(PostFields(), 2)
  {
    UnassignedFromIff(PostFields(), 3, PostFields()[2].column);
  }

  /** A post's `deleteAt` is the payload's `delete_at` when that is truthy and 0
      otherwise (an explicit 0 is kept, which is the same thing); it is assigned
      even when the payload is missing. */
  lemma PostDeleteAt(c: Ctx, target: Row)
    ensures var cols := Run(GeneratorOf(Post), c, target).row.columns;
            var d := Field(c.raw, "delete_at");
            && "deleteAt" in cols
            && (Truthy(d) ==> cols["deleteAt"] == d)
            && (!Truthy(d) ==> cols["deleteAt"] == Num(0))
  {
    PostDeleteAtShape();
    RunColumn(GeneratorOf(Post), c, target, 2);
  }

  lemma PostIsPinnedShape()
    ensures LastAssignsAt(PostFields(), 5) && PostFields()[5] == Assign("isPinned", Get("is_pinned"))
    ensures CheckedReadOnlyAt(PostFields(), 6)
  {
    UnassignedFromIff(PostFields(), 6, PostFields()[5].column);
  }

  /** With a payload, a post's `isPinned` is the payload's `is_pinned`. */
  lemma PostIsPinned(c: Ctx, target: Row)
    requires c.raw.Some?
    ensures var cols := Run(GeneratorOf(Post), c, target).row.columns;
            "isPinned" in cols && cols["isPinned"] == Field(c.raw, "is_pinned")
  {
    PostIsPinnedShape();
    RunColumn(GeneratorOf(Post), c, target, 5);
  }

  lemma PostMessageShape()
    ensures LastAssignsAt(PostFields(), 6) && PostFields()[6] == Assign("message", Sanitized("message"))
    ensures CheckedReadOnlyAt(PostFields(), 6)
  {
    UnassignedFromIff(PostFields(), 7, PostFields()[6].column);
  }

  /** With a payload whose `message` is a string, a post's `message` is that string
      passed through the sanitizer. */
  lemma PostMessage(c: Ctx, target: Row)
    requires c.raw.Some? && Field(c.raw, "message").Str?
    ensures var cols := Run(GeneratorOf(Post), c, target).row.columns;
            "message" in cols && cols["message"] == Str(c.sanitize(Field(c.raw, "message").s))
  {
    PostMessageShape();
    RunColumn(GeneratorOf(Post), c, target, 6);
  }

  lemma PostOriginalIdShape()
    ensures LastAssignsAt(PostFields(), 8) && PostFields()[8] == Assign("originalId", GetOr("original_id", Str("")))
    ensures CheckedReadOnlyAt(PostFields(), 6) && PostFields()[6].from == Sanitized("message")
  {
    UnassignedFromIff(PostFields(), 9, PostFields()[8].column);
  }

  lemma PostOriginalId(c: Ctx, target: Row)
    requires c.raw.Some? && Field(c.raw, "message").Str?
    ensures var cols := Run(GeneratorOf(Post), c, target).row.columns;
            "originalId" in cols && DefaultsTo(cols["originalId"], c.raw, "original_id", Str(""))
  {
    PostOriginalIdShape();
    DefaultColumn(GeneratorOf(Post), c, target, 8);
  }

  lemma PostPendingPostIdShape()
    ensures LastAssignsAt(PostFields(), 9) && PostFields()[9] == Assign("pendingPostId", GetOr("pending_post_id", Str("")))
    ensures CheckedReadOnlyAt(PostFields(), 6) && PostFields()[6].from == Sanitized("message")
  {
    UnassignedFromIff(PostFields(), 10, PostFields()[9].column);
  }

  lemma PostPendingPostId(c: Ctx, target: Row)
    requires c.raw.Some? && Field(c.raw, "message").Str?
    ensures var cols := Run(GeneratorOf(Post), c, target).row.columns;
            "pendingPostId" in cols && DefaultsTo(cols["pendingPostId"], c.raw, "pending_post_id", Str(""))
  {
    PostPendingPostIdShape();
    DefaultColumn(GeneratorOf(Post), c, target, 9);
  }

  lemma PostPreviousPostIdShape()
    ensures LastAssignsAt(PostFields(), 10) && PostFields()[10] == Assign("previousPostId", GetOr("prev_post_id", Str("")))
    ensures CheckedReadOnlyAt(PostFields(), 6) && PostFields()[6].from == Sanitized("message")
  {
    UnassignedFromIff(PostFields(), 11, PostFields()[10].column);
  }

  lemma PostPreviousPostId(c: Ctx, target: Row)
    requires c.raw.Some? && Field(c.raw, "message").Str?
    ensures var cols := Run(GeneratorOf(Post), c, target).row.columns;
            "previousPostId" in cols && DefaultsTo(cols["previousPostId"], c.raw, "prev_post_id", Str(""))
  {
    PostPreviousPostIdShape();
    DefaultColumn(GeneratorOf(Post), c, target, 10);
  }

  lemma PostRootIdShape()
    ensures LastAssignsAt(PostFields(), 11) && PostFields()[11] == Assign("rootId", GetOr("root_id", Str("")))
    ensures CheckedReadOnlyAt(PostFields(), 6) && PostFields()[6].from == Sanitized("message")
  {
    UnassignedFromIff(PostFields(), 12, PostFields()[11].column);
  }

  lemma PostRootId(c: Ctx, target: Row)
    requires c.raw.Some? && Field(c.raw, "message").Str?
    ensures var cols := Run(GeneratorOf(Post), c, target).row.columns;
            "rootId" in cols && DefaultsTo(cols["rootId"], c.raw, "root_id", Str(""))
  {
    PostRootIdShape();
    DefaultColumn(GeneratorOf(Post), c, target, 11);
  }

  lemma PostTypeShape()
    ensures LastAssignsAt(PostFields(), 12) && PostFields()[12] == Assign("type", GetOr("type", Str("")))
    ensures CheckedReadOnlyAt(PostFields(), 6) && PostFields()[6].from == Sanitized("message")
  {
    UnassignedFromIff(PostFields(), 13, PostFields()[12].column);
  }

  lemma PostType(c: Ctx, target: Row)
    requires c.raw.Some? && Field(c.raw, "message").Str?
    ensures var cols := Run(GeneratorOf(Post), c, target).row.columns;
            "type" in cols && DefaultsTo(cols["type"], c.raw, "type", Str(""))
  {
    PostTypeShape();
    DefaultColumn(GeneratorOf(Post), c, target, 12);
  }

  lemma PostPropsShape()
    ensures LastAssignsAt(PostFields(), 13) && PostFields()[13] == Assign("props", GetOr("props", Obj(map[])))
    ensures CheckedReadOnlyAt(PostFields(), 6) && PostFields()[6].from == Sanitized("message")
  {
    UnassignedFromIff(PostFields(), 14, PostFields()[13].column);
  }

  lemma PostProps(c: Ctx, target: Row)
    requires c.raw.Some? && Field(c.raw, "message").Str?
    ensures var cols := Run(GeneratorOf(Post), c, target).row.columns;
            "props" in cols && DefaultsTo(cols["props"], c.raw, "props", Obj(map[]))
  {
    PostPropsShape();
    DefaultColumn(GeneratorOf(Post), c, target, 13);
  }

  /** With a payload whose `message` is a string (so that the generator gets past the
      sanitizer), a post's missing `original_id`, `pending_post_id`, `prev_post_id`,
      `root_id` and `type` become `''` and missing `props` become `{}`. */
  lemma PostDefaults(c: Ctx, target: Row)
    requires c.raw.Some? && Field(c.raw, "message").Str?
    ensures var r := Run(GeneratorOf(Post), c, target);
            var cols := r.row.columns;
            && "originalId" in cols && DefaultsTo(cols["originalId"], c.raw, "original_id", Str(""))
            && "pendingPostId" in cols && DefaultsTo(cols["pendingPostId"], c.raw, "pending_post_id", Str(""))
            && "previousPostId" in cols && DefaultsTo(cols["previousPostId"], c.raw, "prev_post_id", Str(""))
            && "rootId" in cols && DefaultsTo(cols["rootId"], c.raw, "root_id", Str(""))
            && "type" in cols && DefaultsTo(cols["type"], c.raw, "type", Str(""))
            && "props" in cols && DefaultsTo(cols["props"], c.raw, "props", Obj(map[]))
  {
    PostOriginalId(c, target);
    PostPendingPostId(c, target);
    PostPreviousPostId(c, target);
    PostRootId(c, target);
    PostType(c, target);
    PostProps(c, target);
  }

  lemma PostFailureShape()
    ensures SafePrefix(PostFields(), 5) && CheckedReadOnlyAt(PostFields(), 6)
    ensures PostFields()[5] == Assign("isPinned", Get("is_pinned"))
    ensures PostFields()[6] == Assign("message", Sanitized("message"))
  {
  }

  /** A post's generator throws when the payload is missing, at `is_pinned`, the
      first field it reads without optional chaining; otherwise it throws exactly
      when `message` is not a string, at the sanitizer. */
  lemma PostFailure(c: Ctx, target: Row)
    ensures Run(GeneratorOf(Post), c, target).failure
         == if c.raw.None? then Some(MissingPayload("is_pinned"))
            else if !Field(c.raw, "message").Str? then Some(NotAString("message"))
            else None
  {
    PostFailureShape();
    if c.raw.None? {
      RunFailsAt(GeneratorOf(Post), c, target, 5);
    } else if !Field(c.raw, "message").Str? {
      RunFailsAt(GeneratorOf(Post), c, target, 6);
    } else {
      RunSucceeds(GeneratorOf(Post), c, target);
    }
  }

  /** The payload `{id: "p1", channel_id: "c1", create_at: 100, message: "hi",
      is_pinned: false, original_id: "p0"}`. */
  function SamplePost(): map<string, Value> {
    map["id" := Str("p1"), "channel_id" := Str("c1"), "create_at" := Num(100), "message" := Str("hi"),
        "is_pinned" := Bool(false), "original_id" := Str("p0")]
  }

  lemma SamplePostFields()
    ensures Field(Some(SamplePost()), "id") == Str("p1")
    ensures Field(Some(SamplePost()), "channel_id") == Str("c1")
    ensures Field(Some(SamplePost()), "create_at") == Num(100)
    ensures Field(Some(SamplePost()), "original_id") == Str("p0")
    ensures Field(Some(SamplePost()), "message") == Str("hi")
    ensures Field(Some(SamplePost()), "is_pinned") == Bool(false)
    ensures Field(Some(SamplePost()), "delete_at") == Undefined
    ensures Field(Some(SamplePost()), "root_id") == Undefined
  {
  }

  /** A post created from the sample payload with no matching record takes the
      payload's id, channel, creation time and original id, stores the message
      through the sanitizer, `isPinned` false, `deleteAt` 0 and an empty `rootId`,
      and does not throw. */
  lemma PostCreatedFromPayload(sanitize: string -> string, own: Value)
    ensures var r := Run(GeneratorOf(Post), Ctx(Create, Some(SamplePost()), Undefined, sanitize), Row(own, map[]));
            var cols := r.row.columns;
            && r.failure == None
            && r.row.id == Str("p1")
            && "channelId" in cols && cols["channelId"] == Str("c1")
            && "createAt" in cols && cols["createAt"] == Num(100)
            && "message" in cols && cols["message"] == Str(sanitize("hi"))
            && "isPinned" in cols && cols["isPinned"] == Bool(false)
            && "deleteAt" in cols && cols["deleteAt"] == Num(0)
            && "rootId" in cols && cols["rootId"] == Str("")
            && "originalId" in cols && cols["originalId"] == Str("p0")
  {
    var c := Ctx(Create, Some(SamplePost()), Undefined, sanitize);
    var target := Row(own, map[]);
    SamplePostFields();
    PostFailure(c, target);
    PostDeleteAt(c, target);
    PostRootId(c, target);
    PostOriginalId(c, target);
    PostChannelId(c, target);
    PostCreateAt(c, target);
    PostIsPinned(c, target);
    PostMessage(c, target);
  }

  // ---------------------------------------------------------------------------
  // Files

  lemma FileMimeTypeShape()
    ensures LastAssignsAt(FileFields(), 4) && FileFields()[4] == Assign("mimeType", GetOr("mime_type", Str("")))
    ensures NoCheckedRead(FileFields())
  {
    UnassignedFromIff(FileFields(), 5, FileFields()[4].column);
  }

  lemma FileMimeType(c: Ctx, target: Row)
    requires c.raw.Some?
    ensures var cols := Run(GeneratorOf(File), c, target).row.columns;
            "mimeType" in cols && DefaultsTo(cols["mimeType"], c.raw, "mime_type", Str(""))
  {
    FileMimeTypeShape();
    DefaultColumn(GeneratorOf(File), c, target, 4);
  }

  lemma FileWidthShape()
    ensures LastAssignsAt(FileFields(), 5) && FileFields()[5] == Assign("width", GetOr("width", Num(0)))
    ensures NoCheckedRead(FileFields())
  {
    UnassignedFromIff(FileFields(), 6, FileFields()[5].column);
  }

  lemma FileWidth(c: Ctx, target: Row)
    requires c.raw.Some?
    ensures var cols := Run(GeneratorOf(File), c, target).row.columns;
            "width" in cols && DefaultsTo(cols["width"], c.raw, "width", Num(0))
  {
    FileWidthShape();
    DefaultColumn(GeneratorOf(File), c, target, 5);
  }

  lemma FileHeightShape()
    ensures LastAssignsAt(FileFields(), 6) && FileFields()[6] == Assign("height", GetOr("height", Num(0)))
    ensures NoCheckedRead(FileFields())
  {
    UnassignedFromIff(FileFields(), 7, FileFields()[6].column);
  }

  lemma FileHeight(c: Ctx, target: Row)
    requires c.raw.Some?
    ensures var cols := Run(GeneratorOf(File), c, target).row.columns;
            "height" in cols && DefaultsTo(cols["height"], c.raw, "height", Num(0))
  {
    FileHeightShape();
    DefaultColumn(GeneratorOf(File), c, target, 6);
  }

  lemma FileImageThumbnailShape()
    ensures LastAssignsAt(FileFields(), 7) && FileFields()[7] == Assign("imageThumbnail", GetOr("mini_preview", Str("")))
    ensures NoCheckedRead(FileFields())
  {
    UnassignedFromIff(FileFields(), 8, FileFields()[7].column);
  }

  lemma FileImageThumbnail(c: Ctx, target: Row)
    requires c.raw.Some?
    ensures var cols := Run(GeneratorOf(File), c, target).row.columns;
            "imageThumbnail" in cols && DefaultsTo(cols["imageThumbnail"], c.raw, "mini_preview", Str(""))
  {
    FileImageThumbnailShape();
    DefaultColumn(GeneratorOf(File), c, target, 7);
  }

  lemma FileLocalPathShape()
    ensures LastAssignsAt(FileFields(), 8) && FileFields()[8] == Assign("localPath", GetOr("localPath", Str("")))
    ensures NoCheckedRead(FileFields())
  {
    UnassignedFromIff(FileFields(), 9, FileFields()[8].column);
  }

  lemma FileLocalPath(c: Ctx, target: Row)
    requires c.raw.Some?
    ensures var cols := Run(GeneratorOf(File), c, target).row.columns;
            "localPath" in cols && DefaultsTo(cols["localPath"], c.raw, "localPath", Str(""))
  {
    FileLocalPathShape();
    DefaultColumn(GeneratorOf(File), c, target, 8);
  }

  /** With a payload, a file's missing `mime_type`, `mini_preview` and `localPath`
      become `''` and missing `width` and `height` become 0. */
  lemma FileDefaults(c: Ctx, target: Row)
    requires c.raw.Some?
    ensures var r := Run(GeneratorOf(File), c, target);
            var cols := r.row.columns;
            && "mimeType" in cols && DefaultsTo(cols["mimeType"], c.raw, "mime_type", Str(""))
            && "width" in cols && DefaultsTo(cols["width"], c.raw, "width", Num(0))
            && "height" in cols && DefaultsTo(cols["height"], c.raw, "height", Num(0))
            && "imageThumbnail" in cols && DefaultsTo(cols["imageThumbnail"], c.raw, "mini_preview", Str(""))
            && "localPath" in cols && DefaultsTo(cols["localPath"], c.raw, "localPath", Str(""))
  {
    FileMimeType(c, target);
    FileWidth(c, target);
    FileHeight(c, target);
    FileImageThumbnail(c, target);
    FileLocalPath(c, target);
  }

  lemma FileFailureShape()
    ensures NoCheckedRead(FileFields()) && |FileFields()| > 0
    ensures FileFields()[0] == Assign("postId", Get("post_id"))
  {
  }

  /** A file's generator throws exactly when the payload is missing, at its very
      first field, so that it then leaves the record's columns untouched. */
  lemma FileFailure(c: Ctx, target: Row)
    ensures var r := Run(GeneratorOf(File), c, target);
            && r.failure == (if c.raw.None? then Some(MissingPayload("post_id")) else None)
            && (c.raw.None? ==> r.row.columns == target.columns)
  {
    FileFailureShape();
    if c.raw.None? {
      RunFailsAt(GeneratorOf(File), c, target, 0);
    } else {
      RunSucceeds(GeneratorOf(File), c, target);
    }
  }

  // ---------------------------------------------------------------------------
  // Drafts

  lemma DraftRootIdShape()
    ensures LastAssignsAt(DraftFields(), 0) && DraftFields()[0] == Assign("rootId", GetOr("root_id", Str("")))
    ensures SafePrefix(DraftFields(), 0)
  {
    UnassignedFromIff(DraftFields(), 1, DraftFields()[0].column);
  }

  lemma DraftRootId(c: Ctx, target: Row)
    ensures var cols := Run(GeneratorOf(Draft), c, target).row.columns;
            "rootId" in cols && DefaultsTo(cols["rootId"], c.raw, "root_id", Str(""))
  {
    DraftRootIdShape();
    DefaultColumn(GeneratorOf(Draft), c, target, 0);
  }

  lemma DraftMessageShape()
    ensures LastAssignsAt(DraftFields(), 1) && DraftFields()[1] == Assign("message", GetOr("message", Str("")))
    ensures SafePrefix(DraftFields(), 1)
  {
    UnassignedFromIff(DraftFields(), 2, DraftFields()[1].column);
  }

  lemma DraftMessage(c: Ctx, target: Row)
    ensures var cols := Run(GeneratorOf(Draft), c, target).row.columns;
            "message" in cols && DefaultsTo(cols["message"], c.raw, "message", Str(""))
  {
    DraftMessageShape();
    DefaultColumn(GeneratorOf(Draft), c, target, 1);
  }

  lemma DraftChannelIdShape()
    ensures LastAssignsAt(DraftFields(), 2) && DraftFields()[2] == Assign("channelId", GetOr("channel_id", Str("")))
    ensures SafePrefix(DraftFields(), 2)
  {
    UnassignedFromIff(DraftFields(), 3, DraftFields()[2].column);
  }

  lemma DraftChannelId(c: Ctx, target: Row)
    ensures var cols := Run(GeneratorOf(Draft), c, target).row.columns;
            "channelId" in cols && DefaultsTo(cols["channelId"], c.raw, "channel_id", Str(""))
  {
    DraftChannelIdShape();
    DefaultColumn(GeneratorOf(Draft), c, target, 2);
  }

  lemma DraftFilesShape()
    ensures LastAssignsAt(DraftFields(), 3) && DraftFields()[3] == Assign("files", GetOr("files", List([])))
    ensures SafePrefix(DraftFields(), 3)
  {
    UnassignedFromIff(DraftFields(), 4, DraftFields()[3].column);
  }

  lemma DraftFiles(c: Ctx, target: Row)
    ensures var cols := Run(GeneratorOf(Draft), c, target).row.columns;
            "files" in cols && DefaultsTo(cols["files"], c.raw, "files", List([]))
  {
    DraftFilesShape();
    DefaultColumn(GeneratorOf(Draft), c, target, 3);
  }

  lemma DraftSafeShape()
    ensures SafePrefix(DraftFields(), |DraftFields()|)
  {
  }

  /** A draft's missing `root_id`, `message` and `channel_id` become `''` and missing
      `files` become `[]`, even when the whole payload is missing; the draft's
      generator never throws. */
  lemma DraftDefaults(c: Ctx, target: Row)
    ensures var r := Run(GeneratorOf(Draft), c, target);
            var cols := r.row.columns;
            && r.failure == None
            && "rootId" in cols && DefaultsTo(cols["rootId"], c.raw, "root_id", Str(""))
            && "message" in cols && DefaultsTo(cols["message"], c.raw, "message", Str(""))
            && "channelId" in cols && DefaultsTo(cols["channelId"], c.raw, "channel_id", Str(""))
            && "files" in cols && DefaultsTo(cols["files"], c.raw, "files", List([]))
  {
    DraftSafeShape();
    RunSucceeds(GeneratorOf(Draft), c, target);
    DraftRootId(c, target);
    DraftMessage(c, target);
    DraftChannelId(c, target);
    DraftFiles(c, target);
  }

  // ---------------------------------------------------------------------------
  // Users

  /** The only `.includes` test of a user's generator is `roles.includes` at
      index 5, after the payload has been read at `auth_service`. */
  lemma UserRoleShape()
    ensures var fs := UserFields();
            && LastAssignsAt(fs, 5) && fs[5] == Assign("isGuest", HasRole("roles", GuestRole))
            && fs[0] == Assign("authService", Get("auth_service"))
            && CheckedReadOnlyAt(fs, 5)
  {
    UnassignedFromIff(UserFields(), 6, UserFields()[5].column);
  }

  lemma UserFailsWithoutPayload(c: Ctx, target: Row)
    requires c.raw.None?
    ensures Run(GeneratorOf(User), c, target).failure == Some(MissingPayload("auth_service"))
  {
    UserRoleShape();
    RunFailsAt(GeneratorOf(User), c, target, 0);
  }

  lemma UserFailsWithoutIncludes(c: Ctx, target: Row)
    requires c.raw.Some? && !IncludesDefined(c.raw, "roles")
    ensures Run(GeneratorOf(User), c, target).failure == Some(NoIncludes("roles"))
  {
    UserRoleShape();
    HasRoleMeans(UserFields()[5].from, c);
    RunFailsAt(GeneratorOf(User), c, target, 5);
  }

  /** A user's generator throws when the payload is missing, and otherwise exactly
      when `roles` has no `includes` (it is neither a string nor an array). */
  lemma UserFailure(c: Ctx, target: Row)
    ensures Run(GeneratorOf(User), c, target).failure
         == if c.raw.None? then Some(MissingPayload("auth_service"))
            else if IncludesDefined(c.raw, "roles") then None
            else Some(NoIncludes("roles"))
  {
    if c.raw.Some? && IncludesDefined(c.raw, "roles") {
      UserRoleShape();
      RunSucceeds(GeneratorOf(User), c, target);
    } else if c.raw.None? {
      UserFailsWithoutPayload(c, target);
    } else {
      UserFailsWithoutIncludes(c, target);
    }
  }

  /** A user is a guest exactly when `roles` contains `system_guest`: as a substring
      when `roles` is a string, as an element when it is an array. */
  lemma UserIsGuest(c: Ctx, target: Row)
    requires c.raw.Some? && IncludesDefined(c.raw, "roles")
    ensures var cols := Run(GeneratorOf(User), c, target).row.columns;
            && "isGuest" in cols
            && cols["isGuest"] == Bool(RolesInclude(Field(c.raw, "roles"), GuestRole))
  {
    UserRoleShape();
    HasRoleMeans(UserFields()[5].from, c);
    RunColumn(GeneratorOf(User), c, target, 5);
  }

  lemma UserPositionShape()
    ensures var fs := UserFields();
            && LastAssignsAt(fs, 10) && fs[10] == Assign("position", GetOr("position", Str("")))
            && fs[5].from == HasRole("roles", GuestRole)
            && CheckedReadOnlyAt(fs, 5)
  {
    UnassignedFromIff(UserFields(), 11, UserFields()[10].column);
  }

  /** A user's missing `position` becomes `''`. */
  lemma UserPosition(c: Ctx, target: Row)
    requires c.raw.Some? && IncludesDefined(c.raw, "roles")
    ensures var cols := Run(GeneratorOf(User), c, target).row.columns;
            "position" in cols && DefaultsTo(cols["position"], c.raw, "position", Str(""))
  {
    UserPositionShape();
    DefaultColumn(GeneratorOf(User), c, target, 10);
  }

  // ---------------------------------------------------------------------------
  // Teams and channels

  lemma TeamShape()
    ensures LastAssignsAt(TeamFields(), 7) && TeamFields()[7] == Assign("isGroupConstrained", BooleanOf("group_constrained"))
    ensures NoCheckedRead(TeamFields())
  {
    UnassignedFromIff(TeamFields(), 8, TeamFields()[7].column);
  }

  /** A team is group-constrained exactly when the payload's `group_constrained`
      is truthy. */
  lemma TeamIsGroupConstrained(c: Ctx, target: Row)
    requires c.raw.Some?
    ensures var cols := Run(GeneratorOf(Team), c, target).row.columns;
            && "isGroupConstrained" in cols
            && cols["isGroupConstrained"] == Bool(Truthy(Field(c.raw, "group_constrained")))
  {
    TeamShape();
    BooleanColumn(GeneratorOf(Team), c, target, 7);
  }

  lemma ChannelShape()
    ensures LastAssignsAt(ChannelFields(), 4) && ChannelFields()[4] == Assign("isGroupConstrained", BooleanOf("group_constrained"))
    ensures NoCheckedRead(ChannelFields())
  {
    UnassignedFromIff(ChannelFields(), 5, ChannelFields()[4].column);
  }

  /** A channel is group-constrained exactly when the payload's `group_constrained`
      is truthy. */
  lemma ChannelIsGroupConstrained(c: Ctx, target: Row)
    requires c.raw.Some?
    ensures var cols := Run(GeneratorOf(Channel), c, target).row.columns;
            && "isGroupConstrained" in cols
            && cols["isGroupConstrained"] == Bool(Truthy(Field(c.raw, "group_constrained")))
  {
    ChannelShape();
    BooleanColumn(GeneratorOf(Channel), c, target, 4);
  }
}
