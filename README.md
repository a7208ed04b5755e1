# Mattermost mobile: data operators and the ephemeral store

This project models two parts of the Mattermost mobile app in Dafny and proves
properties about them.

**Data operators** (`app/database/admin/data_operator/operators/index.ts`). The
app has one `operate*Record` function for each of its 31 entity kinds. Each one
builds a `generator` closure. The closure sets the id of a database record and
copies fields from an untyped server payload (`raw`) onto the record.
`operateBaseRecord` then does one of two things:

- on UPDATE, it applies the generator in place to the record that matched the payload;
- on CREATE, it applies the generator to a new record of the kind's table.

The model has these parts:

- `JsValue` gives the JavaScript values a payload can hold. It also defines the
  coercions the generators use: `??`, `Boolean(..)` and `.includes`.
- `Operators` represents a generator as data. The data is an id policy plus the
  list of column assignments in source order. Each assignment's right-hand side
  is one of the expression shapes in the source, such as `raw.k`, `raw?.k`,
  `raw?.k ?? d`, or the `delete_at` rule.
- `Operators.Run` executes a generator the way JavaScript would. It stops at the
  first assignment that throws, and the assignments made before the throw stay.
- `Generators` holds the table of every kind. For posts-in-thread the table holds
  the corrected generator (see "## Findings"); the generator as written is
  `Generators.RunPostsInThreadAsWritten`, modelled on its own because its `postId`
  depends on the action.
- `Records` holds the database record as a class, and `operateBaseRecord` as a
  method that changes the matched record or allocates a new one.
- `GeneratorFacts` and `KindDefaults` state what each kind promises:
  - which id a record gets;
  - which default replaces a missing field;
  - which derived booleans are computed;
  - when the generator throws.

**Ephemeral store** (`app/store/ephemeral_store.ts`). This is the app's
in-memory singleton. It has three parts:

- It absorbs out-of-order websocket events about posts. For each server, a
  cache of recent edits and a set of recently deleted posts ("tombstones")
  decide whether a late edit or delete still applies. Each entry expires after
  30 s.
- It holds six sets of ids that mark an operation in progress (joining a
  channel, adding a team, ...).
- It holds a few get/set cells.

The model has these parts:

- `PostEvents` gives the per-post state machine as values: `OnEdit`,
  `OnRemove` and `Report`.
- `Ephemeral.EphemeralStore` is a class with the source's fields. Each of its
  methods is proved to act on every post as `PostEvents` says, and to leave
  every other post alone.
- The `setTimeout` callbacks are explicit pending timers with deadlines on a
  logical clock. The event loop running a due callback is the method `Expire`.

## Model

| member | source | states |
|---|---|---|
| JsValue.Coalesce | app/database/admin/data_operator/operators/index.ts:325-330 | `v ?? d` is `d` exactly when `v` is undefined or null, and `v` otherwise |
| JsValue.IncludesIffOccurs | app/database/admin/data_operator/operators/index.ts:539 | the left-to-right `includes` search succeeds exactly when the role occurs in the string at some offset |
| Operators.Eval | app/database/admin/data_operator/operators/index.ts:316-330 | one right-hand side: `raw.k` throws without a payload, `raw?.k` never throws, `?? d`, the `delete_at` rule, `Boolean(..)`, `.includes` (throws unless string or array) and the sanitizer (throws unless a string); its contract is `Operators.EvalFailsIffCannotRead` and `Operators.HasRoleMeans` |
| Operators.EvalFailsIffCannotRead | app/database/admin/data_operator/operators/index.ts:316-330 | a right-hand side throws exactly when what it reads is not there (payload, `includes`, string), and the error names the key it read |
| Operators.IdFor | app/database/admin/data_operator/operators/index.ts:316 | the id policies: server-assigned `raw?.id ?? own` on CREATE, the matched id on UPDATE; local ids keep their own id on CREATE; draft always keeps its own; its contract is in `GeneratorFacts.ServerIdOnCreate`, `LocalIdOnCreate`, `UpdateTakesMatchedId` and `DraftKeepsOwnId` |
| Operators.Run | app/database/admin/data_operator/operators/index.ts:315-331 | a generator closure run on its target: id first, then the assignments in order, stopping at the first throw with the earlier assignments kept; its contract is `Operators.AssignAllIsOverride`, `RunFrame`, `RunSetsIdByPolicy` and `FailsIffSomeSourceFails` |
| Operators.HasRoleMeans | app/database/admin/data_operator/operators/index.ts:539 | `raw.roles.includes(r)` throws unless the payload is present and `roles` is a string or an array; otherwise it is true exactly when `roles` contains `r` (as a substring or as an element) |
| Operators.AssignAllIsOverride | app/database/admin/data_operator/operators/index.ts:315-331 | running the assignments one by one has the net effect of overriding the target's columns with the written values, and fails with the first error thrown |
| Operators.WrittenWithinTargets | app/database/admin/data_operator/operators/index.ts:315-331 | a generator writes only the columns it names |
| Operators.RunIsIdempotent | app/database/admin/data_operator/operators/index.ts:1057 | applying a generator a second time with the same payload and the same matched id changes nothing |
| Operators.RunFrame | app/database/admin/data_operator/operators/index.ts:315-331 | columns a generator does not name keep their value and their absence; no other column appears |
| Operators.RunSetsIdByPolicy | app/database/admin/data_operator/operators/index.ts:316 | the id a run leaves is the one its id policy picks, whatever the field assignments do; a step used by the per-kind id facts `GeneratorFacts.ServerIdOnCreate`, `LocalIdOnCreate`, `UpdateTakesMatchedId`, `DraftKeepsOwnId` and `LocalKindsNeverReadRawId` |
| Operators.WrittenReadsOnlyKeys | app/database/admin/data_operator/operators/index.ts:315-331 | two payloads that agree on the keys the assignments read give the same columns and the same error |
| Operators.WrittenIgnoresAction | app/database/admin/data_operator/operators/index.ts:317-330 | the field assignments give the same columns and the same error under CREATE and UPDATE, whatever the matched id |
| Operators.WrittenAt | app/database/admin/data_operator/operators/index.ts:315-331 | the last assignment to a column, reached without a throw, decides that column's value |
| Operators.RunColumn | app/database/admin/data_operator/operators/index.ts:315-331 | after a run, the column named by assignment `i` holds that assignment's value, provided `i` is the column's last assignment and nothing before it can throw |
| Operators.RunFailsAt | app/database/admin/data_operator/operators/index.ts:322 | a run whose first throwing assignment is `i` fails with that error; when `i` is 0 the columns are untouched |
| Operators.RunSucceeds | app/database/admin/data_operator/operators/index.ts:474-480 | a run whose right-hand sides cannot throw (all `?.`, or the payload present with every `.includes` on a string or array and every sanitizer call on a string) does not throw |
| Operators.FirstFailureAt | app/database/admin/data_operator/operators/index.ts:315-331 | the error of a run is the error of its first assignment that throws |
| Operators.FailsIffSomeSourceFails | app/database/admin/data_operator/operators/index.ts:315-331 | a run throws exactly when one of its right-hand sides throws |
| Operators.UnassignedFromIff | app/database/admin/data_operator/operators/index.ts:315-331 | the recursive "no later assignment names this column" test equals its quantified form |
| Operators.SourcesSucceed | app/database/admin/data_operator/operators/index.ts:317-330 | `?.` reads never throw, and once the payload is present, `raw.k` reads never throw, nor `.includes` tests on a string or an array, nor sanitizer calls on a string |
| Operators.UpdateAfterCreateIsStable | app/database/admin/data_operator/operators/index.ts:1050-1063 | an UPDATE with the payload a record was created from leaves that record exactly as it was, for every generator |
| Operators.RunIgnoresRawIdUnlessServerAssigned | app/database/admin/data_operator/operators/index.ts:120 | a generator whose id is not server-assigned never reads `raw.id`: payloads that differ only there prepare the same record under either action |
| Generators.IdPolicyOf | app/database/admin/data_operator/operators/index.ts:316 | the eleven kinds with server ids (custom emoji, role, system, terms of service, post, file, user, group, team, slash command, channel) take `raw?.id ?? own` on CREATE; draft and posts-in-thread keep their own id; the rest keep the new instance's own id on CREATE (as at line 120); on UPDATE every kind but draft and posts-in-thread takes the matched record's id; the facts are in `GeneratorFacts` |
| Generators.GeneratorOf | app/database/admin/data_operator/operators/index.ts:1050-1063 | the generator `operateBaseRecord` receives for each kind: its id policy and its field table |
| Generators.AppFields | app/database/admin/data_operator/operators/index.ts:119-124 | the field assignments of this generator closure in source order, each with the right-hand side's shape (`raw.k`, `raw?.k`, `?? d`, ...) |
| Generators.GlobalFields | app/database/admin/data_operator/operators/index.ts:147-151 | the field assignments of this generator closure in source order, each with the right-hand side's shape (`raw.k`, `raw?.k`, `?? d`, ...) |
| Generators.ServersFields | app/database/admin/data_operator/operators/index.ts:174-181 | the field assignments of this generator closure in source order, each with the right-hand side's shape (`raw.k`, `raw?.k`, `?? d`, ...) |
| Generators.CustomEmojiFields | app/database/admin/data_operator/operators/index.ts:205-208 | the field assignments of this generator closure in source order, each with the right-hand side's shape (`raw.k`, `raw?.k`, `?? d`, ...) |
| Generators.RoleFields | app/database/admin/data_operator/operators/index.ts:232-236 | the field assignments of this generator closure in source order, each with the right-hand side's shape (`raw.k`, `raw?.k`, `?? d`, ...) |
| Generators.SystemFields | app/database/admin/data_operator/operators/index.ts:260-264 | the field assignments of this generator closure in source order, each with the right-hand side's shape (`raw.k`, `raw?.k`, `?? d`, ...) |
| Generators.TermsOfServiceFields | app/database/admin/data_operator/operators/index.ts:288-291 | the field assignments of this generator closure in source order, each with the right-hand side's shape (`raw.k`, `raw?.k`, `?? d`, ...) |
| Generators.PostFields | app/database/admin/data_operator/operators/index.ts:315-331 | the field assignments of this generator closure in source order, each with the right-hand side's shape (`raw.k`, `raw?.k`, `?? d`, ...) |
| Generators.PostsInThreadFields | app/database/admin/data_operator/operators/index.ts:354-358 | the corrected posts-in-thread assignments: `postId` from `raw.post_id` under both actions, then `earliest` and `latest` (see "## Findings") |
| Generators.RunPostsInThreadAsWritten | app/database/admin/data_operator/operators/index.ts:354-358 | the posts-in-thread generator as written: `postId` is `raw.post_id` on CREATE and `record.id` on UPDATE; its contract is `GeneratorFacts.PostsInThreadAsWrittenPostId` |
| Generators.ReactionFields | app/database/admin/data_operator/operators/index.ts:382-388 | the field assignments of this generator closure in source order, each with the right-hand side's shape (`raw.k`, `raw?.k`, `?? d`, ...) |
| Generators.FileFields | app/database/admin/data_operator/operators/index.ts:412-423 | the field assignments of this generator closure in source order, each with the right-hand side's shape (`raw.k`, `raw?.k`, `?? d`, ...) |
| Generators.PostMetadataFields | app/database/admin/data_operator/operators/index.ts:446-451 | the field assignments of this generator closure in source order, each with the right-hand side's shape (`raw.k`, `raw?.k`, `?? d`, ...) |
| Generators.DraftFields | app/database/admin/data_operator/operators/index.ts:474-480 | the field assignments of this generator closure in source order, each with the right-hand side's shape (`raw.k`, `raw?.k`, `?? d`, ...) |
| Generators.PostsInChannelFields | app/database/admin/data_operator/operators/index.ts:503-508 | the field assignments of this generator closure in source order, each with the right-hand side's shape (`raw.k`, `raw?.k`, `?? d`, ...) |
| Generators.UserFields | app/database/admin/data_operator/operators/index.ts:532-551 | the field assignments of this generator closure in source order, each with the right-hand side's shape (`raw.k`, `raw?.k`, `?? d`, ...) |
| Generators.PreferenceFields | app/database/admin/data_operator/operators/index.ts:575-581 | the field assignments of this generator closure in source order, each with the right-hand side's shape (`raw.k`, `raw?.k`, `?? d`, ...) |
| Generators.TeamMembershipFields | app/database/admin/data_operator/operators/index.ts:605-609 | the field assignments of this generator closure in source order, each with the right-hand side's shape (`raw.k`, `raw?.k`, `?? d`, ...) |
| Generators.GroupMembershipFields | app/database/admin/data_operator/operators/index.ts:633-637 | the field assignments of this generator closure in source order, each with the right-hand side's shape (`raw.k`, `raw?.k`, `?? d`, ...) |
| Generators.ChannelMembershipFields | app/database/admin/data_operator/operators/index.ts:661-665 | the field assignments of this generator closure in source order, each with the right-hand side's shape (`raw.k`, `raw?.k`, `?? d`, ...) |
| Generators.GroupFields | app/database/admin/data_operator/operators/index.ts:689-693 | the field assignments of this generator closure in source order, each with the right-hand side's shape (`raw.k`, `raw?.k`, `?? d`, ...) |
| Generators.GroupsInTeamFields | app/database/admin/data_operator/operators/index.ts:718-722 | the field assignments of this generator closure in source order, each with the right-hand side's shape (`raw.k`, `raw?.k`, `?? d`, ...) |
| Generators.GroupsInChannelFields | app/database/admin/data_operator/operators/index.ts:746-750 | the field assignments of this generator closure in source order, each with the right-hand side's shape (`raw.k`, `raw?.k`, `?? d`, ...) |
| Generators.TeamFields | app/database/admin/data_operator/operators/index.ts:774-785 | the field assignments of this generator closure in source order, each with the right-hand side's shape (`raw.k`, `raw?.k`, `?? d`, ...) |
| Generators.TeamChannelHistoryFields | app/database/admin/data_operator/operators/index.ts:808-812 | the field assignments of this generator closure in source order, each with the right-hand side's shape (`raw.k`, `raw?.k`, `?? d`, ...) |
| Generators.TeamSearchHistoryFields | app/database/admin/data_operator/operators/index.ts:835-841 | the field assignments of this generator closure in source order, each with the right-hand side's shape (`raw.k`, `raw?.k`, `?? d`, ...) |
| Generators.SlashCommandFields | app/database/admin/data_operator/operators/index.ts:865-876 | the field assignments of this generator closure in source order, each with the right-hand side's shape (`raw.k`, `raw?.k`, `?? d`, ...) |
| Generators.MyTeamFields | app/database/admin/data_operator/operators/index.ts:899-905 | the field assignments of this generator closure in source order, each with the right-hand side's shape (`raw.k`, `raw?.k`, `?? d`, ...) |
| Generators.ChannelFields | app/database/admin/data_operator/operators/index.ts:929-939 | the field assignments of this generator closure in source order, each with the right-hand side's shape (`raw.k`, `raw?.k`, `?? d`, ...) |
| Generators.MyChannelSettingsFields | app/database/admin/data_operator/operators/index.ts:962-966 | the field assignments of this generator closure in source order, each with the right-hand side's shape (`raw.k`, `raw?.k`, `?? d`, ...) |
| Generators.ChannelInfoFields | app/database/admin/data_operator/operators/index.ts:989-997 | the field assignments of this generator closure in source order, each with the right-hand side's shape (`raw.k`, `raw?.k`, `?? d`, ...) |
| Generators.MyChannelFields | app/database/admin/data_operator/operators/index.ts:1020-1028 | the field assignments of this generator closure in source order, each with the right-hand side's shape (`raw.k`, `raw?.k`, `?? d`, ...) |
| GeneratorFacts.ServerIdOnCreate | app/database/admin/data_operator/operators/index.ts:316 | on CREATE, a server-id kind takes `raw.id` when it is set and the fresh instance id otherwise (the same line recurs at 206, 233, 261, 289, 413, 533, 690, 775, 866 and 930) |
| GeneratorFacts.LocalIdOnCreate | app/database/admin/data_operator/operators/index.ts:120 | on CREATE, a local-id kind keeps the fresh instance id whatever the payload says (the same line recurs at 148, 175, 383, 447, 504, 576, 606, 634, 662, 719, 747, 809, 836, 900, 963, 990 and 1021) |
| GeneratorFacts.UpdateTakesMatchedId | app/database/admin/data_operator/operators/index.ts:316 | on UPDATE, every kind that assigns `_raw.id` takes the matched record's id, whatever `raw.id` says (server-id kinds as here, local-id kinds as at line 120) |
| GeneratorFacts.DraftKeepsOwnId | app/database/admin/data_operator/operators/index.ts:475 | draft and posts-in-thread never change the id of the instance they run on, under either action |
| GeneratorFacts.LocalKindsNeverReadRawId | app/database/admin/data_operator/operators/index.ts:120 | for every kind that is not server-id (as here), payloads that differ only in `id` prepare the same record under either action |
| GeneratorFacts.ServerKindsReadRawId | app/database/admin/data_operator/operators/index.ts:316 | for every server-id kind (as here), CREATE with `{id: "s"}` gives id "s" while an empty payload keeps the instance's own id: two instances of `ServerIdOnCreate`, the converse of `LocalKindsNeverReadRawId` |
| GeneratorFacts.PostsInThreadAsWrittenPostId | app/database/admin/data_operator/operators/index.ts:354-358 | as written, posts-in-thread sets `postId` to `raw.post_id` on CREATE and to the matched record's own id on UPDATE |
| GeneratorFacts.AsWrittenPostIdOnCreate | app/database/admin/data_operator/operators/index.ts:355 | as written, on CREATE with a payload, `postId` is `raw.post_id` |
| GeneratorFacts.AsWrittenPostIdOnUpdate | app/database/admin/data_operator/operators/index.ts:355 | as written, on UPDATE, `postId` is `record.id` |
| GeneratorFacts.PostsInThreadAsWrittenLosesPostId | app/database/admin/data_operator/operators/index.ts:355 | counterexample: a row created for post "p1" with id "x", updated with the same payload, ends with `postId` "x" |
| GeneratorFacts.PostsInThreadKeepsPostId | app/database/admin/data_operator/operators/index.ts:354-358 | the corrected posts-in-thread generator keeps `raw.post_id` under both actions and does not throw when the payload is present |
| KindDefaults.DefaultColumn | app/database/admin/data_operator/operators/index.ts:325-330 | a column assigned `raw?.k ?? d`, reached without a throw, holds `d` when `k` is unset and the payload's `k` otherwise |
| KindDefaults.BooleanColumn | app/database/admin/data_operator/operators/index.ts:783 | a column assigned `Boolean(raw.k)`, reached without a throw, holds whether the payload's `k` is truthy |
| KindDefaults.PostChannelId | app/database/admin/data_operator/operators/index.ts:317 | a post's `channelId` is the payload's `channel_id`, even without a payload |
| KindDefaults.PostCreateAt | app/database/admin/data_operator/operators/index.ts:318 | a post's `createAt` is the payload's `create_at`, even without a payload |
| KindDefaults.PostDeleteAt | app/database/admin/data_operator/operators/index.ts:319 | a post's `deleteAt` is `delete_at` when that is truthy or exactly 0, and 0 otherwise, even without a payload |
| KindDefaults.PostIsPinned | app/database/admin/data_operator/operators/index.ts:322 | with a payload, a post's `isPinned` is `is_pinned` |
| KindDefaults.PostMessage | app/database/admin/data_operator/operators/index.ts:323 | with a payload whose `message` is a string, a post's `message` is that string passed through the sanitizer |
| KindDefaults.PostOriginalId | app/database/admin/data_operator/operators/index.ts:325 | a post's `originalId` is `original_id`, or `''` when unset |
| KindDefaults.PostPendingPostId | app/database/admin/data_operator/operators/index.ts:326 | a post's `pendingPostId` is `pending_post_id`, or `''` when unset |
| KindDefaults.PostPreviousPostId | app/database/admin/data_operator/operators/index.ts:327 | a post's `previousPostId` is `prev_post_id`, or `''` when unset |
| KindDefaults.PostRootId | app/database/admin/data_operator/operators/index.ts:328 | a post's `rootId` is `root_id`, or `''` when unset |
| KindDefaults.PostType | app/database/admin/data_operator/operators/index.ts:329 | a post's `type` is `type`, or `''` when unset |
| KindDefaults.PostProps | app/database/admin/data_operator/operators/index.ts:330 | a post's `props` is `props`, or `{}` when unset |
| KindDefaults.PostDefaults | app/database/admin/data_operator/operators/index.ts:325-330 | all six post defaults together, with a payload present whose `message` is a string (so the run gets past line 323) |
| KindDefaults.PostFailure | app/database/admin/data_operator/operators/index.ts:322-323 | a post's generator throws when the payload is missing, at `is_pinned`; otherwise it throws exactly when `message` is not a string, at the sanitizer |
| KindDefaults.PostCreatedFromPayload | app/database/admin/data_operator/operators/index.ts:315-331 | a post created from a sample payload takes its id "p1", `channelId` "c1", `createAt` 100, `originalId` "p0", the sanitized message and `isPinned` false, gets `deleteAt` 0 and `rootId` `''`, and does not throw |
| KindDefaults.FileMimeType | app/database/admin/data_operator/operators/index.ts:418 | a file's `mimeType` is `mime_type`, or `''` when unset |
| KindDefaults.FileWidth | app/database/admin/data_operator/operators/index.ts:419 | a file's `width` is `width`, or 0 when unset |
| KindDefaults.FileHeight | app/database/admin/data_operator/operators/index.ts:420 | a file's `height` is `height`, or 0 when unset |
| KindDefaults.FileImageThumbnail | app/database/admin/data_operator/operators/index.ts:421 | a file's `imageThumbnail` is `mini_preview`, or `''` when unset |
| KindDefaults.FileLocalPath | app/database/admin/data_operator/operators/index.ts:422 | a file's `localPath` is `localPath`, or `''` when unset |
| KindDefaults.FileDefaults | app/database/admin/data_operator/operators/index.ts:418-422 | all five file defaults together, with a payload present |
| KindDefaults.FileFailure | app/database/admin/data_operator/operators/index.ts:414 | a file's generator throws exactly when the payload is missing, at its first field, and then leaves the columns untouched |
| KindDefaults.DraftRootId | app/database/admin/data_operator/operators/index.ts:476 | a draft's `rootId` is `root_id`, or `''` when unset or when the payload is missing |
| KindDefaults.DraftMessage | app/database/admin/data_operator/operators/index.ts:477 | a draft's `message` is `message`, or `''` |
| KindDefaults.DraftChannelId | app/database/admin/data_operator/operators/index.ts:478 | a draft's `channelId` is `channel_id`, or `''` |
| KindDefaults.DraftFiles | app/database/admin/data_operator/operators/index.ts:479 | a draft's `files` is `files`, or `[]` |
| KindDefaults.DraftDefaults | app/database/admin/data_operator/operators/index.ts:474-480 | all four draft defaults together, even without a payload; the draft generator never throws |
| KindDefaults.UserFailsWithoutPayload | app/database/admin/data_operator/operators/index.ts:534 | without a payload, a user's generator throws at `auth_service` |
| KindDefaults.UserFailsWithoutIncludes | app/database/admin/data_operator/operators/index.ts:539 | with a payload whose `roles` is neither a string nor an array, a user's generator throws at `roles.includes` |
| KindDefaults.UserFailure | app/database/admin/data_operator/operators/index.ts:532-551 | a user's generator throws exactly when the payload is missing or `roles` has no `includes` |
| KindDefaults.UserIsGuest | app/database/admin/data_operator/operators/index.ts:539 | a user's `isGuest` holds exactly when `roles` contains `system_guest` |
| KindDefaults.UserPosition | app/database/admin/data_operator/operators/index.ts:544 | a user's `position` is `position`, or `''` when unset |
| KindDefaults.TeamIsGroupConstrained | app/database/admin/data_operator/operators/index.ts:783 | a team's `isGroupConstrained` is `Boolean(raw.group_constrained)` |
| KindDefaults.ChannelIsGroupConstrained | app/database/admin/data_operator/operators/index.ts:935 | a channel's `isGroupConstrained` is `Boolean(raw.group_constrained)` |
| Records.Record.constructor | app/database/admin/data_operator/operators/index.ts:1063 | a new record belongs to the given table and holds the given row |
| Records.OperateBaseRecord | app/database/admin/data_operator/operators/index.ts:1050-1063 | UPDATE applies the generator in place to the matched record and returns it, or the error thrown (assignments before the throw stay); UPDATE without a matched record throws; CREATE returns a fresh record of `tableName` holding the generator's result and leaves the matched record untouched |
| Records.UpdateTwice | app/database/admin/data_operator/operators/index.ts:1057 | preparing the same UPDATE twice gives the same result as preparing it once |
| PostEvents.OnEdit | app/store/ephemeral_store.ts:36-59 | a tombstoned post ignores an edit; an edit older than the cached post's `update_at` is dropped; otherwise the edit becomes the entry with a fresh 30 s deadline |
| PostEvents.OnRemove | app/store/ephemeral_store.ts:62-81 | after a delete the post is tombstoned; a second delete changes nothing; otherwise the tombstone's deadline is 30 s from now |
| PostEvents.Report | app/store/ephemeral_store.ts:83-93 | the report is "deleted" exactly for a tombstone, absent exactly for an empty slot, and the cached post for an edit |
| PostEvents.TombstoneAbsorbs | app/store/ephemeral_store.ts:36-81 | before its deadline a tombstone survives any sequence of edits and deletes, unchanged |
| PostEvents.DeleteWins | app/store/ephemeral_store.ts:36-93 | after any sequence of events that includes a delete, and before a deadline passes, the post is reported deleted |
| PostEvents.CachedPostWasReceived | app/store/ephemeral_store.ts:41-59 | without deletes a cached edit stays cached, and the cached post is the earlier one or one of the edits received |
| PostEvents.StaleEditDropped | app/store/ephemeral_store.ts:42-44 | a post cached with `update_at` 60 survives an edit made at 50 |
| Ephemeral.PutEditValid | app/store/ephemeral_store.ts:46-59 | storing an edit and its timer for a post that is not tombstoned keeps the caches consistent: edits and tombstones never coexist, and each entry has exactly its own pending timer |
| Ephemeral.PutEditFrame | app/store/ephemeral_store.ts:46-59 | storing an edit changes no other post of any server |
| Ephemeral.PutTombstoneValid | app/store/ephemeral_store.ts:67-80 | dropping the post's edit and its timer and storing a tombstone with its timer keeps the caches consistent |
| Ephemeral.PutTombstoneFrame | app/store/ephemeral_store.ts:67-80 | storing a tombstone changes no other post of any server |
| Ephemeral.DropEditValid | app/store/ephemeral_store.ts:55-57 | a pending edit timer has its edit, and running it keeps the caches consistent |
| Ephemeral.DropEditFrame | app/store/ephemeral_store.ts:55-57 | an edit's timer removes only that post's edit |
| Ephemeral.DropTombstoneValid | app/store/ephemeral_store.ts:76-78 | a pending tombstone timer has its tombstone, and running it keeps the caches consistent |
| Ephemeral.DropTombstoneFrame | app/store/ephemeral_store.ts:76-78 | a tombstone's timer removes only that post's tombstone |
| Ephemeral.EphemeralStore.constructor | app/store/ephemeral_store.ts:15-33 | the store starts with no edits, tombstones, timers or guards, empty server maps, an empty thread id and both flags false |
| Ephemeral.EphemeralStore.AddEditingPost | app/store/ephemeral_store.ts:36-60 | the edited post's slot becomes `OnEdit` of its old slot; every other post is unchanged; a tombstoned post or a stale edit leaves the whole store unchanged; the caches stay consistent; only the edited server's map may be created |
| Ephemeral.EphemeralStore.AddRemovingPost | app/store/ephemeral_store.ts:62-81 | the post's slot becomes `OnRemove` of its old slot (any cached edit and its timer are dropped); every other post is unchanged; a second delete leaves the store unchanged; only the post's server set may be created |
| Ephemeral.EphemeralStore.StoreEdit | app/store/ephemeral_store.ts:46-59 | once the caller has turned away an edit of a tombstoned post, the server's edit map gains the post, its timer is replaced by one due 30 s from now (the replaced timer is cancelled with it), the post's slot is that edit, and the cache invariant `Valid()` is kept |
| Ephemeral.EphemeralStore.StoreTombstone | app/store/ephemeral_store.ts:67-80 | once the caller has returned for a tombstoned post, the post's edit is dropped with its timer, the post joins the server's tombstones, a tombstone timer due 30 s from now is added, and the cache invariant `Valid()` is kept |
| Ephemeral.EphemeralStore.GetLastPostWebsocketEvent | app/store/ephemeral_store.ts:83-93 | the result is the `Report` of the post's slot: tombstone first, then cached edit, then nothing |
| Ephemeral.EphemeralStore.Tick | app/store/ephemeral_store.ts:55-57 | wall time passing toward the timers' deadlines: the clock advances by the elapsed time and nothing else changes |
| Ephemeral.EphemeralStore.Expire | app/store/ephemeral_store.ts:55-78 | a due timer empties exactly its own post's slot, whose deadline had passed, and removes only itself; the caches stay consistent and no server container is removed |
| Ephemeral.EphemeralStore.Add | app/store/ephemeral_store.ts:96-189 | the chosen guard set gains the id; the other five are unchanged |
| Ephemeral.EphemeralStore.Remove | app/store/ephemeral_store.ts:96-189 | the chosen guard set loses the id; the other five are unchanged |
| Ephemeral.EphemeralStore.Is | app/store/ephemeral_store.ts:96-189 | the answer is membership of the id in the chosen guard set |
| Ephemeral.EphemeralStore.SetPushProxyVerificationState | app/store/ephemeral_store.ts:161-163 | the server's state is set; other servers keep theirs |
| Ephemeral.EphemeralStore.GetPushProxyVerificationState | app/store/ephemeral_store.ts:165-167 | the state last set for the server, or nothing when none was set |
| Ephemeral.EphemeralStore.SetCurrentThreadId | app/store/ephemeral_store.ts:174-176 | the current thread id becomes the given id |
| Ephemeral.EphemeralStore.GetCurrentThreadId | app/store/ephemeral_store.ts:170-172 | returns the current thread id |
| Ephemeral.EphemeralStore.SetEnablingCRT | app/store/ephemeral_store.ts:191-193 | the flag becomes the given value |
| Ephemeral.EphemeralStore.IsEnablingCRT | app/store/ephemeral_store.ts:195-197 | returns the flag |
| Ephemeral.EphemeralStore.SetNotificationTapped | app/store/ephemeral_store.ts:215-217 | the flag becomes the given value |
| Ephemeral.EphemeralStore.WasNotificationTapped | app/store/ephemeral_store.ts:219-221 | returns the flag |
| Ephemeral.EphemeralStore.ObserveCanJoinOtherTeams | app/store/ephemeral_store.ts:199-209 | the server's current value, created as `false` on first use |
| Ephemeral.EphemeralStore.SetCanJoinOtherTeams | app/store/ephemeral_store.ts:199-213 | the server's value is set, creating it if needed; other servers keep theirs |
| Ephemeral.StaleEditScenario | app/store/ephemeral_store.ts:36-93 | after an edit with `update_at` 60 and a later-arriving edit made at 50, the first edit is reported |
| Ephemeral.DeleteThenEditScenario | app/store/ephemeral_store.ts:36-93 | an edit after a delete is ignored and the post is reported deleted; once the tombstone's timer has run, the same edit is accepted and reported |
| Ephemeral.GuardScenario | app/store/ephemeral_store.ts:96-189 | two adds and one remove leave the id inactive; an add to one guard is not seen by another |
| Ephemeral.CellsScenario | app/store/ephemeral_store.ts:161-221 | every cell reads back what was last written; another server's push-proxy state stays unset, and `canJoinOtherTeams` starts `false` |

## Left out

- Numbers are integers. Floating point, NaN and fractional timestamps are not modelled.
- Record ids and server URLs in the ephemeral store are type parameters. The store only compares them for equality; the app uses strings.
- `Q.sanitizeLikeString` is a foreign library call. It is an uninterpreted function from strings to strings. A `message` that is not a string, `undefined` included, is taken to make the call throw (error `NotAString`), so a post with no string `message` is not prepared.
- The WatermelonDB calls `prepareCreate`, `prepareUpdate` and `collections.get` are reduced to two cases: changing the matched record, or allocating a record tagged with its table name.
- The fresh id WatermelonDB gives a new instance is a parameter.
- Schema defaults, batching and committing to the database are not part of this model.
- The async/Promise wrappers are treated as synchronous calls.
- Only the columns that the default and derived-value lemmas talk about have per-kind lemmas. The other columns of every kind are in the generator tables and are covered by the generic lemmas in `Operators`.
- TypeScript's non-null assertions (`raw!.is_pinned!`, `raw.latest!`) have no run-time effect, so the model reads those values like `raw.k`.
- Real `setTimeout`/`clearTimeout` and the JavaScript event loop are replaced by a pending-timer map with deadlines on a logical clock. `Expire` may run any due timer, in any order, so the model allows every order the event loop can produce and more.
- A timer callback that would find its entry already gone cannot happen in the model, because cancelling a timer removes it from the map.
- The rxjs `BehaviorSubject` behind `canJoinOtherTeams` is a per-server last-value cell. Subscriptions and notification fan-out are not modelled.
- The unused fields `theme`, `creatingChannel` and `creatingDMorGMTeammates` are not modelled.
- Concurrency is left out: the code is single-threaded JavaScript.
- Connection teardown is left out: the store has none.
- Ephemeral.EphemeralStore.AddEditingPost: states only that the edit map's servers grow at most by the edited server, not that an accepted edit always adds that server. The stored edit itself is stated through `SlotOf`.
- Ephemeral.EphemeralStore.AddEditingPost, AddRemovingPost, StoreEdit, StoreTombstone, GetLastPostWebsocketEvent and Expire: require the cache invariant `Valid()`. The constructor establishes it and every method that writes the caches preserves it; the source states no such requirement because it holds by construction. `StoreEdit` and `StoreTombstone` also require the post not to be tombstoned, which their callers check first, as the source does at ephemeral_store.ts:37-39 and 63-65.
- Operators.WrittenIgnoresAction: holds for every generator built from `Source` right-hand sides, which is every table in `Generators`. It does not hold for the posts-in-thread generator as written (line 355), whose `postId` depends on the action; that one is `Generators.RunPostsInThreadAsWritten`.
- Operators.UpdateAfterCreateIsStable: holds for the same generators only. Posts-in-thread as written is not stable: `GeneratorFacts.PostsInThreadAsWrittenLosesPostId` shows an UPDATE with the creating payload changing `postId`.
- Generators.GeneratorOf: for posts-in-thread it gives the corrected generator of "## Findings", not the one written at lines 354-358; the as-written generator is `Generators.RunPostsInThreadAsWritten`.
- PostEvents.CachedPostWasReceived: states only that the cached post is one that was received. It does not state that the cached post is the newest by `update_at`. In the model nothing relates a post's `edit_at` to its `update_at`, and the source compares only the incoming `edit_at` with the cached `update_at`.

## Findings

| source | as written | input that shows it | evidently intended | confidence | as-written member | corrected member |
|---|---|---|---|---|---|---|
| app/database/admin/data_operator/operators/index.ts:355 | on UPDATE, `postId` is set to `record.id`, the posts-in-thread row's own id | a row created from `{post_id: "p1"}` gets generated id "x"; updating it with the same payload sets `postId` to "x" | `postId` takes `raw.post_id` under both actions, as on CREATE | medium, not executed | GeneratorFacts.PostsInThreadAsWrittenLosesPostId | GeneratorFacts.PostsInThreadKeepsPostId |
