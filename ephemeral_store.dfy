/**
 * The in-memory store of short-lived UI state: per-server caches of the last post
 * edit and of post deletions received over the websocket, which expire 30 s after
 * they are stored; sets of ids guarding channel and team operations in progress;
 * and a few single-value cells.
 *
 * Timers are explicit. `now` is a logical clock that `Tick` advances, and
 * `timers` holds each pending expiry with its deadline; `Expire` is the event
 * loop running one of them once its deadline has passed.
 */
module Ephemeral {
  import opened Wrappers
  import opened PostEvents

  /** A pending `setTimeout`: what its callback deletes. */
  datatype Timer<Url, Id> =
    | EditExpiry(server: Url, postId: Id)
    | TombstoneExpiry(server: Url, postId: Id)

  /** The six sets of ids marking an operation in progress. */
  datatype Guard = AddingTeam | JoiningChannel | LeavingChannel | ArchivingChannel
                 | ConvertingChannel | SwitchingToChannel

  type Edits<Url(==), Id(==)> = map<Url, map<Id, Post<Id>>>
  type Tombstones<Url(==), Id(==)> = map<Url, set<Id>>
  type Timers<Url(==), Id(==)> = map<Timer<Url, Id>, int>

  predicate EditIn<Url(==), Id(==)>(e: Edits<Url, Id>, server: Url, postId: Id) {
    server in e && postId in e[server]
  }

  predicate TombstoneIn<Url(==), Id(==)>(r: Tombstones<Url, Id>, server: Url, postId: Id) {
    server in r && postId in r[server]
  }

  /** Edits and tombstones never coexist for a post, each of them has its pending
      timer, every pending timer has its entry, and edits are keyed by their
      post's id. */
  ghost predicate CachesValid<Url(!new), Id(!new)>(e: Edits<Url, Id>, r: Tombstones<Url, Id>, t: Timers<Url, Id>) {
    && (forall s, id :: EditIn(e, s, id) ==> !TombstoneIn(r, s, id))
    && (forall s, id :: EditIn(e, s, id) ==> EditExpiry(s, id) in t && e[s][id].id == id)
    && (forall s, id :: TombstoneIn(r, s, id) ==> TombstoneExpiry(s, id) in t)
    && (forall x :: x in t && x.EditExpiry? ==> EditIn(e, x.server, x.postId))
    && (forall x :: x in t && x.TombstoneExpiry? ==> TombstoneIn(r, x.server, x.postId))
  }

  /** What the caches hold for one post of one server, with its deadline. */
  ghost function SlotIn<Url(!new), Id(!new)>(e: Edits<Url, Id>, r: Tombstones<Url, Id>, t: Timers<Url, Id>, server: Url, postId: Id): Slot<Id> {
    if TombstoneIn(r, server, postId) then
      Tombstoned(if TombstoneExpiry(server, postId) in t then t[TombstoneExpiry(server, postId)] else 0)
    else if EditIn(e, server, postId) then
      Editing(e[server][postId], if EditExpiry(server, postId) in t then t[EditExpiry(server, postId)] else 0)
    else Empty
  }

  /** The caches agree on every post but one. */
  ghost predicate SameSlotsBut<Url(!new), Id(!new)>(e: Edits<Url, Id>, r: Tombstones<Url, Id>, t: Timers<Url, Id>, e': Edits<Url, Id>, r': Tombstones<Url, Id>, t': Timers<Url, Id>,
                               server: Url, postId: Id) {
    forall s, id :: s != server || id != postId ==> SlotIn(e', r', t', s, id) == SlotIn(e, r, t, s, id)
  }

  function EditsOf<Url(==), Id(==)>(e: Edits<Url, Id>, server: Url): map<Id, Post<Id>> {
    if server in e then e[server] else map[]
  }

  function TombstonesOf<Url(==), Id(==)>(r: Tombstones<Url, Id>, server: Url): set<Id> {
    if server in r then r[server] else {}
  }

  function WithEdit<Url(==), Id(==)>(e: Edits<Url, Id>, server: Url, post: Post<Id>): Edits<Url, Id> {
    e[server := EditsOf(e, server)[post.id := post]]
  }

  function WithoutEdit<Url(==), Id(==)>(e: Edits<Url, Id>, server: Url, postId: Id): Edits<Url, Id> {
    if EditIn(e, server, postId) then e[server := e[server] - {postId}] else e
  }

  function WithTombstone<Url(==), Id(==)>(r: Tombstones<Url, Id>, server: Url, postId: Id): Tombstones<Url, Id> {
    r[server := TombstonesOf(r, server) + {postId}]
  }

  function WithoutTombstone<Url(==), Id(==)>(r: Tombstones<Url, Id>, server: Url, postId: Id): Tombstones<Url, Id> {
    if TombstoneIn(r, server, postId) then r[server := r[server] - {postId}] else r
  }

  /** Caches that do not change agree with themselves on every post. */
  lemma SameSlotsRefl<Url(!new), Id(!new)>(e: Edits<Url, Id>, r: Tombstones<Url, Id>, t: Timers<Url, Id>, server: Url, postId: Id)
    ensures SameSlotsBut(e, r, t, e, r, t, server, postId)
  {
  }

  /** Storing an edit, and its timer, keeps the caches valid when the post has no
      tombstone. */
  lemma PutEditValid<Url(!new), Id(!new)>(e: Edits<Url, Id>, r: Tombstones<Url, Id>, t: Timers<Url, Id>, server: Url, post: Post<Id>, due: int)
    requires CachesValid(e, r, t) && !TombstoneIn(r, server, post.id)
    ensures var e', t' := WithEdit(e, server, post), t[EditExpiry(server, post.id) := due];
            && CachesValid(e', r, t')
            && SlotIn(e', r, t', server, post.id) == Editing(post, due)
  {
    var e' := WithEdit(e, server, post);
    forall s, id | EditIn(e', s, id)
      ensures (s == server && id == post.id) || EditIn(e, s, id)
    {
    }
  }

  /** The step-by-step writes of `addEditingPost` amount to `WithEdit`. */
  lemma EditWrites<Url(!new), Id(!new)>(e: Edits<Url, Id>, server: Url, post: Post<Id>)
    ensures var e1 := if server in e then e else e[server := map[]];
            e1[server := e1[server][post.id := post]] == WithEdit(e, server, post)
  {
  }

  /** Storing an edit, and its timer, touches no other post. */
  lemma PutEditFrame<Url(!new), Id(!new)>(e: Edits<Url, Id>, r: Tombstones<Url, Id>, t: Timers<Url, Id>, server: Url, post: Post<Id>, due: int)
    ensures SameSlotsBut(e, r, t, WithEdit(e, server, post), r, t[EditExpiry(server, post.id) := due],
                         server, post.id)
  {
    var e', t' := WithEdit(e, server, post), t[EditExpiry(server, post.id) := due];
    forall s, id | s != server || id != post.id
      ensures SlotIn(e', r, t', s, id) == SlotIn(e, r, t, s, id)
    {
      assert EditIn(e', s, id) == EditIn(e, s, id);
      assert TombstoneExpiry(s, id) in t' <==> TombstoneExpiry(s, id) in t;
    }
  }

  /** The timers once a tombstone is stored: the edit's timer is cancelled if the
      post had an edit, and the tombstone's is set. */
  function TombstoneTimers<Url(==), Id(==)>(e: Edits<Url, Id>, t: Timers<Url, Id>, server: Url, postId: Id, due: int): Timers<Url, Id> {
    (if EditIn(e, server, postId) then t - {EditExpiry(server, postId)} else t)[TombstoneExpiry(server, postId) := due]
  }

  /** Storing a tombstone, and its timer, while dropping the post's edit and the
      edit's timer, keeps the caches valid. */
  lemma PutTombstoneValid<Url(!new), Id(!new)>(e: Edits<Url, Id>, r: Tombstones<Url, Id>, t: Timers<Url, Id>, server: Url, postId: Id, due: int)
    requires CachesValid(e, r, t) && !TombstoneIn(r, server, postId)
    ensures var e', r', t' := WithoutEdit(e, server, postId), WithTombstone(r, server, postId),
                              TombstoneTimers(e, t, server, postId, due);
            && CachesValid(e', r', t')
            && SlotIn(e', r', t', server, postId) == Tombstoned(due)
  {
  }

  /** The step-by-step writes of `addRemovingPost` amount to `WithoutEdit`,
      `WithTombstone` and `TombstoneTimers`. */
  lemma TombstoneWrites<Url(!new), Id(!new)>(e: Edits<Url, Id>, r: Tombstones<Url, Id>, t: Timers<Url, Id>, server: Url, postId: Id, due: int)
    ensures (if EditIn(e, server, postId) then e[server := e[server] - {postId}] else e) == WithoutEdit(e, server, postId)
    ensures (if EditIn(e, server, postId) then t - {EditExpiry(server, postId)} else t)[TombstoneExpiry(server, postId) := due]
            == TombstoneTimers(e, t, server, postId, due)
    ensures var r1 := if server in r then r else r[server := {}];
            r1[server := r1[server] + {postId}] == WithTombstone(r, server, postId)
  {
  }

  /** Storing a tombstone touches no other post. */
  lemma PutTombstoneFrame<Url(!new), Id(!new)>(e: Edits<Url, Id>, r: Tombstones<Url, Id>, t: Timers<Url, Id>, server: Url, postId: Id, due: int)
    ensures SameSlotsBut(e, r, t, WithoutEdit(e, server, postId), WithTombstone(r, server, postId),
                         TombstoneTimers(e, t, server, postId, due), server, postId)
  {
    var e', r', t' := WithoutEdit(e, server, postId), WithTombstone(r, server, postId),
                      TombstoneTimers(e, t, server, postId, due);
    forall s, id | s != server || id != postId
      ensures SlotIn(e', r', t', s, id) == SlotIn(e, r, t, s, id)
    {
      assert EditIn(e', s, id) == EditIn(e, s, id);
      assert TombstoneIn(r', s, id) == TombstoneIn(r, s, id);
      assert EditExpiry(s, id) in t' <==> EditExpiry(s, id) in t;
      assert TombstoneExpiry(s, id) in t' <==> TombstoneExpiry(s, id) in t;
    }
  }

  /** Running an edit's timer drops that edit and keeps the caches valid. */
  lemma DropEditValid<Url(!new), Id(!new)>(e: Edits<Url, Id>, r: Tombstones<Url, Id>, t: Timers<Url, Id>, server: Url, postId: Id)
    requires CachesValid(e, r, t) && EditExpiry(server, postId) in t
    ensures EditIn(e, server, postId)
    ensures var e', t' := WithoutEdit(e, server, postId), t - {EditExpiry(server, postId)};
            CachesValid(e', r, t') && SlotIn(e', r, t', server, postId) == Empty
  {
  }

  /** Dropping an edit, and its timer, touches no other post. */
  lemma DropEditFrame<Url(!new), Id(!new)>(e: Edits<Url, Id>, r: Tombstones<Url, Id>, t: Timers<Url, Id>, server: Url, postId: Id)
    ensures SameSlotsBut(e, r, t, WithoutEdit(e, server, postId), r, t - {EditExpiry(server, postId)}, server, postId)
  {
    var e', t' := WithoutEdit(e, server, postId), t - {EditExpiry(server, postId)};
    forall s, id | s != server || id != postId
      ensures SlotIn(e', r, t', s, id) == SlotIn(e, r, t, s, id)
    {
      assert EditIn(e', s, id) == EditIn(e, s, id);
    }
  }

  /** Running a tombstone's timer drops that tombstone and keeps the caches valid. */
  lemma DropTombstoneValid<Url(!new), Id(!new)>(e: Edits<Url, Id>, r: Tombstones<Url, Id>, t: Timers<Url, Id>, server: Url, postId: Id)
    requires CachesValid(e, r, t) && TombstoneExpiry(server, postId) in t
    ensures TombstoneIn(r, server, postId)
    ensures var r', t' := WithoutTombstone(r, server, postId), t - {TombstoneExpiry(server, postId)};
            CachesValid(e, r', t') && SlotIn(e, r', t', server, postId) == Empty
  {
  }

  /** Dropping a tombstone, and its timer, touches no other post. */
  lemma DropTombstoneFrame<Url(!new), Id(!new)>(e: Edits<Url, Id>, r: Tombstones<Url, Id>, t: Timers<Url, Id>, server: Url, postId: Id)
    ensures SameSlotsBut(e, r, t, e, WithoutTombstone(r, server, postId), t - {TombstoneExpiry(server, postId)},
                         server, postId)
  {
    var r', t' := WithoutTombstone(r, server, postId), t - {TombstoneExpiry(server, postId)};
    forall s, id | s != server || id != postId
      ensures SlotIn(e, r', t', s, id) == SlotIn(e, r, t, s, id)
    {
      assert TombstoneIn(r', s, id) == TombstoneIn(r, s, id);
    }
  }

  class EphemeralStore<Url(==,!new), Id(==,!new)> {
    var now: int
    var timers: Timers<Url, Id>

    /** server -> post id -> the last edit received for it */
    var editing: Edits<Url, Id>
    /** server -> ids of the posts deleted recently */
    var removing: Tombstones<Url, Id>

    var addingTeam: set<string>
    var joiningChannels: set<string>
    var leavingChannels: set<string>
    var archivingChannels: set<string>
    var convertingChannels: set<string>
    var switchingToChannel: set<string>

    var pushProxyVerification: map<Url, string>
    /** server -> the current value of its `canJoinOtherTeams` subject */
    var canJoinOtherTeams: map<Url, bool>
    var currentThreadId: string
    var notificationTapped: bool
    var enablingCRT: bool

    ghost predicate Valid()
      reads this
    {
      CachesValid(editing, removing, timers)
    }

    ghost function SlotOf(server: Url, postId: Id): Slot<Id>
      reads this
    {
      SlotIn(editing, removing, timers, server, postId)
    }

    /** The store as the app starts it, at time `now`. */
    constructor (now: int)
      ensures Valid()
      ensures this.now == now && timers == map[] && editing == map[] && removing == map[]
      ensures forall g :: Guarded(g) == {}
      ensures pushProxyVerification == map[] && canJoinOtherTeams == map[]
      ensures currentThreadId == "" && !notificationTapped && !enablingCRT
    {
      this.now := now;
      timers := map[];
      editing := map[];
      removing := map[];
      addingTeam := {};
      joiningChannels := {};
      leavingChannels := {};
      archivingChannels := {};
      convertingChannels := {};
      switchingToChannel := {};
      pushProxyVerification := map[];
      canJoinOtherTeams := map[];
      currentThreadId := "";
      notificationTapped := false;
      enablingCRT := false;
    }

    // -------------------------------------------------------------------------
    // Websocket post events

    /** `addEditingPost`: the edit is acted on as `OnEdit` says, no other post of
        any server changes, and the server's edit cache exists once an edit is
        stored. An ignored edit changes nothing at all. */
    method AddEditingPost(serverUrl: Url, post: Post<Id>)
      requires Valid()
      modifies this`editing, this`timers
      ensures Valid()
      ensures SlotOf(serverUrl, post.id) == OnEdit(old(SlotOf(serverUrl, post.id)), post, now)
      ensures SameSlotsBut(old(editing), old(removing), old(timers), editing, removing, timers, serverUrl, post.id)
      ensures old(TombstoneIn(removing, serverUrl, post.id)) ==> unchanged(this)
      ensures old(EditIn(editing, serverUrl, post.id) && post.editAt < editing[serverUrl][post.id].updateAt) ==>
                unchanged(this)
      ensures editing.Keys <= old(editing.Keys) + {serverUrl}
    {
      if TombstoneIn(removing, serverUrl, post.id) {
        SameSlotsRefl(editing, removing, timers, serverUrl, post.id);
        return;
      }
      var lastEdit := if EditIn(editing, serverUrl, post.id) then Some(editing[serverUrl][post.id]) else None;
      if lastEdit.Some? && post.editAt < lastEdit.value.updateAt {
        SameSlotsRefl(editing, removing, timers, serverUrl, post.id);
        return;
      }
      StoreEdit(serverUrl, post);
      PutEditFrame(old(editing), removing, old(timers), serverUrl, post, now + TimeToClearWebsocketActions);
    }

    /** `addRemovingPost`: the deletion is acted on as `OnRemove` says (any cached
        edit goes, and its timer is cancelled), no other post of any server
        changes, and the server's tombstone set exists once a tombstone is stored.
        No tombstone timer was pending for the post, so each tombstone has one
        timer. A repeated deletion changes nothing at all. */
    method AddRemovingPost(serverUrl: Url, postId: Id)
      requires Valid()
      modifies this`editing, this`removing, this`timers
      ensures Valid()
      ensures SlotOf(serverUrl, postId) == OnRemove(old(SlotOf(serverUrl, postId)), now)
      ensures SameSlotsBut(old(editing), old(removing), old(timers), editing, removing, timers, serverUrl, postId)
      ensures old(TombstoneIn(removing, serverUrl, postId)) ==> unchanged(this)
      ensures !old(TombstoneIn(removing, serverUrl, postId)) ==> old(TombstoneExpiry(serverUrl, postId) !in timers)
      ensures removing.Keys <= old(removing.Keys) + {serverUrl}
      ensures editing.Keys == old(editing.Keys)
    {
      if TombstoneIn(removing, serverUrl, postId) {
        SameSlotsRefl(editing, removing, timers, serverUrl, postId);
        return;
      }
      StoreTombstone(serverUrl, postId);
      PutTombstoneFrame(old(editing), old(removing), old(timers), serverUrl, postId, now + TimeToClearWebsocketActions);
    }

    /** The writes of `addEditingPost` once the edit is accepted: the server's edit
        cache is created if missing, and the edit is stored with a new timer that
        replaces the replaced entry's timer, if any. The caller has already
        turned away an edit of a tombstoned post, so the caches stay valid. */
    method StoreEdit(serverUrl: Url, post: Post<Id>)
      requires Valid() && !TombstoneIn(removing, serverUrl, post.id)
      modifies this`editing, this`timers
      ensures Valid()
      ensures editing == WithEdit(old(editing), serverUrl, post)
      ensures timers == old(timers)[EditExpiry(serverUrl, post.id) := now + TimeToClearWebsocketActions]
      ensures SlotOf(serverUrl, post.id) == Editing(post, now + TimeToClearWebsocketActions)
    {
      EditWrites(editing, serverUrl, post);
      PutEditValid(editing, removing, timers, serverUrl, post, now + TimeToClearWebsocketActions);
      if serverUrl !in editing {
        editing := editing[serverUrl := map[]];
      }
      var serverEditing := editing[serverUrl];
      // A pending timer of a replaced edit has the same key, so setting the new
      // timer cancels it: this is the `clearTimeout` of ephemeral_store.ts:51-53.
      timers := timers[EditExpiry(serverUrl, post.id) := now + TimeToClearWebsocketActions];
      editing := editing[serverUrl := serverEditing[post.id := post]];
    }

    /** The writes of `addRemovingPost` once the post is not yet tombstoned: its
        edit and the edit's timer go, the server's tombstone set is created if
        missing, and the tombstone is stored with a new timer. The caller has
        already returned for a post that is tombstoned, so the caches stay valid. */
    method StoreTombstone(serverUrl: Url, postId: Id)
      requires Valid() && !TombstoneIn(removing, serverUrl, postId)
      modifies this`editing, this`removing, this`timers
      ensures Valid()
      ensures editing == WithoutEdit(old(editing), serverUrl, postId)
      ensures removing == WithTombstone(old(removing), serverUrl, postId)
      ensures timers == TombstoneTimers(old(editing), old(timers), serverUrl, postId, now + TimeToClearWebsocketActions)
    {
      TombstoneWrites(editing, removing, timers, serverUrl, postId, now + TimeToClearWebsocketActions);
      PutTombstoneValid(editing, removing, timers, serverUrl, postId, now + TimeToClearWebsocketActions);
      if EditIn(editing, serverUrl, postId) {
        timers := timers - {EditExpiry(serverUrl, postId)};
        editing := editing[serverUrl := editing[serverUrl] - {postId}];
      }
      if serverUrl !in removing {
        removing := removing[serverUrl := {}];
      }
      timers := timers[TombstoneExpiry(serverUrl, postId) := now + TimeToClearWebsocketActions];
      removing := removing[serverUrl := removing[serverUrl] + {postId}];
    }

    /** `getLastPostWebsocketEvent`: the report `Report` gives for the post. */
    method GetLastPostWebsocketEvent(serverUrl: Url, postId: Id) returns (r: Option<LastEvent<Id>>)
      requires Valid()
      ensures r == Report(SlotOf(serverUrl, postId))
    {
      if TombstoneIn(removing, serverUrl, postId) {
        return Some(Deleted);
      }
      if EditIn(editing, serverUrl, postId) {
        return Some(Edited(editing[serverUrl][postId]));
      }
      return None;
    }

    /** Time passes. */
    method Tick(elapsed: nat)
      modifies this`now
      ensures now == old(now) + elapsed
    {
      now := now + elapsed;
    }

    /** The event loop runs a pending timer whose deadline has passed: its entry,
        and only that one, is gone, and the timer with it. A replaced edit's timer
        was cancelled, so it never deletes the edit that replaced it; no entry goes
        before its deadline. */
    method Expire(t: Timer<Url, Id>)
      requires Valid() && t in timers && timers[t] <= now
      modifies this`editing, this`removing, this`timers
      ensures Valid()
      ensures SlotOf(t.server, t.postId) == Empty
      ensures old(SlotOf(t.server, t.postId)).due <= now
      ensures SameSlotsBut(old(editing), old(removing), old(timers), editing, removing, timers, t.server, t.postId)
      ensures timers == old(timers) - {t}
      ensures editing.Keys == old(editing.Keys) && removing.Keys == old(removing.Keys)
    {
      match t {
        case EditExpiry(s, id) =>
          DropEditValid(editing, removing, timers, s, id);
          DropEditFrame(editing, removing, timers, s, id);
          editing := editing[s := editing[s] - {id}];
        case TombstoneExpiry(s, id) =>
          DropTombstoneValid(editing, removing, timers, s, id);
          DropTombstoneFrame(editing, removing, timers, s, id);
          removing := removing[s := removing[s] - {id}];
      }
      timers := timers - {t};
    }

    // -------------------------------------------------------------------------
    // Operations in progress

    function Guarded(g: Guard): set<string>
      reads this
    {
      match g
      case AddingTeam => addingTeam
      case JoiningChannel => joiningChannels
      case LeavingChannel => leavingChannels
      case ArchivingChannel => archivingChannels
      case ConvertingChannel => convertingChannels
      case SwitchingToChannel => switchingToChannel
    }

    /** `startAddingToTeam`, `addJoiningChannel`, `addLeavingChannel`,
        `addArchivingChannel`, `addConvertingChannel`, `addSwitchingToChannel`. */
    method Add(g: Guard, id: string)
      modifies this`addingTeam, this`joiningChannels, this`leavingChannels, this`archivingChannels,
               this`convertingChannels, this`switchingToChannel
      ensures Guarded(g) == old(Guarded(g)) + {id}
      ensures forall h :: h != g ==> Guarded(h) == old(Guarded(h))
    {
      match g
      case AddingTeam => addingTeam := addingTeam + {id};
      case JoiningChannel => joiningChannels := joiningChannels + {id};
      case LeavingChannel => leavingChannels := leavingChannels + {id};
      case ArchivingChannel => archivingChannels := archivingChannels + {id};
      case ConvertingChannel => convertingChannels := convertingChannels + {id};
      case SwitchingToChannel => switchingToChannel := switchingToChannel + {id};
    }

    /** `finishAddingToTeam`, `removeJoiningChannel`, `removeLeavingChannel`,
        `removeArchivingChannel`, `removeConvertingChannel`, `removeSwitchingToChannel`. */
    method Remove(g: Guard, id: string)
      modifies this`addingTeam, this`joiningChannels, this`leavingChannels, this`archivingChannels,
               this`convertingChannels, this`switchingToChannel
      ensures Guarded(g) == old(Guarded(g)) - {id}
      ensures forall h :: h != g ==> Guarded(h) == old(Guarded(h))
    {
      match g
      case AddingTeam => addingTeam := addingTeam - {id};
      case JoiningChannel => joiningChannels := joiningChannels - {id};
      case LeavingChannel => leavingChannels := leavingChannels - {id};
      case ArchivingChannel => archivingChannels := archivingChannels - {id};
      case ConvertingChannel => convertingChannels := convertingChannels - {id};
      case SwitchingToChannel => switchingToChannel := switchingToChannel - {id};
    }

    /** `isAddingToTeam`, `isJoiningChannel`, `isLeavingChannel`,
        `isArchivingChannel`, `isConvertingChannel`, `isSwitchingToChannel`. */
    method Is(g: Guard, id: string) returns (b: bool)
      ensures b <==> id in Guarded(g)
    {
      match g
      case AddingTeam => b := id in addingTeam;
      case JoiningChannel => b := id in joiningChannels;
      case LeavingChannel => b := id in leavingChannels;
      case ArchivingChannel => b := id in archivingChannels;
      case ConvertingChannel => b := id in convertingChannels;
      case SwitchingToChannel => b := id in switchingToChannel;
    }

    // -------------------------------------------------------------------------
    // Single values

    method SetPushProxyVerificationState(serverUrl: Url, state: string)
      modifies this`pushProxyVerification
      ensures pushProxyVerification == old(pushProxyVerification)[serverUrl := state]
    {
      pushProxyVerification := pushProxyVerification[serverUrl := state];
    }

    /** `getPushProxyVerificationState`: the state last set for the server, or
        nothing if none was. */
    method GetPushProxyVerificationState(serverUrl: Url) returns (r: Option<string>)
      ensures r.Some? <==> serverUrl in pushProxyVerification
      ensures r.Some? ==> r.value == pushProxyVerification[serverUrl]
    {
      if serverUrl in pushProxyVerification {
        return Some(pushProxyVerification[serverUrl]);
      }
      return None;
    }

    method SetCurrentThreadId(id: string)
      modifies this`currentThreadId
      ensures currentThreadId == id
    {
      currentThreadId := id;
    }

    method GetCurrentThreadId() returns (id: string)
      ensures id == currentThreadId
    {
      id := currentThreadId;
    }

    method SetEnablingCRT(value: bool)
      modifies this`enablingCRT
      ensures enablingCRT == value
    {
      enablingCRT := value;
    }

    method IsEnablingCRT() returns (value: bool)
      ensures value == enablingCRT
    {
      value := enablingCRT;
    }

    method SetNotificationTapped(value: bool)
      modifies this`notificationTapped
      ensures notificationTapped == value
    {
      notificationTapped := value;
    }

    method WasNotificationTapped() returns (value: bool)
      ensures value == notificationTapped
    {
      value := notificationTapped;
    }

    /** `observeCanJoinOtherTeams`: the subject's current value, which is `false`
        for a server never set; the subject is created on first use. */
    method ObserveCanJoinOtherTeams(serverUrl: Url) returns (value: bool)
      modifies this`canJoinOtherTeams
      ensures serverUrl in old(canJoinOtherTeams) ==> value == old(canJoinOtherTeams)[serverUrl]
      ensures serverUrl !in old(canJoinOtherTeams) ==> !value
      ensures canJoinOtherTeams == old(canJoinOtherTeams)[serverUrl := value]
    {
      if serverUrl !in canJoinOtherTeams {
        canJoinOtherTeams := canJoinOtherTeams[serverUrl := false];
      }
      value := canJoinOtherTeams[serverUrl];
    }

    /** `setCanJoinOtherTeams`: creates the server's subject if needed and sets it. */
    method SetCanJoinOtherTeams(serverUrl: Url, value: bool)
      modifies this`canJoinOtherTeams
      ensures canJoinOtherTeams == old(canJoinOtherTeams)[serverUrl := value]
    {
      canJoinOtherTeams := canJoinOtherTeams[serverUrl := value];
    }
  }

  /** A post edited at 10 (update_at 60) and then again by an edit made at 50
      keeps the first edit: the second one is older than what is cached. */
  method StaleEditScenario() returns (r: Option<LastEvent<string>>)
    ensures r == Some(Edited(Post("p1", 10, 60)))
  {
    var store := new EphemeralStore<string, string>(0);
    store.AddEditingPost("server", Post("p1", 10, 60));
    store.Tick(5);
    store.AddEditingPost("server", Post("p1", 50, 50));
    r := store.GetLastPostWebsocketEvent("server", "p1");
  }

  /** A deleted post ignores a later edit; once the tombstone expires, the same
      edit is cached. */
  method DeleteThenEditScenario() returns (before: Option<LastEvent<string>>, after: Option<LastEvent<string>>)
    ensures before == Some(Deleted)
    ensures after == Some(Edited(Post("p1", 70, 70)))
  {
    var store := new EphemeralStore<string, string>(0);
    store.AddEditingPost("server", Post("p1", 10, 60));
    store.AddRemovingPost("server", "p1");
    store.Tick(1000);
    store.AddEditingPost("server", Post("p1", 70, 70));
    before := store.GetLastPostWebsocketEvent("server", "p1");
    store.Tick(29000);
    store.Expire(TombstoneExpiry("server", "p1"));
    store.AddEditingPost("server", Post("p1", 70, 70));
    after := store.GetLastPostWebsocketEvent("server", "p1");
  }

  /** A guard set has set semantics and is independent of the others: after two
      adds the id is active there and nowhere else, and one remove makes it
      inactive. */
  method GuardScenario(g: Guard, h: Guard, id: string) returns (afterAdds: bool, elsewhere: bool, afterRemove: bool)
    requires g != h
    ensures afterAdds && !elsewhere && !afterRemove
  {
    var store := new EphemeralStore<string, string>(0);
    store.Add(g, id);
    store.Add(g, id);
    afterAdds := store.Is(g, id);
    elsewhere := store.Is(h, id);
    store.Remove(g, id);
    afterRemove := store.Is(g, id);
  }

  /** Every cell reads back what was last written to it; the push-proxy state of
      another server stays unset, and `canJoinOtherTeams` starts out false. */
  method CellsScenario(server: string, other: string, state: string, threadId: string, crt: bool, tapped: bool)
    returns (got: Option<string>, gotOther: Option<string>, thread: string, gotCrt: bool, gotTapped: bool,
             canJoin: bool)
    requires server != other
    ensures got == Some(state) && gotOther.None?
    ensures thread == threadId && gotCrt == crt && gotTapped == tapped && !canJoin
  {
    var store := new EphemeralStore<string, string>(0);
    store.SetPushProxyVerificationState(server, state);
    store.SetCurrentThreadId(threadId);
    store.SetEnablingCRT(crt);
    store.SetNotificationTapped(tapped);
    got := store.GetPushProxyVerificationState(server);
    gotOther := store.GetPushProxyVerificationState(other);
    thread := store.GetCurrentThreadId();
    gotCrt := store.IsEnablingCRT();
    gotTapped := store.WasNotificationTapped();
    canJoin := store.ObserveCanJoinOtherTeams(server);
  }
}
