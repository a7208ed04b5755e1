/**
 * What the ephemeral store remembers about one post of one server, as a value:
 * nothing, a cached edit that expires at a deadline, or a tombstone that expires
 * at a deadline. The store's methods are proved to act on each post exactly as
 * the functions here say.
 */
module PostEvents {
  import opened Wrappers

  /** Milliseconds an edit or a tombstone is kept (30 s). */
  const TimeToClearWebsocketActions: int := 30000

  /** The parts of a post the store looks at; the store only compares ids, so
      their type is a parameter (a string in the app). */
  datatype Post<Id> = Post(id: Id, editAt: int, updateAt: int)

  datatype Slot<Id> =
    | Empty
    | Editing(post: Post<Id>, due: int)
    | Tombstoned(due: int)

  /** What `getLastPostWebsocketEvent` reports. */
  datatype LastEvent<Id> = Deleted | Edited(post: Post<Id>)

  /** An edit event at time `now`. A tombstoned post ignores it; an edit older than
      the cached post's last update is dropped; otherwise it becomes the entry, with
      a fresh deadline. */
  function OnEdit<Id>(slot: Slot<Id>, post: Post<Id>, now: int): (r: Slot<Id>)
    ensures slot.Tombstoned? ==> r == slot
    ensures slot.Editing? && post.editAt < slot.post.updateAt ==> r == slot
    ensures !slot.Tombstoned? && !(slot.Editing? && post.editAt < slot.post.updateAt) ==>
              r == Editing(post, now + TimeToClearWebsocketActions)
  {
    match slot
    case Tombstoned(_) => slot
    case Editing(last, _) =>
      if post.editAt < last.updateAt then slot else Editing(post, now + TimeToClearWebsocketActions)
    case Empty => Editing(post, now + TimeToClearWebsocketActions)
  }

  /** A delete event at time `now`: a second delete changes nothing; otherwise any
      cached edit is dropped and the post is tombstoned until a fresh deadline. */
  function OnRemove<Id>(slot: Slot<Id>, now: int): (r: Slot<Id>)
    ensures r.Tombstoned?
    ensures slot.Tombstoned? ==> r == slot
    ensures !slot.Tombstoned? ==> r.due == now + TimeToClearWebsocketActions
  {
    if slot.Tombstoned? then slot else Tombstoned(now + TimeToClearWebsocketActions)
  }

  /** The report for a post: the tombstone first, then the cached edit. */
  function Report<Id>(slot: Slot<Id>): (r: Option<LastEvent<Id>>)
    ensures r == Some(Deleted) <==> slot.Tombstoned?
    ensures r.None? <==> slot.Empty?
    ensures slot.Editing? ==> r == Some(Edited(slot.post))
  {
    match slot
    case Tombstoned(_) => Some(Deleted)
    case Editing(p, _) => Some(Edited(p))
    case Empty => None
  }

  /** The websocket events for one post, each with the time it arrived. */
  datatype Event<Id> = EditAt(post: Post<Id>, at: int) | RemoveAt(at: int)

  function Step<Id>(slot: Slot<Id>, e: Event<Id>): Slot<Id> {
    match e
    case EditAt(p, at) => OnEdit(slot, p, at)
    case RemoveAt(at) => OnRemove(slot, at)
  }

  /** The slot after a run of events in which no deadline passes. */
  function Replay<Id>(slot: Slot<Id>, events: seq<Event<Id>>): Slot<Id>
    decreases |events|
  {
    if events == [] then slot else Replay(Step(slot, events[0]), events[1..])
  }

  /** Once tombstoned, a post stays tombstoned, with the same deadline, whatever
      edits and deletes arrive before that deadline. */
  lemma {:induction false} TombstoneAbsorbs<Id>(due: int, events: seq<Event<Id>>)
    ensures Replay(Slot<Id>.Tombstoned(due), events) == Tombstoned(due)
    decreases |events|
  {
    if events != [] {
      TombstoneAbsorbs(due, events[1..]);
    }
  }

  /** A delete is final until its deadline: after any events that include a
      delete, the post is reported deleted. */
  lemma {:induction false} DeleteWins<Id>(slot: Slot<Id>, events: seq<Event<Id>>, i: nat)
    requires i < |events| && events[i].RemoveAt?
    ensures Report(Replay(slot, events)) == Some(Deleted)
    decreases |events|
  {
    if i == 0 {
      TombstoneAbsorbs(OnRemove(slot, events[0].at).due, events[1..]);
    } else {
      assert events[1..][i - 1] == events[i];
      DeleteWins(Step(slot, events[0]), events[1..], i - 1);
    }
  }

  /** Without deletes, a cached edit stays cached, and the post it holds is always
      the one cached before or one of the edits received. */
  lemma {:induction false} CachedPostWasReceived<Id>(slot: Slot<Id>, events: seq<Event<Id>>)
    requires slot.Editing?
    requires forall i :: 0 <= i < |events| ==> events[i].EditAt?
    ensures Replay(slot, events).Editing?
    ensures var q := Replay(slot, events).post;
            q == slot.post || exists i :: 0 <= i < |events| && events[i].post == q
    decreases |events|
  {
    if events != [] {
      var next := Step(slot, events[0]);
      forall i | 0 <= i < |events[1..]|
        ensures events[1..][i].EditAt?
      {
        assert events[1..][i] == events[i + 1];
      }
      CachedPostWasReceived(next, events[1..]);
      var q := Replay(next, events[1..]).post;
      if q != next.post {
        var i :| 0 <= i < |events[1..]| && events[1..][i].post == q;
        assert events[i + 1].post == q;
      } else if next.post != slot.post {
        assert events[0].post == q;
      }
    }
  }

  /** An edit whose `edit_at` is older than the cached post's `update_at` is
      dropped: the post cached after an update at 60 survives an edit made at 50. */
  lemma StaleEditDropped(due: int, now: int)
    ensures var cached := Post("p1", 10, 60);
            Report(OnEdit(Editing(cached, due), Post("p1", 50, 50), now)) == Some(Edited(cached))
  {
  }
}
