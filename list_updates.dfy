/**
 * The list transformations the status page applies to its table of users when a
 * live-update message arrives, and the list obtained by folding a sequence of
 * messages into a snapshot.
 */
module ListUpdates {
  import opened UserRecords

  /** The ids of a list of records, in list order. */
  function Ids(users: seq<User>): (ids: seq<int>)
    ensures |ids| == |users|
    ensures forall i :: 0 <= i < |users| ==> ids[i] == users[i].id
  {
    if users == [] then [] else [users[0].id] + Ids(users[1..])
  }

  /** How many records of the list carry the given id. */
  function CountId(users: seq<User>, id: int): nat
  {
    if users == [] then 0
    else (if users[0].id == id then 1 else 0) + CountId(users[1..], id)
  }

  // ---------------------------------------------------------------------------
  // sync_status_update
  // ---------------------------------------------------------------------------

  /**
   * `sync_status_update`: every record whose id equals the payload's id gets the
   * payload's `synced_at` (absent included); all other fields and all other
   * records stay as they were. Ids are not assumed unique, so several records
   * may be rewritten, or none.
   */
  function ApplySync(users: seq<User>, p: UserPayload): (r: seq<User>)
    ensures |r| == |users|
    ensures forall i :: 0 <= i < |users| && users[i].id == p.id ==>
              r[i].syncedAt == p.syncedAt && r[i].(syncedAt := users[i].syncedAt) == users[i]
    ensures forall i :: 0 <= i < |users| && users[i].id != p.id ==> r[i] == users[i]
  {
    if users == [] then []
    else
      var head := if users[0].id == p.id then WithSyncedAt(users[0], p.syncedAt) else users[0];
      [head] + ApplySync(users[1..], p)
  }

  /** The update is an element-wise map: the ids keep their values and their order. */
  lemma SyncPreservesIds(users: seq<User>, p: UserPayload)
    ensures Ids(ApplySync(users, p)) == Ids(users)
  {
  }

  /** How many records carry any given id is unchanged by the update. */
  lemma {:induction false} SyncPreservesIdCounts(users: seq<User>, p: UserPayload, id: int)
    ensures CountId(ApplySync(users, p), id) == CountId(users, id)
  {
    if users != [] {
      SyncPreservesIdCounts(users[1..], p, id);
      assert ApplySync(users, p)[1..] == ApplySync(users[1..], p);
    }
  }

  /**
   * The list comes back unchanged exactly when every record with the payload's
   * id already carries the payload's `synced_at`.
   */
  lemma SyncUnchangedIff(users: seq<User>, p: UserPayload)
    ensures ApplySync(users, p) == users <==>
      forall i :: 0 <= i < |users| && users[i].id == p.id ==> users[i].syncedAt == p.syncedAt
  {
  }

  /** An update for an id that no record carries leaves the list unchanged. */
  lemma SyncUnknownIdIsNoOp(users: seq<User>, p: UserPayload)
    requires forall i :: 0 <= i < |users| ==> users[i].id != p.id
    ensures ApplySync(users, p) == users
  {
  }

  /** Of two updates for the same id, the later one decides `synced_at`. */
  lemma SyncLastWins(users: seq<User>, p: UserPayload, q: UserPayload)
    requires p.id == q.id
    ensures ApplySync(ApplySync(users, p), q) == ApplySync(users, q)
  {
  }

  /** Applying the same update twice gives the list that applying it once gives. */
  lemma SyncIdempotent(users: seq<User>, p: UserPayload)
    ensures ApplySync(ApplySync(users, p), p) == ApplySync(users, p)
  {
  }

  /** Updates for two different ids can be applied in either order. */
  lemma SyncCommutes(users: seq<User>, p: UserPayload, q: UserPayload)
    requires p.id != q.id
    ensures ApplySync(ApplySync(users, p), q) == ApplySync(ApplySync(users, q), p)
  {
  }

  /** The update works record by record, so it splits over a concatenation. */
  lemma SyncDistributes(a: seq<User>, b: seq<User>, p: UserPayload)
    ensures ApplySync(a + b, p) == ApplySync(a, p) + ApplySync(b, p)
  {
  }

  // ---------------------------------------------------------------------------
  // new_user
  // ---------------------------------------------------------------------------

  /** `new_user`: the record built from the payload goes in front of the list. */
  function ApplyNew(users: seq<User>, p: UserPayload): seq<User>
  {
    [ToUser(p)] + users
  }

  /**
   * The list grows by exactly one: the built record is the new head and the
   * previous list, unchanged, is the tail.
   */
  lemma NewUserPrepends(users: seq<User>, p: UserPayload)
    ensures var r := ApplyNew(users, p);
      |r| == |users| + 1 && r[0] == ToUser(p) && r[1..] == users
  {
  }

  /**
   * No de-duplication: the payload's id occurs once more than before, whether or
   * not the list already held it, and every other id occurs as often as before.
   */
  lemma NewUserNoDedup(users: seq<User>, p: UserPayload, id: int)
    ensures CountId(ApplyNew(users, p), id) == CountId(users, id) + (if id == p.id then 1 else 0)
  {
  }

  // ---------------------------------------------------------------------------
  // Dispatch on the message type and folding a sequence of messages
  // ---------------------------------------------------------------------------

  /** The handler: dispatch on the type tag; any other tag changes nothing. */
  function ApplyEvent(users: seq<User>, e: Event): seq<User>
  {
    if e.kind == SyncStatusUpdate then ApplySync(users, e.user)
    else if e.kind == NewUser then ApplyNew(users, e.user)
    else users
  }

  /** A message whose type is neither of the two known tags leaves the list unchanged. */
  lemma UnknownEventIsNoOp(users: seq<User>, e: Event)
    requires e.kind != SyncStatusUpdate && e.kind != NewUser
    ensures ApplyEvent(users, e) == users
  {
  }

  /** Receiving the same `sync_status_update` message twice is the same as receiving it once. */
  lemma SyncEventIdempotent(users: seq<User>, e: Event)
    requires e.kind == SyncStatusUpdate
    ensures ApplyEvent(ApplyEvent(users, e), e) == ApplyEvent(users, e)
  {
  }

  /** The list after loading `snapshot` and then receiving `events` in order. */
  function Replay(snapshot: seq<User>, events: seq<Event>): seq<User>
    decreases |events|
  {
    if events == [] then snapshot
    else Replay(ApplyEvent(snapshot, events[0]), events[1..])
  }

  /** How many of the messages are `new_user` messages. */
  function NewUserCount(events: seq<Event>): nat
  {
    if events == [] then 0
    else (if events[0].kind == NewUser then 1 else 0) + NewUserCount(events[1..])
  }

  /** Receiving one more message applies the handler to the list obtained so far. */
  lemma {:induction false} ReplaySnoc(snapshot: seq<User>, events: seq<Event>, e: Event)
    ensures Replay(snapshot, events + [e]) == ApplyEvent(Replay(snapshot, events), e)
    decreases |events|
  {
    if events != [] {
      assert (events + [e])[1..] == events[1..] + [e];
      ReplaySnoc(ApplyEvent(snapshot, events[0]), events[1..], e);
    }
  }

  /**
   * Nothing is lost and nothing is merged: the list ends up one record longer
   * for every `new_user` message and no longer for any other message.
   */
  lemma {:induction false} ReplayLength(snapshot: seq<User>, events: seq<Event>)
    ensures |Replay(snapshot, events)| == |snapshot| + NewUserCount(events)
    decreases |events|
  {
    if events != [] {
      ReplayLength(ApplyEvent(snapshot, events[0]), events[1..]);
    }
  }

  /** Regrouping a concatenation of id sequences. */
  lemma SeqAssoc(a: seq<int>, b: seq<int>, c: seq<int>)
    ensures a + (b + c) == (a + b) + c
  {
  }

  /** The ids of the `new_user` payloads among the messages, newest message first. */
  function NewIdsRev(events: seq<Event>): seq<int>
  {
    if events == [] then []
    else NewIdsRev(events[1..]) + (if events[0].kind == NewUser then [events[0].user.id] else [])
  }

  /**
   * A `new_user` message puts its payload's id in front of the ids; any other
   * message leaves the ids, and their order, as they were.
   */
  lemma EventIds(users: seq<User>, e: Event)
    ensures Ids(ApplyEvent(users, e)) == (if e.kind == NewUser then [e.user.id] else []) + Ids(users)
  {
    if e.kind == SyncStatusUpdate {
      SyncPreservesIds(users, e.user);
    } else if e.kind == NewUser {
      assert Ids(ApplyNew(users, e.user))[1..] == Ids(users);
    }
  }

  /**
   * After a snapshot and a message sequence, the ids of the list are exactly the
   * `new_user` ids, newest first, followed by the snapshot's ids in their order:
   * no record is lost, merged or reordered.
   */
  lemma {:induction false} ReplayIds(snapshot: seq<User>, events: seq<Event>)
    ensures Ids(Replay(snapshot, events)) == NewIdsRev(events) + Ids(snapshot)
    decreases |events|
  {
    if events != [] {
      var e, rest := events[0], events[1..];
      var next := ApplyEvent(snapshot, e);
      var front: seq<int> := if e.kind == NewUser then [e.user.id] else [];
      assert Replay(snapshot, events) == Replay(next, rest);
      assert NewIdsRev(events) == NewIdsRev(rest) + front;
      EventIds(snapshot, e);
      ReplayIds(next, rest);
      SeqAssoc(NewIdsRev(rest), front, Ids(snapshot));
    }
  }
}
