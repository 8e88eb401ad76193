/**
 * The status page's table state: a list of users, loaded once from a snapshot and
 * then updated in place by every live-update message.
 */
module StatusPage {
  import opened UserRecords
  import opened ListUpdates

  class Reconciler {
    /** The rows of the table, newest `new_user` first. */
    var users: seq<User>
    /** The list most recently loaded wholesale (initially the empty list). */
    ghost var snapshot: seq<User>
    /** The messages handled since that load, oldest first. */
    ghost var applied: seq<Event>

    /** The table is always the snapshot with the messages since then folded in. */
    ghost predicate Valid()
      reads this
    {
      users == Replay(snapshot, applied)
    }

    /** The table state starts as the empty list. */
    constructor ()
      ensures Valid()
      ensures users == [] && snapshot == [] && applied == []
    {
      users := [];
      snapshot := [];
      applied := [];
    }

    /**
     * Loading the fetched list replaces the table wholesale, whatever it held
     * before, including records put there by messages that arrived earlier.
     */
    method Initialize(data: seq<User>)
      modifies this
      ensures Valid()
      ensures users == data
      ensures snapshot == data && applied == []
    {
      users := data;
      snapshot := data;
      applied := [];
    }

    /** Handling one received message. */
    method Apply(e: Event)
      requires Valid()
      modifies this
      ensures Valid()
      ensures users == ApplyEvent(old(users), e)
      ensures snapshot == old(snapshot) && applied == old(applied) + [e]
    {
      if e.kind == SyncStatusUpdate {
        users := ApplySync(users, e.user);
      } else if e.kind == NewUser {
        users := ApplyNew(users, e.user);
      }
      ReplaySnoc(snapshot, applied, e);
      applied := applied + [e];
    }
  }
}
