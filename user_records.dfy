/**
 * The records the status page keeps and the live-update messages it receives:
 * the `User` interface, the payload of a received message and the message itself.
 */
module UserRecords {
  import opened Wrappers

  /**
   * One row of the status table. The page declares six fields; `synced_at` may be
   * absent. A row loaded from the snapshot is whatever JSON object the users API
   * returned, so it may carry further fields, which `otherFields` holds (their
   * values are kept opaque as strings). Its keys are never the names of the six
   * declared fields: a JSON object has each key once.
   */
  datatype User = User(
    id: int,
    firstName: string,
    lastName: string,
    email: string,
    dateOfBirth: string,
    syncedAt: Option<string>,
    otherFields: map<string, string>)

  /**
   * The `user` part of a received message: the six named fields, `synced_at`
   * optional, and any number of further keys, held in `otherFields` (never one
   * of the six declared names).
   */
  datatype UserPayload = UserPayload(
    id: int,
    firstName: string,
    lastName: string,
    email: string,
    dateOfBirth: string,
    syncedAt: Option<string>,
    otherFields: map<string, string>)

  /** A received message: a free-form type tag and a user payload. */
  datatype Event = Event(kind: string, user: UserPayload)

  /** The two type tags the page reacts to; every other tag is ignored. */
  const SyncStatusUpdate: string := "sync_status_update"
  const NewUser: string := "new_user"

  /**
   * The record built for a `new_user` message: exactly the six named fields of
   * the payload, copied without any check, and nothing else.
   */
  function ToUser(p: UserPayload): User
  {
    User(p.id, p.firstName, p.lastName, p.email, p.dateOfBirth, p.syncedAt, map[])
  }

  /** The six named fields of a payload, with every further key dropped. */
  function KnownFields(p: UserPayload): UserPayload
  {
    p.(otherFields := map[])
  }

  /** `{ ...user, synced_at: s }`: the same record with only `synced_at` replaced. */
  function WithSyncedAt(u: User, s: Option<string>): User
  {
    u.(syncedAt := s)
  }

  /** The built record carries the payload's six named fields and no other field. */
  lemma NewUserRecordFields(p: UserPayload)
    ensures var u := ToUser(p);
      && u.id == p.id && u.firstName == p.firstName && u.lastName == p.lastName
      && u.email == p.email && u.dateOfBirth == p.dateOfBirth
      && u.syncedAt == p.syncedAt && u.otherFields == map[]
  {
  }

  /**
   * Two payloads give the same record exactly when they agree on the six named
   * fields: further keys of the payload never reach the table.
   */
  lemma NewUserIgnoresExtraFields(p: UserPayload, q: UserPayload)
    ensures ToUser(p) == ToUser(q) <==> KnownFields(p) == KnownFields(q)
  {
  }

  /** Replacing `synced_at` sets it to the given value and keeps every other field. */
  lemma WithSyncedAtOnlyChangesSyncedAt(u: User, s: Option<string>)
    ensures WithSyncedAt(u, s).syncedAt == s
    ensures WithSyncedAt(u, s).(syncedAt := u.syncedAt) == u
  {
  }
}
