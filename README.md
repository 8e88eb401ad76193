# Status-page reconciler

A Dafny model of the live-update reconciler of the user-status page in
`src/app/status/page.tsx`. The page keeps an ordered list of `User` rows. It loads
that list wholesale from the users API. Then it folds each message received on the
user-updates subscription into the list:

- `sync_status_update` overwrites `synced_at` on every row whose id matches the
  payload's id;
- `new_user` builds a row from the payload's six named fields and puts it in front;
- any other type tag changes nothing.

Files:

- `wrappers.dfy`: `Option`, for the optional `synced_at`.
- `user_records.dfy` (module `UserRecords`): the `User` row, the message payload,
  the message, the record built for `new_user` and the `synced_at` overwrite.
- `list_updates.dfy` (module `ListUpdates`): the two list transformations, the
  dispatch on the type tag, the fold of a message sequence over a snapshot
  (`Replay`), and the lemmas about them.
- `status_page.dfy` (module `StatusPage`): class `Reconciler`. It holds the
  component's `users` state, which `Initialize` and `Apply` replace step by step.
  Its ghost history (`snapshot`, `applied`) keeps the invariant
  `users == Replay(snapshot, applied)`.

The model follows the code as written:

- The `new_user` payload is not validated. Its fields are copied as they are.
- Ids are not de-duplicated (`NewUserNoDedup`). Id uniqueness is never assumed.
- `synced_at` is copied from the payload even when the payload has none. A row's
  `synced_at` can therefore go back from present to absent (`ApplySync` states
  this).
- Messages that arrive before the snapshot fetch completes are applied to the
  initial empty list. The later load then discards them (`Reconciler.Initialize`).

Rows loaded from the snapshot are the API's JSON objects, so they may carry fields
beyond the six the page declares. `User.otherFields` holds these. The object
spread at line 89 keeps them. The row built at lines 94-101 has none.

## Model

| member | source | states |
|---|---|---|
| `UserRecords.NewUserRecordFields` | src/app/status/page.tsx:94-101 | `ToUser`: the row built for `new_user` carries exactly the payload's `id`, `first_name`, `last_name`, `email`, `date_of_birth` and `synced_at` (absent stays absent), and no other field |
| `UserRecords.NewUserIgnoresExtraFields` | src/app/status/page.tsx:63-101 | `ToUser`: two payloads build the same row if and only if they agree on the six named fields: further payload keys never reach the table |
| `UserRecords.WithSyncedAtOnlyChangesSyncedAt` | src/app/status/page.tsx:89 | the spread `{ ...user, synced_at }` sets `synced_at` to the given value and keeps every other field of the row |
| `ListUpdates.ApplySync` | src/app/status/page.tsx:87-90 | same length. Each row whose id equals the payload id gets the payload's `synced_at` (absent included) with all other fields unchanged. Each other row is identical |
| `ListUpdates.SyncPreservesIds` | src/app/status/page.tsx:88-90 | the update is element-wise: the sequence of ids, in order, is unchanged |
| `ListUpdates.SyncPreservesIdCounts` | src/app/status/page.tsx:88-90 | no row is added or dropped: every id occurs as often as before |
| `ListUpdates.SyncUnchangedIff` | src/app/status/page.tsx:88-90 | the list is unchanged if and only if every row with the payload's id already carries the payload's `synced_at` |
| `ListUpdates.SyncUnknownIdIsNoOp` | src/app/status/page.tsx:88-90 | an update for an id no row carries leaves the list unchanged |
| `ListUpdates.SyncLastWins` | src/app/status/page.tsx:89 | of two updates for the same id, the second alone decides the result |
| `ListUpdates.SyncIdempotent` | src/app/status/page.tsx:89 | applying the same update twice gives the same list as applying it once |
| `ListUpdates.SyncCommutes` | src/app/status/page.tsx:88-90 | updates for two different ids give the same list in either order |
| `ListUpdates.SyncDistributes` | src/app/status/page.tsx:88-90 | the update splits over a concatenation of lists, since it works row by row |
| `ListUpdates.NewUserPrepends` | src/app/status/page.tsx:102 | `ApplyNew`: `new_user` makes the list one longer: the built row is the head and the previous list is the tail, unchanged |
| `ListUpdates.NewUserNoDedup` | src/app/status/page.tsx:102 | `ApplyNew`: the payload's id occurs exactly once more than before, even when the list already held it. Every other id occurs as often as before |
| `ListUpdates.UnknownEventIsNoOp` | src/app/status/page.tsx:86-103 | `ApplyEvent`: a message whose type is neither `sync_status_update` nor `new_user` leaves the list unchanged |
| `ListUpdates.SyncEventIdempotent` | src/app/status/page.tsx:86-91 | `ApplyEvent`: receiving the same `sync_status_update` message twice gives the same list as receiving it once |
| `ListUpdates.ReplaySnoc` | src/app/status/page.tsx:86-103 | `Replay`: folding one more message into the list applies the handler to the list obtained so far |
| `ListUpdates.ReplayLength` | src/app/status/page.tsx:86-103 | `Replay`: after a snapshot and a message sequence, the list is longer than the snapshot by exactly the number of `new_user` messages |
| `ListUpdates.EventIds` | src/app/status/page.tsx:86-103 | `ApplyEvent`: a `new_user` message puts its payload's id in front of the ids; any other message leaves the ids and their order as they were |
| `ListUpdates.ReplayIds` | src/app/status/page.tsx:86-103 | `Replay`: after a snapshot and a message sequence, the list's ids are exactly the `new_user` payload ids, newest first, followed by the snapshot's ids in their order (a statement about ids, not about the other fields of the rows) |
| `StatusPage.Reconciler.constructor` | src/app/status/page.tsx:40 | the table state starts as the empty list |
| `StatusPage.Reconciler.Initialize` | src/app/status/page.tsx:50 | loading the fetched list makes the state equal to it row for row, whatever it held before |
| `StatusPage.Reconciler.Apply` | src/app/status/page.tsx:86-103 | handling a message sets the state to the handler's result on the previous state, and keeps the state equal to the snapshot with all messages since then folded in |

## Left out

- The `fetch('/api/users')` call and its JSON decoding (lines 48-49). The fetched list is the parameter of `Initialize`. Only a fetch that throws (a network error or a body that is not JSON) leaves the state unchanged, and it only logs; the model has no method for it.
- StatusPage.Reconciler.Initialize: takes a list of records, so it does not model the page storing a JSON body that is not a list. Lines 48-50 check neither `response.ok` nor the body's shape. The proxy answers a failure with a JSON object and status 500 (src/app/api/users/route.ts:7-12), and line 50 stores that object as the state. After that, every `sync_status_update` (`prevUsers.map`, line 88) and every `new_user` (`...prevUsers`, line 102) throws inside the state updater.
- Logging with `console.log` and `console.error`.
- The guard on the subscription and the save, call and restore of its original `received` handler (lines 60-62, 75-78, 106-111). That handler only logs. Which callback the subscription object holds is not part of this model. If the subscription does not exist yet when the page mounts (it is created after a dynamic import, src/lib/actioncable.ts:26), the guard at line 60 installs no handler, and the effect never runs again because its dependency list at line 113 is empty. No message is then ever applied, which the model covers only as a history with no messages.
- Messages whose `user` payload is missing or whose named fields are missing or of the wrong type at run time. The model gives every payload the six named fields with their declared types. A missing `user` is not modelled. For `new_user` it makes the handler itself throw (line 95). For `sync_status_update` the payload is read inside the state updater (line 89), so when the list is non-empty the error comes out when React computes the new state, not in the handler; on an empty list the callback never runs and nothing throws.
- `id` is a JavaScript number compared with `===`. It is modelled as an unbounded integer, so non-integer ids and `NaN` are not modelled.
- Values of fields beyond the six named ones are modelled as strings, not as arbitrary JSON values.
- The table columns, sorting, filtering and pagination (lines 115-177). These are library calls and rendering.
- The locale- and time-zone-dependent formatting of `synced_at` (lines 153-157).
- `server.js` (the Socket.IO relay), `src/lib/actioncable.ts` (subscription setup), `src/app/api/users/route.ts` (the HTTP proxy) and `src/app/page.tsx` (the submission form) are not part of this model. They are network and UI glue with no list logic.
- Concurrency between the snapshot fetch and incoming messages is reduced to an interleaving of `Initialize` and `Apply` calls on one object. Each call is atomic.
