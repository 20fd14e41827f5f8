# Notification store of the GGCraft front end, in Dafny

This project models the client-side notification cache of the GGCraft web client
(`src/stores/notifications.ts`) and the pure settings derived when its push
channel client is built (`src/plugins/echo.ts`).

The store keeps a newest-first list of notification records, at most 50 after
any insertion. It drops an incoming record whose type and truthy `payload.id`
are already present. It patches the `payload.status` of earlier
`invitation.created` records when a response to the invitation arrives. It marks
records read and clears the list. After each of these changes it writes the
first 50 records to a single storage slot, and it reads that slot back,
normalising every entry, when it starts. It subscribes to the private channel
`private-users.<userId>` while a user is signed in. Each event name bound on that
channel adds a record, and a catch-all handler re-applies the status patch for
invitation responses.

Files:

- `js.dfy` (module `Js`): the JavaScript semantics the store relies on. It has a
  scalar `Value` type, truthiness, `||`, and the text a value takes in a template
  literal, including decimal rendering of numbers.
- `echo.dfy` (module `Echo`): the authorization endpoint derived from
  `VITE_API_URL`, the bearer header and the `forceTLS` flag.
- `registry.dfy` (module `Registry`): the records and the pure list transforms
  behind `add`, `updateInvitationStatus`, `markAsRead`, `markAllAsRead` and
  `unreadCount`, plus the records the three event handlers build. It also holds
  `MapPatch`, the loop that patches the list and raises the `updated` flag.
- `storage.dfy` (module `Storage`): the storage slot, `loadFromStorage` and
  `persist`.
- `store.dfy` (module `Store`): the store as a class. Its fields are `items`, the
  `stored` slot, the `client` and `channel` of the push subscription, and a trace
  of the calls made on the push client. The module also holds the pure effect of
  each inbound event.

Host facilities are parameters:

- the clock (`new Date().toISOString()`) is a `now` parameter;
- `makeId()` is a `freshId` parameter;
- the environment variables are a `SocketEnv` record;
- what `connect` reads from the auth store (`auth.token` and `auth.user?.id`) is
  given as its arguments.

Local storage is the `stored` field. It holds a `Slot`, which describes the
slot's text by what `JSON.parse` makes of it: unset, unparsable, not an array, or
an array of entries. `persist` stores the entries that `JSON.parse` would return
for the text `JSON.stringify` wrote.

## Model

| member | source | states |
|---|---|---|
| `Js.Or` | src/stores/notifications.ts:66 | the or-default is its first operand when that is truthy and its second otherwise, and it is truthy exactly when at least one operand is |
| `Js.IntToDecimalInjective` | src/stores/notifications.ts:150 | different user ids render as different decimal strings |
| `Js.Text` | src/stores/notifications.ts:71-112 | inside a template literal a string gives itself, a number its decimal digits and a missing value the text `undefined` |
| `Echo.StripTrailingSlashes` | src/plugins/echo.ts:10 | the result is the longest prefix of the URL that does not end in `/`; everything removed is slashes |
| `Echo.StripTrailingSlashesUnique` | src/plugins/echo.ts:10 | these properties determine the stripped string uniquely |
| `Echo.StripTrailingSlashesIdempotent` | src/plugins/echo.ts:10 | stripping twice is stripping once |
| `Echo.StripIgnoresExtraSlashes` | src/plugins/echo.ts:10 | `base` and `base` followed by any number of slashes strip to the same string |
| `Echo.AuthEndpoint` | src/plugins/echo.ts:10-11 | the endpoint is the stripped base plus `/broadcasting/auth` exactly when that base ends in `/api`, and the base plus `/api/broadcasting/auth` exactly when it does not |
| `Echo.AuthEndpointSuffix` | src/plugins/echo.ts:11 | every endpoint ends in `/api/broadcasting/auth`, and the stripped base is what comes before that suffix, or that plus `/api`, so `/api` is never doubled |
| `Echo.AuthEndpointIgnoresTrailingSlashes` | src/plugins/echo.ts:10-11 | trailing slashes on `VITE_API_URL` never change the endpoint |
| `Echo.AuthHeaders` | src/plugins/echo.ts:23 | there is an `Authorization` header exactly when the token is non-empty, its value is `Bearer ` followed by the token, and no other header exists |
| `Echo.ForceTls` | src/plugins/echo.ts:9-17 | TLS is forced exactly when the scheme setting is `https`; an unset scheme defaults to `http` and does not force it |
| `Echo.CreateSocket` | src/plugins/echo.ts:5-25 | the client settings carry the derived endpoint, headers and TLS flag; the host is the setting or `localhost` when it is empty, and the key is the setting or `local` when it is empty |
| `Registry.Bounded` | src/stores/notifications.ts:43 | `slice(0, 50)` keeps the first min(50, length) records, unchanged and in order |
| `Registry.AddItem` | src/stores/notifications.ts:54-60 | a duplicate leaves the list as it was; otherwise the new record is first, the list has min(50, old length + 1) records, and after the first come the newest of the old records in their old order |
| `Registry.AddDuplicateIsNoOp` | src/stores/notifications.ts:54-58 | when an existing record has the new record's type and the same truthy `payload.id`, `add` leaves the list unchanged |
| `Registry.AddWithoutIdAlwaysInserts` | src/stores/notifications.ts:54-60 | a record whose `payload.id` is absent or falsy is never a duplicate and is always inserted at the front |
| `Registry.AddPrependsAndEvictsOldest` | src/stores/notifications.ts:60 | a non-duplicate goes first, the list has min(50, old length + 1) records, and the rest is the newest part of the old list, so the oldest are evicted |
| `Registry.PatchStatus` | src/stores/notifications.ts:80-86 | the patch keeps the number of records |
| `Registry.PatchStatusAt` | src/stores/notifications.ts:80-86 | the patch keeps length and order; a matching `invitation.created` record gets the new `payload.status` and no other change; every other record is unchanged |
| `Registry.PatchStatusNoMatch` | src/stores/notifications.ts:78-90 | with no matching invitation the patch leaves the list unchanged |
| `Registry.PatchStatusIdempotent` | src/stores/notifications.ts:78-90 | applying the patch twice with the same token and status is applying it once |
| `Registry.PatchStatusAppend` | src/stores/notifications.ts:80-86 | the patch of a list extended by one record is the patch of the list extended by that record patched, which is how the `map` goes record by record |
| `Registry.PatchStatusPrefix` | src/stores/notifications.ts:60-86 | patching then cutting to a prefix equals cutting then patching |
| `Registry.PatchStatusKeepsDuplicates` | src/stores/notifications.ts:55-86 | the patch never changes which records count as duplicates for `add` |
| `Registry.AddItemPatchCommute` | src/stores/notifications.ts:54-90 | inserting a record that is not an `invitation.created` commutes with the status patch |
| `Registry.PatchStatusKeepsUnread` | src/stores/notifications.ts:80-86 | the status patch does not change the unread count |
| `Registry.MapPatch` | src/stores/notifications.ts:79-86 | the loop returns the patched list, and `updated` is true exactly when some invitation matched; when none matched the list is unchanged |
| `Registry.Unread` | src/stores/notifications.ts:52 | the unread count never exceeds the number of records |
| `Registry.UnreadAtMostLength` | src/stores/notifications.ts:52 | the unread count is at most the list length, and it is 0 exactly when every record is read |
| `Registry.MarkRead` | src/stores/notifications.ts:120 | marking by id keeps the number of records |
| `Registry.MarkReadAt` | src/stores/notifications.ts:119-120 | `markAsRead(id)` keeps length and order, sets `read` on the records with that id and changes nothing else |
| `Registry.MarkReadIdempotent` | src/stores/notifications.ts:119-120 | `markAsRead` is idempotent and never raises the unread count |
| `Registry.MarkAllRead` | src/stores/notifications.ts:125 | marking all keeps the number of records |
| `Registry.MarkAllReadAllRead` | src/stores/notifications.ts:124-125 | after `markAllAsRead` each record is the old one with `read` set, and the unread count is 0 |
| `Registry.MarkAllReadIdempotent` | src/stores/notifications.ts:124-125 | `markAllAsRead` is idempotent |
| `Registry.InvitationCreatedItem` | src/stores/notifications.ts:64-76 | the record is an unread `invitation.created` titled `隊伍邀請` with the fresh id and time. Its payload is the event with `status` kept when truthy and `pending` otherwise, so the stored status is always truthy, and a well-formed event gives a well-formed payload. The message names the team by its name, or by `team_id` when the name is missing or empty |
| `Registry.InvitationRespondedItem` | src/stores/notifications.ts:92-101 | the record is an unread `invitation.responded` titled `邀請更新` carrying the event unchanged as its payload. The message names the user, or `成員` when the name is missing or empty, followed by the event's status |
| `Registry.MemberRemovedItem` | src/stores/notifications.ts:107-116 | the record is an unread `team.member.removed` titled `隊伍通知` carrying the event unchanged as its payload. The message names the team by its name, or by `team.id` when the name is missing or empty |
| `Storage.Normalise` | src/stores/notifications.ts:27-35 | each loaded field keeps its stored value when present. Otherwise `type` becomes `info`, `title` becomes `通知`, `message` becomes empty, and `id` and `createdAt` become fresh values. `read` is the truthiness of the stored flag |
| `Storage.Load` | src/stores/notifications.ts:21-40 | loading never fails. An unset slot, unparsable text, a non-array value or a `null` element gives `[]`. Otherwise there is one normalised record per stored entry, in order, each with a non-empty type and title |
| `Storage.Snapshot` | src/stores/notifications.ts:43 | the stored entry keeps every field of the record, and its `read` value is truthy exactly when the record is read |
| `Storage.Persisted` | src/stores/notifications.ts:42-44 | the slot holds an array of min(50, length) entries, and entry `i` is the snapshot of record `i` |
| `Storage.LoadAfterPersist` | src/stores/notifications.ts:21-44 | loading what was persisted returns min(50, length) records. Message, payload and read flag always survive, and a record with every defaulted field present comes back unchanged. A list of such records comes back as its first 50 records |
| `Store.Responded` | src/stores/notifications.ts:92-105 | the response is `add` of the response record, then the status patch exactly when the token is truthy; when `add` found a duplicate and the patch matched nothing, the list is unchanged |
| `Store.Ingest` | src/stores/notifications.ts:151-153 | each of the three bound event names gives its handler's list (`add` of the invitation or removal record, or the response); an event name with no bound handler changes nothing, and neither does a handler that inserted no record and patched no invitation |
| `Store.Fallback` | src/stores/notifications.ts:154-159 | the catch-all is the status patch for a response with a truthy token and status, and the identity otherwise; it keeps the length and the unread count, and changes nothing unless some invitation matches |
| `Store.FallbackHarmless` | src/stores/notifications.ts:151-159 | running the `bind_global` fallback before or after an event's own handler leaves the same list as the handler alone |
| `Store.ChannelName` | src/stores/notifications.ts:150 | the channel name is `private-users.` followed by exactly the decimal text of the user id |
| `Store.ChannelNameInjective` | src/stores/notifications.ts:150 | different users subscribe to different channels |
| `Store.Teardown` | src/stores/notifications.ts:134-143 | `disconnect` with no client makes no call; with a client it closes it, unsubscribing the channel first when one is held |
| `Store.NotificationStore.constructor` | src/stores/notifications.ts:47-50 | the store starts with the loaded list, the slot as found, and no client or channel |
| `Store.NotificationStore.UnreadCount` | src/stores/notifications.ts:52 | `unreadCount` is at most the list length and is 0 exactly when every record is read |
| `Store.NotificationStore.Persist` | src/stores/notifications.ts:42-44 | after `persist` the slot holds the persisted form of the current list |
| `Store.NotificationStore.Add` | src/stores/notifications.ts:54-62 | a duplicate changes neither the list nor the slot. Otherwise the list is the new bounded list (at most 50 records) and the slot mirrors it |
| `Store.NotificationStore.UpdateInvitationStatus` | src/stores/notifications.ts:78-90 | the list becomes the patched list. The slot is rewritten when some invitation matched, and neither changes when none did |
| `Store.NotificationStore.AddInvitationCreated` | src/stores/notifications.ts:64-76 | the list is `add` of the invitation record. The slot is rewritten to mirror the list exactly when the record was not a duplicate; a duplicate changes neither |
| `Store.NotificationStore.AddInvitationResponded` | src/stores/notifications.ts:92-105 | the list is `add` of the response record, followed by the status patch only when the event has a truthy token. The slot is rewritten to mirror the list exactly when the record was inserted or the patch matched an invitation; otherwise neither changes |
| `Store.NotificationStore.AddMemberRemoved` | src/stores/notifications.ts:107-117 | the list is `add` of the removal record. The slot is rewritten to mirror the list exactly when the record was not a duplicate; a duplicate changes neither |
| `Store.NotificationStore.MarkAsRead` | src/stores/notifications.ts:119-122 | the list is marked read by id and always persisted, even when nothing changed |
| `Store.NotificationStore.MarkAllAsRead` | src/stores/notifications.ts:124-127 | every record is read, the unread count is 0, and the list is persisted |
| `Store.NotificationStore.Clear` | src/stores/notifications.ts:129-132 | the list and the slot's array are empty and the unread count is 0 |
| `Store.NotificationStore.Disconnect` | src/stores/notifications.ts:134-143 | afterwards neither a client nor a channel is held. The calls made are exactly those of `Teardown`, so a second `disconnect` makes none |
| `Store.NotificationStore.Connect` | src/stores/notifications.ts:145-153 | without a truthy token and a truthy user id nothing changes. Otherwise the old subscription is torn down first, one client is opened with the derived settings, and exactly one channel, `private-users.<userId>`, is subscribed |
| `Store.NotificationStore.OnAnyEvent` | src/stores/notifications.ts:154-159 | the catch-all handler patches statuses only for a responded event with a truthy token and status. The slot is rewritten to mirror the list exactly when it applies and some invitation matches; otherwise neither changes |
| `Store.NotificationStore.Deliver` | src/stores/notifications.ts:151-159 | with no channel an event changes nothing. With a channel the catch-all runs first and then the bound handler, and the list becomes the effect of the bound handler alone. The slot is rewritten to mirror the list exactly when the catch-all or the handler wrote it; otherwise neither changes |

## Left out

- The push client itself is not modelled: creating the client, `subscribe`, `bind`, `unsubscribe` and the network. Only the client settings, the channel name and a trace of these calls are kept. Event delivery is the `Deliver` method, which runs the catch-all before the named handler; `FallbackHarmless` shows the other order gives the same list.
- `Echo.CreateSocket` does not model the port (`Number(VITE_WEBSOCKETS_PORT || 6001)`), because it converts text to a floating-point number. It also leaves out the fixed options (`enabledTransports`, `disableStats`, `cluster`).
- JSON text is not modelled. A `Slot` stands for what `JSON.parse` returns, and `persist` stores the parse of what `JSON.stringify` writes, which for these records is the same data.
- `Storage.Load` does not model entries whose `id`, `type`, `title`, `message` or `createdAt` is a truthy non-string value, which JavaScript would keep as is. A stored string field is a string, and the empty string stands for missing or falsy.
- A non-object element of the stored array is treated like an object with no fields, which is how JavaScript reads it. A `null` element makes the whole load give `[]`, because reading its fields throws.
- Values are modelled without floating point: numbers are integers, and `NaN` and fractional ids are left out.
- An absent record payload (a stored record whose `payload` is missing) is a payload whose fields are all Undefined. For record payloads the store cannot tell the two apart, because it reads them only with `?.`.
- Inbound event data is always an object here. The three bound handlers read `event.status`, `event.user` and `event.team` without `?.`, so `null` or `undefined` data makes them throw before `add`, leaving the list and the slot unchanged. The model has no such event and does not capture that error path. The catch-all guards with `data?.token` and does not throw.
- A `Payload` keeps only scalar values. Nested objects or arrays inside an event, the fields of `team` and `user` other than `name` and `id`, and the way `JSON.stringify` drops keys whose value is undefined are not represented. The store never reads any of these, so its behaviour does not depend on them.
- The storage write in `persist` always succeeds here; a full or unavailable storage, which would throw, is not modelled.
- `makeId()` and the clock are parameters. Nothing guarantees that record ids are unique, and the model does not claim it.
- The bound of 50 records is guaranteed only after `add`. `loadFromStorage` does not truncate, so a slot written by other code with more than 50 entries is loaded whole. The model states the bound where the code enforces it.
- `connect` returns without doing anything when either the token or the user id is missing, not only when both are. It then leaves an existing subscription in place, and the model keeps this behaviour.
- `disconnect` keeps the channel when it is set without a client. That state cannot be reached, and `Valid()` excludes it.
- The auth store, Vue/Pinia reactivity (`ref`, `computed`, `defineStore`), logging and the REST service wrappers are not part of this model.
