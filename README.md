# Instance session bookkeeping of a multi-instance WhatsApp gateway

`app.js` runs one whatsapp-web.js client per caller-chosen *instance ID* behind an Express
server. Around the library and database calls sits a small amount of bookkeeping: three
tables keyed by instance ID, the lifecycle event handlers that update them, the registration
at the end of `createClient`, the startup replay of stored sessions, and the guards and
lookups of the HTTP routes. This project models that bookkeeping in Dafny and proves what it
guarantees.

- `Lifecycle` (lifecycle.dfy): the tables as a value (`State`: `clients`, `qrCodes` and the
  MySQL `sessions` table as a `map<string, string>`), one function per event handler, `Step`
  and `Run` over event sequences, and lemmas over whole runs.
- `Manager` (manager.dfy): class `SessionManager`, whose fields are the three tables and
  whose methods are the handlers, `createClient`'s start and finish, and the replay loop,
  each proved to change the fields exactly as `Step`/`Run` say.
- `Routes` (routes.dfy): the route handlers as functions returning a `Reply`, with the
  library calls' outcomes as inputs; the `/get-media` search is also written as the loop the
  handler runs (`FindMediaMessage`).
- `Scenarios` (scenarios.dfy): event sequences end to end.
- `Types`, `Find`, `Text`, `Wrappers`: handles, chats and messages; `Array.prototype.find`;
  `String.prototype.includes`; `Option`.

Events are handled one at a time. Behaviours of app.js a caller may not expect, all kept in
the model:

- The duplicate check of `/add-device` and the registration are not one atomic step.
  `clients[id]` is written only after
  `client.initialize()` settles (app.js:94), so a second `/add-device` for an ID whose first
  creation is still initializing is accepted, and the handle that settles last is kept
  (`Scenarios.SecondAddDeviceAcceptedDuringInit`, `Scenarios.LastSettledHandleKept`).
- `authenticated` does not clear the pending QR; only `ready` does. Between the two,
  `/get-qr` still serves the old code (`Scenarios.QrSurvivesAuthentication`).
- `/get-qr` and the `refId` echo test JavaScript truthiness, so an empty string counts as
  absent.
- An initialization that throws still registers its handle; no failed state is kept.
- A handle becomes usable by the reading routes only when the library fills in
  `client.info` on that very object (the `InfoSet` event); app.js itself never writes it.
- `/send-media` appends `@c.us` unconditionally (and sends to `undefined@c.us` when `number`
  is missing), while `/send-message` appends it only when the number does not contain it.

## Model

| member | source | states |
|---|---|---|
| Types.DataPathsIsolated | app.js:43-46 | the client is created with the instance's own ID, and two instances share a `LocalAuth` data path iff they have the same ID |
| Types.RecentWindow | app.js:254 | the messages a fetch with `limit` yields are the `limit` most recent ones of the chat (all of them when there are fewer) |
| Text.Contains | app.js:156 | `includes`: true exactly when the searched string occurs at some index of the string |
| Types.NewClient | app.js:43-46 | a new client has the given identity, the instance's ID as `clientId`, a data path under `./wwebjs_auth/` ending in the ID, and is not ready |
| Find.First | app.js:247 | `find`: the index of the first element satisfying the test, and None iff no element does |
| Lifecycle.OnQr | app.js:48-56 | an encoded QR overwrites the instance's entry; an encoding failure changes nothing; other entries, `clients` and the table are unchanged |
| Lifecycle.OnReady | app.js:58-61 | the instance's QR entry is gone, other entries unchanged, `clients` and the table untouched; a no-op when there was no entry |
| Lifecycle.OnAuthenticated | app.js:63-71 | a written upsert sets the row to "Authenticated", inserting or overwriting it; other rows, `clients` and `qrCodes` untouched; a failed write changes nothing |
| Lifecycle.OnDisconnected | app.js:77-84 | the set of rows never changes; an existing row becomes "Inactive" when the write succeeds; `clients` keeps the handle and `qrCodes` is untouched |
| Lifecycle.OnInitSettled | app.js:86-94 | the handle is stored under the ID whether or not `initialize` threw; other handles and the other tables unchanged |
| Lifecycle.OnInfoSet | app.js:216 | the library filling in `client.info`: the stored client with that identity becomes ready in place, nothing else changes; a client not stored under the ID changes nothing |
| Lifecycle.Step | app.js:48-94 | no event drops a handle, only a written `authenticated` adds a row, known statuses stay known, and `auth_failure` changes nothing |
| Lifecycle.RunKeepsHandles | app.js:77-84 | over any run, every registered instance stays in `clients`: disconnecting does not unregister |
| Lifecycle.RowsOnlyFromAuthenticated | app.js:63-84 | over any run, a row exists only if it existed before or a written `authenticated` for its ID occurred |
| Lifecycle.RunKeepsStatusesKnown | app.js:65-66 | over any run, a table holding only "Authenticated"/"Inactive" keeps holding only those |
| Lifecycle.QrStaysCleared | app.js:48-61 | once an instance has no pending QR it gets none back until a QR is encoded for it |
| Lifecycle.RegistrationOnlyBySettling | app.js:87-94 | until an initialization for the ID settles, the ID is in `clients` iff it was before, holding the same client object |
| Lifecycle.ReplayEventsSettleRows | app.js:35-38 | the replay is one settled `createClient` per stored row, in row order: the i-th event settles the i-th row's client |
| Lifecycle.ReplayRegistersEveryRow | app.js:35-38 | replay registers every stored ID whatever each initialization did, adds no other ID, and leaves `qrCodes` and the table as they were |
| Lifecycle.ReplayKeepsOtherHandles | app.js:35-38 | replay leaves the handle of every ID without a stored row unchanged |
| Lifecycle.ReplayLastRowWins | app.js:35-38 | after replay each stored ID holds the handle created for its last row |
| Manager.SessionManager.constructor | app.js:11-12 | the process starts with empty `clients` and `qrCodes` and the table as stored |
| Manager.SessionManager.OnQr | app.js:48-56 | updates the fields as `OnQr` |
| Manager.SessionManager.OnReady | app.js:58-61 | updates the fields as `OnReady` |
| Manager.SessionManager.OnAuthenticated | app.js:63-71 | updates the fields as `OnAuthenticated` |
| Manager.SessionManager.OnAuthFailure | app.js:73-75 | changes no field |
| Manager.SessionManager.OnDisconnected | app.js:77-84 | updates the fields as `OnDisconnected` |
| Manager.SessionManager.OnInfoSet | app.js:216 | updates the fields as `OnInfoSet` |
| Manager.SessionManager.AddDevice | app.js:105-111 | changes nothing; answers as `Routes.AddDevice`; constructs the instance's client exactly when `clients` lacks the ID |
| Manager.SessionManager.FinishCreate | app.js:86-94 | stores the handle whether or not `initialize` threw, as `OnInitSettled` |
| Manager.SessionManager.ReplaySessions | app.js:29-40 | given the rows the table holds, a failed query changes nothing; otherwise the fields end as the run of one settled initialization per row, in row order, and every instance with a stored row ends with a handle |
| Routes.AddDevice | app.js:105-112 | AlreadyExists iff `clients` holds the ID, otherwise accepted for that ID |
| Routes.GetQr | app.js:115-123 | the stored URL iff a non-empty one is stored, NotAvailable otherwise, for an unknown instance and a QR-less one alike |
| Routes.NormaliseNumber | app.js:156 | the address always contains "@c.us"; a number containing it is kept, any other gets it appended |
| Routes.NormaliseIdempotent | app.js:156 | normalising twice equals normalising once |
| Routes.BareAndSuffixedAgree | app.js:156 | a bare number and the same number with "@c.us" appended normalise to the same address |
| Routes.SendMessage | app.js:147-176 | InstanceNotFound iff the instance is unknown, checked before anything else; a missing number throws; success iff the send resolves, to the normalised address, with the message ID, and with `refId` iff it was given non-empty; a rejected send is the handler's failure with its error |
| Routes.MediaAddressAlwaysAppends | app.js:195 | `/send-media` always appends "@c.us", so an already suffixed number differs from what `/send-message` dispatches to; a missing number gives "undefined@c.us" |
| Routes.MediaAddress | app.js:195 | the address always contains "@c.us": the number, or "undefined" when absent, with "@c.us" appended |
| Routes.SendMedia | app.js:183-201 | InstanceNotFound iff unknown; success iff fetch and send both resolve, to the appended address with the caption or ""; a fetch failure or send failure is reported with its error |
| Routes.Guard | app.js:212-218 | Missing iff no handle, Unready iff a handle without `info`, otherwise the stored handle |
| Routes.ChatBackup | app.js:208-227 | InstanceNotFound iff unknown, NotReady iff known without `info`; success iff ready and `getChats` resolves, with exactly its chats; a rejected `getChats` is the handler's failure with its error |
| Routes.GetMessages | app.js:232-260 | InstanceNotFound iff unknown, NotReady iff known without `info`; a rejected `getChats` fails with its error; ChatNotFound iff no chat has the user; for the first chat with the user, a resolving fetch answers its `limit` most recent messages and a throwing one fails with its error |
| Routes.Window | app.js:281 | a chat's scanned messages are exactly its 100 most recent ones, all of them when it has no more |
| Routes.CarriesMedia | app.js:282 | a message matches iff it has the requested ID and has media |
| Routes.ScanChats | app.js:278-287 | the search stops at the first chat (in order) whose window has a match, at its first match, or at the first chat whose fetch throws; every chat before the stop was fetched and has no match in its window; Miss iff that holds of all chats |
| Routes.FindMediaMessage | app.js:280-287 | the loop with `break` computes exactly the search `ScanChats` specifies |
| Routes.GetMedia | app.js:263-299 | InstanceNotFound iff unknown, NotReady iff known without `info`; a rejected `getChats` or a throwing fetch fails with its error; a miss is MediaNotFound; at the first match, resolved media is the answer, vanished media is MediaNotFound, and a throwing download fails with its error |
| Routes.OlderMediaIsMissed | app.js:281-282 | media older than a chat's 100 most recent messages is reported MediaNotFound |
| Scenarios.SecondAddDeviceAcceptedDuringInit | app.js:105-111 | a second `/add-device` for an ID still initializing is accepted |
| Scenarios.LastSettledHandleKept | app.js:94 | of two creations for one ID, the handle that settles last is kept |
| Scenarios.QrSurvivesAuthentication | app.js:48-71 | after `qr` then `authenticated` the QR is still served and the row says "Authenticated" |
| Scenarios.LoginThenDisconnect | app.js:48-84 | after `qr`, `authenticated`, `ready` the QR is gone and the row says "Authenticated"; after a disconnect the row says "Inactive" and the instance is still registered |
| Scenarios.ReadyClientServesChats | app.js:208-222 | a registered client whose `info` the library filled in passes the guards and `/get-chat-backup` returns its chats |
| Scenarios.DisconnectWithoutRowIsNoOp | app.js:79 | a disconnect for an instance without a row changes nothing |
| Scenarios.ReplayIsolatesFailures | app.js:35-38 | replaying "A" and "B" registers both although "A"'s initialization threw |
| Scenarios.SendMessageScenarios | app.js:152-156 | an unknown instance is InstanceNotFound; "555" and "555@c.us" normalise to "555@c.us" |

## Left out

- Express routing, CORS, JSON bodies and status codes: each route's outcome is a `Reply` case.
- The MySQL connection (a connection error is fatal at startup) and the SQL text: the table
  is a map, and each write's success is an input (a failed write is only logged).
- whatsapp-web.js itself: `initialize`, `sendMessage`, `getChats`, `fetchMessages` and
  `downloadMedia` are outcomes given as inputs; `Handle.ready` stands for `client.info`, which
  the library writes (the `InfoSet` event) and app.js only reads. `fetchMessages({limit})` is taken to give the `limit` most recent
  messages; the string-to-number coercion of the `limit` path parameter is not modelled.
- `qrcode.toDataURL` and `MessageMedia.fromUrl`: opaque calls whose result or failure is an input.
- Asynchrony: events, requests and settled initializations are handled one at a time in
  some order; the concurrent initializations started by replay are registered in row order.
  A client orphaned by a duplicate creation keeps running inside the library; that is not modelled.
- Inherited keys: `clients` and `qrCodes` are plain JavaScript objects, so an ID naming an
  `Object.prototype` member (`constructor`, `toString`, `__proto__`, ...) finds an inherited
  value (for example `/add-device/constructor` answers "Instance already exists." on a fresh
  process, and `/send-message` for it throws). The model's tables are maps without inherited
  entries, so it covers only IDs that are not such names.
- Console logging, the `message`, `mediaType` and fetched media contents passed through to
  the library, query parameters given more than once, and the commented-out route
  (app.js:129-145).
