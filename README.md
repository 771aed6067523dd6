# Messagely routes: access control and token issuance

A model of the two route modules of a small messaging backend: the message
routes (`GET /:id`, `POST /`, `POST /:id/read`) and the authentication
routes (`POST /login`, `POST /register`).

- `common.dfy` (module `Common`): usernames, timestamps, the errors a handler
  forwards to the error path, and the `Option`/`Result` wrappers.
- `messages.dfy` (module `Messages`): the message table as a value `Store`
  and as a class `MessageStore`; the store operations of the message model
  (`Message.get`, `Message.create`, `Message.markRead`) modelled minimally,
  with their failures and the clock as parameters; each
  handler as a function from store to response and new store, with the
  sender/recipient rules in its contract; and the handlers as module-level
  methods that take a `MessageStore`, proved against those functions.
- `message_traces.dfy` (module `MessageTraces`): any sequence of requests to
  the message routes, and what holds of the table afterwards.
- `auth.dfy` (module `Auth`): the login/register decision (received, then
  authenticated or rejected), the row registration stores and the
  last-login update on a `UserStore` class, and lemmas over sequences of
  attempts.

The authenticated username is an input to every message handler: the login
gate that sets it is not part of this model. `User.authenticate`,
`User.register` (code in `models/user.js`, outside this model) and the token
signer are each a function parameter; `authenticate` and `register` see the
user table as it stands, and the signer may throw. The database clock's
readings are parameters too: a registration has one for the row
`User.register` stores (`registeredAt`) and a later one for the last-login
update (`now`). So is the failure of each database call made by code in
`models/message.js`, outside this model: the lookup (`lookupFault`), the
insert and the mark-read update (`fault`).

## Model

| member | source | states |
|---|---|---|
| `Messages.GetMessage` | routes/messages.js:17-29 | a message is returned exactly when the lookup succeeds, the message exists and the requester is its sender or recipient. It is then the record the lookup produced. A failing lookup or a missing id surfaces as the lookup's own error, ahead of the permission check. Anyone else gets 401 "Cannot read this message". |
| `Messages.ReadMessage` | routes/messages.js:17-29 | the handler gives the response `GetMessage` describes and changes nothing (it has no modifies clause) |
| `Messages.MarkReadStep` | routes/messages.js:56-67 | a lookup failure (a failing database call or a missing id) is forwarded and wins over the permission check. The sender or a third party gets 401 "You cannot mark this message read" and the store is unchanged. For the recipient, markRead is called for that id and its result is the response. Only the recipient's request changes the store, and only that message's read_at. |
| `Messages.MarkMessageRead` | routes/messages.js:56-67 | the handler's response and new table are those of `MarkReadStep`; on any failure the table is unchanged; the table stays well formed |
| `Messages.PostStep` | routes/messages.js:37-48 | the created message has the requester as its sender, the requested recipient and body, and is unread. Every message the store gains is sent by the requester. Existing messages are untouched. A failure of the insert is forwarded unchanged. |
| `Messages.PostMessage` | routes/messages.js:37-48 | the handler's response and new table are those of `PostStep`; the created message's sender is the requester |
| `Messages.ClaimedSenderIgnored` | routes/messages.js:39-42 | a `from_username` in the request body has no effect on what is created |
| `Messages.PostStepAsWritten` | routes/messages.js:39-43 | the route as written always fails with the TypeError from `req.bod` and leaves the table unchanged |
| `Messages.PostAsWrittenNeverCreates` | routes/messages.js:41 | on every input where the intended route creates a message, the route as written fails and creates none |
| `Messages.Lookup` | routes/messages.js:20 | `Message.get` succeeds exactly when its database call does and the id is stored, and then gives that stored row. A failing call gives its error; a missing id gives the lookup's own failure. |
| `Messages.MessageStore.Get` | routes/messages.js:58 | the same lookup, read from the object's fields |
| `Messages.MarkReadOp` | routes/messages.js:62 | markRead changes only the given message, and only its read_at. Its receipt is `{id, read_at}` for that id. A fault leaves the table unchanged and is the error. |
| `Messages.CreateOp` | routes/messages.js:39-43 | create inserts one unread message under a fresh id and keeps every existing message. A fault leaves the table unchanged and is the error. |
| `Messages.MessageStore.MarkRead` | routes/messages.js:62 | the in-place update matches `MarkReadOp` and keeps the table well formed |
| `Messages.MessageStore.Create` | routes/messages.js:39-43 | the in-place insert matches `CreateOp` and keeps the table well formed |
| `MessageTraces.RunKeepsWellFormed` | routes/messages.js:37-67 | after any sequence of requests, every message still sits under its own id, below the next id |
| `MessageTraces.ReadAtChangesOnlyByRecipient` | routes/messages.js:56-67 | after any sequence of requests, a message keeps its sender, recipient, body and send time. Its read_at differs only if the sequence held a successful mark-read of that id by its recipient. |
| `MessageTraces.NewMessagesSentByRequester` | routes/messages.js:37-48 | after any sequence of requests, every new message was created by a post in the sequence, run against the store of its time, whose requester is the message's sender |
| `Auth.LoginResponse` | routes/auth.js:16-29 | a token is issued exactly when authenticate returns `true` itself (strict `===`) and signing succeeds. The token is what `sign({username})` gives for the requested name. An error thrown by authenticate or by the signer is forwarded unchanged. Any other answer, truthy or not, is 400 "Invalid username/password". |
| `Auth.LoginStep` | routes/auth.js:16-29 | the response is `LoginResponse`. No user is added or removed and no other row changes. That user's last login is stamped exactly when a token is issued. |
| `Auth.Login` | routes/auth.js:16-29 | the handler's response and new table are those of `LoginStep` of the table before the call. On success, only that username's last-login time is updated. On rejection, including a signing error, the users are unchanged. |
| `Auth.RegisterResponse` | routes/auth.js:38-52 | a token is issued exactly when register resolves to a truthy value and signing succeeds. The token is what `sign({username})` gives for the registered name. An error thrown by register (a duplicate username, say) or by the signer is forwarded unchanged. A falsy answer gets the same 400 as a failed login. |
| `Auth.Registered` | routes/auth.js:41 | when register resolves, the table gains exactly the new row under that username, joined and last logged in at register's clock reading; when it throws, the table is unchanged |
| `Auth.UserStore.Insert` | routes/auth.js:41 | the in-place insert matches `Registered` |
| `Auth.RegisterStep` | routes/auth.js:38-52 | the response is `RegisterResponse`. Only the registered username's row can appear or change. A resolving register stores the new row, whose last login is the later update's stamp exactly when a token is issued and register's own stamp otherwise. A throwing register leaves the table unchanged. |
| `Auth.Register` | routes/auth.js:38-52 | the handler's response and new table are those of `RegisterStep` of the table before the call. On success the user's last login is the update's stamp. On a rejection after register resolved, it is register's own stamp. |
| `Auth.StrictLoginTruthyRegister` | routes/auth.js:19-44 | for the same username and signer, every answer login accepts, register accepts too. Not conversely: the number 1 is accepted by register and rejected by login. |
| `Auth.Touched` | routes/auth.js:22 | updateLoginTimestamp sets that user's last login to `now` and changes no other row. An unknown username leaves the table as it was (best effort, never failing the route). |
| `Auth.UserStore.UpdateLoginTimestamp` | routes/auth.js:45 | the in-place update matches `Touched` |
| `Auth.LastLoginChangesOnlyOnAcceptance` | routes/auth.js:19-48 | when register throws for a name already in the table, then after any sequence of login and register attempts an existing user's row is still there and keeps everything but its last-login time. That time changes only if some attempt for that username was accepted against the table as it stood at that attempt. |
| `Auth.NewUsersWereRegistered` | routes/auth.js:38-52 | after any sequence of attempts, every user the table gains was registered by an attempt for that username whose register call resolved |

## Left out

- The web framework's plumbing (router, request and response objects, `res.json`, `next`, the error middleware): handlers return a `Result` whose error is what would go to `next`.
- The login gate in front of the message routes: the authenticated username is an input.
- Token signing and verification and the signing secret: signing is the function parameter `sign` applied to the payload `{username}`; it yields a token or a thrown error, and no decoding is modelled.
- The bodies of `User.authenticate`, `User.register`, `Message.get`, `Message.create` and `Message.markRead` (database and password-hash code not part of this model). Their answers are parameters, or abstract operations on the table. Sender and recipient profiles in a message are reduced to their usernames.
- Auth.Registered: the body of `User.register` is not part of this model. The model stores the registration's name and phone, with register's clock reading as both `join_at` and `last_login_at`, as the user-route tests expect of a freshly registered user. It stores the row whenever register resolves, truthy or not.
- Auth.LastLoginChangesOnlyOnAcceptance: requires that register throws for a username already in the table (the table's primary key). Without that, a resolving re-registration would replace the row.
- The created message returned by `POST /` is the stored row, `read_at` included; the route's documented response lists only `{id, from_username, to_username, body, sent_at}`.
- Messages.MarkReadOp: requires the id to be present, because the routes call it only after a successful lookup; what markRead does with a missing id is unseen. It stamps `read_at` even on a message already read. The routes do not prevent re-marking, and no set-once rule in the store is assumed.
- `updateLoginTimestamp` is not awaited in the source. It is modelled as a synchronous best-effort update whose failure is dropped; no concurrency is modelled.
- Parsing `req.params.id` from a string is not modelled; ids are integers.
- JavaScript values are reduced to what the routes' tests on them distinguish; `NaN` and other floating-point values are left out.
- The user routes and their integration tests are outside the two route modules and not modelled.

## Findings

| source | as written | input that shows it | evidently intended | confidence | as-written member | corrected member |
|---|---|---|---|---|---|---|
| routes/messages.js:41 | `to_username: req.bod.to_username` reads a property of the undefined `req.bod` | any `POST /`, e.g. user `alice` posting `{to_username: "bob", body: "hi"}`: a TypeError goes to the error path and no message is created | `req.body.to_username`: the message from `alice` to `bob` is created | high (not executed) | `Messages.PostStepAsWritten` (shown by `Messages.PostAsWrittenNeverCreates`) | `Messages.PostStep` |

The rest of the model (`PostMessage`, the request sequences) uses the intended route.
