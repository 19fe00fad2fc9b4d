# WhatsApp webhook relay — a Dafny model of its request-handling core

The server is one Express application (`index.js`). This project models the
three routes that hold its decisions and its state:

- `GET /webhook`, the provider's subscription handshake. The handler compares
  the query parameters `hub.mode` and `hub.verify_token` with `"subscribe"` and
  the fixed token `"my_verify_token"`. It either echoes `hub.challenge` with 200,
  answers 403, or (when mode or token is missing or falsy) returns without answering.
- `POST /webhook`, the ingestion of a notification envelope. The guard is
  `body.object && body.entry`. The handler then reads only
  `entry[0].changes[0]?.value.messages` and pushes one
  `{from, text, timestamp}` record per message onto the in-memory store, in order.
  A message whose `text.body` is missing or falsy (the empty string included) is
  stored with the text `"No text message"`. The reply is 200 `{status: "received"}`
  or 404 `{error: "Invalid payload"}`.
- `GET /api/messages`, which returns the store as it is.

The model keeps the JavaScript semantics these handlers depend on (module `Js`).
A request body is a JSON value with `undefined` for missing properties.
Truthiness follows JavaScript's rules. A property access throws a TypeError on
`null` or `undefined`, while `?.` short-circuits. A TypeError thrown in the
`POST` handler is an explicit outcome, `ServerError`: Express's default error
handler answers it with 500. These are all the throws that can happen:

- The body itself is `null` or `undefined`, so `body.object` throws.
- The first entry is nullish: `entry: []` is truthy, so `entry[0].changes` is
  read from `undefined`; likewise `entry: [null]`, `entry: {}` or `entry: 1`.
- The first entry has no `changes`, or `changes: null` (`entry: [{}]`,
  `entry: "x"`), so `changes[0]` is read from `undefined` or `null`.
- `changes[0]` may be present without a `value`.
- `messages` may be truthy but not an array, so `forEach` is not a function.
- A `null` message may appear in the array: `msg.from` throws.
- A message's `from`, or its text, may be an object with its own `toString`
  property (or an array holding one). The log line `${from}: ${text}` then cannot
  convert it to a string and throws, before the record is pushed.

The last two fire in the middle of the loop, so the records pushed for the
messages before the throwing one stay in the store.

Modules:

- `Js` (`js.dfy`): JavaScript values, truthiness, property access.
- `Handshake` (`handshake.dfy`): the `GET /webhook` decision, a pure function.
- `Ingest` (`ingest.dfy`): the `POST /webhook` handler as pure functions of
  the old store, the body and the clock (`Locate`, `Normalise`, `Records`,
  `Handle`), and the lemmas about it.
- `Store` (`store.dfy`): the store as the class `MessageStore`. Its field
  `messages` is the module-level array. `ReceiveWebhook` and its loop
  `ForEachMessage` update it in place and are proved equal to `Ingest.Handle`.
  `ListMessages` reads it.

The clock is a parameter: `now(i)` is the string `new Date().toISOString()`
returns for the `i`-th message of the request.

Facts about the code that the model keeps:

- A handshake without mode or token gets no response (`Handshake.Reply.Silent`).
- `entry: []`, `entry: [{}]` and a `changes[0]` without `value` throw
  (`EmptyEntryThrows`, `MissingChangesThrows`, `EntryWithoutChangesThrows`,
  `MissingValueThrows`).
- A message without text is stored with the text `"No text message"`.
- There is no `try`, so a throw inside the loop leaves a partial batch in the
  store (`ThrowingMessageStopsLoop`).

## Model

| member | source | states |
|---|---|---|
| `Js.Own` | index.js:49-53 | when a property read finds something: never on `null`/`undefined` (so a chain reads as `?.` does); on an object exactly when the own property is there; on an array or a string exactly for index 0 of a non-empty one; and a hit implies the container was truthy |
| `Handshake.Verify` | index.js:23-38 | 200 with body exactly the challenge iff mode is `"subscribe"` and token is `"my_verify_token"`; 403 iff both are truthy and a comparison fails; no response iff either is missing or falsy |
| `Handshake.StatusOfHandshake` | index.js:30-37 | the status written is 200 iff mode is `"subscribe"` and token is `"my_verify_token"`, 403 iff both are truthy and a comparison fails, and none iff either is missing or falsy |
| `Handshake.StatusIgnoresChallenge` | index.js:30-35 | the status never depends on the challenge |
| `Handshake.AcceptedEchoesChallenge` | index.js:31-33 | a correct handshake returns the challenge string unchanged |
| `Handshake.WrongOrMissingToken` | index.js:30-37 | with mode `"subscribe"`, a wrong non-empty token gets 403, an empty or missing one gets no response |
| `Ingest.Locate` | index.js:48-51 | classifies the body: invalid iff `object` or `entry` is falsy; a batch iff `object` is truthy and `entry[0].changes[0].value.messages` is an array, and then the batch is that array; nothing to store iff `changes[0]` is missing or `messages` falsy; a TypeError exactly when a `.` read in `body.object` or `entry[0].changes[0]?.value.messages` hits `null`/`undefined`, or `messages` is truthy but not an array |
| `Ingest.Normalise` | index.js:52-61 | throws iff the message is `null` or its `from` or shown text cannot be converted to a string for the log line; otherwise the record has the message's `from`, the clock reading, and `text.body` when truthy, else `"No text message"` |
| `Ingest.FirstFault` | index.js:51-61 | the index of the first message on which the callback throws (or the length): the callback throws on it and on no earlier message |
| `Ingest.Records` | index.js:51-63 | after `k` turns the loop has produced exactly `k` records, the `j`-th being the normalised `j`-th message with the `j`-th clock reading |
| `Ingest.Handle` | index.js:45-69 | the handler only ever appends: the old store is a prefix of the new one, and nothing is stored unless a batch was located |
| `Ingest.InvalidEnvelopeRejected` | index.js:48-68 | the handler's response is 404 iff the body's `object` or `entry` is falsy, and then its body is `{error: "Invalid payload"}` and the store is unchanged |
| `Ingest.ResponseOfHandle` | index.js:48-68 | the response is always 200, 404 or 500; it is 200 iff the envelope is valid and nothing throws; and every 200 has the same body `{status: "received"}` |
| `Ingest.ValidEnvelopeAppendsInOrder` | index.js:49-65 | a batch on none of whose messages the callback throws gets 200 and appends exactly one record per message, in message order, after the untouched old store |
| `Ingest.NothingToStoreSucceeds` | index.js:49-65 | a valid envelope whose `changes[0]` is missing, or whose `messages` is falsy, gets 200 and leaves the store unchanged |
| `Ingest.EmptyEntryThrows` | index.js:48-49 | `entry: []` passes the guard and then throws: 500, store unchanged |
| `Ingest.NullishBodyThrows` | index.js:46-48 | a `null` or missing body throws at `body.object`: 500, store unchanged |
| `Ingest.MissingChangesThrows` | index.js:49 | a valid envelope whose first entry is nullish or has no `changes` (or `changes: null`) throws: 500, store unchanged |
| `Ingest.EntryWithoutChangesThrows` | index.js:48-49 | `{"object": "x", "entry": [{}]}` throws: 500, store unchanged |
| `Ingest.MissingValueThrows` | index.js:49 | `changes[0]` without `value` throws: 500, store unchanged |
| `Ingest.ThrowingMessageStopsLoop` | index.js:51-62 | a message the callback throws on (`null`, or an unprintable `from` or text) stops the loop with 500, and the records of the messages before it stay stored |
| `Ingest.UnprintableSenderThrows` | index.js:52-62 | a batch whose only message has a `from` that is an object with its own `toString` gets 500 and stores nothing |
| `Ingest.RedeliveryDuplicates` | index.js:51-63 | delivering a received envelope again appends the same records again, differing at most in timestamp (no deduplication) |
| `Store.MessageStore.constructor` | index.js:10 | the store starts empty |
| `Store.MessageStore.ReceiveWebhook` | index.js:45-69 | the in-place handler leaves exactly the reply and the store that `Ingest.Handle` gives for the old store, and keeps the old store as a prefix |
| `Store.MessageStore.ForEachMessage` | index.js:51-63 | the `forEach` loop appends the records of all messages before the first one the callback throws on, and completes iff there is none |
| `Store.MessageStore.ListMessages` | index.js:74-75 | 200 with exactly the current store, and nothing is modified |

## Left out

- Express setup, JSON body parsing, environment loading and `app.listen` (index.js:1-7, 79-80): framework plumbing. A request is taken as an already parsed JSON value.
- `POST /api/send-whatsapp` (index.js:3, 13): its controller lives in another file; `controllers/whatsappController.js` is not part of this model.
- The liveness route `GET /` (index.js:15-17): it only sends a constant string.
- `console.log` calls (index.js:32, 61): what they print is not modelled. The string conversion at index.js:61 is modelled, because it can throw (`Js.ToStringThrows`); numbers, booleans, strings and `null` always convert.
- The clock (index.js:58): each reading is an opaque string passed in as `now(i)`.
- How the store is serialised to JSON by `GET /api/messages`: `ListMessages` returns the records themselves.
- The body of the 500 response: it is Express's default error page, so `Respond` fixes only its status.
- Concurrency between requests: the model handles one request at a time against the store.
- Numbers: kept as reals, since the handlers only test them for zero; floating point is not modelled.
- `Js.Own`: exact only for the property names the handlers read (the type `Js.Key`). Other names, such as `length`, array indices above 0 and inherited prototype members, are not modelled.
- Media download, persistence, CORS and file-upload routes do not occur in `index.js`.
