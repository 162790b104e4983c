# WhatsApp session bridge: key store, credential loading and connection lifecycle

This project models the deterministic core of a small service. The service keeps a WhatsApp
(Baileys) session's credentials in a Supabase table and exposes a "send message" HTTP endpoint.
The model covers four parts of `index.js`:

- **Key store** (`KeyStore`): the `keys.get` / `keys.set` callbacks over the nested table
  `creds.keys : category -> id -> value`. `AuthState.Get` is a loop over the requested ids and
  is proved equal to the specification function `Fetched`. `AuthState.Set` is a loop over the
  categories of the update and is proved to produce `Merge`. Values are JavaScript values with
  JavaScript truthiness (`JsValues`), so `null` deletions can be represented.
- **Credential loading** (`CredsLoad`): `readData() || initAuthCreds()`. The outcome of the
  Supabase select is an input. The library's default record is a parameter.
- **Connection lifecycle** (`Connection`): the module-level `sock` and `isConnected` become the
  fields of class `Service`. `Service.Start` models `startWhatsAppConnection`, including its
  catch. `Service.OnConnectionUpdate` models the `connection.update` handler and returns whether
  it restarts. `Service.Send` models the `/api/send` guard.
- **Recipient ids** (`SendApi`): `number.replace(/\D/g, '') + '@s.whatsapp.net'` and the
  503/500/200 decision of `/api/send`.

Opaque library parts are parameters, because every Dafny member here has a body:
`proto.Message.AppStateSyncKeyData.fromObject` is the function argument `fromObject`,
`initAuthCreds()` is the argument `defaults`, and `DisconnectReason.loggedOut` is the
constant field `Service.loggedOut`.

Three behaviours of the code are modelled as written:

- `keys.set` does not guard against an absent `creds.keys`. Indexing it throws on the first
  category, so `AuthState.Set` returns `ok == false` and leaves the record unchanged. With an
  empty update the loop never runs and nothing throws. A record built from defaults that have
  no `keys` property therefore answers every `get` with `{}` (`CredsLoad.DefaultsHaveNoKeys`).
- A stored payload that `JSON.parse` rejects makes `readData` throw. The exception ends the
  connection attempt in `startWhatsAppConnection`'s catch, and no restart follows. It is not
  treated as "no stored session" (`CredsLoad.LoadCreds`, `Connection.Service.Start`).
- A failed select and a missing row both yield `null`, so both load the defaults. The code does
  not tell them apart (`CredsLoad.ErrorAndMissingRowAgree`).

## Model

| member | source | states |
|---|---|---|
| `KeyStore.AuthState.constructor` | index.js:54-57 | the key store is built on the loaded credential record itself: its `creds` is that record |
| `KeyStore.AuthState.Get` | index.js:58-71 | the returned object is `Fetched`: for each requested id whose `creds.keys?.[type]?.[id]` is truthy, the stored value, converted for `app-state-sync-key`; `creds` is not changed |
| `KeyStore.GetOnlyTruthyRequested` | index.js:60-62 | an id is in the result of `get` exactly when it was requested, its category and id are present, and its value is truthy |
| `KeyStore.GetMissingIsEmpty` | index.js:61 | an absent `creds.keys` or an absent category gives an empty object, never an error |
| `KeyStore.GetOnlyStoredExample` | index.js:58-71 | asking for ids `[a, b, c]` where only `b` is stored gives `{b: value}` |
| `KeyStore.GetReturnsStored` | index.js:65-67 | outside `app-state-sync-key`, each returned value is the stored value itself |
| `KeyStore.GetConvertsAppStateKeys` | index.js:63-64 | for `app-state-sync-key`, each returned value is `fromObject` applied to the stored value |
| `KeyStore.Merge` | index.js:72-81 | after a merge, every `(type, id)` of the update holds the update's value; other ids of an updated category and every category not in the update are unchanged; an absent category is created |
| `KeyStore.AuthState.Set` | index.js:72-81 | succeeds exactly when `creds.keys` exists or the update is empty; on success `creds.keys` becomes `Merge(old keys, data)` and the other fields stay; on failure nothing changes |
| `KeyStore.SetThenGetTruthy` | index.js:61-66 | setting a truthy value and then getting its id returns that value (converted for `app-state-sync-key`) |
| `KeyStore.SetThenGetFalsy` | index.js:62 | setting a falsy value such as `null` makes a later `get` omit the id |
| `KeyStore.SetKeepsOtherGets` | index.js:76-79 | a `get` of ids the update did not touch answers as before the update |
| `KeyStore.MergeIdempotent` | index.js:79 | applying the same update twice gives the same table as applying it once |
| `CredsLoad.ReadData` | index.js:46-50 | `None`, a value the caller's `||` discards, on a query error, a missing row (both `null`) or a falsy parsed payload (returned as it is); the parsed record otherwise; a payload that does not parse throws |
| `CredsLoad.LoadCreds` | index.js:52 | the stored record when there is one, the defaults on an error, a missing row or a falsy payload, and a failure only for an unparsable payload |
| `CredsLoad.ErrorAndMissingRowAgree` | index.js:47-48 | a query error and a missing row load the same default record |
| `CredsLoad.DefaultsHaveNoKeys` | index.js:47-52 | on every path that loads the defaults (a query error, a missing row, a falsy payload), defaults without `keys` answer every `get` with an empty object |
| `Connection.ShouldReconnect` | index.js:112 | false exactly when `lastDisconnect`, its `error`, its `output` and `statusCode` are all present and the code equals `loggedOut` |
| `Connection.ReconnectUnlessLoggedOut` | index.js:112 | a missing `lastDisconnect`, error, output or status code reconnects, and so does any status code other than `loggedOut` |
| `Connection.ReplayWithoutEvents` | index.js:106-110 | updates that are neither `open` nor `close` leave `isConnected` unchanged |
| `Connection.ReplayFollowsLastEvent` | index.js:106-111 | after any run of updates, `isConnected` is true exactly when the last open-or-close event was `open` |
| `Connection.Service.constructor` | index.js:35-36 | the service starts with no socket and not connected |
| `Connection.Service.Start` | index.js:89-125 | succeeds exactly when the credentials load and neither `fetchLatestBaileysVersion` nor `makeWASocket` throws; then `sock` is the new socket and the key store holds the loaded record; otherwise `sock` is unchanged |
| `Connection.Service.OnConnectionUpdate` | index.js:103-119 | `open` sets `isConnected`; `close` clears it and requests a restart exactly when `ShouldReconnect`; other updates change nothing |
| `Connection.Service.Send` | index.js:129-149 | the answer is `SendDecision` of the current `isConnected`, whether `sock` exists, and `number` |
| `SendApi.SendDecision` | index.js:132-135 | 503 exactly when not connected or no socket; accepted exactly when connected, with a socket and a string `number`; the recipient id is exactly `DigitsOnly(number) + "@s.whatsapp.net"`, so its leading digits are the digits of `number` and it ends with the suffix |
| `SendApi.DigitsOnly` | index.js:135 | the cleaned number contains only ASCII digits and is no longer than the input |
| `SendApi.DigitsOnlyIsSubsequence` | index.js:135 | the cleaned number keeps the digits in their original order |
| `SendApi.DigitsOnlyCounts` | index.js:135 | every digit occurs in the cleaned number as often as in the input, and no other character occurs |
| `SendApi.DigitsOnlyKeepsDigits` | index.js:135 | a number made only of digits is used unchanged |
| `SendApi.DigitsOnlyIdempotent` | index.js:135 | cleaning twice equals cleaning once |
| `SendApi.DigitsOnlyAppend` | index.js:135 | cleaning a concatenation concatenates the cleaned parts |
| `SendApi.Jid` | index.js:135 | the recipient id is as long as the cleaned number plus the suffix, ends with `@s.whatsapp.net`, and its leading run of digits is exactly the cleaned number |

## Left out

- Supabase I/O: the `upsert` in `writeData` and its log-and-swallow error handling, and the
  `select(...).single()` in `readData`. The select's outcome is the input `ReadOutcome`, and
  `saveCreds` is not modelled.
- `BufferJSON.replacer` / `BufferJSON.reviver`: a library codec whose behaviour the source does
  not show. A parsed payload is an input (`Parsed`).
- A stored payload that parses to a truthy value that is not a credential record (a number,
  say). `Parsed` distinguishes only unparsable, falsy and record payloads.
- Baileys calls: the socket that `makeWASocket` makes is the input `socket`. Whether
  `fetchLatestBaileysVersion` and `makeWASocket` both return without throwing is the input
  `baileysCallsSucceed`. `sock.ev.on` registration and
  `sock.sendMessage` are fire-and-forget, so an accepted request is not followed further.
- QR rendering with `qrcode.generate`, logging, `dotenv`, the environment checks and the
  Express transport (`app.listen`, `/api/status`, `/`). Only the send guard and the recipient
  id of `/api/send` are kept.
- The restart itself: `OnConnectionUpdate` returns the decision, and the caller performs it by
  calling `Start` again. Handlers of a replaced socket stay registered in the source, and their
  later events are not modelled.
- Concurrency between overlapping connection attempts and in-flight credential writes. This is
  asynchronous interleaving, outside a sequential model.
- JavaScript object details: a category value in a `set` update that is not an object, a
  stored category map that is falsy, and ids that collide with `Object.prototype` properties.
  Non-integer numbers (`NaN`) are also left out.
