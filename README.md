# SocketChat presence registry and message relay, in Dafny

SocketChat lets logged-in users exchange text messages in real time, addressed
by phone number. The server keeps one table, `userSocketMap`, from phone to
Socket.IO socket id. Three handlers act on it:

- `register-phone` binds a phone to the socket it arrived on. The last
  registration wins.
- `private-message` looks up the recipient's phone. On a hit it emits the same
  `{from, msg, timestamp}` payload to the recipient's socket and echoes it
  back to the sending socket. On a miss it does nothing.
- `disconnect` scans the table in insertion order and deletes the first entry
  bound to the closing socket.

The client (`Chat` component) does three things. It registers its phone when
the socket connects. It checks the two input fields before emitting
`private-message`. It appends every `receive-message` to its chat log.

The model has four modules:

- `Wrappers` (`wrappers.dfy`) holds `Option`.
- `Presence` (`presence.dfy`) models the server.
  - The table is an insertion-ordered `seq<(Phone, SocketId)>` with distinct
    keys, because a JavaScript `Map` iterates in insertion order.
  - `Lookup`, `Bind` and `Remove` are `Map.get`, `Map.set` and `Map.delete`.
    `Map.set` on an existing key updates the entry where it stands.
  - `Unbind` is what the disconnect scan does. `Relay` is what
    `private-message` emits.
  - Class `Registry` holds the table as its field `entries`. It has one method
    per handler, and each method is proved against those functions.
- `ChatClient` (`chat_client.dfy`) models the client.
  - It has `String.prototype.trim`, the send guard `SendDecision` and the
    chat-log append.
  - Class `Chat` holds the component's state. Emits are collected in `outbox`
    and error toasts in `errors`.
- `Protocol` (`protocol.dfy`) connects the two halves.

`if (toSocketId)` is a JavaScript truthiness test, so an empty socket id
counts as a miss just as an absent key does. The model keeps that test.
Socket.IO never hands out an empty id, so the lemmas about delivery assume a
non-empty one.

Three behaviours of the code are easy to miss:

- The echo goes to the socket the event arrived on. The payload's `from` is
  copied from the event as the client sent it. It is not taken from the
  registry and not checked against the sender's binding.
- `disconnect` removes only the first entry bound to the closing socket. If
  one socket registered several phones, the later entries stay bound to the
  closed socket.
- For that reason a repeated scan for the same id is a no-op only when the
  socket was bound to at most one phone (`UnbindTwice`). Otherwise it would
  remove the next stale entry (`SecondPhoneStaysStale`). In the running
  program a second `disconnect` for one id never arrives: Socket.IO fires
  `disconnect` once per socket, and socket ids are unique. So the later stale
  entries stay in `userSocketMap` until their phone registers again.

## Model

| member | source | states |
|---|---|---|
| Presence.LookupSound | server/index.js:104 | a lookup returns only a value stored under that very key |
| Presence.LookupAt | server/index.js:104 | with distinct keys, every stored entry is found by its key with its value |
| Presence.LookupAbsent | server/index.js:104 | a lookup misses exactly when no entry has that key (both directions) |
| Presence.LookupIff | server/index.js:104 | with distinct keys, lookup of `p` gives `s` exactly when `(p, s)` is in the table |
| Presence.LookupBind | server/index.js:99 | after `set(p, s)`, `p` maps to `s` and every other phone keeps its binding (or its absence) |
| Presence.BindExisting | server/index.js:99 | setting a phone that is already present overwrites its socket id in place; position and all other entries are unchanged |
| Presence.BindNew | server/index.js:99 | setting a new phone appends it after all existing entries |
| Presence.BindKeepsUnique | server/index.js:99 | `set` keeps every phone bound to at most one socket id |
| Presence.RemoveAt | server/index.js:120 | `delete` of a stored phone removes exactly that entry and keeps the order of the rest |
| Presence.UnbindFirst | server/index.js:118-123 | the disconnect scan removes the first entry in insertion order bound to the socket; all other entries keep key, value and order, including later ones bound to the same socket |
| Presence.UnbindNone | server/index.js:118-124 | disconnecting a socket that no entry is bound to changes nothing (never registered, or superseded) |
| Presence.LookupUnbind | server/index.js:117-124 | a disconnect leaves every phone whose binding is not that socket as it was |
| Presence.LiveDisconnect | server/index.js:117-124 | disconnecting a socket that is bound to no phone but `p` makes later lookups of `p` miss |
| Presence.UnbindTwice | server/index.js:117-124 | a repeated disconnect is a no-op when the socket was bound to at most one phone |
| Presence.SecondPhoneStaysStale | server/index.js:118-123 | a socket bound to two phones loses only the first on disconnect; the second stays bound to it until another disconnect of that id |
| Presence.RelayHit | server/index.js:103-112 | a message to a bound recipient gives exactly two `receive-message` emits, to the recipient's socket and then to the sender's socket, with one payload whose `from` and `msg` are the event's; both go to the sender's socket when the recipient is bound to it |
| Presence.RelayMiss | server/index.js:104-105 | a message to an unregistered phone emits nothing: no delivery, no echo, no error |
| Presence.RelayDelivers | server/index.js:104-105 | something is emitted exactly when the recipient has an entry with a non-empty socket id |
| Presence.LastRegistrationWins | server/index.js:98-112 | after registrations of `p` by `s1` and then `s2`, a message to `p` is delivered to `s2` and not to `s1` |
| Presence.SupersededDisconnect | server/index.js:98-124 | after `p` is re-registered from `s1` to `s2`, a disconnect of `s1` keeps `p` bound to `s2` and messages still reach `s2` |
| Presence.Conversation | server/index.js:98-126 | two phones register and one writes to the other, which gets the message while the sender gets the echo; after the recipient disconnects, the next message to it emits nothing |
| Presence.Registry.constructor | server/index.js:93 | the table starts empty |
| Presence.Registry.RegisterPhone | server/index.js:98-101 | the table becomes `Bind(old, phone, sid)`, so `phone` maps to `sid`, every other phone is unchanged and keys stay distinct |
| Presence.Registry.PrivateMessage | server/index.js:103-115 | returns exactly `Relay` of the current table and changes no state (no `modifies`) |
| Presence.Registry.Disconnect | server/index.js:117-126 | the loop leaves the table as `Unbind(old, sid)`: only the first entry bound to `sid` is deleted, and keys stay distinct |
| ChatClient.TrimStartSpec | client/src/routes/Chat.jsx:71 | drops exactly the leading white space: the result is a suffix whose first character is not white space |
| ChatClient.TrimEndSpec | client/src/routes/Chat.jsx:71 | drops exactly the trailing white space: the result is a prefix whose last character is not white space |
| ChatClient.TrimSpec | client/src/routes/Chat.jsx:71 | the trimmed string is empty exactly when every character is white space; otherwise it starts and ends with non-space |
| ChatClient.SendGuard | client/src/routes/Chat.jsx:67-76 | the error is raised exactly when the recipient is empty; a message is sent exactly when a socket exists and both fields hold a non-space character; the emit carries the user's phone and both fields untrimmed; a whitespace-only recipient raises no error and sends nothing |
| ChatClient.AppendEntry | client/src/routes/Chat.jsx:52 | the log grows by one entry `{from, msg, timestamp}` at the end; earlier entries are unchanged |
| ChatClient.Chat.constructor | client/src/routes/Chat.jsx:19-24 | no socket, disconnected, empty message, recipient and chat log |
| ChatClient.Chat.OpenSocket | client/src/routes/Chat.jsx:35-40 | the socket exists afterwards |
| ChatClient.Chat.OnConnect | client/src/routes/Chat.jsx:42-45 | status becomes connected and exactly one `register-phone` with the user's phone is emitted |
| ChatClient.Chat.OnDisconnect | client/src/routes/Chat.jsx:47-49 | status becomes disconnected; nothing else changes |
| ChatClient.Chat.OnReceiveMessage | client/src/routes/Chat.jsx:51-53 | exactly one entry is appended to the chat log and earlier entries stay as they were |
| ChatClient.Chat.SetMessage | client/src/routes/Chat.jsx:204 | the message field takes the typed value |
| ChatClient.Chat.SetRecipientPhone | client/src/routes/Chat.jsx:168 | the recipient field takes the typed value |
| ChatClient.Chat.SendMessage | client/src/routes/Chat.jsx:66-79 | the outcome is `SendDecision` of the fields. On a send, one `private-message` is added to the outbox and the message becomes "". On an empty recipient, one error is logged and the message is kept. Otherwise nothing changes. The recipient field is never changed |
| Protocol.SentMessageArrives | server/index.js:103-112 | the client's emit (client/src/routes/Chat.jsx:72-76), relayed by the server to a registered phone, reaches the recipient's socket and the sender's socket with the typed text and the sender's phone. Appended on receipt (client/src/routes/Chat.jsx:51-53), it becomes the last line of the recipient's chat log |

## Left out

- Socket.IO transport, the HTTP server, CORS and `server.listen`. Emits are returned as values (`Delivery`, `outbox`), not sent.
- Authentication routes, password hashing, the database, sessions and Passport. They are calls into libraries with no logic of their own to verify. `server/auth/passportConfig.js` is not part of this model.
- The clock. `new Date().toLocaleTimeString()` depends on the locale and the time, so the timestamp is an opaque string parameter.
- `console.log` lines, which only log.
- Concurrency. Node runs each handler to completion on one event loop, so every handler is one atomic method. Interleavings and sends to a socket that has just closed are not modelled.
- Non-string values in events. JavaScript lets `phone`, `to`, `from` or `msg` be `undefined` or any other value. The model types them all as strings.
- The client's socket lifecycle beyond `hasSocket`. Buffering of emits before the connection opens, the unmount cleanup `_socket.disconnect()` and re-running the effect when `userPhone` changes are not modelled.
- Rendering, dark mode, clipboard, `setTimeout`, scrolling and the toast display. The toast is modelled only as an entry in `errors`.
- The login, signup, home, routing, private-route and auth-context files. They are fetch calls, routing, `localStorage` and markup.
- ChatClient.TrimSpec: JavaScript strings are UTF-16 code-unit sequences. The model's strings are sequences of Unicode scalar values, so unpaired surrogates are not represented.
