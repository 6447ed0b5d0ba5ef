# Presence registry and signaling relay of a small chat server, in Dafny

This project models the audio-call core of a Node.js chat application (an
Express and socket.io server, `server.js`, and its browser client,
`client.js`), and proves properties of that model.

- **Presence registry** (`registry.dfy`, `server.dfy`): the server's
  `audioUsers` object, which maps a socket id to a username. Socket ids are
  non-numeric strings, so the object enumerates its keys in insertion order,
  and assigning to an existing key keeps it in place. The table is therefore
  an ordered sequence of `(socket id, username)` pairs with distinct ids.
  The class `Server.SignalServer` holds this table and the per-socket
  `socket.username`. It also keeps a log of every emit, with its audience:
  everyone, everyone but one socket, or exactly one socket.
  `join-audio`, `leave-audio` and `disconnect` are its methods.
- **Signaling relay** (`server.dfy`): `audio-offer`, `audio-answer` and
  `ice-candidate` scan the table in enumeration order. Each forwards the
  payload unchanged to the first socket whose username equals `payload.to`,
  and drops it silently if there is none. Payload bodies are a type
  parameter, so the model cannot inspect them.
- **Account table** (`accounts.dfy`): `POST /register` and `POST /login`
  over the `users` map, with their status and message texts, for string
  request fields (what other JSON values do is listed under "Left out").
- **Client helpers** (`markup.dfy`, `calls.dfy`):
  - `escapeHtml` and the initials of the default avatar.
  - The `pcs` map of peer connections, keyed by remote username.
  - The handlers that create, use and drop its entries, and the guards
    that ignore payloads addressed to someone else and refuse
    self-calls. Peer connections are opaque handles. The calls made on
    them are logged, and so are the signaling events the client emits.
- **Scenarios** (`scenarios.dfy`): end-to-end walks through one server and
  two clients, checked from the contracts alone. They follow two joins, an
  offer that reaches only its addressee, an offer to an absent name, a
  disconnect, and a full offer/answer exchange.

Three behaviours of the code that the model keeps as they are:

- `leave-audio` always broadcasts `audio-users` and `audio-left`, even for a
  socket that has no entry. In that case `audio-left` carries `undefined`
  if the socket never joined.
- `disconnect` is not the same as `leave-audio`. It acts only when the
  socket's entry is truthy, so an entry whose username is `""` outlives its
  socket.
- When two sockets share a username, payloads go to the first one in
  enumeration order, not to the most recent join.

## Model

| member | source | states |
|---|---|---|
| `Registry.Lookup` | server.js:92 | `audioUsers[sid]` is absent exactly when no entry has that socket id |
| `Registry.Put` | server.js:77 | `audioUsers[sid] = name` grows the table by one entry exactly when `sid` had none, and the table then holds `(sid, name)`; `PutLookup`, `PutInPlace` and `PutUnique` state the rest |
| `Registry.PutLookup` | server.js:77 | after `audioUsers[sid] = name`, `sid` reads back `name` and every other socket reads what it did before |
| `Registry.PutInPlace` | server.js:77 | an existing entry is overwritten at its own position; a new one is appended at the end |
| `Registry.PutUnique` | server.js:77 | the assignment keeps socket ids distinct |
| `Registry.Remove` | server.js:86 | `delete audioUsers[sid]` never grows the table and leaves no entry for `sid`; `RemoveLookup`, `RemoveInPlace` and `RemoveUnique` state the rest |
| `Registry.RemoveLookup` | server.js:86 | after `delete audioUsers[sid]`, `sid` has no entry and every other socket reads what it did before |
| `Registry.RemoveInPlace` | server.js:86 | deleting an absent id changes nothing; deleting a present one cuts out exactly that entry and keeps the others in order |
| `Registry.RemoveUnique` | server.js:86 | the deletion keeps socket ids distinct |
| `Registry.RemoveIdempotent` | server.js:85-88 | two `leave-audio` leave the same table as one |
| `Registry.Names` | server.js:79 | `Object.values(audioUsers)` has one name per entry, and a name appears in it exactly when some entry holds it |
| `Registry.HolderAt` | server.js:102-107 | the scan stops at the first entry named `payload.to`, or runs off the end when there is none |
| `Registry.Holder` | server.js:102-107 | the relay target is `None` exactly when no entry has the name, and otherwise the socket of the first entry so named |
| `Registry.JoinedNameRoutesToJoiner` | server.js:101-107 | after a socket joins under a name no other socket uses, payloads to that name go to that socket |
| `Registry.LeftNameIsDropped` | server.js:101-107 | after the only socket with a name leaves, payloads to that name are dropped |
| `Registry.Apply` | server.js:75-96 | one `join-audio`, `leave-audio` or `disconnect` changes no other socket's entry |
| `Registry.Replay` | server.js:75-96 | after a whole history, a socket with no event in it reads the entry it had before |
| `Registry.Track` | server.js:75-96 | one socket's entry under its own events: unchanged without events, none after a final leave, the joined name after a final join |
| `Registry.ReplayTracksEachSocket` | server.js:75-96 | after any history of joins, leaves and disconnects, ids stay distinct, and each socket's entry depends only on that socket's own events: the last join wins, a leave clears it, and a disconnect clears it unless the name is `""` |
| `Server.SignalServer.constructor` | server.js:70 | the table and the emit log start empty |
| `Server.SignalServer.JoinAudio` | server.js:75-83 | records `socket.username`; stores the name in place; appends exactly one `audio-users` to everyone (post-update names, table order, duplicates kept), then one `new-audio-user` to everyone but the joiner |
| `Server.SignalServer.LeaveAudio` | server.js:85-89 | removes the socket's entry if any, and always emits `audio-users` to everyone and `audio-left` with the socket's last joined name (or `undefined`) to the others |
| `Server.SignalServer.Disconnect` | server.js:91-98 | when the entry exists and is truthy, does exactly what `leave-audio` does, and `audio-left` carries the removed name; otherwise the table and the log are unchanged; other sockets' entries never change |
| `Server.SignalServer.FirstHolder` | server.js:102-107 | the `for...in` loop with `break` finds nothing exactly when no entry has the name, and otherwise the socket of the first entry so named |
| `Server.SignalServer.Relay` | server.js:101-126 | emits the payload unchanged, under its own event name, to exactly the first socket named `payload.to`; emits nothing when there is none; the table never changes |
| `Server.SignalServer.AudioOffer` | server.js:101-108 | the `audio-offer` relay, as `Relay` |
| `Server.SignalServer.AudioAnswer` | server.js:110-117 | the `audio-answer` relay, as `Relay` |
| `Server.SignalServer.IceCandidate` | server.js:119-126 | the `ice-candidate` relay, as `Relay` |
| `Accounts.RegisterOn` | server.js:32-49 | a missing or empty username or password gets "Введите логин и пароль"; a taken name gets "Такой логин уже существует"; either way the table is unchanged; otherwise "Регистрация успешна" and exactly one record is added, with the avatar or null, all others kept |
| `Accounts.UserStore.Register` | server.js:32-49 | the in-place update of the table, in the corrected own-entry reading: it answers and changes the table as `RegisterOn` says |
| `Accounts.UserStore.constructor` | server.js:16-21 | the store starts from whatever table was loaded |
| `Accounts.Login` | server.js:52-67 | an unknown name gets "Пользователь не найден"; a wrong or missing password gets "Неверный пароль"; otherwise ok with the given username and the stored avatar or null; the table is never changed. The key read is `KeyOf(username)`, so a missing username field looks up the name "undefined" |
| `Accounts.RegisteredUserLogsIn` | server.js:41-64 | after a successful registration, login with the same password succeeds with the stored avatar, and login with any other password is refused |
| `Accounts.RegisterAsWritten` | server.js:38-39 | as written, a registration that succeeds never uses a name inherited from `Object.prototype`; `users[username]` is read through `Property`, which finds own records, then inherited names |
| `Accounts.LoginAsWritten` | server.js:55-64 | as written, login succeeds only for a name `users[...]` finds (`Property` of `KeyOf(username)`), and any inherited name without a password field logs in |
| `Accounts.AsWrittenAgreesOffInheritedNames` | server.js:38-58 | away from the inherited property names, the lookup as written answers exactly as the own-entry lookup |
| `Accounts.InheritedNameLogsInAsWritten` | server.js:55-61 | as written, "toString" with no password logs in on an empty table; the own-entry lookup answers "not found" |
| `Accounts.InheritedNameTakenAsWritten` | server.js:38-39 | as written, "constructor" is reported as taken on an empty table; the own-entry lookup registers it |
| `Markup.Escape` | client.js:233-235 | the escaped text never contains a raw `<`, `>` or `"`, and is never shorter than the input |
| `Markup.EscapeHtml` | client.js:233-235 | a missing or empty value escapes to the empty string; the output never contains a raw `<`, `>` or `"` |
| `Markup.Entity` | client.js:234 | a character other than `&<>"` is kept as it is; each of those four becomes an entity that starts with `&` and ends with `;` |
| `Markup.EscapeAppend` | client.js:234 | escaping distributes over concatenation, and a single character becomes its entity: `&`→`&amp;`, `<`→`&lt;`, `>`→`&gt;`, `"`→`&quot;`, anything else itself |
| `Markup.EscapePlainText` | client.js:234 | text with none of `&<>"` is left exactly as it is |
| `Markup.UnescapeEscape` | client.js:234 | decoding the four entities recovers the original text, so escaping loses nothing |
| `Markup.Initials` | client.js:217 | the first one or two characters of the name, upper-cased; "?" for a missing or empty name; always one or two characters, none of them lower-case |
| `Markup.Upper` | client.js:217 | `toUpperCase` on one character never leaves a lower-case a–z, а–я or ѐ–џ letter, and leaves every character outside those ranges as it is |
| `Calls.CallClient.constructor` | client.js:4-6 | the client starts with no peer connections and nothing sent |
| `Calls.CallClient.CreatePeerConnectionFor` | client.js:258-295 | returns the existing connection with `remote` and adds nothing; otherwise adds exactly one entry, for `remote`, holding the new connection |
| `Calls.CallClient.EndCall` | client.js:351-358 | no-op for an unknown peer; otherwise closes that connection and removes exactly its entry, the others unchanged |
| `Calls.CallClient.HandleAnswer` | client.js:332-338 | does nothing for an unknown sender; otherwise applies the answer to the sender's connection |
| `Calls.CallClient.HandleRemoteIce` | client.js:340-349 | does nothing for an unknown sender; otherwise adds the candidate to the sender's connection |
| `Calls.CallClient.HandleOffer` | client.js:315-330 | with a new sender, adds exactly one connection, applies the offer to it, sets the answer and sends it back to the sender; with a connection already open, changes nothing, since adding the tracks again throws (client.js:321) |
| `Calls.CallClient.OnAudioOffer` | client.js:100-104 | an offer not addressed to this user changes nothing; otherwise as `HandleOffer`, so an offer from a peer with an open connection also changes nothing |
| `Calls.CallClient.OnAudioAnswer` | client.js:105-108 | an answer not addressed to this user changes nothing; otherwise as `HandleAnswer` |
| `Calls.CallClient.OnIceCandidate` | client.js:109-112 | a candidate not addressed to this user changes nothing; otherwise as `HandleRemoteIce` |
| `Calls.CallClient.StartCallTo` | client.js:297-313 | calling oneself, or a peer with a connection already open (adding the tracks again throws, client.js:304), changes nothing; otherwise adds exactly one connection, sets the offer on it and sends it addressed to `remote` |
| `Calls.CallClient.OnLocalCandidate` | client.js:276-280 | a discovered candidate is sent to the remote peer; the final null candidate is not |
| `Calls.CallClient.OnConnectionStateChange` | client.js:288-292 | a disconnected, failed or closed connection ends the call as `EndCall`; any other state changes nothing |

## Findings

| source | as written | input that shows it | evidently intended | confidence | as-written member | corrected member |
|---|---|---|---|---|---|---|
| server.js:55-61 | `users[username]` also finds the properties every object inherits from `Object.prototype`. They are truthy and their `password` is `undefined`, which equals a missing password field. | `POST /login` with body `{"username":"toString"}` and no `toString` account: the answer is `{ok: true, username: "toString", avatar: null}` | "Пользователь не найден" for any name without an account of its own | high; not executed | `Accounts.InheritedNameLogsInAsWritten` | `Accounts.Login` |
| server.js:38-39 | The same lookup makes `if (users[username])` treat inherited names as taken. | `POST /register` with `{"username":"constructor","password":"secret"}` on an empty table answers "Такой логин уже существует" | the name is free, so registration succeeds | medium; not executed | `Accounts.InheritedNameTakenAsWritten` | `Accounts.RegisterOn` |

## Left out

- Transport and setup are not modelled: Express, http, socket.io, static files, `server.listen` and `console.log`. Emits are entries of the server's log, and their audiences stay symbolic. The set of connected sockets is not modelled.
- Persistence is not modelled: reading `users.json` at start-up and `saveUsers`. `Accounts.UserStore.constructor` takes the loaded table as given.
- The chat handlers (`chat message`, `chat image`, `clear-messages`) are not modelled. They stamp messages with the wall clock and only fan out.
- Browser work is not modelled: DOM rendering, notices, alerts, `fetch`, `FileReader` and `setTimeout`. The client's own pre-checks before `/register` and `/login` (client.js:39-76) are UI glue in front of the server's rules.
- Media is not modelled: `getUserMedia` (`ensureLocalStream`), adding local tracks, `ontrack`, and everything `RTCPeerConnection` does. A new connection, an offer, an answer and a candidate are parameters. The model records only which calls are made on which connection.
- The default avatar's SVG and `encodeURIComponent` are not modelled; only the initials are.
- Asynchronous interleaving is not modelled: each handler runs to completion.
- Only string values are modelled for usernames, `password`, `avatar`, `payload.to` and `payload.from`. Other JSON values are not. For example, a `join-audio` sent without a name stores `undefined`, which would then match payloads that have no `to`. A `password` given as the number 123 passes `!password` and is stored as a number, so a later login with the string "123" is refused with "Неверный пароль". A truthy non-string `avatar` is stored as it is.
- The `messages: []` field of a successful `/login` answer is not modelled: it is always the empty list.
- `Markup.Upper`, `Markup.Initials`: upper-case only Latin a-z and Cyrillic а-я and ѐ-џ. The full Unicode case mapping, which can lengthen text (ß becomes SS), is not modelled. Characters are code points, while `slice` counts UTF-16 code units, so a name that starts with a character outside the Basic Multilingual Plane gets different initials.
- `Calls.CallClient.CreatePeerConnectionFor`, `Calls.CallClient.StartCallTo`, `Calls.CallClient.HandleOffer`, `Calls.CallClient.OnAudioOffer`: `pcs` holds own entries only. As written, `pcs` is a plain object, so `pcs[remote]` also finds a name inherited from `Object.prototype`, such as "constructor", "toString" or "__proto__" (the lookup shown in Findings). For such a peer the code's `createPeerConnectionFor` returns `pcs[remote].pc`, which is `undefined` (client.js:259). The next `pc.addTrack` then throws (client.js:304, 321), so `startCallTo` sends no offer and `handleOffer` sends no answer. The model instead adds an entry and sends. Any socket can join under such a name, since `join-audio` accepts any name (server.js:75-77).
- `Calls.CallClient.EndCall`: the `removeUi` flag only decides whether the call box is removed from the page, so it is not a parameter. The failure of `pc.close()` that the code swallows is not modelled.
- `Calls.CallClient.HandleRemoteIce`: a rejected `addIceCandidate` is caught and only logged, so the model records the call either way.
- `Calls.CallClient.StartCallTo`: apart from the second `addTrack` on an open connection (client.js:304), which always throws and is modelled as a call that changes nothing, the model assumes every browser call succeeds. In the code, a refused `getUserMedia` makes `ensureLocalStream` alert and rethrow (client.js:252-255), so `startCallTo` stops before any `pcs` entry or emit (client.js:300). A rejected `createOffer` or `setLocalDescription` (client.js:307-308) leaves the new `pcs` entry in place with no offer sent.
- `Calls.CallClient.HandleOffer`: apart from the second `addTrack` on an open connection (client.js:321), which always throws and is modelled as a call that changes nothing, the model assumes every browser call succeeds. In the code, a rejected `setRemoteDescription`, `createAnswer` or `setLocalDescription` (client.js:324-326) leaves the new `pcs` entry in place with no answer sent.
- `Calls.CallClient.OnAudioOffer`: apart from the throwing `addTrack` of `HandleOffer` on an open connection (client.js:321), the model assumes every browser call succeeds. In the code, a refused `getUserMedia` stops the listener at `ensureLocalStream` (client.js:102), before any `pcs` entry or emit.
- `Calls.CallClient.StartCallTo`: the `if (!me)` branch, before login, is not modelled. The client object exists only after login, with `me` set.
