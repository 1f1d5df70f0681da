# Real-time messenger: WebSocket session controller, in Dafny

This project models the WebSocket side of a small chat relay server. Clients
open a socket and send JSON text frames. Each frame carries a `kind`:

- `connection` registers the sender under a user name and announces the
  newcomer to everyone.
- `message` is a chat message, delivered a second later either to everyone or
  back to the sender alone, depending on a randomly drawn delivery state.
- `close` is accepted and ignored.

When a socket closes, its client leaves the registry and the remaining
clients are told.

Two modules model the two core files:

- `WebSocketController` (web_socket_controller.dfy) is imperative. The class
  `Controller` holds the registry `clients` (the source's `Set<Client>`), an
  `outbox` with one `Send(ws, envelope)` entry per `ws.send`, and `pending`,
  the queue of delayed deliveries. Swift's name-only equality on `Client` is
  written out as `InsertByName` and `RemoveByName`. `Valid()` is the invariant
  that no two registered clients share a name. Each `forEach` over the set is a
  loop in `SendToAll` that visits the clients in an unspecified order. That
  order is returned as a ghost sequence, proved to list every registered client
  exactly once. `BroadcastReach` turns it into per-recipient counts: each
  socket gets the envelope once per registered client holding it, so a socket
  outside the registry gets nothing.
- `WSMessage` (ws_message.dfy) is pure. It holds the four-case wire kind enum
  with its raw strings, the parse of a raw string, the kind-only
  `MessageAbstract` probe and the `Message` record.

Following the code, the controller uses its own three-case kind enum and its
own envelope (UUID id, `state` field), separate from the four-case enum in
`WSMessage`. The two are not reconciled. As written, a frame with kind
`"error"` fails to decode in the controller.

Inputs replace what the code takes from the environment: the fresh UUID, the
current date, and the index drawn by `randomElement()` from
`[.error, .received, .received]`. An inbound frame is given in decoded form
(`Frame`): the string in its `kind` field, and the full envelope if the frame
decodes as one.

## Model

| member | source | states |
|---|---|---|
| `WSMessage.FromRaw` | Sources/App/Models/Message/WSMessage.swift:23-28 | parsing succeeds exactly on the four raw values "connection", "close", "message", "error", and the parsed kind's raw value is the parsed string |
| `WSMessage.RawValuesDistinct` | Sources/App/Models/Message/WSMessage.swift:23-28 | two kinds with the same raw value are the same kind, so the four raw strings are pairwise distinct |
| `WSMessage.ParseRawValue` | Sources/App/Models/Message/WSMessage.swift:23-28 | every kind's raw value is one of the four strings, and parsing it gives that kind back |
| `WSMessage.FromRawInjective` | Sources/App/Models/Message/WSMessage.swift:23-28 | two strings that parse to the same kind are equal |
| `WSMessage.DecodeAbstract` | Sources/App/Models/Message/WSMessage.swift:11-13 | decoding the kind probe fails exactly when the `kind` field is missing or is none of the four raw values; on success the kind's raw value is the field |
| `WebSocketController.DecodeKind` | Sources/App/Controllers/WebSocketController.swift:160-168 | the controller's probe decodes exactly "connection", "close" and "message" (so "error" fails), each to its own case |
| `WebSocketController.InsertByName` | Sources/App/Controllers/WebSocketController.swift:18-24 | insertion under name-only equality keeps names unique. The names become the old names plus the new one. A present name leaves the set unchanged, so the old socket keeps the slot. A fresh name adds exactly the new client |
| `WebSocketController.RemoveByName` | Sources/App/Controllers/WebSocketController.swift:114 | removal by name drops that name and only that name, and keeps names unique |
| `WebSocketController.RemoveByNameUnique` | Sources/App/Controllers/WebSocketController.swift:113-117 | in a registry with unique names, removing a registered client's name removes exactly that client, and the size drops by one |
| `WebSocketController.RegisterAllFresh` | Sources/App/Controllers/WebSocketController.swift:75-78 | connections with pairwise distinct, unregistered names all register: the registry grows by one client per connection and holds each of them |
| `WebSocketController.RegisterAllKeeps` | Sources/App/Controllers/WebSocketController.swift:78 | a registered client is never displaced by later connections, duplicates included |
| `WebSocketController.FanoutCount` | Sources/App/Controllers/WebSocketController.swift:89-91 | one pass over distinct clients sends to a socket exactly as many times as it visits clients holding that socket |
| `WebSocketController.BroadcastReach` | Sources/App/Controllers/WebSocketController.swift:128-130 | every send of a broadcast carries the envelope. Each socket receives it once per registered client holding it: never when no client holds it, exactly once when one client does |
| `WebSocketController.LastHolderGone` | Sources/App/Controllers/WebSocketController.swift:66 | after the only client holding a socket is removed, no client holds it, so a repeated close of that socket finds nothing |
| `WebSocketController.Controller.constructor` | Sources/App/Controllers/WebSocketController.swift:31 | the registry starts empty, with nothing sent and nothing scheduled |
| `WebSocketController.Controller.FirstClientWith` | Sources/App/Controllers/WebSocketController.swift:66 | finds a name exactly when some registered client holds the socket, and the client with that name holds it |
| `WebSocketController.Controller.SendToAll` | Sources/App/Controllers/WebSocketController.swift:89-91 | appends one send of the envelope per registered client, in an order that lists each registered client exactly once |
| `WebSocketController.Controller.ConnectionHandler` | Sources/App/Controllers/WebSocketController.swift:75-92 | an undecodable body changes nothing. Otherwise the sender is inserted by name and the `.connection` notice (that name, empty text, state received) goes once to every client of the new registry and to no one else |
| `WebSocketController.Controller.MessageHandler` | Sources/App/Controllers/WebSocketController.swift:94-99 | sends nothing and leaves the registry alone. The decoded envelope, with the drawn state, is queued for later delivery from this sender |
| `WebSocketController.Controller.Deliver` | Sources/App/Controllers/WebSocketController.swift:99-110 | runs the oldest queued delivery. In the error state the envelope goes to the sender's socket only. Otherwise it goes once to each client registered at delivery time. The registry is untouched |
| `WebSocketController.Controller.CloseHandler` | Sources/App/Controllers/WebSocketController.swift:113-131 | a name not registered changes nothing and sends nothing. Otherwise the name leaves the registry and the `.close` notice carrying it goes once to each remaining client |
| `WebSocketController.Controller.OnClose` | Sources/App/Controllers/WebSocketController.swift:65-72 | a socket no client holds changes nothing and sends nothing. Otherwise exactly one client holding it is removed and the others are told. When it was the only holder, no client holds the socket afterwards |
| `WebSocketController.Controller.HandleText` | Sources/App/Controllers/WebSocketController.swift:40-63 | an undecodable kind and a `close` frame change nothing. `connection` and `message` frames act as their handlers do, and neither touches the other's state |

## Left out

- Vapor plumbing: route registration in `boot`, installing the `onText` and `onClose` callbacks, and the `[weak self]` lifetime guard. A socket handle is an opaque number; each `ws.send` is an outbox entry.
- JSON decoding and encoding, and UTF-8 conversion: these are library calls. A frame arrives already decoded, and a failed decode is a `None`. Both `encodeMessage` copies are left out, and so is `KingError`. An encoding failure after the insert in `connectionHandler` is not modelled: the insert is kept and a broadcast is always sent.
- `UUID()`, `Date()` and `randomElement()` are nondeterministic, so they are method inputs. The random draw is an index below 3 into `[.error, .received, .received]`.
- The one-second `DispatchQueue.main.asyncAfter` delay and all threading. A scheduled delivery is queued, and `Deliver` runs the oldest one as a separate sequential step. The unsynchronised sharing of the set between callbacks is not modelled.
- Logging, in both `Logger` classes: it only prints.
- `HttpMessage` is a data shape that no modelled code reads.
- `WSMessage.Message`: the record is declared as a datatype. Its fields read back the values it was built with by the definition of Dafny datatypes, and nothing interprets `id`, so no lemma is stated for it.
- A socket can send two `connection` frames with different names. Both clients then stay registered on that socket, and the code does not prevent it. A close of that socket removes only one of them, so `OnClose` and `LastHolderGone` state the no-op repeated close only for a socket held by a single client.
