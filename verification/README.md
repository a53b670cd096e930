# Collaborative whiteboard session relay, modelled in Dafny

The whiteboard server (`server/index.js`) keeps one piece of state: `boardHistory`, a
map from board id to the strokes drawn on that board since it was last cleared. Each
socket.io connection registers four handlers:

- `join-room`: the socket joins the board's room and, if the board has an entry, is
  sent `load-history` with the board's strokes;
- `drawing`: the stroke is appended to the history of the board named in the stroke's
  own `boardId` (the list is created if absent) and relayed to that room, sender excluded;
- `clear`: the board's history becomes an empty list and a payload-less `clear` goes to
  the room, sender excluded;
- `disconnect`: the handler only logs.

Node runs each handler to completion, so the model is a pure step function
`Relay.Step(state, input)` returning the next state and an outbox (a map from each
addressed socket to the one message it is sent). Modules:

- `Protocol` (protocol.dfy): board and socket ids, the stroke record, inbound events,
  outbound messages. Stroke fields other than `boardId` are opaque.
- `RoomStore` (room_store.dfy): `boardHistory` as `map<BoardId, seq<Segment>>`.
- `Sessions` (sessions.dfy): room membership, `socket.join` and `socket.to(room)`.
- `Relay` (relay.dfy): the four handlers and `Step`.
- `Traces` (traces.dfy): runs over input sequences and the properties they keep.
- `JsObjectStore` (js_object_store.dfy): the object-property reads exactly as written
  (see Findings).
- `Scenarios` (scenarios.dfy): concrete runs.

Behaviour reproduced as the code has it, where a natural reading of the design differs:

- A socket that joins a second board stays in the first board's audience: `socket.join`
  never leaves a room (`Sessions.Join`, `Scenarios.SwitchingBoardsKeepsOldAudience`).
- A never-touched board sends no `load-history` at all; a cleared board sends an empty
  one, because `[]` is a present, truthy entry (`Relay.OnJoinRoom`, `RoomStore.SnapshotAfterReset`).
- Strokes and clears are routed by the board id they carry, not by the sender's rooms;
  the sender need not be a member (`Relay.OnDrawing`, `Relay.OnClear`).
- Nothing is validated or dropped: every event is handled.
- On disconnect the handler does nothing; socket.io itself removes the socket from every
  room, which `Relay.OnDisconnect` models. No history changes.

## Model

| member | source | states |
|---|---|---|
| RoomStore.Snapshot | server/index.js:28-30 | a history is available exactly when the board has an entry, and it is the board's strokes; a board without an entry has none |
| RoomStore.Append | server/index.js:34-37 | the stroke becomes the last element of the board's history, the entry is created if absent, every other board's history is unchanged |
| RoomStore.Reset | server/index.js:42 | the board's history is empty afterwards and present even if it never existed; other boards are unchanged |
| RoomStore.SnapshotAfterReset | server/index.js:41-42 | a cleared board yields an empty history rather than none |
| RoomStore.SnapshotAfterAppend | server/index.js:34-37 | the next snapshot after a stroke is the previous history followed by that stroke |
| Sessions.Join | server/index.js:25 | joining adds the socket to the room and changes no other room's membership |
| Sessions.Audience | server/index.js:38 | a broadcast reaches exactly the room's members other than the sender |
| Sessions.Drop | server/index.js:46-48 | on disconnect the socket leaves every room and nobody else's membership changes |
| Relay.OnJoinRoom | server/index.js:24-31 | the store is untouched, the joiner is added to the room, only the joiner can be sent anything, and it is sent the board's history iff the board has an entry |
| Relay.OnDrawing | server/index.js:33-39 | the stroke is appended to the history of the board it names, other boards and membership are unchanged, and the stroke is relayed to exactly that room's members minus the sender |
| Relay.OnClear | server/index.js:41-44 | the board's history is emptied (entry created if absent), other boards unchanged, and `clear` goes to exactly the room's members minus the sender |
| Relay.OnDisconnect | server/index.js:46-48 | no history changes, nothing is sent, and the socket leaves every room |
| Relay.Step | server/index.js:21-49 | only the board an event names can change; the sender is never echoed its own stroke or clear; every other recipient is a member of the event's room; membership is lost only by the disconnecting socket |
| Traces.Execute | server/index.js:21-49 | handling inputs one at a time yields exactly one outbox per input |
| Traces.StepExtendsLog | server/index.js:33-37 | any event other than a clear of the board extends its history by exactly the stroke it draws there |
| Traces.DrawingsAccumulate | server/index.js:33-37 | with no clear of the board, its final history is its initial history followed by exactly the strokes drawn on it, in arrival order |
| Traces.EntryCreatedByDrawing | server/index.js:34-36 | with no clear of the board, it has an entry at the end iff it had one or a stroke was drawn on it |
| Traces.HistorySinceLastClear | server/index.js:37-42 | a board's history is exactly the strokes drawn on it since its most recent clear, and the entry exists |
| Traces.MembershipSticks | server/index.js:25 | a socket in a room stays in it through any inputs except its own disconnect |
| Traces.WitnessedIsDrawn | server/index.js:33-38 | for a member of a board, what one step puts on its view of that board is exactly the stroke the step draws there, whether drawn by itself or relayed to it; it stays a member unless that step is its own disconnect |
| Traces.LiveView | server/index.js:28-38 | for a member, the board's history plus the strokes it draws or is relayed for the board equals the board's later history |
| Traces.JoinReplay | server/index.js:24-38 | the history a joiner is sent followed by the strokes it later draws or is relayed equals the board's current history, with no gap and no duplicate, absent a clear or its disconnect |
| Traces.OutsiderNeverSees | server/index.js:33-44 | a socket outside a board that does not join it is sent nothing by any stroke for or clear of that board |
| JsObjectStore.Get | server/index.js:19 | a read of `boardHistory[k]` is the own entry if any, otherwise an inherited Object.prototype member for those names, otherwise undefined |
| JsObjectStore.DrawingAsWritten | server/index.js:34-37 | the handler as written throws exactly when the board has no own entry and its name is inherited from Object.prototype |
| JsObjectStore.JoinHistoryAsWritten | server/index.js:28-30 | the handler as written sends `load-history` exactly when the board has an own entry or an inherited name, carrying the value read |
| JsObjectStore.ConstructorBoardThrows | server/index.js:34-37 | the first stroke on board "constructor" throws |
| JsObjectStore.ConstructorJoinSendsBuiltin | server/index.js:28-30 | joining untouched board "constructor" sends a function, not a list of strokes |
| JsObjectStore.DrawingAgreesWithAppend | server/index.js:34-37 | for boards with an own entry or a non-inherited name the handler as written stores what `RoomStore.Append` stores |
| JsObjectStore.JoinAgreesWithSnapshot | server/index.js:28-30 | under the same condition the join as written sends what `RoomStore.Snapshot` yields |
| JsObjectStore.OwnKeyStoreHandlesInheritedNames | server/index.js:19-37 | with own-key lookups, a stroke on an inherited name is stored normally and an untouched such board has no history |
| Scenarios.WalkThrough | server/index.js:24-44 | join of a fresh board sends nothing; a later joiner gets the stroke; a clear reaches only the other member; a joiner after the clear gets an empty history |
| Scenarios.SwitchingBoardsKeepsOldAudience | server/index.js:24-38 | a socket that joins one board and then another still receives strokes for the first |

## Left out

- HTTP server, Express app, CORS options and `server.listen` (server/index.js:6-17, 51-52): transport set-up with no logic.
- `console.log` calls: output only.
- The `connection` event itself: it creates no state in the server's own code.
- socket.io internals: serialisation, delivery and the room socket.io creates for every socket under its own id (a board id equal to a socket id would also reach that socket); membership and emission are abstract.
- Non-string board ids: JavaScript coerces them to property-name strings; board ids are strings here.
- Payloads that are not objects (`data.boardId` on `null` throws): strokes always carry a `boardId` here, as the client always sends one.
- The prototype-replacing assignment `boardHistory["__proto__"] = []` made by a clear of board "__proto__": the as-written reads in `JsObjectStore` do not follow a replaced prototype.
- Relay.OnDisconnect: models socket.io's removal of the socket from its rooms, which the handler at server/index.js:46-48 does not do itself.
- Concurrency and network failures: each handler runs to completion on the Node event loop.
- All client files (canvas drawing, mouse and touch input, toolbar, routing, random board ids from `Math.random`).

## Findings

| source | as written | input that shows it | evidently intended | confidence | as-written member | corrected member |
|---|---|---|---|---|---|---|
| server/index.js:34-37 | `boardHistory` is a plain object, so `boardHistory[id]` for an id such as "constructor" reads an inherited function; the `!` check passes it and `.push` throws a TypeError inside the socket.io event dispatch | the first `drawing` on board "constructor" (route `/board/constructor`) | the board gets a fresh list holding the stroke | not executed; high that the handler throws, medium that the uncaught error stops the process | JsObjectStore.DrawingAsWritten, JsObjectStore.ConstructorBoardThrows | RoomStore.Append, JsObjectStore.OwnKeyStoreHandlesInheritedNames |
| server/index.js:28-30 | the truthiness check accepts the inherited function, so `load-history` is emitted with a non-array payload | `join-room` for untouched board "constructor" | no `load-history`, as for any untouched board | not executed; high | JsObjectStore.JoinHistoryAsWritten, JsObjectStore.ConstructorJoinSendsBuiltin | RoomStore.Snapshot, Relay.OnJoinRoom |

The rest of the model uses the own-key store (`RoomStore`), which is the corrected
behaviour; `JsObjectStore.DrawingAgreesWithAppend` and `JsObjectStore.JoinAgreesWithSnapshot`
show that it coincides with the code for every board that has an own entry or a
non-inherited name.
