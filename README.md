# magicslate: relay room table and drawing gestures, in Dafny

This project models three small pieces of sequential logic of the magicslate
collaborative whiteboard and proves properties of them:

- **The WebSocket relay** (`Relay`, file `relay.dfy`). The server keeps a table
  of admitted connections. Each row holds an opaque connection id, the user id
  its token resolved to, and the rooms it has joined. `RelayServer` is a class
  holding that table as a sequence. Its methods are the `connection`,
  `message` (`join_room`, `leave_room` and the five broadcast kinds) and
  `close` handlers. A broadcast returns its `ws.send` calls as a list of
  deliveries. The recipient rule is the function `Recipients`: the rows that
  joined the room and belong to a different user id than the sender's.
- **The class-based drawing engine** (`GameCanvas.Game`, file `game.dfy`). It has the fields `clicked`, `startX`/`startY`, `selectedTool`
  (initially `"circle"`) and `existingShapes`, plus an outbox that stands for
  `socket.send`. A press records the anchor. A release commits a `Rect` or a
  `Circle` by the arithmetic in `Shapes`, appends it and sends one `chat`
  message. A peer's `chat` frame appends the peer's shape.
- **The earlier closure-based engine** (`InitDraw.DrawSession`, file
  `initdraw.dfy`). It is the same gesture, with rectangles only. Its socket
  handler appends the `message` field of every frame, whatever the frame's type.

Shared pieces: `Protocol` (the parsed wire messages and what a client sees of
them), `Seqs` (order-preserving `Filter`, the behaviour of `Array.filter` and of
the `forEach`/`if` fan-out loops), `Shapes` (the shape datatype and the drag
arithmetic) and `Wrappers` (`Option`).

Behaviour of the code worth knowing:

- The relay skips every connection of the sender's **user id**, not only the sending connection.
- A broadcast does not need the sender to be a member of the room.
- The clients know only `rect` and `circle`.
- A release commits even a zero-size shape, and it commits without a preceding press.
- `Game` applies only `chat` frames; `updateShape`, `eraseShape`, `streamingShape` and `clearslate` are ignored.
- In `index.ts` a frame without a `message` field appends nothing, because `JSON.parse(undefined)` throws before the push.
- `Game.init()` is started, not awaited, by the constructor. `Init` replaces the list whenever the fetch completes, dropping anything appended before then.
- `!userId` also refuses a token that resolves to the empty user id.

## Model

| member | source | states |
|---|---|---|
| `Seqs.Filter` | apps/ws-backend/src/index.ts:68 | `Array.filter` and the `forEach`/`if` selection loops: the result is never longer than the input; its meaning is stated by the four lemmas below |
| `Seqs.FilterMembership` | apps/ws-backend/src/index.ts:68 | an element survives filtering exactly when it is in the input and passes the test |
| `Seqs.FilterConcat` | apps/ws-backend/src/index.ts:68 | filtering keeps relative order: it distributes over concatenation |
| `Seqs.FilterCount` | apps/ws-backend/src/index.ts:68 | a kept value keeps all its occurrences, a dropped value keeps none |
| `Seqs.FilterIdempotent` | apps/ws-backend/src/index.ts:68 | filtering twice with one test equals filtering once |
| `Protocol.FrameOf` | apps/ws-backend/src/index.ts:84-152 | definition (no contract): the frame a client parses from a relayed message keeps the message's `type`, and only `chat` carries a `message` field, holding the payload unchanged; the other four kinds put the payload in `shape` or send none |
| `Relay.FindConn` | apps/ws-backend/src/index.ts:164 | the result is the first row of the connection, and None exactly when the connection has no row |
| `Relay.TokenParam` | apps/ws-backend/src/index.ts:41 | the token is empty exactly when the query parameter is absent or empty, and is otherwise the parameter itself |
| `Relay.Without` | apps/ws-backend/src/index.ts:68 | a room remains in the filtered list exactly when it was in the list and differs from the room left |
| `Relay.Recipients` | apps/ws-backend/src/index.ts:82-90 | a row receives a broadcast if and only if it joined the room and its user id differs from the sender's; the same rule is used at lines 99-107, 113-120, 131-139 and 146-154 |
| `Relay.RecipientsSnoc` | apps/ws-backend/src/index.ts:82-90 | one more iteration of the `forEach` over a row adds that row to the recipients exactly when it joined the room under another user id |
| `Relay.RecipientsInOrder` | apps/ws-backend/src/index.ts:99-107 | recipients are taken in table order: the rule distributes over concatenation of tables |
| `Relay.NoEcho` | apps/ws-backend/src/index.ts:83 | with distinct connections, no connection of the sender's own user is among the recipients |
| `Relay.LeaveRemovesEveryOccurrence` | apps/ws-backend/src/index.ts:64-70 | after leaving, the room does not occur in the list, and every other room keeps its number of occurrences |
| `Relay.LeaveKeepsOrder` | apps/ws-backend/src/index.ts:68 | the remaining rooms keep their relative order |
| `Relay.LeaveTwice` | apps/ws-backend/src/index.ts:64-70 | leaving a room twice is the same as leaving it once |
| `Relay.LeaveUndoesJoin` | apps/ws-backend/src/index.ts:58-70 | a join followed by a leave of the same room gives the list with every occurrence of that room removed |
| `Relay.ConnectKeepsDistinct` | apps/ws-backend/src/index.ts:47-51 | appending a connection that has no row keeps connection ids distinct |
| `Relay.CloseForgetsConnection` | apps/ws-backend/src/index.ts:162-169 | with distinct connections, after close no row of the connection remains and the rest stay distinct |
| `Relay.RelayServer.constructor` | apps/ws-backend/src/index.ts:35 | the table starts empty |
| `Relay.RelayServer.Connect` | apps/ws-backend/src/index.ts:37-51 | a token that does not resolve to a non-empty user id leaves the table unchanged and admits nothing; otherwise exactly one row with no rooms is appended at the end and the user id is returned; a connection that had no row keeps connection ids distinct |
| `Relay.RelayServer.JoinRoom` | apps/ws-backend/src/index.ts:58-62 | the connection's first row gets the room appended at the end (duplicates kept); every other row is unchanged; no row, no change; distinct connection ids stay distinct |
| `Relay.RelayServer.LeaveRoom` | apps/ws-backend/src/index.ts:64-70 | the connection's first row gets its rooms filtered; every other row is unchanged; no row, no change; distinct connection ids stay distinct |
| `Relay.RelayServer.Fanout` | apps/ws-backend/src/index.ts:82-90 | one delivery per recipient, in table order, each addressed to the recipient's connection and carrying the incoming message unchanged (same type, room and payload) |
| `Relay.RelayServer.OnMessage` | apps/ws-backend/src/index.ts:53-160 | an unparseable or unknown message changes nothing and sends nothing; join and leave send nothing; each of the five broadcast kinds leaves the table unchanged and sends to exactly the recipients; join and leave change only the sender's room list; distinct connection ids stay distinct |
| `Relay.RelayServer.Close` | apps/ws-backend/src/index.ts:162-169 | the connection's first row is removed and the others keep their order; no row, no change; distinct connection ids stay distinct |
| `Shapes.RectFromDrag` | apps/web/app/draw/game.ts:92-104 | the rectangle's corner is the anchor and its opposite corner the release point, so width and height may be negative |
| `Shapes.CircleFromDrag` | apps/web/app/draw/game.ts:105-115 | the centre is the midpoint of the drag; the radius is non-negative and is half the larger of the horizontal and vertical extents |
| `Shapes.CircleSquareSpansDrag` | apps/web/app/draw/game.ts:105-115 | both ends of the drag lie in the circle's bounding square, and the release point touches it along the longer axis |
| `GameCanvas.Game.constructor` | apps/web/app/draw/game.ts:23-42 | a new game has no shapes, is not pressed, has anchor (0, 0), tool `"circle"` and has sent nothing |
| `GameCanvas.Game.SetTool` | apps/web/app/draw/game.ts:50-52 | only the selected tool changes |
| `GameCanvas.Game.Init` | apps/web/app/draw/game.ts:55-58 | the fetched history replaces the shape list; nothing else changes |
| `GameCanvas.Game.OnMessage` | apps/web/app/draw/game.ts:60-69 | a `chat` frame appends its shape at the end; any other frame leaves the list unchanged |
| `GameCanvas.Game.MouseDown` | apps/web/app/draw/game.ts:129-133 | sets `clicked` and records the anchor; shapes and outbox unchanged |
| `GameCanvas.Game.MouseUp` | apps/web/app/draw/game.ts:90-128 | always clears `clicked`; with `"rect"` or `"circle"` appends exactly the dragged shape and sends exactly one `chat` message with the game's room and that shape; with any other tool, shapes and outbox unchanged |
| `GameCanvas.Game.MouseMove` | apps/web/app/draw/game.ts:135-155 | changes no state; repaints only while pressed |
| `GameCanvas.DragRectScenario` | apps/web/app/draw/game.ts:90-133 | tool rect, press (10, 10), move to and release at (50, 40) yields one `Rect(10, 10, 40, 30)` and one `chat` message carrying it |
| `GameCanvas.ReleaseWithoutPressScenario` | apps/web/app/draw/game.ts:28-30 | a release with no press commits a circle from the initial anchor with the default tool |
| `InitDraw.DrawSession.constructor` | apps/web/app/draw/index.ts:21 | the shape list starts as the fetched history, not pressed, anchor (0, 0) |
| `InitDraw.DrawSession.OnMessage` | apps/web/app/draw/index.ts:26-33 | any frame with a `message` field appends it at the end, whatever its type; a frame without one changes nothing |
| `InitDraw.DrawSession.MouseDown` | apps/web/app/draw/index.ts:50-54 | sets `clicked` and records the anchor |
| `InitDraw.DrawSession.MouseUp` | apps/web/app/draw/index.ts:55-73 | clears `clicked` without testing it, appends the dragged rectangle and sends exactly one `chat` message with the room and that rectangle |
| `InitDraw.DrawSession.MouseMove` | apps/web/app/draw/index.ts:74-83 | changes no state; repaints only while pressed |
| `InitDraw.StaleAnchorScenario` | apps/web/app/draw/index.ts:47-66 | a release before any press commits a rectangle from the stale anchor (0, 0) after the history |
| `InitDraw.AnyKindScenario` | apps/web/app/draw/index.ts:28-31 | a non-`chat` frame carrying a `message` field is appended |
| `InitDraw.RelayedFrameAppendsAlike` | apps/web/app/draw/index.ts:26-33 | a `Game` and a `DrawSession` holding the same list and receiving the same relayed broadcast end with the same list: the list plus the shape for `chat`, the list unchanged for the other four kinds |

## Left out

- `checkUser`'s JWT verification is a foreign library call: `Connect` takes `checkUser` as a parameter, an uninterpreted token-to-optional-user-id function.
- URL parsing is left out: `Connect` receives the `token` query parameter already extracted (absent reads as "").
- JSON framing is left out. The relay's handler receives an already-parsed message, with None for data that does not parse or has an unknown `type`. Payloads are opaque values that round-trip, and a client assumes the `message` it parses is a shape.
- `ws.send` and `socket.send` are not I/O here: the relay returns its deliveries and each client appends to an outbox.
- The Prisma `deleteMany` on `clearslate` is persistence I/O and is left out; only the broadcast is modelled.
- The `error` handler is left out: it only closes the socket, and the resulting `close` is modelled.
- `WebSocketServer` setup, logging, event-listener wiring and removal (`initMouseHandler`, `destroy`, the `resize` listener) are left out.
- All canvas painting (`ClearCanvas`, `strokeRect`, `arc`) and the live preview geometry in the move handlers are left out; the preview circle's centre (anchor plus radius) differs from the committed centre, and only the committed shape is modelled.
- `getExistingShapes` (HTTP plus `JSON.parse`) is left out: the history is an input sequence.
- `InitDraw`'s early return when the canvas has no 2D context is left out: a context is assumed.
- The `Tool` type is declared in a file that is not part of this model; tools are strings, and only `"rect"` and `"circle"` draw.
- Coordinates are mathematical reals: IEEE-754 rounding is not modelled.
- Asynchrony is reduced to the order in which handlers are called; each handler runs to completion.
