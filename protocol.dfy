/**
 * The JSON messages exchanged between the drawing clients and the relay.
 * Payloads (stringified shapes) are opaque values of type P that the relay
 * forwards without looking inside them.
 */
module Protocol {
  import opened Wrappers

  /** A live socket connection, identified only by identity. */
  type ConnId = nat
  type UserId = string
  type RoomId = string

  /** A message after JSON parsing, one constructor per value of its `type` field. */
  datatype Message<P> =
    | JoinRoom(roomId: RoomId)
    | LeaveRoom(roomId: RoomId)
    | Chat(roomId: RoomId, message: P)
    | StreamingShape(roomId: RoomId, shape: P)
    | UpdateShape(roomId: RoomId, shape: P)
    | EraseShape(roomId: RoomId, shape: P)
    | ClearSlate(roomId: RoomId)

  /** The `type` field as it appears on the wire. */
  function Kind<P>(m: Message<P>): string
  {
    match m
    case JoinRoom(_) => "join_room"
    case LeaveRoom(_) => "leave_room"
    case Chat(_, _) => "chat"
    case StreamingShape(_, _) => "streamingShape"
    case UpdateShape(_, _) => "updateShape"
    case EraseShape(_, _) => "eraseShape"
    case ClearSlate(_) => "clearslate"
  }

  /** The five kinds the relay fans out to the other members of a room. */
  predicate IsBroadcast<P>(m: Message<P>)
  {
    m.Chat? || m.StreamingShape? || m.UpdateShape? || m.EraseShape? || m.ClearSlate?
  }

  /**
   * A frame as a drawing client sees it: its `type` field and its `message`
   * field already parsed. `message` is None when the frame has no such field;
   * the clients then call JSON.parse on `undefined`, which throws.
   */
  datatype Frame<P> = Frame(kind: string, message: Option<P>)

  /** How a message arrives at a client: only `chat` carries a `message` field. */
  function FrameOf<P>(m: Message<P>): Frame<P>
  {
    match m
    case Chat(_, p) => Frame("chat", Some(p))
    case _ => Frame(Kind(m), None)
  }
}
