/**
 * The earlier closure-based engine (apps/web/app/draw/index.ts, `InitDraw`):
 * the same press/release gesture, rectangles only, with its state held in
 * captured variables, here the fields of one session object.
 */
module InitDraw {
  import opened Wrappers
  import opened Protocol
  import opened Shapes
  import GameCanvas

  class DrawSession {
    const roomId: RoomId
    var existingShapes: seq<Shape>
    var clicked: bool
    var startX: real
    var startY: real
    /** Every `socket.send`, oldest first. */
    var outbox: seq<Message<Shape>>

    /** `InitDraw` after its awaited history fetch: the list is the history. */
    constructor (roomId: RoomId, history: seq<Shape>)
      ensures this.roomId == roomId
      ensures existingShapes == history && outbox == []
      ensures !clicked && startX == 0.0 && startY == 0.0
    {
      this.roomId := roomId;
      existingShapes := history;
      outbox := [];
      clicked := false;
      startX, startY := 0.0, 0.0;
    }

    /**
     * `socket.onmessage`: the `type` test has an empty body, so any frame
     * carrying a `message` field appends it; one without throws first.
     */
    method OnMessage(frame: Frame<Shape>)
      modifies this`existingShapes
      ensures frame.message.Some? ==> existingShapes == old(existingShapes) + [frame.message.value]
      ensures frame.message.None? ==> existingShapes == old(existingShapes)
    {
      if frame.message.Some? {
        existingShapes := existingShapes + [frame.message.value];
      }
    }

    method MouseDown(clientX: real, clientY: real)
      modifies this`clicked, this`startX, this`startY
      ensures clicked && startX == clientX && startY == clientY
    {
      clicked := true;
      startX := clientX;
      startY := clientY;
    }

    /** Release: clears `clicked` without testing it and always commits and sends a rectangle. */
    method MouseUp(clientX: real, clientY: real)
      modifies this`clicked, this`existingShapes, this`outbox
      ensures !clicked
      ensures var s := RectFromDrag(startX, startY, clientX, clientY);
        existingShapes == old(existingShapes) + [s] && outbox == old(outbox) + [Chat(roomId, s)]
    {
      clicked := false;
      var shape := RectFromDrag(startX, startY, clientX, clientY);
      existingShapes := existingShapes + [shape];
      outbox := outbox + [Chat(roomId, shape)];
    }

    /** Move: repaints a preview only while pressed and changes no state. */
    method MouseMove(clientX: real, clientY: real) returns (redrawn: bool)
      ensures redrawn <==> clicked
    {
      if !clicked {
        return false;
      }
      redrawn := true;
    }
  }

  /** A release before any press commits a rectangle from the stale anchor (0, 0). */
  method StaleAnchorScenario(roomId: RoomId, history: seq<Shape>) returns (shapes: seq<Shape>, sent: seq<Message<Shape>>)
    ensures shapes == history + [Rect(0.0, 0.0, 5.0, 5.0)]
    ensures sent == [Chat(roomId, Rect(0.0, 0.0, 5.0, 5.0))]
  {
    var session := new DrawSession(roomId, history);
    session.MouseUp(5.0, 5.0);
    shapes, sent := session.existingShapes, session.outbox;
  }

  /**
   * A frame the relay never produces, a non-`chat` kind carrying a `message`
   * field, is still appended here, where `Game` would ignore it.
   */
  method AnyKindScenario(roomId: RoomId, shape: Shape) returns (shapes: seq<Shape>)
    ensures shapes == [shape]
  {
    var session := new DrawSession(roomId, []);
    session.OnMessage(Frame("updateShape", Some(shape)));
    shapes := session.existingShapes;
  }

  /**
   * The link from relay to clients: a `Game` and a `DrawSession` that hold
   * the same list and receive the same relayed broadcast end with the same
   * list. Only `chat` frames carry a `message` field, so the unconditional
   * append here appends exactly what `Game`'s `chat` test appends: the
   * shape for `chat`, nothing for the other four kinds.
   */
  method RelayedFrameAppendsAlike(roomId: RoomId, history: seq<Shape>, m: Message<Shape>)
    returns (viaGame: seq<Shape>, viaSession: seq<Shape>)
    requires IsBroadcast(m)
    ensures viaGame == viaSession
    ensures m.Chat? ==> viaGame == history + [m.message]
    ensures !m.Chat? ==> viaGame == history
  {
    var game := new GameCanvas.Game(roomId);
    game.Init(history);
    game.OnMessage(FrameOf(m));
    var session := new DrawSession(roomId, history);
    session.OnMessage(FrameOf(m));
    viaGame, viaSession := game.existingShapes, session.existingShapes;
  }
}
