/**
 * The class-based drawing engine (apps/web/app/draw/game.ts, class `Game`):
 * a press records an anchor, a release commits a rectangle or a circle for
 * the selected tool, appends it and sends it as one `chat` message, and a
 * `chat` message from a peer appends the peer's shape.
 */
module GameCanvas {
  import opened Protocol
  import opened Shapes

  /** The tool names the surrounding UI selects; only "rect" and "circle" draw. */
  type Tool = string

  class Game {
    const roomId: RoomId
    var existingShapes: seq<Shape>
    var clicked: bool
    var startX: real
    var startY: real
    var selectedTool: Tool
    /** Every `socket.send`, oldest first. */
    var outbox: seq<Message<Shape>>

    /** A new game: no shapes until the history arrives, not pressed, tool "circle". */
    constructor (roomId: RoomId)
      ensures this.roomId == roomId
      ensures existingShapes == [] && outbox == []
      ensures !clicked && startX == 0.0 && startY == 0.0
      ensures selectedTool == "circle"
    {
      this.roomId := roomId;
      existingShapes := [];
      outbox := [];
      clicked := false;
      startX, startY := 0.0, 0.0;
      selectedTool := "circle";
    }

    method SetTool(tool: Tool)
      modifies this`selectedTool
      ensures selectedTool == tool
    {
      selectedTool := tool;
    }

    /**
     * The completion of the history fetch started by the constructor: the
     * fetched shapes replace the list, whatever it held by then.
     */
    method Init(history: seq<Shape>)
      modifies this`existingShapes
      ensures existingShapes == history
    {
      existingShapes := history;
    }

    /**
     * `socket.onmessage`: a `chat` frame appends its shape; a `chat` frame
     * without a `message` field throws before appending; other kinds are ignored.
     */
    method OnMessage(frame: Frame<Shape>)
      modifies this`existingShapes
      ensures frame.kind == "chat" && frame.message.Some? ==>
        existingShapes == old(existingShapes) + [frame.message.value]
      ensures !(frame.kind == "chat" && frame.message.Some?) ==>
        existingShapes == old(existingShapes)
    {
      if frame.kind == "chat" {
        if frame.message.Some? {
          existingShapes := existingShapes + [frame.message.value];
        }
      }
    }

    method MouseDown(clientX: real, clientY: real)
      modifies this`clicked, this`startX, this`startY
      ensures clicked && startX == clientX && startY == clientY
    {
      clicked := true;
      startX := clientX;
      startY := clientY;
    }

    /**
     * Release: always clears `clicked` (without checking it was set) and, for
     * "rect" or "circle", commits the shape spanned by the anchor and the
     * release point and sends it to the room.
     */
    method MouseUp(clientX: real, clientY: real)
      modifies this`clicked, this`existingShapes, this`outbox
      ensures !clicked
      ensures selectedTool == "rect" ==>
        var s := RectFromDrag(startX, startY, clientX, clientY);
        existingShapes == old(existingShapes) + [s] && outbox == old(outbox) + [Chat(roomId, s)]
      ensures selectedTool == "circle" ==>
        var s := CircleFromDrag(startX, startY, clientX, clientY);
        existingShapes == old(existingShapes) + [s] && outbox == old(outbox) + [Chat(roomId, s)]
      ensures selectedTool != "rect" && selectedTool != "circle" ==>
        existingShapes == old(existingShapes) && outbox == old(outbox)
    {
      clicked := false;
      var shape: Shape;
      if selectedTool == "rect" {
        shape := RectFromDrag(startX, startY, clientX, clientY);
      } else if selectedTool == "circle" {
        shape := CircleFromDrag(startX, startY, clientX, clientY);
      } else {
        return;
      }
      existingShapes := existingShapes + [shape];
      outbox := outbox + [Chat(roomId, shape)];
    }

    /**
     * Move: only repaints a preview, and only while pressed; it changes no
     * state. `redrawn` says whether the preview is painted.
     */
    method MouseMove(clientX: real, clientY: real) returns (redrawn: bool)
      ensures redrawn <==> clicked
    {
      if !clicked {
        return false;
      }
      redrawn := true;
    }
  }

  /** Tool "rect", press at (10, 10), move to (50, 40), release there. */
  method DragRectScenario(roomId: RoomId) returns (shapes: seq<Shape>, sent: seq<Message<Shape>>)
    ensures shapes == [Rect(10.0, 10.0, 40.0, 30.0)]
    ensures sent == [Chat(roomId, Rect(10.0, 10.0, 40.0, 30.0))]
  {
    var game := new Game(roomId);
    game.SetTool("rect");
    game.MouseDown(10.0, 10.0);
    var _ := game.MouseMove(50.0, 40.0);
    game.MouseUp(50.0, 40.0);
    shapes, sent := game.existingShapes, game.outbox;
  }

  /**
   * A release with no press before it still commits, with the default tool
   * "circle" and the initial anchor (0, 0).
   */
  method ReleaseWithoutPressScenario(roomId: RoomId) returns (shapes: seq<Shape>)
    ensures shapes == [Circle(2.0, 1.0, 2.0)]
  {
    var game := new Game(roomId);
    game.MouseUp(4.0, 2.0);
    shapes := game.existingShapes;
  }
}
