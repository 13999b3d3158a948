/** The browser's board component: tool settings, the stroke in progress,
    the undo/redo history and the table of remote cursors, changed by the
    mouse, the toolbar buttons and the messages the server sends. Every
    input handler returns the messages it sends to the server. */
module Client {
  import opened Protocol
  import opened Records
  import opened UndoHistory
  import opened RemoteCursors
  import opened Tools

  /** A message from the browser to the server. */
  datatype Outgoing =
    | DrawOut(data: Payload)
    | SaveCanvasOut(canvasData: string)
    | ClearBoardOut
    | CursorMoveOut(x: int, y: int)

  class Whiteboard {
    const username: string
    const role: string
    var tool: string
    var color: string
    var size: int
    var fill: bool
    var isDrawing: bool
    var startPoint: Option<Point>
    var history: seq<string>
    var historyStep: int
    var remoteCursors: CursorTable
    /** The history captured by the save scheduled on the last mouse-up,
        while that save has not fired; a later mouse-up replaces it. */
    var pendingSave: Option<Timeline>

    ghost predicate Valid()
      reads this
    {
      && UndoHistory.Valid(Timeline(history, historyStep))
      && (isDrawing ==> startPoint.Some?)
      && (pendingSave.Some? ==> UndoHistory.Valid(pendingSave.value))
    }

    function Shown(): Timeline
      reads this
    {
      Timeline(history, historyStep)
    }

    predicate IsViewer()
      reads this
    {
      role == ViewerRole
    }

    constructor (username: string, role: string)
      ensures Valid()
      ensures this.username == username && this.role == role
      ensures tool == "pen" && color == InitialColor && size == 3 && !fill
      ensures !isDrawing && startPoint == None && pendingSave == None
      ensures Shown() == Empty() && remoteCursors == map[]
    {
      this.username := username;
      this.role := role;
      tool, color, size, fill := "pen", InitialColor, 3, false;
      isDrawing, startPoint := false, None;
      history, historyStep := [], -1;
      remoteCursors := map[];
      pendingSave := None;
    }

    /** The board's stored snapshot has been drawn on mount; "" stands for
        a board without one. */
    method LoadInitial(canvasData: string)
      requires Valid()
      modifies this`history, this`historyStep
      ensures Valid()
      ensures Shown() == if canvasData == "" then old(Shown()) else Loaded(canvasData)
    {
      if canvasData != "" {
        history, historyStep := [canvasData], 0;
      }
    }

    /** mouse-down. */
    method StartDrawing(p: Point)
      requires Valid()
      modifies this`isDrawing, this`startPoint
      ensures Valid()
      ensures IsViewer() ==> isDrawing == old(isDrawing) && startPoint == old(startPoint)
      ensures !IsViewer() ==> isDrawing && startPoint == Some(p)
    {
      if role == ViewerRole {
        return;
      }
      isDrawing := true;
      startPoint := Some(p);
    }

    /** A mouse move with the button down: a freehand tool sends the segment
        from the last point and continues from the new one. */
    method Draw(p: Point) returns (out: seq<Outgoing>)
      requires Valid()
      modifies this`startPoint
      ensures Valid()
      ensures !old(isDrawing) || IsViewer() || !IsStrokeTool(tool) ==>
        out == [] && startPoint == old(startPoint)
      ensures old(isDrawing) && !IsViewer() && IsStrokeTool(tool) ==>
        && out == [DrawOut(StrokeMessage(tool, color, size, old(startPoint).value, p))]
        && startPoint == Some(p)
    {
      if !isDrawing || role == ViewerRole {
        return [];
      }
      if IsStrokeTool(tool) {
        out := [DrawOut(StrokeMessage(tool, color, size, startPoint.value, p))];
        startPoint := Some(p);
      } else {
        out := [];
      }
    }

    /** mouse-up or mouse-out: sends the text or shape, ends the stroke and
        (re)schedules the save with the history as it is now. `text` is the
        prompt's answer, "" when it was cancelled or empty. */
    method StopDrawing(p: Point, text: string) returns (out: seq<Outgoing>)
      requires Valid()
      modifies this`isDrawing, this`pendingSave
      ensures Valid()
      ensures !old(isDrawing) || IsViewer() ==>
        out == [] && isDrawing == old(isDrawing) && pendingSave == old(pendingSave)
      ensures old(isDrawing) && !IsViewer() ==>
        && !isDrawing && pendingSave == Some(Shown())
        && out == match FinishMessage(tool, color, size, fill, startPoint.value, p, text)
                  case Some(m) => [DrawOut(m)]
                  case None => []
    {
      if !isDrawing || role == ViewerRole {
        return [];
      }
      var message := FinishMessage(tool, color, size, fill, startPoint.value, p, text);
      out := match message
             case Some(m) => [DrawOut(m)]
             case None => [];
      isDrawing := false;
      pendingSave := Some(Timeline(history, historyStep));
    }

    /** The scheduled save fires with the canvas image: the snapshot is
        appended to the history captured when it was scheduled, and sent. */
    method SaveFires(dataURL: string) returns (out: seq<Outgoing>)
      requires Valid() && pendingSave.Some?
      modifies this`history, this`historyStep, this`pendingSave
      ensures Valid()
      ensures Shown() == Saved(old(pendingSave).value, dataURL) && pendingSave == None
      ensures out == [SaveCanvasOut(dataURL)]
    {
      var t := Saved(pendingSave.value, dataURL);
      history, historyStep := t.history, t.step;
      pendingSave := None;
      out := [SaveCanvasOut(dataURL)];
    }

    method Undo()
      requires Valid()
      modifies this`historyStep
      ensures Valid()
      ensures Shown() == if IsViewer() then old(Shown()) else Undone(old(Shown()))
    {
      if role == ViewerRole || historyStep <= 0 {
        return;
      }
      historyStep := historyStep - 1;
    }

    method Redo()
      requires Valid()
      modifies this`historyStep
      ensures Valid()
      ensures Shown() == if IsViewer() then old(Shown()) else Redone(old(Shown()))
    {
      if role == ViewerRole || historyStep >= |history| - 1 {
        return;
      }
      historyStep := historyStep + 1;
    }

    /** The clear button; `confirmed` is the answer to the confirmation. */
    method ClearBoard(confirmed: bool) returns (out: seq<Outgoing>)
      requires Valid()
      modifies this`history, this`historyStep
      ensures Valid()
      ensures IsViewer() || !confirmed ==> out == [] && Shown() == old(Shown())
      ensures !IsViewer() && confirmed ==> out == [ClearBoardOut] && Shown() == Empty()
    {
      if role == ViewerRole || !confirmed {
        return [];
      }
      history, historyStep := [], -1;
      out := [ClearBoardOut];
    }

    /** A mouse move over the canvas: the cursor position is sent whenever
        there is a socket, then a stroke in progress continues. */
    method MouseMove(p: Point, hasSocket: bool) returns (out: seq<Outgoing>)
      requires Valid()
      modifies this`startPoint
      ensures Valid()
      ensures !hasSocket || IsViewer() ==> out == [] && startPoint == old(startPoint)
      ensures hasSocket && !IsViewer() ==>
        && |out| >= 1 && out[0] == CursorMoveOut(p.x, p.y)
        && (old(isDrawing) && IsStrokeTool(tool) ==>
              out == [CursorMoveOut(p.x, p.y), DrawOut(StrokeMessage(tool, color, size, old(startPoint).value, p))]
              && startPoint == Some(p))
        && (!(old(isDrawing) && IsStrokeTool(tool)) ==> out == [CursorMoveOut(p.x, p.y)] && startPoint == old(startPoint))
    {
      if !hasSocket || role == ViewerRole {
        return [];
      }
      out := [CursorMoveOut(p.x, p.y)];
      if isDrawing {
        var drawn := Draw(p);
        out := out + drawn;
      }
    }

    /** board-cleared from the server; ignored before the canvas is mounted. */
    method OnBoardCleared(mounted: bool)
      requires Valid()
      modifies this`history, this`historyStep
      ensures Valid()
      ensures Shown() == if mounted then Empty() else old(Shown())
    {
      if !mounted {
        return;
      }
      history, historyStep := [], -1;
    }

    /** cursor-update from the server. */
    method OnCursorUpdate(cursor: Payload)
      requires Valid()
      modifies this`remoteCursors
      ensures Valid()
      ensures remoteCursors == WithCursor(old(remoteCursors), cursor)
    {
      var next := remoteCursors[Get(cursor, "socketId") := cursor];
      remoteCursors := next;
    }

    /** user-left from the server. */
    method OnUserLeft(leaver: Value)
      requires Valid()
      modifies this`remoteCursors
      ensures Valid()
      ensures remoteCursors == Remaining(old(remoteCursors), leaver)
    {
      remoteCursors := WithoutUser(remoteCursors, leaver);
    }
  }
}
