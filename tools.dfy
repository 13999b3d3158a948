/** The drawing tools: the draw messages the browser sends, how the sender
    renders its own strokes, and how a received draw message is rendered.
    Canvas geometry is not modelled: a render records only what kind of
    mark is made and with which stroke parameters. */
module Tools {
  import opened Protocol
  import opened Records
  import opened Rooms

  /** The tools drawn from a start point to an end point on mouse-up. */
  const Shapes: seq<string> := ["rectangle", "circle", "triangle", "diamond", "star", "hexagon", "arrow", "line"]

  predicate IsShapeTool(tool: string) {
    tool in Shapes
  }

  /** The freehand tools, which send a segment on every mouse move. */
  predicate IsStrokeTool(tool: string) {
    tool == "pen" || tool == "highlighter" || tool == "eraser"
  }

  /** A received tool field is a shape exactly when it is one of the shape
      names; only a string can be. */
  predicate IsShapeValue(v: Value) {
    v.Str? && IsShapeTool(v.s)
  }

  datatype Point = Point(x: int, y: int)

  /** The colour picker's starting colour. */
  const InitialColor := "#000000"

  /** The segment message sent while a freehand tool moves. */
  function StrokeMessage(tool: string, color: string, size: int, start: Point, p: Point): Payload {
    map["tool" := Str(tool), "color" := Str(color), "size" := Num(size),
        "x" := Num(p.x), "y" := Num(p.y), "startX" := Num(start.x), "startY" := Num(start.y)]
  }

  function TextMessage(color: string, size: int, start: Point, text: string): Payload {
    map["tool" := Str("text"), "color" := Str(color), "size" := Num(size),
        "x" := Num(start.x), "y" := Num(start.y), "text" := Str(text)]
  }

  function ShapeMessage(tool: string, color: string, size: int, fill: bool, start: Point, end: Point): Payload {
    map["tool" := Str(tool), "color" := Str(color), "size" := Num(size), "fill" := Bool(fill),
        "startX" := Num(start.x), "startY" := Num(start.y), "endX" := Num(end.x), "endY" := Num(end.y)]
  }

  /** The draw message sent on mouse-up, if any: text when the prompt gave a
      non-empty answer ("" stands for a cancelled prompt), placed at the
      start point; a shape for the shape tools, from the start point to the
      end point; nothing for the freehand tools or any other tool. */
  function FinishMessage(tool: string, color: string, size: int, fill: bool, start: Point, end: Point, text: string)
    : (m: Option<Payload>)
    ensures m.Some? <==> (tool == "text" && text != "") || IsShapeTool(tool)
    ensures m.Some? ==> Get(m.value, "tool") == Str(tool) && Get(m.value, "color") == Str(color)
    ensures m.Some? ==> Get(m.value, "size") == Num(size)
    ensures m.Some? && tool == "text" ==>
      && Get(m.value, "text") == Str(text)
      && Get(m.value, "x") == Num(start.x) && Get(m.value, "y") == Num(start.y)
      && Get(m.value, "fill") == Undefined
    ensures m.Some? && tool != "text" ==>
      && Get(m.value, "fill") == Bool(fill)
      && Get(m.value, "startX") == Num(start.x) && Get(m.value, "startY") == Num(start.y)
      && Get(m.value, "endX") == Num(end.x) && Get(m.value, "endY") == Num(end.y)
      && Get(m.value, "text") == Undefined
  {
    if tool == "text" then
      if text != "" then Some(TextMessage(color, size, start, text)) else None
    else if IsShapeTool(tool) then
      Some(ShapeMessage(tool, color, size, fill, start, end))
    else
      None
  }

  /** A freehand mark either paints with an opacity or erases. */
  datatype Stroke = Paint(alpha: real) | Erase

  /** The kind of mark drawn, its colour, and its size parameters: the font
      size of a text, the line width of a shape or a line. */
  datatype Render =
    | TextRender(text: Value, color: Value, fontSize: Value)
    | ShapeRender(shape: string, color: Value, width: Value, fill: Value)
    | LineRender(stroke: Stroke, color: Value, width: Value)

  /** The colour the eraser strokes with; under destination-out only its
      opacity matters. */
  const EraserColor := "rgba(0,0,0,1)"

  /** A numeric field multiplied by `k`; anything else is not a number. */
  function Scaled(v: Value, k: int): Value {
    if v.Num? then Num(v.n * k) else Undefined
  }

  /** How the sender draws a freehand segment: the pen in the picked colour
      at the picked size, the highlighter at 0.3 opacity and three times the
      size, the eraser erasing at four times the size. */
  function LocalStroke(tool: string, color: string, size: int): (r: Option<Render>)
    ensures r.Some? <==> IsStrokeTool(tool)
    ensures r.Some? ==> r.value.LineRender?
    ensures r.Some? ==> (r.value.stroke == Erase <==> tool == "eraser")
    ensures r.Some? && tool != "eraser" ==> r.value.color == Str(color)
    ensures r.Some? ==> r.value.width == Num(if tool == "highlighter" then size * 3
                                             else if tool == "eraser" then size * 4
                                             else size)
  {
    if tool == "pen" then Some(LineRender(Paint(1.0), Str(color), Num(size)))
    else if tool == "highlighter" then Some(LineRender(Paint(0.3), Str(color), Num(size * 3)))
    else if tool == "eraser" then Some(LineRender(Erase, Str(EraserColor), Num(size * 4)))
    else None
  }

  /** How the sender draws the mark it makes on mouse-up, in the picked
      colour: a text at eight times the size, a shape at the size. */
  function LocalFinish(tool: string, color: string, size: int, fill: bool, text: string): (r: Option<Render>)
    ensures r.Some? <==> (tool == "text" && text != "") || IsShapeTool(tool)
    ensures r.Some? ==> r.value.color == Str(color)
  {
    if tool == "text" then
      if text != "" then Some(TextRender(Str(text), Str(color), Num(size * 8))) else None
    else if IsShapeTool(tool) then Some(ShapeRender(tool, Str(color), Num(size), Bool(fill)))
    else None
  }

  /** handleRemoteDraw as written: text, then the shapes, and every other
      tool a painted line of the received size, at 0.3 opacity exactly for
      the highlighter; every mark in the received colour. */
  function RemoteRenderAsWritten(data: Payload): (r: Render)
    ensures r.TextRender? <==> Get(data, "tool") == Str("text")
    ensures r.ShapeRender? <==> IsShapeValue(Get(data, "tool"))
    ensures r.color == Get(data, "color")
    ensures r.LineRender? ==> r.stroke.Paint? && r.width == Get(data, "size")
    ensures r.LineRender? ==> (r.stroke.alpha == 0.3 <==> Get(data, "tool") == Str("highlighter"))
  {
    var tool := Get(data, "tool");
    var color := Get(data, "color");
    if tool == Str("text") then TextRender(Get(data, "text"), color, Scaled(Get(data, "size"), 8))
    else if IsShapeValue(tool) then ShapeRender(tool.s, color, Get(data, "size"), Get(data, "fill"))
    else LineRender(Paint(if tool == Str("highlighter") then 0.3 else 1.0), color, Get(data, "size"))
  }

  /** handleRemoteDraw with the freehand branch drawing each tool the way
      its sender does. */
  function RemoteRender(data: Payload): (r: Render)
    ensures r.TextRender? <==> Get(data, "tool") == Str("text")
    ensures r.ShapeRender? <==> IsShapeValue(Get(data, "tool"))
    ensures r.LineRender? ==> (r.stroke == Erase <==> Get(data, "tool") == Str("eraser"))
    ensures r.LineRender? && r.stroke.Paint? ==> (r.stroke.alpha == 0.3 <==> Get(data, "tool") == Str("highlighter"))
    ensures !(r.LineRender? && r.stroke == Erase) ==> r.color == Get(data, "color")
    ensures r.LineRender? ==>
      r.width == (if Get(data, "tool") == Str("highlighter") then Scaled(Get(data, "size"), 3)
                  else if Get(data, "tool") == Str("eraser") then Scaled(Get(data, "size"), 4)
                  else Get(data, "size"))
  {
    var tool := Get(data, "tool");
    var color := Get(data, "color");
    if tool == Str("text") then TextRender(Get(data, "text"), color, Scaled(Get(data, "size"), 8))
    else if IsShapeValue(tool) then ShapeRender(tool.s, color, Get(data, "size"), Get(data, "fill"))
    else if tool == Str("highlighter") then LineRender(Paint(0.3), color, Scaled(Get(data, "size"), 3))
    else if tool == Str("eraser") then LineRender(Erase, Str(EraserColor), Scaled(Get(data, "size"), 4))
    else LineRender(Paint(1.0), color, Get(data, "size"))
  }

  /** As written, an eraser segment received from another participant is
      painted as an opaque line, in the eraser's join colour, a quarter of
      the eraser's width, where the sender erased. */
  lemma EraserPaintsRemotely(color: string, size: int, start: Point, p: Point, who: Session)
    ensures RemoteRenderAsWritten(DrawRelay(StrokeMessage("eraser", color, size, start, p), who))
            == LineRender(Paint(1.0), Str(who.color), Num(size))
    ensures LocalStroke("eraser", color, size) == Some(LineRender(Erase, Str(EraserColor), Num(size * 4)))
  {
  }

  /** Because the relay stamps the sender's join colour over the picked one,
      any mark received from another participant is drawn in the sender's
      join colour, whichever colour the sender picked; a sender who picked
      another colour sees its own mark in a colour the others do not. */
  lemma RelayRecolours(data: Payload, who: Session, picked: string)
    requires Get(data, "color") == Str(picked) && picked != who.color
    ensures RemoteRenderAsWritten(DrawRelay(data, who)).color == Str(who.color)
    ensures RemoteRenderAsWritten(DrawRelay(data, who)).color != Get(data, "color")
  {
  }

  /** The colour picker's starting colour is none of the join colours, so
      until a participant picks from the palette, what the others see is
      in a colour the sender never drew in. */
  lemma DefaultColourOffPalette()
    ensures InitialColor !in Palette
  {
  }

  /** With the corrected dispatch, every freehand segment is drawn by the
      others as its sender would draw it in its join colour: same stroke,
      same width, and the eraser erasing. */
  lemma StrokeRendersAlike(tool: string, color: string, size: int, start: Point, p: Point, who: Session)
    requires IsStrokeTool(tool)
    ensures RemoteRender(DrawRelay(StrokeMessage(tool, color, size, start, p), who))
            == LocalStroke(tool, who.color, size).value
  {
  }

  /** Every mouse-up mark that is sent is drawn by the others, whichever
      dispatch is used, as its sender would draw it in its join colour:
      same kind, same text or shape, same size and fill. */
  lemma FinishRendersAlike(tool: string, color: string, size: int, fill: bool, start: Point, end: Point,
                           text: string, who: Session)
    requires FinishMessage(tool, color, size, fill, start, end, text).Some?
    ensures var relayed := DrawRelay(FinishMessage(tool, color, size, fill, start, end, text).value, who);
      && RemoteRender(relayed) == LocalFinish(tool, who.color, size, fill, text).value
      && RemoteRenderAsWritten(relayed) == LocalFinish(tool, who.color, size, fill, text).value
  {
  }
}
