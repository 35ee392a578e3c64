/** The data model shared by both rendering passes: chart entries, tempo
    checkpoints, the layout constants, and the drawing commands that stand in
    for calls on a 2D canvas. */
module Chart {

  datatype Option<T> = None | Some(value: T)

  /** The `sec` field of a chart entry: either the empty string (entries that
      precede the first real note) or a number of seconds. */
  datatype Sec = Blank | Seconds(t: real)

  /** The number JavaScript reads from `sec` in `time - timeStart`: the empty
      string converts to 0. */
  function SecValue(s: Sec): real
  {
    match s
    case Blank => 0.0
    case Seconds(t) => t
  }

  /** One entry of the stage JSON: `sec`, `type`, `finishPos` (the lane),
      `status` (the arrow direction) and `groupId` (the slide chain). */
  datatype Note = Note(sec: Sec, kind: int, lane: int, status: int, groupId: int)

  const Tap: int := 1
  const Hold: int := 2
  const Meta: int := 100

  /** Only taps and holds are drawn; every other type code is ignored by the glyph passes. */
  predicate Drawn(n: Note)
  {
    n.kind == Tap || n.kind == Hold
  }

  /** One entry of the tempo map (`sofuran`): from `time` seconds on, `bpm` beats per minute. */
  datatype Checkpoint = Checkpoint(time: real, bpm: real)

  /** The colour styles; the colour tables themselves are not modelled. */
  datatype Style = Pink | Blue | Orange | Black

  /** Paints: note colour and long-note colour of a style, white, the three
      assist-line shades, the red of BPM markers and the black of measure numbers. */
  datatype Paint = NoteFill(style: Style) | LongFill(style: Style) | White | Assist(tier: int) | BpmRed | TextBlack

  /** The two linear gradients that soften the top and bottom edges of a column. */
  datatype Fade = WhiteToClear | ClearToWhite

  datatype Point = Point(x: real, y: real)

  /** A drawing call, recorded with its coordinates. */
  datatype Command =
    | Rect(sx: real, sy: real, ex: real, ey: real, fill: Paint)
    | Line(sx: real, sy: real, ex: real, ey: real, width: real, stroke: Paint)
    | Circle(x: real, y: real, radius: real, fill: Paint)
    | Polygon(points: seq<Point>, fill: Paint)
    | Label(value: real, x: real, y: real, fill: Paint)
    | MeasureLabel(number: int, right: real, y: real)
    | Copy(sx: real, sy: real, sw: real, sh: real, dx: real, dy: real)
    | Gradient(x: real, y: real, w: real, h: real, fade: Fade)

  /** A canvas: its size and everything drawn on it, in order. */
  datatype Canvas = Canvas(width: real, height: real, commands: seq<Command>)

  // Layout constants, in pixels.
  const BeatHeight: real := 48.0
  const LaneWidth: real := 22.0
  const NoteAreaWidth: real := LaneWidth * 5.0
  const ColumnMargin: real := 20.0
  const ColumnWidth: real := NoteAreaWidth + ColumnMargin * 2.0
  const InfoHeight: real := 50.0
  const Padding: real := 30.0
  const NoteRadius: real := 6.0
  const LongWidth: real := 12.0
  const SlideWidth: real := 8.0
}
