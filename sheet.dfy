/** The second half of the second pass (`secondStage`): the sheet. Columns
    stand side by side, each with its border, its half-beat grid and measure
    numbers, the slice of the strip it shows, and a fade at each cut edge. */
module Sheet {
  import opened Chart
  import opened Config
  import opened Geometry
  import opened Breaks

  /** The grid's measure walk, which goes on from column to column: the
      current measure, the beats of it drawn so far, and its length. */
  datatype Grid = Grid(number: int, count: real, length: real)

  /** The walk as `secondStage` starts it: measure 1 with length 4, whatever
      the override for measure 1 says. */
  function WrittenGridStart(): (g: Grid)
    ensures g.number == 1 && g.count == 0.0 && g.length == 4.0
  {
    Grid(1, 0.0, 4.0)
  }

  /** The start the break walk agrees with: measure 1 with its own length. */
  function GridStart(s: Settings): (g: Grid)
    requires NonNegative(s.measure)
    ensures g.number == 1 && g.count == 0.0
    ensures g.length == MeasureStart(s, 2) || s.upbeat != 0.0
  {
    Grid(1, 0.0, MeasureLength(s.measure, 1))
  }

  /** At the top of each column: while still in measure 1, an upbeat is its length. */
  function ColumnOpen(s: Settings, g: Grid): (r: Grid)
    ensures r.number == g.number && r.count == g.count
    ensures g.number == 1 && s.upbeat != 0.0 ==> r.length == s.upbeat
    ensures g.number != 1 || s.upbeat == 0.0 ==> r == g
  {
    if g.number == 1 && s.upbeat != 0.0 then g.(length := s.upbeat) else g
  }

  /** One half-beat row: at a measure boundary the walk moves to the next
      measure and reads its override; then half a beat is counted. */
  function Tick(s: Settings, g: Grid): (r: Grid)
    requires NonNegative(s.measure)
    ensures g.count == g.length ==> r == Grid(g.number + 1, 0.5, MeasureLength(s.measure, g.number + 1))
    ensures g.count != g.length ==> r == g.(count := g.count + 0.5)
  {
    var next := if g.count == g.length then Grid(g.number + 1, 0.0, MeasureLength(s.measure, g.number + 1)) else g;
    next.(count := next.count + 0.5)
  }

  /** What row `beat` (counted in half beats) draws: a black line and the
      number of the measure that ends there, written to the left of the
      column at the row where that measure began; otherwise a grey line,
      darker on whole beats. */
  function TickCommands(g: Grid, left: real, bottom: real, beat: nat): (r: seq<Command>)
    ensures |r| == (if g.count == g.length then 2 else 1)
    ensures r[|r| - 1].Line? && r[|r| - 1].sy == r[|r| - 1].ey == bottom - BeatHeight * beat as real / 2.0
    ensures r[|r| - 1].stroke == (if g.count == g.length then Assist(1) else if beat % 2 == 0 then Assist(2) else Assist(3))
    ensures g.count == g.length ==> r[0] == MeasureLabel(g.number, left - 4.0, Row(bottom, beat as real / 2.0 - g.length))
  {
    var y := bottom - BeatHeight * beat as real / 2.0;
    if g.count == g.length then
      [MeasureLabel(g.number, left - 4.0, y + g.length * BeatHeight), Line(left, y, left + NoteAreaWidth, y, 1.0, Assist(1))]
    else
      [Line(left, y, left + NoteAreaWidth, y, 1.0, if beat % 2 == 0 then Assist(2) else Assist(3))]
  }

  /** The walk after `k` rows. */
  function GridAfter(s: Settings, g: Grid, k: nat): (r: Grid)
    requires NonNegative(s.measure)
    ensures g.number <= r.number <= g.number + k
  {
    if k == 0 then g else Tick(s, GridAfter(s, g, k - 1))
  }

  /** The commands of the first `k` rows. */
  function GridRows(s: Settings, g: Grid, left: real, bottom: real, k: nat): (r: seq<Command>)
    requires NonNegative(s.measure)
    ensures k <= |r| <= 2 * k
  {
    if k == 0 then [] else GridRows(s, g, left, bottom, k - 1) + TickCommands(GridAfter(s, g, k - 1), left, bottom, k - 1)
  }

  /** How many rows a column of `len` beats has: the integers below `2 * len`. */
  function RowCount(len: real): (n: nat)
    ensures n as real >= 2.0 * len
    ensures n == 0 || (n - 1) as real < 2.0 * len
  {
    if len <= 0.0 then 0
    else if (2.0 * len).Floor as real == 2.0 * len then (2.0 * len).Floor
    else (2.0 * len).Floor + 1
  }

  /** The left edge of column `col`'s note area. */
  function ColumnLeft(col: nat): real
  {
    Padding + col as real * ColumnWidth + ColumnMargin
  }

  /** The bottom edge of column `col`: every column after the first is
      raised by the upbeat. */
  function ColumnBottom(s: Settings, sheetHeight: real, col: nat): real
  {
    var bottom := sheetHeight - Padding;
    if col != 0 then bottom - s.upbeat * BeatHeight else bottom
  }

  /** The slice of the strip a column shows, with a padding's bleed above and
      below: the `len` beats that follow the first `total`. */
  function ColumnCopy(strip: Canvas, s: Settings, sheetHeight: real, col: nat, len: real, total: real): (c: Command)
    ensures c.Copy? && c.sx == 0.0 && c.sw == strip.width
    ensures c.sy == Row(strip.height - Padding, total + len) - Padding
    ensures c.sy + c.sh == Row(strip.height - Padding, total) + Padding
    ensures c.dy + (Row(strip.height - Padding, total) - c.sy) == ColumnBottom(s, sheetHeight, col)
    ensures c.dx + ImageLeft == ColumnLeft(col)
  {
    var top := ColumnBottom(s, sheetHeight, col) - len * BeatHeight;
    Copy(0.0, strip.height - Padding - BeatHeight * total - BeatHeight * len - Padding, strip.width,
         BeatHeight * len + Padding * 2.0, ColumnLeft(col) - Padding, top - Padding)
  }

  /** Everything one column draws, and the walk after it. */
  function DrawColumn(s: Settings, strip: Canvas, sheetHeight: real, g: Grid, col: nat, len: real, total: real)
    : (r: (Grid, seq<Command>))
    requires NonNegative(s.measure)
    ensures r.0 == GridAfter(s, ColumnOpen(s, g), RowCount(len))
    ensures |r.1| >= 8 + RowCount(len)
  {
    var left, bottom := ColumnLeft(col), ColumnBottom(s, sheetHeight, col);
    var top := bottom - len * BeatHeight;
    var open := ColumnOpen(s, g);
    var after := GridAfter(s, open, RowCount(len));
    var closing := ColumnClosing(left, top, bottom, after, ColumnCopy(strip, s, sheetHeight, col, len, total));
    (after, ColumnBorders(left, top, bottom) + GridRows(s, open, left, bottom, RowCount(len)) + closing)
  }

  /** `DrawColumn` in its parts. */
  lemma DrawColumnParts(s: Settings, strip: Canvas, sheetHeight: real, g: Grid, col: nat, len: real, total: real)
    requires NonNegative(s.measure)
    ensures var left, bottom := ColumnLeft(col), ColumnBottom(s, sheetHeight, col);
            var top := bottom - len * BeatHeight;
            var open := ColumnOpen(s, g);
            var after := GridAfter(s, open, RowCount(len));
            DrawColumn(s, strip, sheetHeight, g, col, len, total)
              == (after, ColumnBorders(left, top, bottom) + GridRows(s, open, left, bottom, RowCount(len))
                         + ColumnClosing(left, top, bottom, after, ColumnCopy(strip, s, sheetHeight, col, len, total)))
  {
  }

  /** The two side borders of a column's note area. */
  function ColumnBorders(left: real, top: real, bottom: real): seq<Command>
  {
    [Line(left, top, left, bottom, 1.0, Assist(1)), Line(left + NoteAreaWidth, top, left + NoteAreaWidth, bottom, 1.0, Assist(1))]
  }

  /** What a column draws after its grid: the number of the measure it ends
      in, its top and bottom lines, its slice of the strip and the two fades. */
  function ColumnClosing(left: real, top: real, bottom: real, after: Grid, copy: Command): (r: seq<Command>)
    ensures |r| == 6 && r[3] == copy
  {
    [MeasureLabel(after.number, left - 4.0, top + after.length * BeatHeight),
     Line(left, top, left + NoteAreaWidth, top, 1.0, Assist(1)), Line(left, bottom, left + NoteAreaWidth, bottom, 1.0, Assist(1)),
     copy,
     Gradient(left - ColumnMargin, top - Padding, ColumnWidth, Padding, WhiteToClear),
     Gradient(left - ColumnMargin, bottom, ColumnWidth, Padding, ClearToWhite)]
  }

  /** The columns drawn one after the other, the walk started at `start` and
      carried across them. */
  function DrawColumns(s: Settings, strip: Canvas, sheetHeight: real, start: Grid, cols: seq<real>)
    : (r: (Grid, seq<Command>))
    requires NonNegative(s.measure)
    ensures |r.1| >= 8 * |cols|
  {
    if cols == [] then (start, [])
    else
      var (g, cs) := DrawColumns(s, strip, sheetHeight, start, cols[..|cols| - 1]);
      var (after, cc) := DrawColumn(s, strip, sheetHeight, g, |cols| - 1, cols[|cols| - 1], Sum(cols[..|cols| - 1]));
      (after, cs + cc)
  }

  function SheetWidth(cols: seq<real>): real
  {
    Padding * 2.0 + ColumnWidth * |cols| as real
  }

  /** The sheet is as tall as a full column plus the padding and the
      information band, whatever the column overrides say. */
  function SheetHeight(s: Settings): real
  {
    Padding * 2.0 + s.beatsPerColumn * BeatHeight + InfoHeight
  }

  /** The columns for the strip's note area, then a white sheet with every
      column drawn on it, the grid walk started at `start`. */
  function SheetOf(strip: Canvas, s: Settings, start: Grid): Canvas
    requires NonNegative(s.measure)
  {
    var cols := Columns(s, strip.height - Padding * 2.0);
    var width, height := SheetWidth(cols), SheetHeight(s);
    Canvas(width, height, [Rect(0.0, 0.0, width, height, White)] + DrawColumns(s, strip, height, start, cols).1)
  }

  /** `secondStage` as written: the grid walk starts in measure 1 with length 4. */
  function Pass2(strip: Canvas, s: Settings): (r: Canvas)
    requires NonNegative(s.measure)
    ensures r.width == SheetWidth(Columns(s, strip.height - Padding * 2.0)) && r.height == SheetHeight(s)
    ensures |r.commands| > 0 && r.commands[0] == Rect(0.0, 0.0, r.width, r.height, White)
  {
    SheetOf(strip, s, WrittenGridStart())
  }

  /** The sheet with the grid walk started at measure 1's own length. */
  function CorrectedPass2(strip: Canvas, s: Settings): Canvas
    requires NonNegative(s.measure)
  {
    SheetOf(strip, s, GridStart(s))
  }

  /** `Pass2` with the strip's note area named `notes`. */
  lemma Pass2Unfold(strip: Canvas, s: Settings, notes: real)
    requires NonNegative(s.measure) && notes == strip.height - Padding * 2.0
    ensures var cols := Columns(s, notes);
            Pass2(strip, s) == Canvas(SheetWidth(cols), SheetHeight(s),
              [Rect(0.0, 0.0, SheetWidth(cols), SheetHeight(s), White)]
                + DrawColumns(s, strip, SheetHeight(s), WrittenGridStart(), cols).1)
  {
  }

  /** The rows of one column (the inner loop of step 3-1), with the walk
      kept in the three variables `secondStage` uses. */
  method DrawGridRows(s: Settings, left: real, bottom: real, len: real, g: Grid)
    returns (measureNumber: int, beatCount: real, measureLength: real, rows: seq<Command>)
    requires NonNegative(s.measure)
    ensures Grid(measureNumber, beatCount, measureLength) == GridAfter(s, g, RowCount(len))
    ensures rows == GridRows(s, g, left, bottom, RowCount(len))
  {
    measureNumber, beatCount, measureLength := g.number, g.count, g.length;
    rows := [];
    var beat := 0;
    while beat as real < len * 2.0
      invariant 0 <= beat <= RowCount(len)
      invariant Grid(measureNumber, beatCount, measureLength) == GridAfter(s, g, beat)
      invariant rows == GridRows(s, g, left, bottom, beat)
    {
      var drawn;
      measureNumber, beatCount, measureLength, drawn := DrawGridRow(s, left, bottom, beat, measureNumber, beatCount, measureLength);
      rows := rows + drawn;
      beat := beat + 1;
    }
  }

  /** One turn of the inner loop: the row's line, after the measure number
      and the move to the next measure at a boundary. */
  method DrawGridRow(s: Settings, left: real, bottom: real, beat: nat, number: int, count: real, length: real)
    returns (measureNumber: int, beatCount: real, measureLength: real, drawn: seq<Command>)
    requires NonNegative(s.measure)
    ensures Grid(measureNumber, beatCount, measureLength) == Tick(s, Grid(number, count, length))
    ensures drawn == TickCommands(Grid(number, count, length), left, bottom, beat)
  {
    measureNumber, beatCount, measureLength := number, count, length;
    drawn := [];
    var right := left + NoteAreaWidth;
    var stroke := Assist(3);
    if beat % 2 == 0 {
      stroke := Assist(2);
    }
    var y := bottom - BeatHeight * beat as real / 2.0;
    if beatCount == measureLength {
      stroke := Assist(1);
      drawn := [MeasureLabel(measureNumber, left - 4.0, y + measureLength * BeatHeight)];
      measureNumber := measureNumber + 1;
      beatCount := 0.0;
      if measureNumber in s.measure && s.measure[measureNumber] != 0.0 {
        measureLength := s.measure[measureNumber];
      } else {
        measureLength := 4.0;
      }
    }
    drawn := drawn + [Line(left, y, right, y, 1.0, stroke)];
    beatCount := beatCount + 0.5;
  }

  /** One turn of the column loop of step 3: borders, rows, the last measure
      number, the closing lines, the slice of the strip and the two fades. */
  method DrawOneColumn(s: Settings, strip: Canvas, sheetHeight: real, g: Grid, col: nat, len: real, total: real)
    returns (after: Grid, cmds: seq<Command>)
    requires NonNegative(s.measure)
    ensures (after, cmds) == DrawColumn(s, strip, sheetHeight, g, col, len, total)
    ensures after == GridAfter(s, ColumnOpen(s, g), RowCount(len))
    ensures |cmds| >= 8 + RowCount(len)
    ensures cmds[|cmds| - 3] == ColumnCopy(strip, s, sheetHeight, col, len, total)
  {
    var left := Padding + col as real * ColumnWidth + ColumnMargin;
    var right := left + NoteAreaWidth;
    var bottom := sheetHeight - Padding;
    var top := bottom - len * BeatHeight;
    if col != 0 {
      bottom := bottom - s.upbeat * BeatHeight;
      top := top - s.upbeat * BeatHeight;
    }
    assert left == ColumnLeft(col) && bottom == ColumnBottom(s, sheetHeight, col) && top == bottom - len * BeatHeight;
    var borders := [Line(left, top, left, bottom, 1.0, Assist(1)), Line(right, top, right, bottom, 1.0, Assist(1))];
    assert borders == ColumnBorders(left, top, bottom);
    var open := g;
    if g.number == 1 && s.upbeat != 0.0 {
      open := g.(length := s.upbeat);
    }
    assert open == ColumnOpen(s, g);
    var measureNumber, beatCount, measureLength, rows := DrawGridRows(s, left, bottom, len, open);
    after := Grid(measureNumber, beatCount, measureLength);
    var closing := CloseColumn(s, strip, sheetHeight, after, col, len, total);
    cmds := borders + rows + closing;
    assert cmds[|cmds| - 3] == closing[3];
    assert (after, cmds) == DrawColumn(s, strip, sheetHeight, g, col, len, total) by {
      DrawColumnParts(s, strip, sheetHeight, g, col, len, total);
    }
  }

  /** The end of one turn of the column loop: the number of the measure the
      column ends in, the top and bottom lines, the slice of the strip and the
      two fades. */
  method CloseColumn(s: Settings, strip: Canvas, sheetHeight: real, after: Grid, col: nat, len: real, total: real)
    returns (closing: seq<Command>)
    ensures var bottom := ColumnBottom(s, sheetHeight, col);
            closing == ColumnClosing(ColumnLeft(col), bottom - len * BeatHeight, bottom, after,
                                     ColumnCopy(strip, s, sheetHeight, col, len, total))
    ensures var left, bottom := ColumnLeft(col), ColumnBottom(s, sheetHeight, col);
            var top := bottom - len * BeatHeight;
            && |closing| == 6
            && closing[0] == MeasureLabel(after.number, left - 4.0, Row(top, -after.length))
            && closing[1] == Line(left, top, left + NoteAreaWidth, top, 1.0, Assist(1))
            && closing[2] == Line(left, bottom, left + NoteAreaWidth, bottom, 1.0, Assist(1))
            && closing[3] == ColumnCopy(strip, s, sheetHeight, col, len, total)
            && closing[4] == Gradient(left - ColumnMargin, top - Padding, ColumnWidth, Padding, WhiteToClear)
            && closing[5] == Gradient(left - ColumnMargin, bottom, ColumnWidth, Padding, ClearToWhite)
  {
    var left := Padding + col as real * ColumnWidth + ColumnMargin;
    var right := left + NoteAreaWidth;
    var bottom := sheetHeight - Padding;
    var top := bottom - len * BeatHeight;
    if col != 0 {
      bottom := bottom - s.upbeat * BeatHeight;
      top := top - s.upbeat * BeatHeight;
    }
    var copy := CopySlice(s, strip, sheetHeight, col, len, total);
    closing := [MeasureLabel(after.number, left - 4.0, top + after.length * BeatHeight),
                Line(left, top, right, top, 1.0, Assist(1)), Line(left, bottom, right, bottom, 1.0, Assist(1)),
                copy,
                Gradient(left - ColumnMargin, top - Padding, ColumnWidth, Padding, WhiteToClear),
                Gradient(left - ColumnMargin, bottom, ColumnWidth, Padding, ClearToWhite)];
  }

  /** The two fades lie exactly on the bleed the copy brings above and below
      the column's note area, and span the column with its margins. */
  lemma FadesCoverBleed(s: Settings, strip: Canvas, sheetHeight: real, after: Grid, col: nat, len: real, total: real)
    ensures var bottom := ColumnBottom(s, sheetHeight, col);
            var top := bottom - len * BeatHeight;
            var c := ColumnClosing(ColumnLeft(col), top, bottom, after, ColumnCopy(strip, s, sheetHeight, col, len, total));
            && c[4].y == c[3].dy && c[4].y + c[4].h == top
            && c[5].y == bottom && c[5].y + c[5].h == c[3].dy + c[3].sh
            && c[4].x == c[5].x == ColumnLeft(col) - ColumnMargin && c[4].w == c[5].w == ColumnWidth
            && c[4].fade == WhiteToClear && c[5].fade == ClearToWhite
  {
    var bottom := ColumnBottom(s, sheetHeight, col);
    var copy := ColumnCopy(strip, s, sheetHeight, col, len, total);
    var stripBottom := strip.height - Padding;
    assert Row(stripBottom, total) - Row(stripBottom, total + len) == len * BeatHeight;
    assert copy.dy == bottom - len * BeatHeight - Padding;
  }

  /** The `drawImage` of a column: the strip's beats from `total` to
      `total + len`, with the padding above and below, drawn one padding above
      and to the left of the column's note area. */
  method CopySlice(s: Settings, strip: Canvas, sheetHeight: real, col: nat, len: real, total: real) returns (copy: Command)
    ensures copy == ColumnCopy(strip, s, sheetHeight, col, len, total)
    ensures copy.sx == 0.0 && copy.sw == strip.width
    ensures copy.sy == Row(strip.height - Padding, total + len) - Padding
    ensures copy.sy + copy.sh == Row(strip.height - Padding, total) + Padding
    ensures copy.dy + (Row(strip.height - Padding, total) - copy.sy) == ColumnBottom(s, sheetHeight, col)
    ensures copy.dx + ImageLeft == ColumnLeft(col)
  {
    var bottom := sheetHeight - Padding;
    if col != 0 {
      bottom := bottom - s.upbeat * BeatHeight;
    }
    var sx, sw, sh := 0.0, strip.width, BeatHeight * len;
    var sy := strip.height - Padding - BeatHeight * total - sh;
    var x, y := Padding + col as real * ColumnWidth + ColumnMargin - Padding, bottom - len * BeatHeight;
    sy, sh, y := sy - Padding, sh + Padding * 2.0, y - Padding;
    copy := Copy(sx, sy, sw, sh, x, y);
  }

  /** `secondStage`. It reads the options and changes none of them. */
  method SecondStage(strip: Canvas, o: Options) returns (sheet: Canvas)
    requires NonNegative(o.measure)
    ensures sheet == Pass2(strip, o.Snapshot())
  {
    // `secondStage` only reads the options.
    var s := o.Snapshot();
    var columns := ComputeColumns(o, strip.height - Padding * 2.0);
    var canvasWidth := Padding * 2.0 + ColumnWidth * |columns| as real;
    var canvasHeight := Padding * 2.0 + s.beatsPerColumn * BeatHeight + InfoHeight;
    assert canvasWidth == SheetWidth(columns) && canvasHeight == SheetHeight(s);
    var cmds := DrawAllColumns(s, strip, canvasHeight, columns);
    sheet := Canvas(canvasWidth, canvasHeight, [Rect(0.0, 0.0, canvasWidth, canvasHeight, White)] + cmds);
    SheetAssembled(strip, s, columns, cmds);
  }

  /** The sheet from its columns and their commands, sized as `secondStage`
      computes it. */
  lemma SheetAssembled(strip: Canvas, s: Settings, columns: seq<real>, cmds: seq<Command>)
    requires NonNegative(s.measure) && columns == Columns(s, strip.height - Padding * 2.0)
    requires cmds == DrawColumns(s, strip, SheetHeight(s), WrittenGridStart(), columns).1
    ensures Pass2(strip, s) == Canvas(SheetWidth(columns), SheetHeight(s),
                                      [Rect(0.0, 0.0, SheetWidth(columns), SheetHeight(s), White)] + cmds)
  {
    Pass2Unfold(strip, s, strip.height - Padding * 2.0);
  }

  /** Step 3 of `secondStage`: the column loop, with the grid walk started
      as written and carried from column to column. */
  method DrawAllColumns(s: Settings, strip: Canvas, canvasHeight: real, columns: seq<real>) returns (cmds: seq<Command>)
    requires NonNegative(s.measure)
    ensures cmds == DrawColumns(s, strip, canvasHeight, WrittenGridStart(), columns).1
  {
    cmds := [];
    var g := WrittenGridStart();
    var totalBeatCount := 0.0;
    var col := 0;
    while col < |columns|
      invariant 0 <= col <= |columns|
      invariant totalBeatCount == Sum(columns[..col])
      invariant (g, cmds) == DrawColumns(s, strip, canvasHeight, WrittenGridStart(), columns[..col])
    {
      var after, drawn := DrawOneColumn(s, strip, canvasHeight, g, col, columns[col], totalBeatCount);
      DrawColumnsStep(s, strip, canvasHeight, WrittenGridStart(), columns, col, g, cmds, after, drawn);
      g, cmds := after, cmds + drawn;
      totalBeatCount := totalBeatCount + columns[col];
      col := col + 1;
    }
    assert columns[..col] == columns;
  }

  lemma DrawColumnsUnfold(s: Settings, strip: Canvas, sheetHeight: real, start: Grid, cols: seq<real>, k: nat)
    requires NonNegative(s.measure) && k < |cols|
    ensures Sum(cols[..k + 1]) == Sum(cols[..k]) + cols[k]
    ensures var (g, cs) := DrawColumns(s, strip, sheetHeight, start, cols[..k]);
            var (after, cc) := DrawColumn(s, strip, sheetHeight, g, k, cols[k], Sum(cols[..k]));
            DrawColumns(s, strip, sheetHeight, start, cols[..k + 1]) == (after, cs + cc)
  {
    assert cols[..k + 1][..k] == cols[..k];
  }

  /** One more column carries the walk and appends its commands. */
  lemma DrawColumnsStep(s: Settings, strip: Canvas, sheetHeight: real, start: Grid, cols: seq<real>, k: nat,
                        g: Grid, cs: seq<Command>, after: Grid, cc: seq<Command>)
    requires NonNegative(s.measure) && k < |cols|
    requires (g, cs) == DrawColumns(s, strip, sheetHeight, start, cols[..k])
    requires (after, cc) == DrawColumn(s, strip, sheetHeight, g, k, cols[k], Sum(cols[..k]))
    ensures Sum(cols[..k + 1]) == Sum(cols[..k]) + cols[k]
    ensures (after, cs + cc) == DrawColumns(s, strip, sheetHeight, start, cols[..k + 1])
  {
    DrawColumnsUnfold(s, strip, sheetHeight, start, cols, k);
  }

  // Layout of the sheet.

  /** Columns stand side by side: column `col` with its two margins fills the
      `col`-th slot of width `ColumnWidth` after the left padding, so the last
      one ends one padding short of the sheet's right edge. */
  lemma ColumnsSideBySide(cols: seq<real>, col: nat)
    requires col < |cols|
    ensures ColumnLeft(col) - ColumnMargin == Padding + col as real * ColumnWidth
    ensures ColumnLeft(col) + NoteAreaWidth + ColumnMargin == ColumnLeft(col + 1) - ColumnMargin
    ensures ColumnLeft(col) + NoteAreaWidth + ColumnMargin <= SheetWidth(cols) - Padding
    ensures col == |cols| - 1 ==> ColumnLeft(col) + NoteAreaWidth + ColumnMargin == SheetWidth(cols) - Padding
  {
  }

  /** A column stays below the information band exactly when its beats, with
      the upbeat it is raised by after the first column, fit the sheet's
      `beatsPerColumn`. */
  lemma ColumnFits(s: Settings, col: nat, len: real)
    ensures var top := ColumnBottom(s, SheetHeight(s), col) - len * BeatHeight;
            top >= Padding + InfoHeight <==> len + (if col == 0 then 0.0 else s.upbeat) <= s.beatsPerColumn
  {
  }

  /** The slice a column copies is the strip's note area from beat `total`
      to beat `total + len`, with a padding's bleed on each side, placed so
      that the strip's note area lands on the column's: every beat `b` of the
      slice is drawn on the column's row for beat `b`, and the strip's lanes
      fall between the column's borders. */
  lemma CopyShowsSlice(strip: Canvas, s: Settings, sheetHeight: real, col: nat, len: real, total: real, b: real)
    ensures var c := ColumnCopy(strip, s, sheetHeight, col, len, total);
            var stripBottom := strip.height - Padding;
            && c.sx == 0.0 && c.sw == strip.width
            && c.sy == Row(stripBottom, total + len) - Padding
            && c.sy + c.sh == Row(stripBottom, total) + Padding
            && c.dy + (Row(stripBottom, total + b) - c.sy) == Row(ColumnBottom(s, sheetHeight, col), b)
            && c.dx + ImageLeft == ColumnLeft(col)
            && c.dx + ImageRight == ColumnLeft(col) + NoteAreaWidth
  {
  }

  lemma {:induction false} DrawColumnsPrefix(s: Settings, strip: Canvas, sheetHeight: real, start: Grid, cols: seq<real>, j: nat)
    requires NonNegative(s.measure) && j <= |cols|
    ensures var whole := DrawColumns(s, strip, sheetHeight, start, cols).1;
            var part := DrawColumns(s, strip, sheetHeight, start, cols[..j]).1;
            |part| <= |whole| && whole[..|part|] == part
    decreases |cols| - j
  {
    if j < |cols| {
      var part := DrawColumns(s, strip, sheetHeight, start, cols[..j]).1;
      var next := DrawColumns(s, strip, sheetHeight, start, cols[..j + 1]).1;
      var whole := DrawColumns(s, strip, sheetHeight, start, cols).1;
      assert |part| <= |next| && next[..|part|] == part by {
        DrawColumnsUnfold(s, strip, sheetHeight, start, cols, j);
      }
      assert |next| <= |whole| && whole[..|next|] == next by {
        DrawColumnsPrefix(s, strip, sheetHeight, start, cols, j + 1);
      }
      PrefixOfPrefix(part, next, whole);
    } else {
      assert cols[..j] == cols;
    }
  }

  /** The sheet shows the strip cut into consecutive slices: column `k`
      copies the beats from `Sum(cols[..k])` to `Sum(cols[..k + 1])`, and the
      slices together reach the top of the strip's note area. */
  lemma SheetShowsWholeStrip(strip: Canvas, s: Settings, notes: real)
    requires NonNegative(s.measure) && notes == strip.height - Padding * 2.0
    ensures Pass2(strip, s).height == SheetHeight(s)
    ensures var cols := Columns(s, notes);
            && (forall k :: 0 <= k < |cols| ==>
                  ColumnCopy(strip, s, SheetHeight(s), k, cols[k], Sum(cols[..k])) in Pass2(strip, s).commands)
            && (forall k :: 0 <= k < |cols| ==> Sum(cols[..k + 1]) == Sum(cols[..k]) + cols[k])
            && (Sum(cols) - s.upbeat) * BeatHeight >= notes
  {
    var cols := Columns(s, notes);
    Pass2Unfold(strip, s, notes);
    var whole := DrawColumns(s, strip, SheetHeight(s), WrittenGridStart(), cols).1;
    assert Pass2(strip, s).commands == [Rect(0.0, 0.0, SheetWidth(cols), SheetHeight(s), White)] + whole;
    forall k | 0 <= k < |cols|
      ensures ColumnCopy(strip, s, SheetHeight(s), k, cols[k], Sum(cols[..k])) in Pass2(strip, s).commands
      ensures Sum(cols[..k + 1]) == Sum(cols[..k]) + cols[k]
    {
      CopyDrawn(s, strip, SheetHeight(s), WrittenGridStart(), cols, k);
    }
    assert (Sum(cols) - s.upbeat) * BeatHeight >= notes by {
      ColumnsCoverStrip(s, notes);
    }
  }

  /** Column `k`'s copy is among the commands of all columns. */
  lemma CopyDrawn(s: Settings, strip: Canvas, sheetHeight: real, start: Grid, cols: seq<real>, k: nat)
    requires NonNegative(s.measure) && k < |cols|
    ensures ColumnCopy(strip, s, sheetHeight, k, cols[k], Sum(cols[..k])) in DrawColumns(s, strip, sheetHeight, start, cols).1
    ensures Sum(cols[..k + 1]) == Sum(cols[..k]) + cols[k]
  {
    var (g, before) := DrawColumns(s, strip, sheetHeight, start, cols[..k]);
    var cc := DrawColumn(s, strip, sheetHeight, g, k, cols[k], Sum(cols[..k])).1;
    var part := DrawColumns(s, strip, sheetHeight, start, cols[..k + 1]).1;
    var whole := DrawColumns(s, strip, sheetHeight, start, cols).1;
    assert part == before + cc && Sum(cols[..k + 1]) == Sum(cols[..k]) + cols[k] by {
      DrawColumnsUnfold(s, strip, sheetHeight, start, cols, k);
    }
    assert |part| <= |whole| && whole[..|part|] == part by {
      DrawColumnsPrefix(s, strip, sheetHeight, start, cols, k + 1);
    }
    var j := |cc| - 3;
    assert cc[j] == ColumnCopy(strip, s, sheetHeight, k, cols[k], Sum(cols[..k])) by {
      DrawColumnParts(s, strip, sheetHeight, g, k, cols[k], Sum(cols[..k]));
    }
    assert whole[|before| + j] == part[|before| + j] == cc[j];
  }

  lemma PrefixOfPrefix<T>(a: seq<T>, b: seq<T>, c: seq<T>)
    requires |a| <= |b| && b[..|a|] == a
    requires |b| <= |c| && c[..|b|] == b
    ensures |a| <= |c| && c[..|a|] == a
  {
    assert c[..|a|] == c[..|b|][..|a|];
  }

  // The grid walk against the break walk.

  /** A whole number of half beats. */
  predicate HalfBeat(x: real)
  {
    (2.0 * x).Floor as real == 2.0 * x
  }

  /** The page's measure overrides and upbeat: non-negative, in half beats. */
  predicate HalfBeatMeasures(s: Settings)
  {
    && NonNegative(s.measure)
    && (forall n :: n in s.measure ==> HalfBeat(s.measure[n]))
    && s.upbeat >= 0.0 && HalfBeat(s.upbeat)
  }

  /** The length of measure `n` as both walks mean it: the upbeat is measure 1
      when there is one. */
  function GridLength(s: Settings, n: int): real
    requires NonNegative(s.measure)
  {
    if n == 1 && s.upbeat != 0.0 then s.upbeat else MeasureLength(s.measure, n)
  }

  lemma MeasureStartNext(s: Settings, n: int)
    requires NonNegative(s.measure) && n >= 1
    ensures MeasureStart(s, n + 1) == MeasureStart(s, n) + GridLength(s, n)
  {
  }

  lemma HalfBeatLength(s: Settings, n: int)
    requires HalfBeatMeasures(s)
    ensures HalfBeat(GridLength(s, n)) && GridLength(s, n) >= 0.5
  {
    var x := GridLength(s, n);
    assert HalfBeat(x);
    var a := (2.0 * x).Floor;
    assert a as real == 2.0 * x;
    assert a >= 1;
  }

  lemma HalfBeatBelow(c: real, l: real)
    requires HalfBeat(c) && HalfBeat(l) && c < l
    ensures HalfBeat(c + 0.5) && c + 0.5 <= l
  {
    var a, b := (2.0 * c).Floor, (2.0 * l).Floor;
    assert a < b;
    assert 2.0 * (c + 0.5) == (a + 1) as real;
  }

  /** The walk is at row `k` of measure `g.number`, which has its length,
      and `g.count` of its beats are drawn. */
  ghost predicate Follows(s: Settings, g: Grid, k: nat)
    requires NonNegative(s.measure)
  {
    && g.number >= 1 && g.length == GridLength(s, g.number)
    && 0.0 <= g.count <= g.length && HalfBeat(g.count)
    && 2.0 * (MeasureStart(s, g.number) + g.count) == k as real
  }

  /** At a measure boundary the walk moves on to the next measure. */
  lemma TickAtBoundary(s: Settings, g: Grid, k: nat)
    requires HalfBeatMeasures(s) && Follows(s, g, k) && g.count == g.length
    ensures Follows(s, Tick(s, g), k + 1)
  {
    HalfBeatLength(s, g.number + 1);
    MeasureStartNext(s, g.number);
    HalfBeatHalf();
  }

  lemma HalfBeatHalf()
    ensures HalfBeat(0.5)
  {
    assert (2.0 * 0.5).Floor == 1;
  }

  /** Inside a measure the walk counts half a beat more of it. */
  lemma TickInside(s: Settings, g: Grid, k: nat)
    requires HalfBeatMeasures(s) && Follows(s, g, k) && g.count != g.length
    ensures Follows(s, Tick(s, g), k + 1)
  {
    HalfBeatLength(s, g.number);
    HalfBeatBelow(g.count, g.length);
    assert Tick(s, g) == g.(count := g.count + 0.5);
  }

  lemma TickFollows(s: Settings, g: Grid, k: nat)
    requires HalfBeatMeasures(s) && Follows(s, g, k)
    ensures Follows(s, Tick(s, g), k + 1)
  {
    if g.count == g.length {
      TickAtBoundary(s, g, k);
    } else {
      TickInside(s, g, k);
    }
  }

  /** The corrected walk, once the first column has opened it, follows the
      measures of the break walk row by row. */
  lemma {:induction false} GridFollows(s: Settings, k: nat)
    requires HalfBeatMeasures(s)
    ensures Follows(s, GridAfter(s, ColumnOpen(s, GridStart(s)), k), k)
  {
    if k == 0 {
      assert HalfBeat(0.0) by { assert (2.0 * 0.0).Floor == 0; }
    } else {
      GridFollows(s, k - 1);
      TickFollows(s, GridAfter(s, ColumnOpen(s, GridStart(s)), k - 1), k - 1);
    }
  }

  /** Row `k` draws a measure line exactly when it is the row where a measure
      of the break walk begins, and the number it writes is that of the
      measure just ended, at the row where that measure began. */
  lemma GridMarksMeasureStarts(s: Settings, k: nat)
    requires HalfBeatMeasures(s)
    ensures var g := GridAfter(s, ColumnOpen(s, GridStart(s)), k);
            && (g.count == g.length <==> k as real == 2.0 * MeasureStart(s, g.number + 1))
            && (g.count == g.length ==> k as real / 2.0 - g.length == MeasureStart(s, g.number))
  {
    var g := GridAfter(s, ColumnOpen(s, GridStart(s)), k);
    GridFollows(s, k);
    MeasureStartNext(s, g.number);
  }

  /** So on a column drawing the walk from its start, the number a boundary
      row writes sits on the row where the break walk starts that measure. */
  lemma GridLabelsMeasures(s: Settings, left: real, bottom: real, k: nat)
    requires HalfBeatMeasures(s)
    ensures var g := GridAfter(s, ColumnOpen(s, GridStart(s)), k);
            g.count == g.length ==>
              TickCommands(g, left, bottom, k)[0] == MeasureLabel(g.number, left - 4.0, Row(bottom, MeasureStart(s, g.number)))
  {
    GridMarksMeasureStarts(s, k);
  }

  /** Measure 1 overridden to 3 beats and no upbeat: the break walk starts
      measure 2 at beat 3. The walk as written is still in measure 1 at row 6
      (beat 3) and draws no measure line there; the corrected walk does. */
  lemma WrittenGridMissesMeasureOne()
    ensures var s := DefaultSettings.(measure := map[1 := 3.0]);
            && MeasureStart(s, 2) == 3.0
            && GridAfter(s, ColumnOpen(s, WrittenGridStart()), 6) == Grid(1, 3.0, 4.0)
            && GridAfter(s, ColumnOpen(s, GridStart(s)), 6) == Grid(1, 3.0, 3.0)
  {
    var s := DefaultSettings.(measure := map[1 := 3.0]);
    assert GridAfter(s, WrittenGridStart(), 5) == Grid(1, 2.5, 4.0);
    assert GridAfter(s, GridStart(s), 5) == Grid(1, 2.5, 3.0);
  }

  /** The rows of the first `|cols|` columns. */
  function TotalRows(cols: seq<real>): nat
  {
    if cols == [] then 0 else TotalRows(cols[..|cols| - 1]) + RowCount(cols[|cols| - 1])
  }

  lemma {:induction false} GridAfterAdd(s: Settings, g: Grid, a: nat, b: nat)
    requires NonNegative(s.measure)
    ensures GridAfter(s, GridAfter(s, g, a), b) == GridAfter(s, g, a + b)
  {
    if b > 0 {
      GridAfterAdd(s, g, a, b - 1);
    }
  }

  /** With the corrected start the walk goes on from column to column as
      one walk: after the columns it is where the single walk is after all
      their rows, so the grid keeps following the break walk's measures
      across the cuts. */
  lemma {:induction false} SheetGridFollows(s: Settings, strip: Canvas, sheetHeight: real, cols: seq<real>)
    requires HalfBeatMeasures(s)
    ensures ColumnOpen(s, DrawColumns(s, strip, sheetHeight, GridStart(s), cols).0)
         == GridAfter(s, ColumnOpen(s, GridStart(s)), TotalRows(cols))
  {
    var start := ColumnOpen(s, GridStart(s));
    if cols != [] {
      var init := cols[..|cols| - 1];
      var g := DrawColumns(s, strip, sheetHeight, GridStart(s), init).0;
      var n := RowCount(cols[|cols| - 1]);
      assert ColumnOpen(s, g) == GridAfter(s, start, TotalRows(init)) by {
        SheetGridFollows(s, strip, sheetHeight, init);
      }
      assert DrawColumns(s, strip, sheetHeight, GridStart(s), cols).0 == GridAfter(s, ColumnOpen(s, g), n);
      assert GridAfter(s, GridAfter(s, start, TotalRows(init)), n) == GridAfter(s, start, TotalRows(cols)) by {
        GridAfterAdd(s, start, TotalRows(init), n);
      }
      OpenKeepsWalk(s, TotalRows(cols));
    } else {
      OpenKeepsWalk(s, 0);
    }
  }

  /** Opening a column changes nothing of the corrected walk: in measure 1
      it already has the upbeat's length. */
  lemma OpenKeepsWalk(s: Settings, k: nat)
    requires HalfBeatMeasures(s)
    ensures var g := GridAfter(s, ColumnOpen(s, GridStart(s)), k);
            ColumnOpen(s, g) == g
  {
    GridFollows(s, k);
  }

  // The start as written against the corrected start.

  /** The first column opens the walk as written exactly as it opens the
      corrected walk when there is an upbeat or measure 1 has 4 beats. */
  lemma WrittenStartAgrees(s: Settings)
    requires NonNegative(s.measure)
    ensures ColumnOpen(s, WrittenGridStart()) == ColumnOpen(s, GridStart(s))
        <==> s.upbeat != 0.0 || MeasureLength(s.measure, 1) == 4.0
  {
  }

  /** A column reads the walk it is given only as the column opens it. */
  lemma {:induction false} DrawColumnsFromOpen(s: Settings, strip: Canvas, sheetHeight: real, g1: Grid, g2: Grid, cols: seq<real>)
    requires NonNegative(s.measure) && ColumnOpen(s, g1) == ColumnOpen(s, g2)
    ensures DrawColumns(s, strip, sheetHeight, g1, cols).1 == DrawColumns(s, strip, sheetHeight, g2, cols).1
    ensures ColumnOpen(s, DrawColumns(s, strip, sheetHeight, g1, cols).0)
         == ColumnOpen(s, DrawColumns(s, strip, sheetHeight, g2, cols).0)
  {
    if cols != [] {
      var init := cols[..|cols| - 1];
      DrawColumnsFromOpen(s, strip, sheetHeight, g1, g2, init);
      var h1 := DrawColumns(s, strip, sheetHeight, g1, init).0;
      var h2 := DrawColumns(s, strip, sheetHeight, g2, init).0;
      var col, len, total := |cols| - 1, cols[|cols| - 1], Sum(init);
      assert DrawColumn(s, strip, sheetHeight, h1, col, len, total) == DrawColumn(s, strip, sheetHeight, h2, col, len, total) by {
        DrawColumnParts(s, strip, sheetHeight, h1, col, len, total);
        DrawColumnParts(s, strip, sheetHeight, h2, col, len, total);
      }
    }
  }

  /** The sheet as written is the corrected sheet when there is an upbeat or
      measure 1 is not overridden to another length than 4. */
  lemma CorrectionInvisible(strip: Canvas, s: Settings)
    requires NonNegative(s.measure) && (s.upbeat != 0.0 || MeasureLength(s.measure, 1) == 4.0)
    ensures Pass2(strip, s) == CorrectedPass2(strip, s)
  {
    assert ColumnOpen(s, WrittenGridStart()) == ColumnOpen(s, GridStart(s)) by {
      WrittenStartAgrees(s);
    }
    SheetFromOpen(strip, s, WrittenGridStart(), GridStart(s));
  }

  /** Two starts that agree once a column opens give the same sheet. */
  lemma SheetFromOpen(strip: Canvas, s: Settings, g1: Grid, g2: Grid)
    requires NonNegative(s.measure) && ColumnOpen(s, g1) == ColumnOpen(s, g2)
    ensures SheetOf(strip, s, g1) == SheetOf(strip, s, g2)
  {
    var cols, height := Columns(s, strip.height - Padding * 2.0), SheetHeight(s);
    var d1, d2 := DrawColumns(s, strip, height, g1, cols).1, DrawColumns(s, strip, height, g2, cols).1;
    assert d1 == d2 by {
      DrawColumnsFromOpen(s, strip, height, g1, g2, cols);
    }
    assert SheetOf(strip, s, g1) == Canvas(SheetWidth(cols), height, [Rect(0.0, 0.0, SheetWidth(cols), height, White)] + d1);
  }

  /** So in those cases the grid as written follows the break walk's measures
      across all columns, as the corrected grid does. */
  lemma WrittenSheetGridFollows(s: Settings, strip: Canvas, sheetHeight: real, cols: seq<real>)
    requires HalfBeatMeasures(s) && (s.upbeat != 0.0 || MeasureLength(s.measure, 1) == 4.0)
    ensures ColumnOpen(s, DrawColumns(s, strip, sheetHeight, WrittenGridStart(), cols).0)
         == GridAfter(s, ColumnOpen(s, GridStart(s)), TotalRows(cols))
  {
    WrittenStartAgrees(s);
    DrawColumnsFromOpen(s, strip, sheetHeight, WrittenGridStart(), GridStart(s), cols);
    SheetGridFollows(s, strip, sheetHeight, cols);
  }

  // What the sheet depends on.

  lemma {:induction false} GridAfterAgree(s1: Settings, s2: Settings, g: Grid, k: nat)
    requires NonNegative(s1.measure) && s1.measure == s2.measure
    ensures GridAfter(s1, g, k) == GridAfter(s2, g, k)
  {
    if k > 0 {
      GridAfterAgree(s1, s2, g, k - 1);
    }
  }

  lemma {:induction false} GridRowsAgree(s1: Settings, s2: Settings, g: Grid, left: real, bottom: real, k: nat)
    requires NonNegative(s1.measure) && s1.measure == s2.measure
    ensures GridRows(s1, g, left, bottom, k) == GridRows(s2, g, left, bottom, k)
  {
    if k > 0 {
      assert GridAfter(s1, g, k - 1) == GridAfter(s2, g, k - 1) by {
        GridAfterAgree(s1, s2, g, k - 1);
      }
      assert GridRows(s1, g, left, bottom, k - 1) == GridRows(s2, g, left, bottom, k - 1) by {
        GridRowsAgree(s1, s2, g, left, bottom, k - 1);
      }
    }
  }

  /** The columns read the strip's size only, and of the options only the
      measure lengths and the upbeat: two strips of one size and two sets of
      options that agree on those give the same columns. */
  lemma {:induction false} DrawColumnsAgree(s1: Settings, s2: Settings, a: Canvas, b: Canvas, sheetHeight: real, start: Grid, cols: seq<real>)
    requires NonNegative(s1.measure) && s1.measure == s2.measure && s1.upbeat == s2.upbeat
    requires a.width == b.width && a.height == b.height
    ensures DrawColumns(s1, a, sheetHeight, start, cols) == DrawColumns(s2, b, sheetHeight, start, cols)
  {
    if cols != [] {
      var init := cols[..|cols| - 1];
      DrawColumnsAgree(s1, s2, a, b, sheetHeight, start, init);
      var g := DrawColumns(s1, a, sheetHeight, start, init).0;
      var col, len := |cols| - 1, cols[|cols| - 1];
      DrawColumnAgree(s1, s2, a, b, sheetHeight, g, col, len, Sum(init));
    }
  }

  lemma DrawColumnAgree(s1: Settings, s2: Settings, a: Canvas, b: Canvas, sheetHeight: real, g: Grid, col: nat, len: real, total: real)
    requires NonNegative(s1.measure) && s1.measure == s2.measure && s1.upbeat == s2.upbeat
    requires a.width == b.width && a.height == b.height
    ensures DrawColumn(s1, a, sheetHeight, g, col, len, total) == DrawColumn(s2, b, sheetHeight, g, col, len, total)
  {
    DrawColumnParts(s1, a, sheetHeight, g, col, len, total);
    DrawColumnParts(s2, b, sheetHeight, g, col, len, total);
    var open := ColumnOpen(s1, g);
    assert open == ColumnOpen(s2, g);
    var bottom := ColumnBottom(s1, sheetHeight, col);
    assert bottom == ColumnBottom(s2, sheetHeight, col);
    GridAfterAgree(s1, s2, open, RowCount(len));
    GridRowsAgree(s1, s2, open, ColumnLeft(col), bottom, RowCount(len));
    assert ColumnCopy(a, s1, sheetHeight, col, len, total) == ColumnCopy(b, s2, sheetHeight, col, len, total);
  }
}
