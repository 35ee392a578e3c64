/** `stageJsonToCanvas`: normalise the options, draw the strip, cut it into
    the sheet. */
module Render {
  import opened Chart
  import opened Config
  import opened Geometry
  import opened Trackers
  import opened Strip
  import opened Breaks
  import opened Sheet

  /** What the chart and the caller's options must satisfy: at least one
      entry (the strip's length is the last entry's time), every drawn entry
      on a lane of the tables, and no negative measure length. */
  predicate Renderable(json: seq<Note>, s: Settings)
  {
    |json| > 0 && AllPlaceable(json, s.mirror) && NonNegative(s.measure)
  }

  /** The options after `firstStage` has added its tempo marker. */
  function Marked(s: Settings): Settings
  {
    s.(sofuran := WithMarker(s.sofuran, s.baseBpm))
  }

  /** The sheet. Its copies read the strip `Pass1(json, Normalize(json, u))`. */
  function FinalCanvas(json: seq<Note>, u: UserOptions): (r: Canvas)
    requires Renderable(json, Normalize(json, u))
    ensures r.height == Padding * 2.0 + Normalize(json, u).beatsPerColumn * BeatHeight + InfoHeight
    ensures |r.commands| > 0 && r.commands[0] == Rect(0.0, 0.0, r.width, r.height, White)
  {
    var s := Normalize(json, u);
    Pass2(Pass1(json, s), Marked(s))
  }

  /** The grid the sheet draws starts as the code writes it, with a first
      measure of 4 beats; the sheet is the one the corrected start would give
      whenever there is an upbeat or measure 1 is 4 beats long anyway. */
  lemma FinalCanvasCorrected(json: seq<Note>, u: UserOptions)
    requires Renderable(json, Normalize(json, u))
    requires Normalize(json, u).upbeat != 0.0 || MeasureLength(Normalize(json, u).measure, 1) == 4.0
    ensures FinalCanvas(json, u) == CorrectedPass2(Pass1(json, Normalize(json, u)), Marked(Normalize(json, u)))
  {
    var s := Normalize(json, u);
    CorrectionInvisible(Pass1(json, s), Marked(s));
  }

  method StageJsonToCanvas(json: seq<Note>, u: UserOptions) returns (finalCanvas: Canvas)
    requires Renderable(json, Normalize(json, u))
    ensures finalCanvas == FinalCanvas(json, u)
  {
    var options := NormalizeOptions(json, u);
    var firstCanvas := FirstStage(json, options);
    finalCanvas := SecondStage(firstCanvas, options);
  }

  /** The sheet is one column wide per slice of the chart, and as tall as
      a full column with the padding and the information band. */
  lemma SheetSize(json: seq<Note>, s: Settings)
    requires Renderable(json, s)
    ensures var cols := Columns(Marked(s), TotalBeats(json, s) * BeatHeight);
            var sheet := Pass2(Pass1(json, s), Marked(s));
            && sheet.width == Padding * 2.0 + ColumnWidth * |cols| as real
            && sheet.height == Padding * 2.0 + s.beatsPerColumn * BeatHeight + InfoHeight
  {
    var notes := TotalBeats(json, s) * BeatHeight;
    assert Pass1(json, s).height - Padding * 2.0 == notes by {
      StripHeightWhole(json, s);
    }
    Pass2Unfold(Pass1(json, s), Marked(s), notes);
  }

  /** Every slice of the strip is copied into its column, and the slices,
      less the upbeat, cover every beat up to the last entry. */
  lemma SheetCoversChart(json: seq<Note>, s: Settings)
    requires Renderable(json, s)
    ensures var strip := Pass1(json, s);
            var cols := Columns(Marked(s), TotalBeats(json, s) * BeatHeight);
            var sheet := Pass2(strip, Marked(s));
            && Sum(cols) - s.upbeat >= TotalBeats(json, s)
            && (forall k :: 0 <= k < |cols| ==>
                  ColumnCopy(strip, Marked(s), sheet.height, k, cols[k], Sum(cols[..k])) in sheet.commands)
  {
    var notes := TotalBeats(json, s) * BeatHeight;
    assert Pass1(json, s).height - Padding * 2.0 == notes by {
      StripHeightWhole(json, s);
    }
    SheetShowsWholeStrip(Pass1(json, s), Marked(s), notes);
  }

  /** The mirror option changes the strip, into its reflection, and nothing
      of the sheet: the columns, grid and slices are the same. */
  lemma MirrorOnlyReflectsStrip(json: seq<Note>, s: Settings)
    requires Renderable(json, s) && !s.mirror && Mirrorable(json)
    ensures Renderable(json, s.(mirror := true))
    ensures Pass2(Pass1(json, s.(mirror := true)), Marked(s.(mirror := true))) == Pass2(Pass1(json, s), Marked(s))
    ensures var env := EnvOf(json, s);
            Pass1(json, s.(mirror := true)).commands
              == ReflectAll(NoteCommands(env, json)) + Markers(env, Marked(s).sofuran, Marked(s).sofuran)
  {
    Pass1Mirrors(json, s);
    var mirrored := s.(mirror := true);
    assert Marked(mirrored) == Marked(s).(mirror := true);
    assert Pass1(json, mirrored).height == Pass1(json, s).height;
    Pass2IgnoresMirror(Pass1(json, mirrored), Pass1(json, s), Marked(s));
  }

  /** The second pass reads the strip's size only, and not the mirror option. */
  lemma Pass2IgnoresMirror(a: Canvas, b: Canvas, s: Settings)
    requires NonNegative(s.measure) && a.width == b.width && a.height == b.height
    ensures Pass2(a, s.(mirror := true)) == Pass2(b, s)
  {
    var m := s.(mirror := true);
    var notes := a.height - Padding * 2.0;
    var cols := Columns(s, notes);
    Pass2Unfold(a, m, notes);
    Pass2Unfold(b, s, notes);
    assert Columns(m, notes) == cols by {
      ColumnsAgree(m, s, notes);
    }
    assert SheetHeight(m) == SheetHeight(s);
    assert DrawColumns(m, a, SheetHeight(s), WrittenGridStart(), cols) == DrawColumns(s, b, SheetHeight(s), WrittenGridStart(), cols) by {
      DrawColumnsAgree(m, s, a, b, SheetHeight(s), WrittenGridStart(), cols);
    }
  }
}
