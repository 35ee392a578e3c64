/** The first pass (`firstStage`): one tall strip holding the whole chart —
    long-note bodies and slide connectors, then note heads and arrows, then a
    red marker per tempo checkpoint. */
module Strip {
  import opened Chart
  import opened Tempo
  import opened Geometry
  import opened Trackers
  import opened Config

  /** The length of the chart in beats: the last entry's time, measured from the start. */
  function TotalBeats(json: seq<Note>, s: Settings): (b: real)
    requires |json| > 0
    ensures OnGrid(b)
  {
    BeatAt(s.sofuran, s.baseBpm, SecValue(json[|json| - 1].sec) - s.start)
  }

  /** The strip's height: the chart's beats plus padding above and below. */
  function StripHeight(json: seq<Note>, s: Settings): real
    requires |json| > 0
  {
    Padding * 2.0 + TotalBeats(json, s) * BeatHeight
  }

  /** What the note passes read from the options, with the strip's bottom edge. */
  function EnvOf(json: seq<Note>, s: Settings): Env
    requires |json| > 0
  {
    Env(s.start, s.sofuran, s.baseBpm, s.mirror, s.style, StripHeight(json, s) - Padding)
  }

  /** The arrow direction after the mirror option's status table. */
  function NoteStatus(env: Env, n: Note): Option<int>
  {
    if env.mirror then MirrorStatus(n.status) else Some(n.status)
  }

  /** What a drawn entry shows: its head first; right after it a white ring
      and a coloured core exactly when it is a hold; an arrow in the status's
      direction last exactly when the status asks for one. */
  predicate GlyphLayout(env: Env, n: Note, r: seq<Command>)
  {
    var x, y := LaneX(NoteLane(env, n)), Row(env.bottom, NoteBeat(env, n));
    var dir := ArrowDir(NoteStatus(env, n));
    && |r| == 1 + (if n.kind == Hold then 2 else 0) + (if dir.Some? then 1 else 0)
    && r[0] == Circle(x, y, NoteRadius, NoteFill(env.style))
    && (n.kind == Hold ==> |r| >= 3 && r[1] == Circle(x, y, NoteRadius - 3.0, White)
                                    && r[2] == Circle(x, y, NoteRadius - 3.5, NoteFill(env.style)))
    && (n.kind != Hold ==> forall i :: 0 < i < |r| ==> !r[i].Circle?)
    && (dir.Some? ==> r[|r| - 1] == Polygon(ArrowPath(x, y, dir.value), White))
    && (dir.None? ==> forall i :: 0 <= i < |r| ==> !r[i].Polygon?)
  }

  /** The glyphs of one entry: the head, for a hold a white ring and a
      coloured core, and the arrow unless the status is 0. */
  function Glyphs(env: Env, n: Note): (r: seq<Command>)
    requires Placeable(n, env.mirror)
    ensures !Drawn(n) ==> r == []
    ensures Drawn(n) ==> GlyphLayout(env, n, r)
  {
    if !Drawn(n) then []
    else
      var x, y := LaneX(NoteLane(env, n)), Row(env.bottom, NoteBeat(env, n));
      var ring := if n.kind == Hold
        then [Circle(x, y, NoteRadius - 3.0, White), Circle(x, y, NoteRadius - 3.5, NoteFill(env.style))]
        else [];
      var dir := ArrowDir(NoteStatus(env, n));
      var arrow := if dir.Some? then [Polygon(ArrowPath(x, y, dir.value), White)] else [];
      [Circle(x, y, NoteRadius, NoteFill(env.style))] + ring + arrow
  }

  /** The commands of the second loop after it has seen `notes`. */
  function GlyphPass(env: Env, notes: seq<Note>): (r: seq<Command>)
    requires AllPlaceable(notes, env.mirror)
    ensures |r| <= 4 * |notes|
    ensures (forall i :: 0 <= i < |notes| ==> !Drawn(notes[i])) ==> r == []
  {
    if notes == [] then []
    else GlyphPass(env, notes[..|notes| - 1]) + Glyphs(env, notes[|notes| - 1])
  }

  /** The tempo map after `firstStage`: an empty one gets a checkpoint at 0 s
      with the base BPM. */
  function WithMarker(s: seq<Checkpoint>, baseBpm: real): (r: seq<Checkpoint>)
    ensures |r| > 0
    ensures s != [] ==> r == s
    ensures s == [] ==> r == [Checkpoint(0.0, baseBpm)]
  {
    if s == [] then [Checkpoint(0.0, baseBpm)] else s
  }

  /** The marker of one checkpoint: a red line across the note area half a
      pixel above the checkpoint's beat, and its BPM to the right. The time is
      read as it is, without subtracting the start time. */
  function Marker(env: Env, tempo: seq<Checkpoint>, c: Checkpoint): (r: seq<Command>)
    ensures |r| == 2 && r[0].Line? && r[1].Label?
    ensures r[0].sx == ImageLeft && r[0].ex == ImageRight && r[0].sy == r[0].ey
    ensures r[0].sy == Row(env.bottom, BeatAt(tempo, env.baseBpm, c.time)) - 0.5
    ensures r[1].value == c.bpm && r[1].x == ImageRight + 2.0 && r[1].y == r[0].sy + 4.0
    ensures r[0].stroke == BpmRed && r[1].fill == BpmRed
  {
    var y := Row(env.bottom, BeatAt(tempo, env.baseBpm, c.time)) - 0.5;
    [Line(ImageLeft, y, ImageRight, y, 1.0, BpmRed), Label(c.bpm, ImageRight + 2.0, y + 4.0, BpmRed)]
  }

  /** The markers of the checkpoints `cs`, placed by the tempo map `tempo`. */
  function Markers(env: Env, tempo: seq<Checkpoint>, cs: seq<Checkpoint>): (r: seq<Command>)
    ensures |r| == 2 * |cs|
  {
    if cs == [] then [] else Markers(env, tempo, cs[..|cs| - 1]) + Marker(env, tempo, cs[|cs| - 1])
  }

  /** Everything the notes draw: bodies and connectors first, then heads and arrows. */
  function NoteCommands(env: Env, json: seq<Note>): seq<Command>
    requires AllPlaceable(json, env.mirror)
  {
    ConnectPass(env, json).1 + GlyphPass(env, json)
  }

  /** The strip `firstStage` returns for options `s`. */
  function Pass1(json: seq<Note>, s: Settings): (r: Canvas)
    requires |json| > 0 && AllPlaceable(json, s.mirror)
    ensures r.width == StripWidth && r.height == Padding * 2.0 + TotalBeats(json, s) * BeatHeight
    ensures |r.commands| == |NoteCommands(EnvOf(json, s), json)| + 2 * |WithMarker(s.sofuran, s.baseBpm)|
    ensures r.commands[..|NoteCommands(EnvOf(json, s), json)|] == NoteCommands(EnvOf(json, s), json)
    ensures |r.commands| >= 2
  {
    var env := EnvOf(json, s);
    var tempo := WithMarker(s.sofuran, s.baseBpm);
    Canvas(StripWidth, StripHeight(json, s), NoteCommands(env, json) + Markers(env, tempo, tempo))
  }

  /** The body of the loop of step 4-1 for one entry: the hold tracker
      `longStatus` is updated in place, the new slide tracker and the
      commands drawn are returned. */
  method ConnectNote(env: Env, longStatus: array<Slot>, slideGroup: map<int, SlidePoint>, n: Note)
    returns (groups: map<int, SlidePoint>, drawn: seq<Command>)
    requires longStatus.Length == 6 && Placeable(n, env.mirror)
    modifies longStatus
    ensures longStatus[..] == HoldPart(env, old(longStatus[..]), n).0
    ensures groups == SlidePart(env, slideGroup, n).0
    ensures drawn == HoldPart(env, old(longStatus[..]), n).1 + SlidePart(env, slideGroup, n).1
  {
    var lane := NoteLane(env, n);
    drawn := [];
    if n.kind == Tap || n.kind == Hold {
      var longStart := longStatus[lane];
      var beat := TimeToBeat(env.tempo, env.baseBpm, SecValue(n.sec) - env.start);
      if n.kind == Hold && longStart == Free {
        longStatus[lane] := Pending(beat);
      } else if (n.kind == Tap && longStart != Free) || n.kind == Hold {
        drawn := [BodyRect(env, lane, SlotBeat(longStart), beat)];
        longStatus[lane] := Free;
      }
    }
    groups := slideGroup;
    if n.groupId != 0 {
      var beat := TimeToBeat(env.tempo, env.baseBpm, SecValue(n.sec) - env.start);
      if n.groupId in slideGroup && beat - slideGroup[n.groupId].beat < SlideReach {
        drawn := drawn + [SlideLine(env, slideGroup[n.groupId], lane, beat)];
      }
      groups := slideGroup[n.groupId := SlidePoint(lane, beat)];
    }
  }

  /** Step 4-1 of `firstStage`: long-note bodies and slide connectors. The
      hold tracker is the six-slot array `longStatus`, the slide tracker the
      map `slideGroup`. */
  method DrawConnections(json: seq<Note>, env: Env) returns (cmds: seq<Command>)
    requires AllPlaceable(json, env.mirror)
    ensures cmds == ConnectPass(env, json).1
  {
    cmds := [];
    var longStatus := new Slot[6][Sentinel, Free, Free, Free, Free, Free];
    var slideGroup: map<int, SlidePoint> := map[];
    for i := 0 to |json|
      invariant longStatus[..] == ConnectPass(env, json[..i]).0.holds
      invariant slideGroup == ConnectPass(env, json[..i]).0.slides
      invariant cmds == ConnectPass(env, json[..i]).1
    {
      ConnectUnfold(env, json, i);
      var drawn;
      slideGroup, drawn := ConnectNote(env, longStatus, slideGroup, json[i]);
      cmds := cmds + drawn;
    }
    assert json[..|json|] == json;
  }

  /** Step 4-2 of `firstStage`: note heads, hold rings and arrows. */
  method DrawGlyphs(json: seq<Note>, env: Env) returns (cmds: seq<Command>)
    requires AllPlaceable(json, env.mirror)
    ensures cmds == GlyphPass(env, json)
  {
    cmds := [];
    for i := 0 to |json|
      invariant cmds == GlyphPass(env, json[..i])
    {
      assert json[..i + 1][..i] == json[..i];
      var glyphs := DrawGlyph(env, json[i]);
      cmds := cmds + glyphs;
    }
    assert json[..|json|] == json;
  }

  /** The body of the loop of step 4-2 for one entry. */
  method DrawGlyph(env: Env, n: Note) returns (glyphs: seq<Command>)
    requires Placeable(n, env.mirror)
    ensures glyphs == Glyphs(env, n)
    ensures Drawn(n) ==> GlyphLayout(env, n, glyphs)
    ensures !Drawn(n) ==> glyphs == []
  {
    glyphs := [];
    var lane := NoteLane(env, n);
    var status := if env.mirror then MirrorStatus(n.status) else Some(n.status);
    if n.kind == Tap || n.kind == Hold {
      var beat := TimeToBeat(env.tempo, env.baseBpm, SecValue(n.sec) - env.start);
      var x := ImageLeft + LaneWidth * (lane as real - 0.5);
      var y := env.bottom - beat * BeatHeight;
      glyphs := [Circle(x, y, NoteRadius, NoteFill(env.style))];
      if n.kind == Hold {
        glyphs := glyphs + [Circle(x, y, NoteRadius - 3.0, White), Circle(x, y, NoteRadius - 3.5, NoteFill(env.style))];
      }
      if status != Some(0) {
        var r := if status == Some(1) then -1.0 else 1.0;
        glyphs := glyphs + [Polygon(ArrowPath(x, y, r), White)];
      }
    }
  }

  /** Step 5-1 of `firstStage`: a marker per checkpoint of the tempo map. */
  method DrawMarkers(env: Env, tempo: seq<Checkpoint>) returns (cmds: seq<Command>)
    ensures cmds == Markers(env, tempo, tempo)
  {
    cmds := [];
    for k := 0 to |tempo|
      invariant cmds == Markers(env, tempo, tempo[..k])
    {
      assert tempo[..k + 1][..k] == tempo[..k];
      var marker := DrawMarker(env, tempo, tempo[k]);
      cmds := cmds + marker;
    }
    assert tempo[..|tempo|] == tempo;
  }

  /** The body of the loop of step 5-1 for one checkpoint. */
  method DrawMarker(env: Env, tempo: seq<Checkpoint>, c: Checkpoint) returns (marker: seq<Command>)
    ensures marker == Marker(env, tempo, c)
  {
    var beat := TimeToBeat(tempo, env.baseBpm, c.time);
    var y := env.bottom - beat * BeatHeight - 0.5;
    marker := [Line(ImageLeft, y, ImageRight, y, 1.0, BpmRed), Label(c.bpm, ImageRight + 2.0, y + 4.0, BpmRed)];
  }

  /** `firstStage`: the strip sized to the chart, then the three drawing
      steps. The only change to the options is the checkpoint pushed onto an
      empty tempo map before the markers are drawn. */
  method FirstStage(json: seq<Note>, o: Options) returns (strip: Canvas)
    requires |json| > 0 && AllPlaceable(json, o.mirror)
    modifies o
    ensures o.Snapshot() == old(o.Snapshot()).(sofuran := WithMarker(old(o.sofuran), old(o.baseBpm)))
    ensures strip == Pass1(json, old(o.Snapshot()))
  {
    ghost var s := o.Snapshot();
    // 1. the length of the chart
    var timeStart := o.start;
    var timeEnd := SecValue(json[|json| - 1].sec);
    var totalBeats := TimeToBeat(o.sofuran, o.baseBpm, timeEnd - timeStart);
    // 2. the size of the strip
    var width := Padding * 2.0 + NoteAreaWidth;
    var height := Padding * 2.0 + totalBeats * BeatHeight;
    var env := Env(o.start, o.sofuran, o.baseBpm, o.mirror, o.style, height - Padding);
    assert env == EnvOf(json, s) && height == StripHeight(json, s);
    var notes := DrawNotes(json, env);
    // 5. tempo markers
    PushMarker(o);
    var markers := DrawMarkers(env, o.sofuran);
    strip := Canvas(width, height, notes + markers);
  }

  /** Step 5-1 of `firstStage` before its loop: an empty tempo map gets a
      checkpoint at 0 s with the base BPM; nothing else changes. */
  method PushMarker(o: Options)
    modifies o
    ensures o.Snapshot() == old(o.Snapshot()).(sofuran := WithMarker(old(o.sofuran), old(o.baseBpm)))
  {
    if |o.sofuran| == 0 {
      o.sofuran := o.sofuran + [Checkpoint(0.0, o.baseBpm)];
    }
  }

  /** Step 4 of `firstStage`: the connecting loop, then the glyph loop. */
  method DrawNotes(json: seq<Note>, env: Env) returns (cmds: seq<Command>)
    requires AllPlaceable(json, env.mirror)
    ensures cmds == NoteCommands(env, json)
  {
    var connections := DrawConnections(json, env);
    var glyphs := DrawGlyphs(json, env);
    cmds := connections + glyphs;
  }

  /** One more entry is one more step of the first loop. */
  lemma ConnectUnfold(env: Env, json: seq<Note>, i: nat)
    requires i < |json| && AllPlaceable(json, env.mirror)
    ensures AllPlaceable(json[..i], env.mirror)
    ensures var (tr, cmds) := ConnectPass(env, json[..i]);
            ConnectPass(env, json[..i + 1]) == (StepNote(env, tr, json[i]).0, cmds + StepNote(env, tr, json[i]).1)
  {
    assert json[..i + 1][..i] == json[..i];
  }

  /** The strip's height is a whole number of pixels: the beat count is on the
      1/48 grid and a beat is 48 pixels, so sizing the canvas loses nothing. */
  lemma StripHeightWhole(json: seq<Note>, s: Settings)
    requires |json| > 0 && AllPlaceable(json, s.mirror)
    ensures Pass1(json, s).height.Floor as real == Pass1(json, s).height
    ensures Pass1(json, s).width == 170.0
    ensures Pass1(json, s).height == Padding * 2.0 + TotalBeats(json, s) * BeatHeight
  {
    var env := EnvOf(json, s);
    var tempo := WithMarker(s.sofuran, s.baseBpm);
    assert Pass1(json, s) == Canvas(StripWidth, StripHeight(json, s), NoteCommands(env, json) + Markers(env, tempo, tempo));
    var b := TotalBeats(json, s);
    assert (b * 48.0).Floor as real == b * 48.0;
    var h := Padding * 2.0 + b * BeatHeight;
    assert h == 60.0 + (b * 48.0).Floor as real;
    assert h.Floor == 60 + (b * 48.0).Floor;
  }

  /** Without a tempo map the strip gets one marker, on the bottom row (beat
      0), labelled with the base BPM. */
  lemma EmptyTempoMarker(json: seq<Note>, s: Settings)
    requires |json| > 0 && AllPlaceable(json, s.mirror) && s.sofuran == []
    ensures var bottom := StripHeight(json, s) - Padding;
            Pass1(json, s).commands
            == NoteCommands(EnvOf(json, s), json)
               + [Line(30.0, bottom - 0.5, 140.0, bottom - 0.5, 1.0, BpmRed),
                  Label(s.baseBpm, 142.0, bottom + 3.5, BpmRed)]
  {
    var tempo := [Checkpoint(0.0, s.baseBpm)];
    assert RawBeat(tempo, s.baseBpm, 0.0) == 0.0 by { SegmentAt(tempo, 0.0, 0); }
    QuantizeFixesGrid(0.0);
    assert tempo[..0] == [];
  }

  /** A head is drawn on the note's lane centre at the note's row; an arrow's
      points stay within five pixels across and four pixels up or down of it. */
  lemma GlyphsCentred(env: Env, n: Note)
    requires Placeable(n, env.mirror) && Drawn(n)
    ensures var r := Glyphs(env, n);
            var x, y := LaneX(NoteLane(env, n)), Row(env.bottom, NoteBeat(env, n));
            && r[0] == Circle(x, y, NoteRadius, NoteFill(env.style))
            && (forall i :: 0 <= i < |r| && r[i].Circle? ==> r[i].x == x && r[i].y == y)
            && (forall i, p :: 0 <= i < |r| && r[i].Polygon? && p in r[i].points ==>
                  x - 5.0 <= p.x <= x + 5.0 && y - 4.0 <= p.y <= y + 4.0)
  {
  }

  /** Under the note passes, later entries sit at the same height or higher:
      for a tempo map that starts at 0 s with non-negative BPMs, the head of a
      later drawn entry is never below the head of an earlier one. */
  lemma LaterNotesHigher(env: Env, a: Note, b: Note)
    requires Placeable(a, env.mirror) && Placeable(b, env.mirror) && Drawn(a) && Drawn(b)
    requires SecValue(a.sec) <= SecValue(b.sec)
    requires |env.tempo| == 0 ==> env.baseBpm >= 0.0
    requires |env.tempo| > 0 ==> Increasing(env.tempo) && env.tempo[0].time == 0.0
    requires forall i :: 0 <= i < |env.tempo| ==> env.tempo[i].bpm >= 0.0
    ensures Glyphs(env, b)[0].y <= Glyphs(env, a)[0].y
  {
    var ba, bb := NoteBeat(env, a), NoteBeat(env, b);
    assert ba <= bb by {
      BeatAtMonotone(env.tempo, env.baseBpm, SecValue(a.sec) - env.start, SecValue(b.sec) - env.start);
    }
    assert Glyphs(env, a)[0].y == Row(env.bottom, ba);
    assert Glyphs(env, b)[0].y == Row(env.bottom, bb);
  }

  /** Mirroring one entry's glyphs reflects them, provided its arrow status is
      one of the three the table knows. */
  lemma GlyphsMirror(env: Env, n: Note)
    requires !env.mirror
    requires (Drawn(n) || n.groupId != 0) ==> 1 <= n.lane <= 5
    requires Drawn(n) ==> 0 <= n.status <= 2
    ensures Placeable(n, false) && Placeable(n, true)
    ensures Glyphs(env.(mirror := true), n) == ReflectAll(Glyphs(env, n))
  {
    if Drawn(n) {
      var menv := env.(mirror := true);
      var x, y := LaneX(n.lane), Row(env.bottom, NoteBeat(env, n));
      var fill := NoteFill(env.style);
      var head := [Circle(x, y, NoteRadius, fill)];
      var ring := if n.kind == Hold then [Circle(x, y, NoteRadius - 3.0, White), Circle(x, y, NoteRadius - 3.5, fill)] else [];
      var dir := ArrowDir(Some(n.status));
      var arrow := if dir.Some? then [Polygon(ArrowPath(x, y, dir.value), White)] else [];
      assert Glyphs(env, n) == head + ring + arrow;
      var mx, my := LaneX(NoteLane(menv, n)), Row(menv.bottom, NoteBeat(menv, n));
      assert mx == ReflectX(x) && my == y by {
        MirrorReflectsLane(n.lane);
      }
      var mdir := ArrowDir(NoteStatus(menv, n));
      var marrow := if mdir.Some? then [Polygon(ArrowPath(mx, y, mdir.value), White)] else [];
      assert marrow == ReflectAll(arrow) by {
        MirrorSwapsArrows(n.status);
        if dir.Some? {
          ArrowReflects(x, y, dir.value);
        }
      }
      var mring := if n.kind == Hold then [Circle(mx, y, NoteRadius - 3.0, White), Circle(mx, y, NoteRadius - 3.5, fill)] else [];
      assert mring == ReflectAll(ring);
      assert Glyphs(menv, n) == [Circle(mx, y, NoteRadius, fill)] + mring + marrow;
      ReflectAllAppend(head, ring);
      ReflectAllAppend(head + ring, arrow);
    }
  }

  /** Every drawn or grouped entry on lanes 1..5, every drawn entry's status in 0..2. */
  predicate Mirrorable(notes: seq<Note>)
  {
    && OnLanes(notes)
    && forall i :: 0 <= i < |notes| && Drawn(notes[i]) ==> 0 <= notes[i].status <= 2
  }

  /** Mirror symmetry of the second loop. */
  lemma {:induction false} GlyphPassMirrors(env: Env, notes: seq<Note>)
    requires !env.mirror && Mirrorable(notes)
    ensures AllPlaceable(notes, false) && AllPlaceable(notes, true)
    ensures GlyphPass(env.(mirror := true), notes) == ReflectAll(GlyphPass(env, notes))
  {
    if notes != [] {
      var init := notes[..|notes| - 1];
      assert Mirrorable(init);
      GlyphPassMirrors(env, init);
      GlyphsMirror(env, notes[|notes| - 1]);
      ReflectAllAppend(GlyphPass(env, init), Glyphs(env, notes[|notes| - 1]));
    }
  }

  /** The mirror option draws the reflection of the plain strip: every note
      shape is reflected about the strip's centre line, and the tempo markers
      stay where they are. */
  lemma Pass1Mirrors(json: seq<Note>, s: Settings)
    requires |json| > 0 && !s.mirror && Mirrorable(json)
    ensures AllPlaceable(json, false) && AllPlaceable(json, true)
    ensures var plain, mirrored := Pass1(json, s), Pass1(json, s.(mirror := true));
            var env := EnvOf(json, s);
            var tempo := WithMarker(s.sofuran, s.baseBpm);
            && plain.commands == NoteCommands(env, json) + Markers(env, tempo, tempo)
            && mirrored.commands == ReflectAll(NoteCommands(env, json)) + Markers(env, tempo, tempo)
            && mirrored.width == plain.width && mirrored.height == plain.height
  {
    var env := EnvOf(json, s);
    var menv := EnvOf(json, s.(mirror := true));
    assert menv == env.(mirror := true);
    ConnectPassMirrors(env, json);
    GlyphPassMirrors(env, json);
    ReflectAllAppend(ConnectPass(env, json).1, GlyphPass(env, json));
    var tempo := WithMarker(s.sofuran, s.baseBpm);
    MarkersIgnoreMirror(env, tempo, tempo);
  }

  /** The markers depend on the tempo map, not on the mirror option. */
  lemma {:induction false} MarkersIgnoreMirror(env: Env, tempo: seq<Checkpoint>, cs: seq<Checkpoint>)
    ensures Markers(env.(mirror := true), tempo, cs) == Markers(env, tempo, cs)
  {
    if cs != [] {
      MarkersIgnoreMirror(env, tempo, cs[..|cs| - 1]);
    }
  }
}
