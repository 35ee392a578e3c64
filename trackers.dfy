/** The first loop of the first pass: long-note bodies matched by lane and
    slide connectors matched by group, as a trace over the chart entries. */
module Trackers {
  import opened Chart
  import opened Tempo
  import opened Geometry

  /** One entry of `longStatus`: the `null` of lane 0, `false`, or the beat of
      an open long note. */
  datatype Slot = Sentinel | Free | Pending(beat: real)

  /** The start beat a body is drawn from; `null * SZ_BEAT` is 0 in JavaScript. */
  function SlotBeat(slot: Slot): real
  {
    if slot.Pending? then slot.beat else 0.0
  }

  /** `[null, false, false, false, false, false]`. */
  const InitialHolds: seq<Slot> := [Sentinel, Free, Free, Free, Free, Free]

  /** The `[lane, beat]` pair stored per slide group. */
  datatype SlidePoint = SlidePoint(lane: int, beat: real)

  /** Two notes of a group further apart than this are not connected. */
  const SlideReach: real := 4.0

  /** What the first pass reads from the options, plus the strip's bottom edge. */
  datatype Env = Env(start: real, tempo: seq<Checkpoint>, baseBpm: real, mirror: bool, style: Style, bottom: real)

  /** The lane of an entry is used as an index into the six slots (and, when
      mirrored, into the six-entry table) whenever the entry is drawn or, under
      the mirror option, grouped. */
  predicate Placeable(n: Note, mirror: bool)
  {
    (Drawn(n) || (mirror && n.groupId != 0)) ==> 0 <= n.lane <= 5
  }

  /** The lane after the mirror option; a lane outside the table is only kept
      for entries whose lane is never used. */
  function NoteLane(env: Env, n: Note): int
  {
    if env.mirror && 0 <= n.lane <= 5 then MirrorLane(n.lane) else n.lane
  }

  /** The beat of an entry, measured from the start time. */
  function NoteBeat(env: Env, n: Note): real
  {
    BeatAt(env.tempo, env.baseBpm, SecValue(n.sec) - env.start)
  }

  /** The long-note body between two beats of a lane. */
  function BodyRect(env: Env, lane: int, from: real, to: real): Command
  {
    Rect(LaneX(lane) - LongWidth / 2.0, Row(env.bottom, from),
         LaneX(lane) + LongWidth / 2.0, Row(env.bottom, to), LongFill(env.style))
  }

  /** The slide connector from a stored point to a note. */
  function SlideLine(env: Env, from: SlidePoint, lane: int, beat: real): Command
  {
    Line(LaneX(from.lane), Row(env.bottom, from.beat), LaneX(lane), Row(env.bottom, beat),
         SlideWidth, LongFill(env.style))
  }

  /** The long-note bodies drawn on a lane are the rectangles centred on it. */
  predicate BodyOnLane(c: Command, lane: int)
  {
    c.Rect? && c.sx == LaneX(lane) - LongWidth / 2.0
  }

  /** No rectangle, that is no long-note body, from position `from` on. */
  predicate NoBodyFrom(cs: seq<Command>, from: int)
  {
    forall m :: 0 <= m < |cs| && from <= m ==> !cs[m].Rect?
  }

  /** One step of a lane's hold tracker for a tap or hold at `beat`: the new
      slot and, when a body is drawn, the beat it starts from. */
  function HoldStep(slot: Slot, kind: int, beat: real): (r: (Slot, Option<real>))
    requires kind == Tap || kind == Hold
    ensures kind == Hold && slot == Free ==> r == (Pending(beat), None)
    ensures slot.Pending? ==> r == (Free, Some(slot.beat))
    ensures kind == Tap && slot == Free ==> r == (Free, None)
    ensures slot == Sentinel ==> r == (Free, Some(0.0))
  {
    if kind == Hold && slot == Free then (Pending(beat), None)
    else if (kind == Tap && slot != Free) || kind == Hold then (Free, Some(SlotBeat(slot)))
    else (slot, None)
  }

  /** One step of the slide tracker for a nonzero group: the group's point is
      always replaced, and the previous point is returned for a connector
      exactly when it exists and lies less than four beats back. */
  function SlideStep(groups: map<int, SlidePoint>, groupId: int, lane: int, beat: real)
    : (r: (map<int, SlidePoint>, Option<SlidePoint>))
    ensures r.0 == groups[groupId := SlidePoint(lane, beat)]
    ensures r.1.Some? <==> groupId in groups && beat - groups[groupId].beat < SlideReach
    ensures r.1.Some? ==> r.1.value == groups[groupId]
  {
    var before := if groupId in groups then Some(groups[groupId]) else None;
    var connect := before.Some? && beat - before.value.beat < SlideReach;
    (groups[groupId := SlidePoint(lane, beat)], if connect then before else None)
  }

  datatype Trackers = Trackers(holds: seq<Slot>, slides: map<int, SlidePoint>)

  /** The hold tracker's part of one iteration: a tap or hold updates its
      lane's slot and may draw a body; other entries change nothing. */
  function HoldPart(env: Env, holds: seq<Slot>, n: Note): (r: (seq<Slot>, seq<Command>))
    requires |holds| == 6 && Placeable(n, env.mirror)
    ensures |r.0| == 6
  {
    if Drawn(n) then
      var lane, beat := NoteLane(env, n), NoteBeat(env, n);
      var (slot, from) := HoldStep(holds[lane], n.kind, beat);
      (holds[lane := slot], if from.Some? then [BodyRect(env, lane, from.value, beat)] else [])
    else (holds, [])
  }

  /** The slide tracker's part of one iteration: an entry of a nonzero group
      stores its point and may draw a connector; other entries change nothing. */
  function SlidePart(env: Env, slides: map<int, SlidePoint>, n: Note): (r: (map<int, SlidePoint>, seq<Command>))
    ensures n.groupId == 0 ==> r == (slides, [])
    ensures n.groupId != 0 ==> r.0 == slides[n.groupId := SlidePoint(NoteLane(env, n), NoteBeat(env, n))]
    ensures n.groupId != 0 ==>
      (|r.1| == 1 <==> n.groupId in slides && NoteBeat(env, n) - slides[n.groupId].beat < SlideReach)
    ensures |r.1| <= 1
    ensures |r.1| == 1 ==> r.1[0] == SlideLine(env, slides[n.groupId], NoteLane(env, n), NoteBeat(env, n))
  {
    if n.groupId != 0 then
      var lane, beat := NoteLane(env, n), NoteBeat(env, n);
      var (groups, from) := SlideStep(slides, n.groupId, lane, beat);
      (groups, if from.Some? then [SlideLine(env, from.value, lane, beat)] else [])
    else (slides, [])
  }

  /** One iteration of the first loop: the hold tracker for taps and holds,
      then the slide tracker for nonzero groups. */
  function StepNote(env: Env, tr: Trackers, n: Note): (r: (Trackers, seq<Command>))
    requires |tr.holds| == 6 && Placeable(n, env.mirror)
    ensures |r.0.holds| == 6
  {
    var (holds, bodies) := HoldPart(env, tr.holds, n);
    var (slides, lines) := SlidePart(env, tr.slides, n);
    (Trackers(holds, slides), bodies + lines)
  }

  predicate AllPlaceable(notes: seq<Note>, mirror: bool)
  {
    forall i :: 0 <= i < |notes| ==> Placeable(notes[i], mirror)
  }

  /** The trackers and the commands after the first loop has seen `notes`. */
  function ConnectPass(env: Env, notes: seq<Note>): (r: (Trackers, seq<Command>))
    requires AllPlaceable(notes, env.mirror)
    ensures |r.0.holds| == 6
  {
    if notes == [] then (Trackers(InitialHolds, map[]), [])
    else
      var (tr, cmds) := ConnectPass(env, notes[..|notes| - 1]);
      var (tr', more) := StepNote(env, tr, notes[|notes| - 1]);
      (tr', cmds + more)
  }

  /** A tap or hold on a lane. */
  predicate TouchesLane(env: Env, n: Note, lane: int)
  {
    Drawn(n) && NoteLane(env, n) == lane
  }

  /** The first loop after one more entry: one more step of the trackers. */
  lemma ConnectPassLast(env: Env, notes: seq<Note>)
    requires notes != [] && AllPlaceable(notes, env.mirror)
    ensures var init := notes[..|notes| - 1];
            var prev := ConnectPass(env, init);
            var step := StepNote(env, prev.0, notes[|notes| - 1]);
            ConnectPass(env, notes) == (step.0, prev.1 + step.1)
  {
  }

  /** One entry that is not a tap or hold on `lane` keeps its slot and draws
      no body on it. */
  lemma StepKeepsSlot(env: Env, tr: Trackers, n: Note, lane: int)
    requires |tr.holds| == 6 && Placeable(n, env.mirror) && 0 <= lane < 6 && !TouchesLane(env, n, lane)
    ensures StepNote(env, tr, n).0.holds[lane] == tr.holds[lane]
    ensures forall i :: 0 <= i < |StepNote(env, tr, n).1| ==> !BodyOnLane(StepNote(env, tr, n).1[i], lane)
  {
    var more := StepNote(env, tr, n).1;
    forall i | 0 <= i < |more| ensures !BodyOnLane(more[i], lane) {
      if Drawn(n) && more[i].Rect? {
        assert more[i] == BodyRect(env, NoteLane(env, n), HoldStep(tr.holds[NoteLane(env, n)], n.kind, NoteBeat(env, n)).1.value, NoteBeat(env, n));
      }
    }
  }

  /** Entries that are not taps or holds on lane `lane` leave its slot alone
      and draw no body on it; what they draw only extends the command list. */
  lemma {:induction false} SlotKept(env: Env, notes: seq<Note>, k: nat, lane: int)
    requires k <= |notes| && AllPlaceable(notes, env.mirror) && 0 <= lane < 6
    requires forall m :: k <= m < |notes| ==> !TouchesLane(env, notes[m], lane)
    ensures ConnectPass(env, notes).0.holds[lane] == ConnectPass(env, notes[..k]).0.holds[lane]
    ensures ConnectPass(env, notes[..k]).1 <= ConnectPass(env, notes).1
    ensures forall i :: |ConnectPass(env, notes[..k]).1| <= i < |ConnectPass(env, notes).1| ==>
              !BodyOnLane(ConnectPass(env, notes).1[i], lane)
  {
    if |notes| == k {
      assert notes[..k] == notes;
    } else {
      var init := notes[..|notes| - 1];
      assert init[..k] == notes[..k];
      SlotKept(env, init, k, lane);
      var n := notes[|notes| - 1];
      var tr := ConnectPass(env, init).0;
      var step := StepNote(env, tr, n);
      assert ConnectPass(env, notes) == (step.0, ConnectPass(env, init).1 + step.1) by {
        ConnectPassLast(env, notes);
      }
      StepKeepsSlot(env, tr, n, lane);
    }
  }

  /** A hold that opens a lane and is never followed by another tap or hold
      on that lane leaves the lane open and draws no body there. */
  lemma StrayHoldDrawsNothing(env: Env, notes: seq<Note>, k: nat)
    requires k < |notes| && AllPlaceable(notes, env.mirror)
    requires notes[k].kind == Hold
    requires ConnectPass(env, notes[..k]).0.holds[NoteLane(env, notes[k])] == Free
    requires forall m :: k < m < |notes| ==> !TouchesLane(env, notes[m], NoteLane(env, notes[k]))
    ensures ConnectPass(env, notes).0.holds[NoteLane(env, notes[k])] == Pending(NoteBeat(env, notes[k]))
    ensures ConnectPass(env, notes[..k]).1 <= ConnectPass(env, notes).1
    ensures forall i :: |ConnectPass(env, notes[..k]).1| <= i < |ConnectPass(env, notes).1| ==>
              !BodyOnLane(ConnectPass(env, notes).1[i], NoteLane(env, notes[k]))
  {
    var n := notes[k];
    var lane := NoteLane(env, n);
    var pre1 := notes[..k + 1];
    assert ConnectPass(env, pre1).0.holds[lane] == Pending(NoteBeat(env, n))
        && ConnectPass(env, notes[..k]).1 <= ConnectPass(env, pre1).1
        && NoBodyFrom(ConnectPass(env, pre1).1, |ConnectPass(env, notes[..k]).1|) by {
      assert pre1[..k] == notes[..k] && pre1[k] == n;
      ConnectPassLast(env, pre1);
      HoldOpens(env, ConnectPass(env, notes[..k]).0, n);
    }
    SlotKept(env, notes, k + 1, lane);
  }

  /** A hold on a free lane opens it at its own beat and draws no body. */
  lemma HoldOpens(env: Env, tr: Trackers, n: Note)
    requires |tr.holds| == 6 && Placeable(n, env.mirror) && n.kind == Hold
    requires tr.holds[NoteLane(env, n)] == Free
    ensures StepNote(env, tr, n).0.holds[NoteLane(env, n)] == Pending(NoteBeat(env, n))
    ensures NoBodyFrom(StepNote(env, tr, n).1, 0)
  {
  }

  /** A tap or hold on a lane whose slot is open draws one body, from the
      open beat to its own, before any slide connector, and frees the slot. */
  lemma PendingCloses(env: Env, notes: seq<Note>, lane: int, from: real)
    requires notes != [] && AllPlaceable(notes, env.mirror) && 0 <= lane < 6
    requires ConnectPass(env, notes[..|notes| - 1]).0.holds[lane] == Pending(from)
    requires TouchesLane(env, notes[|notes| - 1], lane)
    ensures ConnectPass(env, notes).0.holds[lane] == Free
    ensures var before := ConnectPass(env, notes[..|notes| - 1]).1;
            var after := ConnectPass(env, notes).1;
            && |before| < |after| && after[..|before|] == before
            && after[|before|] == BodyRect(env, lane, from, NoteBeat(env, notes[|notes| - 1]))
            && NoBodyFrom(after, |before| + 1)
  {
    var n := notes[|notes| - 1];
    var (tr, before) := ConnectPass(env, notes[..|notes| - 1]);
    var (tr', more) := StepNote(env, tr, n);
    assert ConnectPass(env, notes) == (tr', before + more);
    assert more[0] == BodyRect(env, lane, from, NoteBeat(env, n));
    assert forall m :: 1 <= m < |more| ==> more[m].Line?;
  }

  /** A hold that opens a lane is closed by the next tap or hold on that lane,
      which draws exactly one body, from the hold's beat to its own, and frees the lane. */
  lemma HoldPairsWithNextOnLane(env: Env, notes: seq<Note>, i: nat, j: nat)
    requires i < j < |notes| && AllPlaceable(notes, env.mirror)
    requires notes[i].kind == Hold
    requires ConnectPass(env, notes[..i]).0.holds[NoteLane(env, notes[i])] == Free
    requires TouchesLane(env, notes[j], NoteLane(env, notes[i]))
    requires forall m :: i < m < j ==> !TouchesLane(env, notes[m], NoteLane(env, notes[i]))
    ensures ConnectPass(env, notes[..j + 1]).0.holds[NoteLane(env, notes[i])] == Free
    ensures var before := ConnectPass(env, notes[..j]).1;
            var after := ConnectPass(env, notes[..j + 1]).1;
            && |before| < |after| && after[..|before|] == before
            && after[|before|] == BodyRect(env, NoteLane(env, notes[i]), NoteBeat(env, notes[i]), NoteBeat(env, notes[j]))
            && NoBodyFrom(after, |before| + 1)
  {
    OpenUntil(env, notes, i, j);
    CloseAt(env, notes, j, NoteLane(env, notes[i]), NoteBeat(env, notes[i]));
  }

  /** The lane a hold opens is still open just before the next tap or hold on it. */
  lemma OpenUntil(env: Env, notes: seq<Note>, i: nat, j: nat)
    requires i < j <= |notes| && AllPlaceable(notes, env.mirror)
    requires notes[i].kind == Hold
    requires ConnectPass(env, notes[..i]).0.holds[NoteLane(env, notes[i])] == Free
    requires forall m :: i < m < j ==> !TouchesLane(env, notes[m], NoteLane(env, notes[i]))
    ensures ConnectPass(env, notes[..j]).0.holds[NoteLane(env, notes[i])] == Pending(NoteBeat(env, notes[i]))
  {
    var upto := notes[..j];
    assert upto[..i] == notes[..i] && upto[i] == notes[i];
    assert forall m :: i < m < |upto| ==> upto[m] == notes[m];
    StrayHoldDrawsNothing(env, upto, i);
  }

  /** `PendingCloses` for the entry at position `j` of a longer chart. */
  lemma CloseAt(env: Env, notes: seq<Note>, j: nat, lane: int, from: real)
    requires j < |notes| && AllPlaceable(notes, env.mirror) && 0 <= lane < 6
    requires ConnectPass(env, notes[..j]).0.holds[lane] == Pending(from)
    requires TouchesLane(env, notes[j], lane)
    ensures ConnectPass(env, notes[..j + 1]).0.holds[lane] == Free
    ensures var before := ConnectPass(env, notes[..j]).1;
            var after := ConnectPass(env, notes[..j + 1]).1;
            && |before| < |after| && after[..|before|] == before
            && after[|before|] == BodyRect(env, lane, from, NoteBeat(env, notes[j]))
            && NoBodyFrom(after, |before| + 1)
  {
    var upto1 := notes[..j + 1];
    assert upto1[..|upto1| - 1] == notes[..j] && upto1[|upto1| - 1] == notes[j];
    PendingCloses(env, upto1, lane, from);
  }

  /** The slot table with the lanes mirrored: slot `MirrorLane(l)` holds what slot `l` held. */
  function MirrorHolds(h: seq<Slot>): (r: seq<Slot>)
    requires |h| == 6
    ensures |r| == 6
    ensures forall l :: 0 <= l <= 5 ==> r[MirrorLane(l)] == h[l]
  {
    [h[0], h[5], h[4], h[3], h[2], h[1]]
  }

  function MirrorPoint(p: SlidePoint): SlidePoint
  {
    if 0 <= p.lane <= 5 then SlidePoint(MirrorLane(p.lane), p.beat) else p
  }

  /** The slide table with every stored lane mirrored. */
  function MirrorSlides(m: map<int, SlidePoint>): (r: map<int, SlidePoint>)
    ensures r.Keys == m.Keys
    ensures forall g :: g in m ==> r[g] == MirrorPoint(m[g])
  {
    map g | g in m :: MirrorPoint(m[g])
  }

  /** Every drawn or grouped entry sits on one of the five lanes. */
  predicate OnLanes(notes: seq<Note>)
  {
    forall i :: 0 <= i < |notes| && (Drawn(notes[i]) || notes[i].groupId != 0) ==> 1 <= notes[i].lane <= 5
  }

  /** The stored slide points all lie on the five lanes. */
  predicate SlidesOnLanes(m: map<int, SlidePoint>)
  {
    forall g :: g in m ==> 1 <= m[g].lane <= 5
  }

  /** The hold part of a mirrored step is the reflection of the plain one. */
  lemma HoldPartMirrors(env: Env, holds: seq<Slot>, n: Note)
    requires !env.mirror && |holds| == 6
    requires (Drawn(n) || n.groupId != 0) ==> 1 <= n.lane <= 5
    ensures Placeable(n, false) && Placeable(n, true)
    ensures var (plain, pc) := HoldPart(env, holds, n);
            var (mirrored, mc) := HoldPart(env.(mirror := true), MirrorHolds(holds), n);
            mirrored == MirrorHolds(plain) && mc == ReflectAll(pc)
  {
    if Drawn(n) {
      var menv := env.(mirror := true);
      var l, beat := n.lane, NoteBeat(env, n);
      var ml := MirrorLane(l);
      assert NoteBeat(menv, n) == beat && NoteLane(menv, n) == ml && NoteLane(env, n) == l;
      MirrorReflectsLane(l);
      var (slot, from) := HoldStep(holds[l], n.kind, beat);
      assert MirrorHolds(holds)[ml] == holds[l];
      assert MirrorHolds(holds[l := slot]) == MirrorHolds(holds)[ml := slot];
      if from.Some? {
        assert BodyRect(menv, ml, from.value, beat) == Reflect(BodyRect(env, l, from.value, beat));
      }
    }
  }

  /** The slide part of a mirrored step is the reflection of the plain one. */
  lemma SlidePartMirrors(env: Env, slides: map<int, SlidePoint>, n: Note)
    requires !env.mirror && SlidesOnLanes(slides)
    requires (Drawn(n) || n.groupId != 0) ==> 1 <= n.lane <= 5
    ensures var (plain, pc) := SlidePart(env, slides, n);
            var (mirrored, mc) := SlidePart(env.(mirror := true), MirrorSlides(slides), n);
            && SlidesOnLanes(plain)
            && mirrored == MirrorSlides(plain) && mc == ReflectAll(pc)
  {
    if n.groupId != 0 {
      var menv := env.(mirror := true);
      var l, beat := n.lane, NoteBeat(env, n);
      var ml := MirrorLane(l);
      assert NoteBeat(menv, n) == beat && NoteLane(menv, n) == ml && NoteLane(env, n) == l;
      MirrorReflectsLane(l);
      var (groups, from) := SlideStep(slides, n.groupId, l, beat);
      assert MirrorSlides(groups) == MirrorSlides(slides)[n.groupId := SlidePoint(ml, beat)];
      if from.Some? {
        MirrorReflectsLane(from.value.lane);
        assert SlideLine(menv, MirrorPoint(from.value), ml, beat) == Reflect(SlideLine(env, from.value, l, beat));
      }
    }
  }

  /** One step of the mirrored run is the reflection of the plain one. */
  lemma StepMirrors(env: Env, tr: Trackers, n: Note)
    requires !env.mirror && |tr.holds| == 6 && SlidesOnLanes(tr.slides)
    requires (Drawn(n) || n.groupId != 0) ==> 1 <= n.lane <= 5
    ensures Placeable(n, false) && Placeable(n, true)
    ensures var (plain, pc) := StepNote(env, tr, n);
            var (mirrored, mc) := StepNote(env.(mirror := true), Trackers(MirrorHolds(tr.holds), MirrorSlides(tr.slides)), n);
            && SlidesOnLanes(plain.slides)
            && mirrored == Trackers(MirrorHolds(plain.holds), MirrorSlides(plain.slides))
            && mc == ReflectAll(pc)
  {
    HoldPartMirrors(env, tr.holds, n);
    SlidePartMirrors(env, tr.slides, n);
    ReflectAllAppend(HoldPart(env, tr.holds, n).1, SlidePart(env, tr.slides, n).1);
  }

  /** Mirror symmetry of the first loop: with every drawn or grouped entry on
      lanes 1..5, the mirrored run draws the reflection of what the plain run
      draws, and its trackers are the plain run's with the lanes mirrored. */
  lemma {:induction false} ConnectPassMirrors(env: Env, notes: seq<Note>)
    requires !env.mirror && OnLanes(notes)
    ensures AllPlaceable(notes, false) && AllPlaceable(notes, true)
    ensures var (plain, pc) := ConnectPass(env, notes);
            var (mirrored, mc) := ConnectPass(env.(mirror := true), notes);
            && SlidesOnLanes(plain.slides)
            && mirrored == Trackers(MirrorHolds(plain.holds), MirrorSlides(plain.slides))
            && mc == ReflectAll(pc)
  {
    if notes != [] {
      var init := notes[..|notes| - 1];
      assert OnLanes(init);
      ConnectPassMirrors(env, init);
      var n := notes[|notes| - 1];
      var (tr, cmds) := ConnectPass(env, init);
      StepMirrors(env, tr, n);
      var (plain, more) := StepNote(env, tr, n);
      ReflectAllAppend(cmds, more);
    } else {
      assert MirrorHolds(InitialHolds) == InitialHolds;
    }
  }
}
