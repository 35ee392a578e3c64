/** The time-to-beat mapper: a walk over the tempo map (or a constant BPM)
    followed by rounding to the 1/48-beat grid. */
module Tempo {
  import opened Chart

  /** A beat position on the 1/48-beat grid. */
  predicate OnGrid(b: real)
  {
    (b * 48.0).Floor as real == b * 48.0
  }

  /** `Math.round(b * 48) / 48`; JavaScript's Math.round is floor(x + 1/2). */
  function Quantize(b: real): (q: real)
    ensures OnGrid(q)
    ensures b - 1.0 / 96.0 < q <= b + 1.0 / 96.0
  {
    ((b * 48.0 + 0.5).Floor as real) / 48.0
  }

  /** Rounding leaves grid positions where they are. */
  lemma QuantizeFixesGrid(q: real)
    requires OnGrid(q)
    ensures Quantize(q) == q
  {
    var k := (q * 48.0).Floor;
    assert (k as real + 0.5).Floor == k;
    assert q * 48.0 + 0.5 == k as real + 0.5;
    assert q == k as real / 48.0;
  }

  /** Re-quantising a beat returned by the mapper changes nothing. */
  lemma QuantizeIdempotent(b: real)
    ensures Quantize(Quantize(b)) == Quantize(b)
  {
    QuantizeFixesGrid(Quantize(b));
  }

  /** Rounding never reorders two beats. */
  lemma QuantizeMonotone(a: real, b: real)
    requires a <= b
    ensures Quantize(a) <= Quantize(b)
  {
    assert (a * 48.0 + 0.5).Floor <= (b * 48.0 + 0.5).Floor;
  }

  /** The segment the walk stops in when started at checkpoint `i`: the first
      `k >= i` that is the last checkpoint or whose successor lies after `time`. */
  function SegmentFrom(s: seq<Checkpoint>, time: real, i: nat): (k: nat)
    requires i < |s|
    ensures i <= k < |s|
    ensures forall j :: i < j <= k ==> s[j].time <= time
    ensures k + 1 < |s| ==> time < s[k + 1].time
    decreases |s| - i
  {
    if i + 1 < |s| && s[i + 1].time <= time then SegmentFrom(s, time, i + 1) else i
  }

  /** The checkpoint whose BPM applies at `time`. */
  function Segment(s: seq<Checkpoint>, time: real): (k: nat)
    requires |s| > 0
    ensures k < |s|
    ensures forall j :: 0 < j <= k ==> s[j].time <= time
    ensures k + 1 < |s| ==> time < s[k + 1].time
  {
    SegmentFrom(s, time, 0)
  }

  /** The two conditions on `Segment` pin it down: the first checkpoint
      whose successor lies after `time`. */
  lemma SegmentAt(s: seq<Checkpoint>, time: real, k: nat)
    requires k < |s|
    requires forall j :: 0 < j <= k ==> s[j].time <= time
    requires k + 1 < |s| ==> time < s[k + 1].time
    ensures Segment(s, time) == k
  {
  }

  /** Beats accumulated over the full intervals before checkpoint `k`. */
  function BeatsBefore(s: seq<Checkpoint>, k: nat): real
    requires k < |s|
  {
    if k == 0 then 0.0
    else BeatsBefore(s, k - 1) + s[k - 1].bpm / 60.0 * (s[k].time - s[k - 1].time)
  }

  /** The beat the walk returns when it stops in segment `k`. The elapsed time
      it subtracts is the sum of the earlier intervals, `s[k].time - s[0].time`,
      because the walk starts its clock at 0 and not at `s[0].time`. */
  function SegmentBeat(s: seq<Checkpoint>, k: nat, time: real): real
    requires k < |s|
  {
    BeatsBefore(s, k) + s[k].bpm / 60.0 * (time - (s[k].time - s[0].time))
  }

  /** The unrounded beat at `time`: constant BPM when the tempo map is empty,
      otherwise the segment formula of the segment `time` falls in. */
  function RawBeat(s: seq<Checkpoint>, baseBpm: real, time: real): (b: real)
    ensures |s| == 0 ==> b == baseBpm / 60.0 * time
    ensures |s| > 0 && (|s| == 1 || time < s[1].time) ==> b == s[0].bpm / 60.0 * time
  {
    if |s| == 0 then baseBpm / 60.0 * time
    else SegmentBeat(s, Segment(s, time), time)
  }

  /** `timeToBeat`: the raw beat rounded to the 1/48 grid. */
  function BeatAt(s: seq<Checkpoint>, baseBpm: real, time: real): (b: real)
    ensures OnGrid(b)
    ensures RawBeat(s, baseBpm, time) - 1.0 / 96.0 < b <= RawBeat(s, baseBpm, time) + 1.0 / 96.0
  {
    Quantize(RawBeat(s, baseBpm, time))
  }

  /** `_timeToBeat`. The source's for loop returns from inside; its
      continuation test `!(time < next.time)` is the loop guard here. */
  method RawBeatAt(s: seq<Checkpoint>, baseBpm: real, time: real) returns (beat: real)
    ensures beat == RawBeat(s, baseBpm, time)
  {
    if |s| > 0 {
      beat := 0.0;
      var timePassed := 0.0;
      var i := 0;
      while i + 1 < |s| && s[i + 1].time <= time
        invariant 0 <= i < |s|
        invariant beat == BeatsBefore(s, i)
        invariant timePassed == s[i].time - s[0].time
        invariant forall j :: 0 < j <= i ==> s[j].time <= time
      {
        var interval := s[i + 1].time - s[i].time;
        beat := beat + s[i].bpm / 60.0 * interval;
        timePassed := timePassed + interval;
        i := i + 1;
      }
      var rate := s[i].bpm / 60.0;
      assert rate * (time - timePassed) == rate * (time - (s[i].time - s[0].time));
      beat := beat + rate * (time - timePassed);
      assert beat == SegmentBeat(s, i, time);
      SegmentAt(s, time, i);
    } else {
      beat := baseBpm / 60.0 * time;
    }
  }

  /** `timeToBeat`: the mapper's beat, on the 1/48 grid. */
  method TimeToBeat(s: seq<Checkpoint>, baseBpm: real, time: real) returns (beat: real)
    ensures beat == BeatAt(s, baseBpm, time)
    ensures OnGrid(beat)
  {
    var raw := RawBeatAt(s, baseBpm, time);
    beat := Quantize(raw);
  }

  /** Without a tempo map the beat is BPM/60 times the time: 120 BPM at 2 s is 4 beats. */
  lemma ConstantTempo(baseBpm: real, time: real)
    ensures RawBeat([], baseBpm, time) == baseBpm / 60.0 * time
    ensures BeatAt([], 120.0, 2.0) == 4.0
  {
    QuantizeFixesGrid(4.0);
  }

  /** The BPM marker synthesised for an empty tempo map, one checkpoint at
      time 0 with the base BPM, gives every time the same beat as the empty map. */
  lemma MarkerKeepsBeats(baseBpm: real, other: real, time: real)
    ensures RawBeat([Checkpoint(0.0, baseBpm)], other, time) == RawBeat([], baseBpm, time)
  {
    assert Segment([Checkpoint(0.0, baseBpm)], time) == 0;
  }

  /** At checkpoint `k + 1` the next segment starts `s[0].time * (bpm' - bpm) / 60`
      beats away from where segment `k` arrives: the walk's clock starts at 0, so
      the offset of the first checkpoint is charged at the new BPM. */
  lemma CheckpointJump(s: seq<Checkpoint>, k: nat)
    requires k + 1 < |s|
    ensures SegmentBeat(s, k + 1, s[k + 1].time)
         == SegmentBeat(s, k, s[k + 1].time) + s[0].time * (s[k + 1].bpm - s[k].bpm) / 60.0
  {
    var t0, tk, tn := s[0].time, s[k].time, s[k + 1].time;
    var b, bn := s[k].bpm, s[k + 1].bpm;
    calc {
      SegmentBeat(s, k + 1, tn);
      BeatsBefore(s, k) + b / 60.0 * (tn - tk) + bn / 60.0 * (tn - (tn - t0));
      BeatsBefore(s, k) + b / 60.0 * (tn - (tk - t0)) + t0 * (bn - b) / 60.0;
      SegmentBeat(s, k, tn) + t0 * (bn - b) / 60.0;
    }
  }

  /** Checkpoint times strictly increase. */
  predicate Increasing(s: seq<Checkpoint>)
  {
    forall i, j :: 0 <= i < j < |s| ==> s[i].time < s[j].time
  }

  /** Between two checkpoints (and past the last one) the mapper follows the
      linear formula of the segment on the left. */
  lemma OnSegment(s: seq<Checkpoint>, baseBpm: real, k: nat, time: real)
    requires Increasing(s) && k < |s|
    requires k > 0 ==> s[k].time <= time
    requires k + 1 < |s| ==> time < s[k + 1].time
    ensures RawBeat(s, baseBpm, time) == SegmentBeat(s, k, time)
  {
    forall j | 0 < j <= k ensures s[j].time <= time {
      assert s[j].time <= s[k].time;
    }
    SegmentAt(s, time, k);
  }

  /** With the first checkpoint at time 0 the mapper is continuous: at every
      checkpoint it equals the value the previous segment arrives at. */
  lemma ContinuousAtCheckpoints(s: seq<Checkpoint>, baseBpm: real, k: nat)
    requires Increasing(s) && k + 1 < |s|
    requires s[0].time == 0.0
    ensures RawBeat(s, baseBpm, s[k + 1].time) == SegmentBeat(s, k, s[k + 1].time)
  {
    OnSegment(s, baseBpm, k + 1, s[k + 1].time);
    CheckpointJump(s, k);
  }

  /** Two checkpoints, 120 BPM from 0 s and 240 BPM from 10 s: both sides meet at 20 beats. */
  lemma TwoCheckpointExample(baseBpm: real)
    ensures RawBeat([Checkpoint(0.0, 120.0), Checkpoint(10.0, 240.0)], baseBpm, 10.0) == 20.0
    ensures SegmentBeat([Checkpoint(0.0, 120.0), Checkpoint(10.0, 240.0)], 0, 10.0) == 20.0
    ensures RawBeat([Checkpoint(0.0, 120.0), Checkpoint(10.0, 240.0)], baseBpm, 15.0) == 40.0
  {
    var s := [Checkpoint(0.0, 120.0), Checkpoint(10.0, 240.0)];
    SegmentAt(s, 10.0, 1);
    SegmentAt(s, 15.0, 1);
  }

  /** With the first checkpoint at 10 s instead of 0 s the mapper jumps back:
      240 BPM up to 20 s reaches 80 beats, yet 20 s itself maps to 60 beats. */
  lemma OffsetFirstCheckpointGoesBack(baseBpm: real, time: real)
    requires time < 20.0
    ensures RawBeat([Checkpoint(10.0, 240.0), Checkpoint(20.0, 120.0)], baseBpm, time) == 4.0 * time
    ensures RawBeat([Checkpoint(10.0, 240.0), Checkpoint(20.0, 120.0)], baseBpm, 20.0) == 60.0
  {
    var s := [Checkpoint(10.0, 240.0), Checkpoint(20.0, 120.0)];
    SegmentAt(s, time, 0);
    SegmentAt(s, 20.0, 1);
  }

  /** Later times never fall in earlier segments. */
  lemma SegmentMonotone(s: seq<Checkpoint>, t1: real, t2: real)
    requires |s| > 0 && t1 <= t2
    ensures Segment(s, t1) <= Segment(s, t2)
  {
  }

  /** The beat at which segment `k` starts, for a map that starts at 0 s with
      non-negative BPMs, never decreases with `k`. */
  lemma {:induction false} SegmentStartsIncrease(s: seq<Checkpoint>, j: nat, k: nat)
    requires j <= k < |s|
    requires Increasing(s) && s[0].time == 0.0
    requires forall i :: 0 <= i < |s| ==> s[i].bpm >= 0.0
    ensures SegmentBeat(s, j, s[j].time) <= SegmentBeat(s, k, s[k].time)
  {
    if j < k {
      SegmentStartsIncrease(s, j, k - 1);
      CheckpointJump(s, k - 1);
      var b := s[k - 1].bpm;
      assert s[k - 1].time < s[k].time;
      assert b / 60.0 * (s[k].time - s[k - 1].time) >= 0.0;
      assert SegmentBeat(s, k - 1, s[k].time)
          == SegmentBeat(s, k - 1, s[k - 1].time) + b / 60.0 * (s[k].time - s[k - 1].time);
    }
  }

  /** Within one segment a later time gives a later beat. */
  lemma SegmentBeatMonotone(s: seq<Checkpoint>, k: nat, t1: real, t2: real)
    requires k < |s| && s[k].bpm >= 0.0 && t1 <= t2
    ensures SegmentBeat(s, k, t1) <= SegmentBeat(s, k, t2)
  {
    var rate := s[k].bpm / 60.0;
    assert rate * (t2 - t1) >= 0.0;
    assert SegmentBeat(s, k, t2) == SegmentBeat(s, k, t1) + rate * (t2 - t1);
  }

  /** For a map that starts at 0 s with non-negative BPMs, a later time never
      maps to an earlier beat. */
  lemma RawBeatMonotone(s: seq<Checkpoint>, baseBpm: real, t1: real, t2: real)
    requires |s| == 0 ==> baseBpm >= 0.0
    requires |s| > 0 ==> Increasing(s) && s[0].time == 0.0
    requires forall i :: 0 <= i < |s| ==> s[i].bpm >= 0.0
    requires t1 <= t2
    ensures RawBeat(s, baseBpm, t1) <= RawBeat(s, baseBpm, t2)
  {
    if |s| == 0 {
      assert baseBpm / 60.0 * (t2 - t1) >= 0.0;
    } else {
      var k1, k2 := Segment(s, t1), Segment(s, t2);
      SegmentMonotone(s, t1, t2);
      if k1 == k2 {
        SegmentBeatMonotone(s, k1, t1, t2);
      } else {
        CrossSegments(s, k1, k2, t1, t2);
      }
    }
  }

  /** From a time in segment `k1` to a later one in segment `k2`: up to the
      next checkpoint, over the checkpoints in between, then on to the time. */
  lemma CrossSegments(s: seq<Checkpoint>, k1: nat, k2: nat, t1: real, t2: real)
    requires k1 < k2 < |s| && Increasing(s) && s[0].time == 0.0
    requires forall i :: 0 <= i < |s| ==> s[i].bpm >= 0.0
    requires t1 < s[k1 + 1].time && s[k2].time <= t2
    ensures SegmentBeat(s, k1, t1) <= SegmentBeat(s, k2, t2)
  {
    assert SegmentBeat(s, k1, t1) <= SegmentBeat(s, k1 + 1, s[k1 + 1].time) by {
      UpToCheckpoint(s, k1, t1);
    }
    assert SegmentBeat(s, k1 + 1, s[k1 + 1].time) <= SegmentBeat(s, k2, s[k2].time) by {
      SegmentStartsIncrease(s, k1 + 1, k2);
    }
    assert SegmentBeat(s, k2, s[k2].time) <= SegmentBeat(s, k2, t2) by {
      SegmentBeatMonotone(s, k2, s[k2].time, t2);
    }
  }

  lemma UpToCheckpoint(s: seq<Checkpoint>, k: nat, t: real)
    requires k + 1 < |s| && s[0].time == 0.0 && s[k].bpm >= 0.0 && t <= s[k + 1].time
    ensures SegmentBeat(s, k, t) <= SegmentBeat(s, k + 1, s[k + 1].time)
  {
    var n := s[k + 1].time;
    assert SegmentBeat(s, k, t) <= SegmentBeat(s, k, n) by {
      SegmentBeatMonotone(s, k, t, n);
    }
    CheckpointJump(s, k);
    assert s[0].time * (s[k + 1].bpm - s[k].bpm) / 60.0 == 0.0;
  }

  /** The rounded beat is monotone too, so notes later in time never sit lower in the strip. */
  lemma BeatAtMonotone(s: seq<Checkpoint>, baseBpm: real, t1: real, t2: real)
    requires |s| == 0 ==> baseBpm >= 0.0
    requires |s| > 0 ==> Increasing(s) && s[0].time == 0.0
    requires forall i :: 0 <= i < |s| ==> s[i].bpm >= 0.0
    requires t1 <= t2
    ensures BeatAt(s, baseBpm, t1) <= BeatAt(s, baseBpm, t2)
  {
    RawBeatMonotone(s, baseBpm, t1, t2);
    QuantizeMonotone(RawBeat(s, baseBpm, t1), RawBeat(s, baseBpm, t2));
  }
}
