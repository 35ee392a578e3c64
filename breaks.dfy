/** The first half of the second pass (`secondStage`): where the strip is cut
    into columns. The walk goes measure by measure from the start of the
    chart, closing a column when the next measure would not fit its budget,
    until the measures cover the strip. */
module Breaks {
  import opened Chart
  import opened Config

  /** The measure-length overrides are never negative (the page only reads
      unsigned numbers into them). */
  predicate NonNegative(m: map<int, real>)
  {
    forall n :: n in m ==> m[n] >= 0.0
  }

  /** A positive lower bound of every measure length: 4 and every positive override. */
  ghost function MinStep(m: map<int, real>): (r: real)
    ensures 0.0 < r <= 4.0
    ensures forall n :: n in m && m[n] > 0.0 ==> r <= m[n]
    decreases |m|
  {
    if |m| == 0 then 4.0
    else
      MapHasKey(m);
      var k :| k in m;
      var rest := MinStep(m - {k});
      assert forall n :: n in m && n != k ==> n in m - {k};
      if 0.0 < m[k] < rest then m[k] else rest
  }

  lemma MapHasKey(m: map<int, real>)
    requires |m| != 0
    ensures exists k :: k in m
  {
    if forall k :: k !in m {
      assert false;
    }
  }

  /** The length of measure `n`: its override when that is present and not 0, else 4. */
  function MeasureLength(m: map<int, real>, n: int): (ml: real)
    requires NonNegative(m)
    ensures ml > 0.0
    ensures n !in m || m[n] == 0.0 ==> ml == 4.0
    ensures n in m && m[n] != 0.0 ==> ml == m[n]
  {
    if n in m && m[n] != 0.0 then m[n] else 4.0
  }

  /** The beat budget of the column after `count` closed ones: the override for
      column `count + 1` when present and not 0, else `beatsPerColumn`. */
  function ColumnBudget(s: Settings, count: nat): real
  {
    if count + 1 in s.column && s.column[count + 1] != 0.0 then s.column[count + 1] else s.beatsPerColumn
  }

  /** The state of the walk: the next measure, the beats in the open column,
      the beats walked, the closed columns, and the measure each column starts with. */
  datatype Walk = Walk(measureNumber: int, beatCount: real, total: real, columns: seq<real>, starts: seq<int>)

  /** With an upbeat the walk starts at measure 2 with the upbeat already in
      the first column; the upbeat is not counted in the total. */
  function InitialWalk(s: Settings): (w: Walk)
    ensures w.beatCount == s.upbeat && w.total == 0.0 && w.columns == [] && w.starts == [1]
    ensures w.measureNumber == 1 <==> s.upbeat == 0.0
    ensures w.measureNumber == 2 <==> s.upbeat != 0.0
  {
    if s.upbeat != 0.0 then Walk(2, s.upbeat, 0.0, [], [1]) else Walk(1, 0.0, 0.0, [], [1])
  }

  /** One measure: close the open column if the measure would overflow its
      budget, then add the measure. */
  function BreakStep(s: Settings, w: Walk): (r: Walk)
    requires NonNegative(s.measure)
    ensures r.total == w.total + MeasureLength(s.measure, w.measureNumber)
    ensures r.measureNumber == w.measureNumber + 1
    ensures |r.starts| - |r.columns| == |w.starts| - |w.columns|
  {
    var ml := MeasureLength(s.measure, w.measureNumber);
    var bpc := ColumnBudget(s, |w.columns|);
    if bpc < w.beatCount + ml then
      Walk(w.measureNumber + 1, ml, w.total + ml, w.columns + [w.beatCount], w.starts + [w.measureNumber])
    else
      Walk(w.measureNumber + 1, w.beatCount + ml, w.total + ml, w.columns, w.starts)
  }

  /** How many more steps the walk can take, at most: the beats still to cover
      divided by the shortest possible measure. */
  ghost function StepsLeft(s: Settings, height: real, w: Walk): int
    requires NonNegative(s.measure)
  {
    ((height / BeatHeight - w.total) / MinStep(s.measure)).Floor
  }

  lemma StepShrinks(s: Settings, height: real, w: Walk)
    requires NonNegative(s.measure) && w.total * BeatHeight < height
    ensures 0 <= StepsLeft(s, height, w)
    ensures StepsLeft(s, height, BreakStep(s, w)) < StepsLeft(s, height, w)
  {
    var mu := MinStep(s.measure);
    var ml := MeasureLength(s.measure, w.measureNumber);
    assert ml >= mu;
    var a := (height / BeatHeight - w.total) / mu;
    var b := (height / BeatHeight - (w.total + ml)) / mu;
    assert height / BeatHeight - w.total > 0.0;
    assert a >= 0.0;
    assert b == a - ml / mu;
    DivAtLeastOne(ml, mu);
  }

  lemma DivAtLeastOne(a: real, b: real)
    requires 0.0 < b <= a
    ensures a / b >= 1.0
  {
  }

  /** The `while (totalBeatCount * SZ_BEAT < height)` loop. */
  function BreakLoop(s: Settings, height: real, w: Walk): (r: Walk)
    requires NonNegative(s.measure)
    ensures r.total * BeatHeight >= height
    ensures |r.starts| - |r.columns| == |w.starts| - |w.columns|
    decreases if w.total * BeatHeight < height then StepsLeft(s, height, w) + 1 else 0
  {
    if w.total * BeatHeight < height then
      StepShrinks(s, height, w);
      BreakLoop(s, height, BreakStep(s, w))
    else w
  }

  /** The walk over a strip whose note area is `height` pixels tall. */
  function FinalWalk(s: Settings, height: real): (w: Walk)
    requires NonNegative(s.measure)
    ensures |w.starts| == |w.columns| + 1
  {
    BreakLoop(s, height, InitialWalk(s))
  }

  /** The closed columns, then the open one unless it is empty. */
  function Flush(w: Walk): seq<real>
  {
    if w.beatCount != 0.0 then w.columns + [w.beatCount] else w.columns
  }

  /** The first measure of each column of `Flush(w)`. */
  function FlushStarts(w: Walk): seq<int>
    requires |w.starts| == |w.columns| + 1
  {
    if w.beatCount != 0.0 then w.starts else w.starts[..|w.columns|]
  }

  /** The column lengths `secondStage` computes. */
  function Columns(s: Settings, height: real): (r: seq<real>)
    requires NonNegative(s.measure)
    ensures height <= 0.0 ==> r == (if s.upbeat != 0.0 then [s.upbeat] else [])
  {
    Flush(FinalWalk(s, height))
  }

  function Sum(xs: seq<real>): real
  {
    if xs == [] then 0.0 else Sum(xs[..|xs| - 1]) + xs[|xs| - 1]
  }

  /** Where measure `n` begins, in beats from the bottom of the strip: the
      upbeat (when there is one) is measure 1, every other measure has its
      `MeasureLength`. */
  function MeasureStart(s: Settings, n: int): real
    requires NonNegative(s.measure)
    decreases n
  {
    if n <= 1 then 0.0
    else if n == 2 && s.upbeat != 0.0 then s.upbeat
    else MeasureStart(s, n - 1) + MeasureLength(s.measure, n - 1)
  }

  /** The measure after the last one of column `k`: the start of the next
      column, or the next measure of the walk for the open column. */
  function ColumnEnd(w: Walk, k: nat): int
  {
    if k + 1 < |w.starts| then w.starts[k + 1] else w.measureNumber
  }

  /** The walk's bookkeeping: one start per closed column plus one for the
      open column, in order, from measure 1. */
  ghost predicate Shape(w: Walk)
  {
    && |w.starts| == |w.columns| + 1 && w.starts[0] == 1
    && (forall k :: 0 <= k <= |w.columns| ==> 1 <= w.starts[k])
    && (forall k :: 0 <= k < |w.columns| ==> w.starts[k] <= w.starts[k + 1])
    && w.starts[|w.columns|] <= w.measureNumber
  }

  /** Every column begins where a measure begins, and the closed columns, the
      open one and the total all end where the next measure begins. */
  ghost predicate Tiled(s: Settings, w: Walk)
    requires NonNegative(s.measure) && Shape(w)
  {
    && (forall k :: 0 <= k <= |w.columns| ==> Sum(w.columns[..k]) == MeasureStart(s, w.starts[k]))
    && Sum(w.columns) + w.beatCount == MeasureStart(s, w.measureNumber)
    && w.total == MeasureStart(s, w.measureNumber) - s.upbeat
  }

  /** A closed column could not take the measure that opened the next one,
      and every column is within its budget unless it holds a single measure. */
  ghost predicate Greedy(s: Settings, w: Walk)
    requires NonNegative(s.measure) && Shape(w)
  {
    && (forall k :: 0 <= k < |w.columns| ==>
          ColumnBudget(s, k) < w.columns[k] + MeasureLength(s.measure, w.starts[k + 1]))
    && (forall k :: 0 <= k < |w.columns| ==>
          w.columns[k] <= ColumnBudget(s, k) || w.starts[k + 1] <= w.starts[k] + 1)
    && (w.beatCount <= ColumnBudget(s, |w.columns|) || w.measureNumber <= w.starts[|w.columns|] + 1)
  }

  ghost predicate WalkInv(s: Settings, w: Walk)
    requires NonNegative(s.measure)
  {
    Shape(w) && (s.upbeat != 0.0 ==> w.measureNumber >= 2) && Tiled(s, w) && Greedy(s, w)
  }

  lemma InitialWalkInv(s: Settings)
    requires NonNegative(s.measure)
    ensures WalkInv(s, InitialWalk(s))
  {
    var none: seq<real> := [];
    assert none[..0] == none;
  }

  lemma {:induction false} SumAppend(xs: seq<real>, x: real)
    ensures Sum(xs + [x]) == Sum(xs) + x
  {
    assert (xs + [x])[..|xs|] == xs;
  }

  /** The next measure begins one measure length after this one. */
  lemma NextMeasureStart(s: Settings, w: Walk)
    requires NonNegative(s.measure) && WalkInv(s, w)
    ensures MeasureStart(s, w.measureNumber + 1)
         == MeasureStart(s, w.measureNumber) + MeasureLength(s.measure, w.measureNumber)
  {
  }

  /** A step that closes the column keeps the invariant. */
  lemma BreakKeeps(s: Settings, w: Walk)
    requires NonNegative(s.measure) && WalkInv(s, w)
    requires ColumnBudget(s, |w.columns|) < w.beatCount + MeasureLength(s.measure, w.measureNumber)
    ensures WalkInv(s, BreakStep(s, w))
  {
    var r := BreakStep(s, w);
    assert r == Walk(w.measureNumber + 1, MeasureLength(s.measure, w.measureNumber), r.total,
                     w.columns + [w.beatCount], w.starts + [w.measureNumber]);
    BreakKeepsTiled(s, w, r);
    BreakKeepsGreedy(s, w, r);
  }

  lemma BreakKeepsGreedy(s: Settings, w: Walk, r: Walk)
    requires NonNegative(s.measure) && WalkInv(s, w)
    requires ColumnBudget(s, |w.columns|) < w.beatCount + MeasureLength(s.measure, w.measureNumber)
    requires r == Walk(w.measureNumber + 1, MeasureLength(s.measure, w.measureNumber),
                       w.total + MeasureLength(s.measure, w.measureNumber),
                       w.columns + [w.beatCount], w.starts + [w.measureNumber])
    requires Shape(r)
    ensures Greedy(s, r)
  {
    var n := |w.columns|;
    forall k | 0 <= k < |r.columns|
      ensures ColumnBudget(s, k) < r.columns[k] + MeasureLength(s.measure, r.starts[k + 1])
      ensures r.columns[k] <= ColumnBudget(s, k) || r.starts[k + 1] <= r.starts[k] + 1
    {
      if k < n {
        assert r.columns[k] == w.columns[k] && r.starts[k + 1] == w.starts[k + 1] && r.starts[k] == w.starts[k];
      } else {
        assert r.columns[k] == w.beatCount && r.starts[k + 1] == w.measureNumber && r.starts[k] == w.starts[n];
      }
    }
    assert r.starts[|r.columns|] == w.measureNumber;
  }

  lemma BreakKeepsTiled(s: Settings, w: Walk, r: Walk)
    requires NonNegative(s.measure) && WalkInv(s, w)
    requires r == Walk(w.measureNumber + 1, MeasureLength(s.measure, w.measureNumber),
                       w.total + MeasureLength(s.measure, w.measureNumber),
                       w.columns + [w.beatCount], w.starts + [w.measureNumber])
    ensures Shape(r) && Tiled(s, r)
  {
    var cols := r.columns;
    assert Sum(cols) == Sum(w.columns) + w.beatCount by {
      SumAppend(w.columns, w.beatCount);
    }
    assert MeasureStart(s, r.measureNumber) == MeasureStart(s, w.measureNumber) + MeasureLength(s.measure, w.measureNumber) by {
      NextMeasureStart(s, w);
    }
    forall k | 0 <= k <= |cols| ensures Sum(cols[..k]) == MeasureStart(s, r.starts[k]) {
      if k <= |w.columns| {
        assert cols[..k] == w.columns[..k];
      } else {
        assert cols[..k] == cols;
      }
    }
  }

  /** A step that keeps the column open keeps the invariant. */
  lemma OpenKeeps(s: Settings, w: Walk)
    requires NonNegative(s.measure) && WalkInv(s, w)
    requires !(ColumnBudget(s, |w.columns|) < w.beatCount + MeasureLength(s.measure, w.measureNumber))
    ensures WalkInv(s, BreakStep(s, w))
  {
    NextMeasureStart(s, w);
    var r := BreakStep(s, w);
    assert r.columns == w.columns && r.starts == w.starts;
    assert Shape(r);
    assert Tiled(s, r);
    assert Greedy(s, r);
  }

  lemma BreakStepInv(s: Settings, w: Walk)
    requires NonNegative(s.measure) && WalkInv(s, w)
    ensures WalkInv(s, BreakStep(s, w))
  {
    if ColumnBudget(s, |w.columns|) < w.beatCount + MeasureLength(s.measure, w.measureNumber) {
      BreakKeeps(s, w);
    } else {
      OpenKeeps(s, w);
    }
  }

  /** The walk keeps its invariant to the end. */
  lemma {:induction false} BreakLoopInv(s: Settings, height: real, w: Walk)
    requires NonNegative(s.measure) && WalkInv(s, w)
    ensures WalkInv(s, BreakLoop(s, height, w))
    decreases if w.total * BeatHeight < height then StepsLeft(s, height, w) + 1 else 0
  {
    if w.total * BeatHeight < height {
      StepShrinks(s, height, w);
      BreakStepInv(s, w);
      BreakLoopInv(s, height, BreakStep(s, w));
    }
  }

  /** The walk stops at the first measure that reaches the top of the strip:
      the measure before it still ended below. */
  lemma {:induction false} BreakLoopStopsFirst(s: Settings, height: real, w: Walk)
    requires NonNegative(s.measure) && w.total * BeatHeight < height
    ensures var r := BreakLoop(s, height, w);
            (r.total - MeasureLength(s.measure, r.measureNumber - 1)) * BeatHeight < height
    decreases StepsLeft(s, height, w)
  {
    StepShrinks(s, height, w);
    var next := BreakStep(s, w);
    if next.total * BeatHeight < height {
      BreakLoopStopsFirst(s, height, next);
    }
  }

  /** The first measure of each column. */
  function ColumnStarts(s: Settings, height: real): seq<int>
    requires NonNegative(s.measure)
  {
    FlushStarts(FinalWalk(s, height))
  }

  lemma FinalWalkInv(s: Settings, height: real)
    requires NonNegative(s.measure)
    ensures WalkInv(s, FinalWalk(s, height))
  {
    InitialWalkInv(s);
    BreakLoopInv(s, height, InitialWalk(s));
  }

  /** The walk covers the strip and stops at the first measure that reaches
      its top: the columns hold the upbeat and every measure walked. */
  lemma ColumnsCoverStrip(s: Settings, height: real)
    requires NonNegative(s.measure)
    ensures var w := FinalWalk(s, height);
            && Sum(Columns(s, height)) == s.upbeat + w.total
            && w.total * BeatHeight >= height
            && (height > 0.0 ==> (w.total - MeasureLength(s.measure, w.measureNumber - 1)) * BeatHeight < height)
  {
    var w := FinalWalk(s, height);
    assert Sum(Columns(s, height)) == s.upbeat + w.total by {
      FinalWalkInv(s, height);
      FlushSum(s, w);
    }
    if height > 0.0 {
      BreakLoopStopsFirst(s, height, InitialWalk(s));
    }
  }

  lemma FlushSum(s: Settings, w: Walk)
    requires NonNegative(s.measure) && WalkInv(s, w)
    ensures Sum(Flush(w)) == s.upbeat + w.total
  {
    if w.beatCount != 0.0 {
      SumAppend(w.columns, w.beatCount);
    }
  }

  /** Consecutive prefix sums that land on measure starts make each element
      the distance between those starts. */
  lemma {:induction false} SpansBetween(s: Settings, cols: seq<real>, bounds: seq<int>)
    requires NonNegative(s.measure) && |bounds| == |cols| + 1
    requires forall k :: 0 <= k <= |cols| ==> Sum(cols[..k]) == MeasureStart(s, bounds[k])
    ensures forall k :: 0 <= k < |cols| ==> cols[k] == MeasureStart(s, bounds[k + 1]) - MeasureStart(s, bounds[k])
  {
    forall k | 0 <= k < |cols|
      ensures cols[k] == MeasureStart(s, bounds[k + 1]) - MeasureStart(s, bounds[k])
    {
      assert cols[..k + 1][..k] == cols[..k];
      assert Sum(cols[..k + 1]) == Sum(cols[..k]) + cols[k];
    }
  }

  /** Where the flushed columns begin, followed by where the last one ends. */
  function FlushBounds(w: Walk): seq<int>
  {
    if w.beatCount != 0.0 then w.starts + [w.measureNumber] else w.starts
  }

  lemma FlushPrefixes(s: Settings, w: Walk)
    requires NonNegative(s.measure) && Shape(w) && Tiled(s, w)
    ensures |FlushBounds(w)| == |Flush(w)| + 1
    ensures forall k :: 0 <= k <= |Flush(w)| ==> Sum(Flush(w)[..k]) == MeasureStart(s, FlushBounds(w)[k])
  {
    var cols, bounds := Flush(w), FlushBounds(w);
    if w.beatCount != 0.0 {
      SumAppend(w.columns, w.beatCount);
      assert cols[..|cols|] == cols;
      forall k | 0 <= k <= |cols| ensures Sum(cols[..k]) == MeasureStart(s, bounds[k]) {
        if k <= |w.columns| {
          assert cols[..k] == w.columns[..k];
        }
      }
    }
  }

  /** The flushed columns of any walk state follow the measures. */
  lemma FlushFollowsMeasures(s: Settings, w: Walk)
    requires NonNegative(s.measure) && Shape(w) && Tiled(s, w)
    ensures var cols, starts := Flush(w), FlushStarts(w);
            && |starts| == |cols|
            && (forall k :: 0 <= k < |cols| ==> Sum(cols[..k]) == MeasureStart(s, starts[k]))
            && (forall k :: 0 <= k < |cols| ==>
                  cols[k] == MeasureStart(s, ColumnEnd(w, k)) - MeasureStart(s, starts[k]))
            && (forall k :: 0 <= k + 1 < |cols| ==> ColumnEnd(w, k) == starts[k + 1])
  {
    var cols, starts, bounds := Flush(w), FlushStarts(w), FlushBounds(w);
    FlushPrefixes(s, w);
    SpansBetween(s, cols, bounds);
    FlushBoundsAreEnds(w);
  }

  /** The bounds of the flushed columns are their first measures followed
      by the measure after the last. */
  lemma FlushBoundsAreEnds(w: Walk)
    requires Shape(w)
    ensures var cols, starts, bounds := Flush(w), FlushStarts(w), FlushBounds(w);
            && |starts| == |cols| && |bounds| == |cols| + 1
            && forall k :: 0 <= k < |cols| ==> bounds[k + 1] == ColumnEnd(w, k) && bounds[k] == starts[k]
  {
  }

  /** No measure is split: column `k` runs from the start of its first
      measure to the start of the measure after its last, and that end is the
      next column's first measure. */
  lemma ColumnsFollowMeasures(s: Settings, height: real)
    requires NonNegative(s.measure)
    ensures var cols, starts, w := Columns(s, height), ColumnStarts(s, height), FinalWalk(s, height);
            && |starts| == |cols|
            && (forall k :: 0 <= k < |cols| ==> Sum(cols[..k]) == MeasureStart(s, starts[k]))
            && (forall k :: 0 <= k < |cols| ==>
                  cols[k] == MeasureStart(s, ColumnEnd(w, k)) - MeasureStart(s, starts[k]))
            && (forall k :: 0 <= k + 1 < |cols| ==> ColumnEnd(w, k) == starts[k + 1])
  {
    FinalWalkInv(s, height);
    FlushFollowsMeasures(s, FinalWalk(s, height));
  }

  /** The flushed columns of any walk state are packed greedily. */
  lemma FlushGreedy(s: Settings, w: Walk)
    requires NonNegative(s.measure) && WalkInv(s, w)
    ensures var cols, starts := Flush(w), FlushStarts(w);
            && |starts| == |cols| && |w.columns| <= |cols|
            && (forall k :: 0 <= k < |w.columns| ==>
                  ColumnBudget(s, k) < cols[k] + MeasureLength(s.measure, ColumnEnd(w, k)))
            && (forall k :: 0 <= k < |cols| ==>
                  cols[k] <= ColumnBudget(s, k) || ColumnEnd(w, k) <= starts[k] + 1)
  {
  }

  /** The packing is greedy: each closed column could not take the measure
      that opens the next one within its budget, and every column is within
      its budget unless it holds a single measure. */
  lemma ColumnsAreGreedy(s: Settings, height: real)
    requires NonNegative(s.measure)
    ensures var cols, starts, w := Columns(s, height), ColumnStarts(s, height), FinalWalk(s, height);
            && |starts| == |cols| && |w.columns| <= |cols|
            && (forall k :: 0 <= k < |w.columns| ==>
                  ColumnBudget(s, k) < cols[k] + MeasureLength(s.measure, ColumnEnd(w, k)))
            && (forall k :: 0 <= k < |cols| ==>
                  cols[k] <= ColumnBudget(s, k) || ColumnEnd(w, k) <= starts[k] + 1)
  {
    FinalWalkInv(s, height);
    FlushGreedy(s, FinalWalk(s, height));
  }

  /** With a non-negative upbeat the open column is never empty once the walk
      has moved, and only the first closed column can be empty. */
  ghost predicate Filled(s: Settings, w: Walk)
  {
    s.upbeat >= 0.0 ==>
      && w.beatCount >= 0.0
      && (|w.columns| > 0 ==> w.beatCount > 0.0)
      && (forall k :: 0 < k < |w.columns| ==> w.columns[k] > 0.0)
  }

  lemma {:induction false} BreakLoopFilled(s: Settings, height: real, w: Walk)
    requires NonNegative(s.measure) && Filled(s, w)
    ensures Filled(s, BreakLoop(s, height, w))
    decreases if w.total * BeatHeight < height then StepsLeft(s, height, w) + 1 else 0
  {
    if w.total * BeatHeight < height {
      StepShrinks(s, height, w);
      var r := BreakStep(s, w);
      assert Filled(s, r);
      BreakLoopFilled(s, height, r);
    }
  }

  /** With a non-negative upbeat the last column is never empty, and only the
      first column can be: a column is closed empty only when the first
      measure alone overflows it. */
  lemma ColumnsNonEmpty(s: Settings, height: real)
    requires NonNegative(s.measure) && s.upbeat >= 0.0
    ensures var cols := Columns(s, height);
            && (cols != [] ==> cols[|cols| - 1] > 0.0)
            && (forall k :: 0 < k < |cols| ==> cols[k] > 0.0)
  {
    BreakLoopFilled(s, height, InitialWalk(s));
  }

  /** The walk reads the measure lengths, the column budgets and the upbeat
      of the options and nothing else. */
  predicate SameBreaks(s1: Settings, s2: Settings)
  {
    && s1.measure == s2.measure && s1.column == s2.column
    && s1.beatsPerColumn == s2.beatsPerColumn && s1.upbeat == s2.upbeat
  }

  lemma {:induction false} BreakLoopAgree(s1: Settings, s2: Settings, height: real, w: Walk)
    requires NonNegative(s1.measure) && SameBreaks(s1, s2)
    ensures BreakLoop(s1, height, w) == BreakLoop(s2, height, w)
    decreases if w.total * BeatHeight < height then StepsLeft(s1, height, w) + 1 else 0
  {
    if w.total * BeatHeight < height {
      StepShrinks(s1, height, w);
      assert BreakStep(s1, w) == BreakStep(s2, w);
      BreakLoopAgree(s1, s2, height, BreakStep(s1, w));
    }
  }

  /** Options that agree on what the walk reads give the same columns. */
  lemma ColumnsAgree(s1: Settings, s2: Settings, height: real)
    requires NonNegative(s1.measure) && SameBreaks(s1, s2)
    ensures Columns(s1, height) == Columns(s2, height)
  {
    assert InitialWalk(s1) == InitialWalk(s2);
    BreakLoopAgree(s1, s2, height, InitialWalk(s1));
  }

  /** Step 1 of `secondStage`: the column lengths, for a strip whose note
      area is `height` pixels tall. */
  method ComputeColumns(o: Options, height: real) returns (columns: seq<real>)
    requires NonNegative(o.measure)
    ensures columns == Columns(o.Snapshot(), height)
  {
    ghost var s := o.Snapshot();
    columns := [];
    var measureNumber, beatCount := 1, 0.0;
    var totalBeatCount := beatCount;
    if o.upbeat != 0.0 {
      measureNumber := 2;
      beatCount := o.upbeat;
    }
    ghost var starts := [1];
    while totalBeatCount * BeatHeight < height
      invariant BreakLoop(s, height, Walk(measureNumber, beatCount, totalBeatCount, columns, starts)) == FinalWalk(s, height)
      decreases if totalBeatCount * BeatHeight < height
        then StepsLeft(s, height, Walk(measureNumber, beatCount, totalBeatCount, columns, starts)) + 1 else 0
    {
      ghost var w := Walk(measureNumber, beatCount, totalBeatCount, columns, starts);
      StepShrinks(s, height, w);
      var measureLength := 4.0;
      if measureNumber in o.measure && o.measure[measureNumber] != 0.0 {
        measureLength := o.measure[measureNumber];
      }
      var bpc := o.beatsPerColumn;
      if |columns| + 1 in o.column && o.column[|columns| + 1] != 0.0 {
        bpc := o.column[|columns| + 1];
      }
      if bpc < beatCount + measureLength {
        columns := columns + [beatCount];
        starts := starts + [measureNumber];
        beatCount := 0.0;
      }
      totalBeatCount := totalBeatCount + measureLength;
      beatCount := beatCount + measureLength;
      measureNumber := measureNumber + 1;
      assert Walk(measureNumber, beatCount, totalBeatCount, columns, starts) == BreakStep(s, w);
    }
    if beatCount != 0.0 {
      columns := columns + [beatCount];
    }
  }
}
