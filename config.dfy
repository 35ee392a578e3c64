/** The options object: its defaults, what `normalizeOptions` reads from the
    chart (the start time and the max combo), and the `Object.assign` of the
    caller's options over the defaults. */
module Config {
  import opened Chart

  /** The `info` object; only `maxCombo` is ever written into it. */
  datatype Info = Info(maxCombo: Option<int>)

  /** A snapshot of every field of the options object. The measure and column
      overrides are keyed by number. */
  datatype Settings = Settings(
    start: real, sofuran: seq<Checkpoint>, baseBpm: real,
    upbeat: real, measure: map<int, real>,
    beatsPerColumn: real, column: map<int, real>,
    info: Info, style: Style, mirror: bool)

  const DefaultSettings: Settings :=
    Settings(0.0, [], 120.0, 0.0, map[], 16.0, map[], Info(None), Black, false)

  /** The caller's options: a field that is `None` is absent from the object. */
  datatype UserOptions = UserOptions(
    start: Option<real>, sofuran: Option<seq<Checkpoint>>, baseBpm: Option<real>,
    upbeat: Option<real>, measure: Option<map<int, real>>,
    beatsPerColumn: Option<real>, column: Option<map<int, real>>,
    info: Option<Info>, style: Option<Style>, mirror: Option<bool>)

  const NoUserOptions: UserOptions :=
    UserOptions(None, None, None, None, None, None, None, None, None, None)

  function Pick<T>(given: Option<T>, fallback: T): T
  {
    if given.Some? then given.value else fallback
  }

  /** `Object.assign(target, u)`: every field present in `u` replaces the
      target's, a field absent from `u` is kept. */
  function Override(target: Settings, u: UserOptions): (r: Settings)
    ensures u.start.Some? ==> r.start == u.start.value
    ensures u.start.None? ==> r.start == target.start
    ensures u.sofuran.Some? ==> r.sofuran == u.sofuran.value
    ensures u.sofuran.None? ==> r.sofuran == target.sofuran
    ensures u.baseBpm.Some? ==> r.baseBpm == u.baseBpm.value
    ensures u.baseBpm.None? ==> r.baseBpm == target.baseBpm
    ensures u.upbeat.Some? ==> r.upbeat == u.upbeat.value
    ensures u.upbeat.None? ==> r.upbeat == target.upbeat
    ensures u.measure.Some? ==> r.measure == u.measure.value
    ensures u.measure.None? ==> r.measure == target.measure
    ensures u.beatsPerColumn.Some? ==> r.beatsPerColumn == u.beatsPerColumn.value
    ensures u.beatsPerColumn.None? ==> r.beatsPerColumn == target.beatsPerColumn
    ensures u.column.Some? ==> r.column == u.column.value
    ensures u.column.None? ==> r.column == target.column
    ensures u.info.Some? ==> r.info == u.info.value
    ensures u.info.None? ==> r.info == target.info
    ensures u.style.Some? ==> r.style == u.style.value
    ensures u.style.None? ==> r.style == target.style
    ensures u.mirror.Some? ==> r.mirror == u.mirror.value
    ensures u.mirror.None? ==> r.mirror == target.mirror
    ensures u == NoUserOptions ==> r == target
  {
    Settings(
      Pick(u.start, target.start), Pick(u.sofuran, target.sofuran), Pick(u.baseBpm, target.baseBpm),
      Pick(u.upbeat, target.upbeat), Pick(u.measure, target.measure),
      Pick(u.beatsPerColumn, target.beatsPerColumn), Pick(u.column, target.column),
      Pick(u.info, target.info), Pick(u.style, target.style), Pick(u.mirror, target.mirror))
  }

  /** The options object that the rendering passes read and `firstStage` updates. */
  class Options {
    var start: real
    var sofuran: seq<Checkpoint>
    var baseBpm: real
    var upbeat: real
    var measure: map<int, real>
    var beatsPerColumn: real
    var column: map<int, real>
    var info: Info
    var style: Style
    var mirror: bool

    function Snapshot(): Settings
      reads this
    {
      Settings(start, sofuran, baseBpm, upbeat, measure, beatsPerColumn, column, info, style, mirror)
    }

    /** The `defaultOptions` literal. */
    constructor Defaults()
      ensures Snapshot() == DefaultSettings
    {
      start, sofuran, baseBpm := 0.0, [], 120.0;
      upbeat, measure := 0.0, map[];
      beatsPerColumn, column := 16.0, map[];
      info, style, mirror := Info(None), Black, false;
    }

    /** `Object.assign(this, u)`. */
    method Assign(u: UserOptions)
      modifies this
      ensures Snapshot() == Override(old(Snapshot()), u)
    {
      start := Pick(u.start, start);
      sofuran := Pick(u.sofuran, sofuran);
      baseBpm := Pick(u.baseBpm, baseBpm);
      upbeat := Pick(u.upbeat, upbeat);
      measure := Pick(u.measure, measure);
      beatsPerColumn := Pick(u.beatsPerColumn, beatsPerColumn);
      column := Pick(u.column, column);
      info := Pick(u.info, info);
      style := Pick(u.style, style);
      mirror := Pick(u.mirror, mirror);
    }
  }

  /** An entry that carries a real time: `sec` is neither `""` nor `0`. */
  predicate IsTimed(n: Note)
  {
    n.sec.Seconds? && n.sec.t != 0.0
  }

  /** The index of the first timed entry, if any. */
  function FirstTimed(json: seq<Note>): (r: Option<nat>)
    ensures r.Some? ==> r.value < |json| && IsTimed(json[r.value])
    ensures r.Some? ==> forall i :: 0 <= i < r.value ==> !IsTimed(json[i])
    ensures r.None? ==> forall i :: 0 <= i < |json| ==> !IsTimed(json[i])
  {
    if json == [] then None
    else if IsTimed(json[0]) then Some(0)
    else
      var rest := FirstTimed(json[1..]);
      if rest.Some? then Some(rest.value + 1) else None
  }

  /** How many entries the start-time scan reads: up to and including the
      first timed one, or all of them. */
  function ScanEnd(json: seq<Note>): (n: nat)
    ensures n <= |json|
  {
    var k := FirstTimed(json);
    if k.Some? then k.value + 1 else |json|
  }

  /** The start time: the `sec` of the first timed entry, else 0. */
  function StartTime(json: seq<Note>): (r: real)
    ensures FirstTimed(json).Some? ==> r == json[FirstTimed(json).value].sec.t && r != 0.0
    ensures FirstTimed(json).None? ==> r == 0.0
  {
    var k := FirstTimed(json);
    if k.Some? then json[k.value].sec.t else 0.0
  }

  /** The index of the last meta entry (type 100), if any. */
  function LastMeta(json: seq<Note>): (r: Option<nat>)
    ensures r.Some? ==> r.value < |json| && json[r.value].kind == Meta
    ensures r.Some? ==> forall i :: r.value < i < |json| ==> json[i].kind != Meta
    ensures r.None? ==> forall i :: 0 <= i < |json| ==> json[i].kind != Meta
  {
    if json == [] then None
    else if json[|json| - 1].kind == Meta then Some(|json| - 1)
    else LastMeta(json[..|json| - 1])
  }

  /** The max combo read during the scan: the status of the last meta entry
      among the entries scanned. */
  function MaxCombo(json: seq<Note>): (r: Option<int>)
    ensures r.Some? ==> exists i :: 0 <= i < ScanEnd(json) && json[i].kind == Meta && r.value == json[i].status
                                   && forall j :: i < j < ScanEnd(json) ==> json[j].kind != Meta
    ensures r.None? ==> forall i :: 0 <= i < ScanEnd(json) ==> json[i].kind != Meta
  {
    var scanned := json[..ScanEnd(json)];
    var m := LastMeta(scanned);
    assert forall i :: 0 <= i < |scanned| ==> scanned[i] == json[i];
    if m.Some? then Some(json[m.value].status) else None
  }

  /** The options `normalizeOptions` returns. */
  function Normalize(json: seq<Note>, u: UserOptions): (r: Settings)
    ensures r.start == Pick(u.start, StartTime(json))
    ensures r.info == Pick(u.info, Info(MaxCombo(json)))
    ensures r.sofuran == Pick(u.sofuran, []) && r.baseBpm == Pick(u.baseBpm, 120.0)
    ensures r.upbeat == Pick(u.upbeat, 0.0) && r.measure == Pick(u.measure, map[])
    ensures r.beatsPerColumn == Pick(u.beatsPerColumn, 16.0) && r.column == Pick(u.column, map[])
    ensures r.style == Pick(u.style, Black) && r.mirror == Pick(u.mirror, false)
  {
    Override(DefaultSettings.(start := StartTime(json), info := Info(MaxCombo(json))), u)
  }

  /** The scan state after `i` entries when no timed entry has been met yet. */
  function ScanState(json: seq<Note>, i: nat): Option<int>
    requires i <= |json|
  {
    var m := LastMeta(json[..i]);
    if m.Some? then Some(json[m.value].status) else None
  }

  /** `normalizeOptions`: fresh defaults, the scan for the start time and the
      max combo, then the caller's options assigned over them. */
  method NormalizeOptions(json: seq<Note>, u: UserOptions) returns (o: Options)
    ensures fresh(o)
    ensures o.Snapshot() == Normalize(json, u)
  {
    o := new Options.Defaults();
    var i := 0;
    while i < |json|
      invariant 0 <= i <= |json|
      invariant forall m :: 0 <= m < i ==> !IsTimed(json[m])
      invariant o.Snapshot() == DefaultSettings.(info := Info(ScanState(json, i)))
    {
      assert json[..i + 1][..i] == json[..i];
      if json[i].kind == Meta {
        o.info := o.info.(maxCombo := Some(json[i].status));
      }
      if json[i].sec != Blank && json[i].sec.t != 0.0 {
        o.start := json[i].sec.t;
        FirstTimedAt(json, i);
        assert o.Snapshot() == DefaultSettings.(start := StartTime(json), info := Info(MaxCombo(json)));
        break;
      }
      i := i + 1;
    }
    if i == |json| {
      assert json[..i] == json;
    }
    assert o.Snapshot() == DefaultSettings.(start := StartTime(json), info := Info(MaxCombo(json)));
    o.Assign(u);
  }

  /** The first timed entry is unique: an entry that is timed and has none
      before it is the one `FirstTimed` finds. */
  lemma {:induction false} FirstTimedAt(json: seq<Note>, k: nat)
    requires k < |json| && IsTimed(json[k])
    requires forall m :: 0 <= m < k ==> !IsTimed(json[m])
    ensures FirstTimed(json) == Some(k)
  {
    if k > 0 {
      assert forall m :: 0 <= m < k - 1 ==> json[1..][m] == json[m + 1];
      FirstTimedAt(json[1..], k - 1);
    }
  }

  /** The start time stays at its default 0 exactly when no entry is timed. */
  lemma StartZeroIffUntimed(json: seq<Note>)
    ensures StartTime(json) == 0.0 <==> forall i :: 0 <= i < |json| ==> !IsTimed(json[i])
  {
  }

  /** The scan stops at the first timed entry: a meta entry after it does
      not change the max combo, one at or before it does. */
  lemma MaxComboStopsAtStart(json: seq<Note>, k: nat)
    requires k < |json| && IsTimed(json[k])
    requires forall m :: 0 <= m < k ==> !IsTimed(json[m])
    ensures json[k].kind == Meta ==> MaxCombo(json) == Some(json[k].status)
    ensures forall m :: k < m < |json| ==> MaxCombo(json[..m] + [json[m].(kind := Meta)] + json[m + 1..]) == MaxCombo(json)
  {
    FirstTimedAt(json, k);
    forall m | k < m < |json|
      ensures MaxCombo(json[..m] + [json[m].(kind := Meta)] + json[m + 1..]) == MaxCombo(json)
    {
      var json' := json[..m] + [json[m].(kind := Meta)] + json[m + 1..];
      assert forall i :: 0 <= i < |json| && i != m ==> json'[i] == json[i];
      FirstTimedAt(json', k);
      assert json'[..k + 1] == json[..k + 1];
    }
  }

  /** Leading entries before the first note: `sec` values `""`, `0`, `1.5`, `2`
      give start time 1.5; a meta entry first gives the max combo. */
  lemma StartExample()
    ensures var json := [Note(Blank, Meta, 0, 812, 0), Note(Seconds(0.0), 1, 3, 0, 0),
                         Note(Seconds(1.5), 1, 2, 0, 0), Note(Seconds(2.0), 2, 4, 0, 0)];
            && StartTime(json) == 1.5 && MaxCombo(json) == Some(812)
            && Normalize(json, NoUserOptions).start == 1.5
  {
    var json := [Note(Blank, Meta, 0, 812, 0), Note(Seconds(0.0), 1, 3, 0, 0),
                 Note(Seconds(1.5), 1, 2, 0, 0), Note(Seconds(2.0), 2, 4, 0, 0)];
    FirstTimedAt(json, 2);
    assert json[..3][..2] == json[..2];
  }

  /** A caller that passes an `info` object, as the page does with `info: {}`,
      replaces the one the scan filled, so the max combo is lost; a caller's
      start time wins over the detected one. */
  lemma UserInfoReplacesMaxCombo(json: seq<Note>, u: UserOptions)
    requires u.info == Some(Info(None))
    ensures Normalize(json, u).info.maxCombo == None
    ensures u.start.Some? ==> Normalize(json, u).start == u.start.value
    ensures u.start.None? ==> Normalize(json, u).start == StartTime(json)
  {
  }
}
