# Chart renderer model

This project models the chart renderer of rg-pattern-viewer, `js/stageJsonToCanvas.js`. The renderer takes a rhythm-game chart and draws it as a sheet of columns, like sheet music. A chart is a sequence of entries: taps, holds, slide members and meta entries, each with a time in seconds and a lane. The renderer works in two passes:

- **First pass (`firstStage`).** It draws the whole chart on one tall strip.
  - Long-note bodies are paired up by the per-lane `longStatus` table.
  - Slide connectors are paired up by the per-group `slideGroup` map.
  - Then come note heads and direction arrows, and a red marker for each tempo checkpoint.
  - The mirror option flips the lanes and the arrow directions.
- **Second pass (`secondStage`).** It cuts the strip into columns.
  - A measure-by-measure walk closes a column when the next measure would overflow that column's beat budget.
  - A white sheet is then drawn. Each column gets its border, a half-beat grid with measure numbers, the slice of the strip it shows, and a fade at each cut edge.

Both passes place things with the time-to-beat mapper (`_timeToBeat` / `timeToBeat`). The mapper walks the tempo map and rounds to the 1/48-beat grid. Before the passes, `normalizeOptions` finds the start time and the max combo in the chart and lays the caller's options over the defaults.

The model follows the source's own form:

- **Drawing.** Every canvas call becomes a `Command` record (module `Chart`). A canvas is its size plus the list of commands drawn on it.
- **Pure parts.** Rounding, geometry, the mirror tables and the tracker steps are functions.
- **Loops.** Each loop of the source is a method with a `while` loop, proved against a specification function:
  - the tempo walk (`Tempo.RawBeatAt`)
  - the two note loops and the marker loop of the first pass
  - the column-break loop (`Breaks.ComputeColumns`)
  - the column and grid loops (`Sheet.DrawAllColumns`, `Sheet.DrawGridRows`)
  - the option scan (`Config.NormalizeOptions`)
- **State.** The hold table `longStatus` is an `array` updated in place. The options object is a class, `Config.Options`:
  - `Object.assign` is a method over its fields.
  - `firstStage` pushes its tempo marker onto the object, which `Strip.PushMarker` and `Strip.FirstStage` model through `modifies`.

Modules, in pipeline order:

- `Chart`: entries, commands and layout constants.
- `Tempo`: the time-to-beat mapper.
- `Geometry`: lane and row positions, the mirror tables, the arrow glyph and the reflection that mirroring amounts to.
- `Trackers`: the first loop of the first pass, as a trace.
- `Config`: the options.
- `Strip`: the first pass.
- `Breaks`: the column-break walk.
- `Sheet`: the sheet.
- `Render`: `stageJsonToCanvas`.

Three details of the code shape the second pass:

- **Break test.** The test is strict, `bpc < beatCount + measureLength` (line 299), so a column can be filled exactly to its budget (`Breaks.BreakStep`, `Breaks.ColumnsAreGreedy`).
- **Coverage.** The columns add up to the upbeat plus the beats walked, not to the chart's beat count. The walk stops at the first measure that reaches the top of the strip, so the sum can exceed the strip (`Breaks.ColumnsCoverStrip`).
- **Grid start.** The grid walk starts measure 1 with length 4 (lines 325-326) and replaces that only by the upbeat (line 343). The break walk reads measure 1's override (lines 290-292). `Sheet.Pass2`, the sheet the renderer returns, draws the grid as written. `Sheet.CorrectedPass2` starts it at measure 1's own length. The two sheets are equal unless measure 1 is overridden to another length than 4 and there is no upbeat (`Sheet.CorrectionInvisible`; see Findings).

## Model

| member | source | states |
|---|---|---|
| Tempo.Quantize | js/stageJsonToCanvas.js:99-101 | `Math.round(b*48)/48` lands on the 1/48 grid and moves the beat by at most half a grid step either way |
| Tempo.QuantizeFixesGrid | js/stageJsonToCanvas.js:99-101 | rounding leaves a grid position unchanged |
| Tempo.QuantizeIdempotent | js/stageJsonToCanvas.js:99-101 | re-quantising the mapper's result is a no-op |
| Tempo.QuantizeMonotone | js/stageJsonToCanvas.js:99-101 | rounding never reorders two beats |
| Tempo.SegmentFrom | js/stageJsonToCanvas.js:75-93 | the walk from checkpoint `i` stops at the first checkpoint that is last or whose successor lies after the time; every checkpoint it passes is at or before the time |
| Tempo.Segment | js/stageJsonToCanvas.js:75-93 | the checkpoint whose BPM applies: all later-passed checkpoints are at or before the time, the next one after it |
| Tempo.SegmentAt | js/stageJsonToCanvas.js:75-93 | those two conditions determine the segment uniquely |
| Tempo.RawBeat | js/stageJsonToCanvas.js:71-97 | `_timeToBeat`: with an empty map the beat is `baseBpm/60 * time`; before the second checkpoint (or with only one) it is the first checkpoint's BPM times the time |
| Tempo.BeatAt | js/stageJsonToCanvas.js:99-101 | `timeToBeat` lands on the 1/48 grid within half a grid step of `_timeToBeat` |
| Tempo.RawBeatAt | js/stageJsonToCanvas.js:71-97 | the loop (accumulating `beat` and `timePassed`, returning in the segment of the time, constant BPM for an empty map) computes `RawBeat` |
| Tempo.TimeToBeat | js/stageJsonToCanvas.js:99-101 | returns the rounded raw beat, on the 1/48 grid |
| Tempo.ConstantTempo | js/stageJsonToCanvas.js:96 | without a tempo map the beat is `baseBpm/60 * time`; 120 BPM at 2 s is 4 beats |
| Tempo.MarkerKeepsBeats | js/stageJsonToCanvas.js:248-250 | the checkpoint `{time: 0, bpm: baseBpm}` pushed for an empty map gives every time the same beat as the empty map |
| Tempo.CheckpointJump | js/stageJsonToCanvas.js:73-88 | at checkpoint `k+1` the new segment starts `s[0].time * (bpm' - bpm)/60` beats from where segment `k` arrives, because `timePassed` starts at 0 |
| Tempo.OnSegment | js/stageJsonToCanvas.js:75-93 | between two checkpoints (and past the last) the beat follows the linear formula of the segment on the left |
| Tempo.ContinuousAtCheckpoints | js/stageJsonToCanvas.js:79-93 | with the first checkpoint at 0 s the mapper is continuous at every checkpoint |
| Tempo.TwoCheckpointExample | js/stageJsonToCanvas.js:75-93 | 120 BPM from 0 s then 240 BPM from 10 s: 10 s is beat 20 from both sides, 15 s is beat 40 |
| Tempo.OffsetFirstCheckpointGoesBack | js/stageJsonToCanvas.js:73 | with the first checkpoint at 10 s the mapped beat jumps back at the second checkpoint (80 beats before 20 s, 60 at 20 s) |
| Tempo.SegmentMonotone | js/stageJsonToCanvas.js:75-93 | a later time never falls in an earlier segment |
| Tempo.SegmentStartsIncrease | js/stageJsonToCanvas.js:79-88 | for a map from 0 s with non-negative BPMs, segment start beats never decrease |
| Tempo.SegmentBeatMonotone | js/stageJsonToCanvas.js:81-91 | inside a segment with non-negative BPM a later time gives a later beat |
| Tempo.RawBeatMonotone | js/stageJsonToCanvas.js:71-97 | for a map from 0 s with non-negative BPMs the raw beat never decreases with time |
| Tempo.BeatAtMonotone | js/stageJsonToCanvas.js:99-101 | the rounded beat never decreases with time either |
| Geometry.MirrorLane | js/stageJsonToCanvas.js:146 | the table `[0,5,4,3,2,1]` fixes 0 and maps lane L to 6-L |
| Geometry.MirrorLaneInvolution | js/stageJsonToCanvas.js:146 | mirroring a lane twice gives it back |
| Geometry.MirrorStatus | js/stageJsonToCanvas.js:205 | the table `[0,2,1]` fixes 0 and swaps 1 and 2; any other status reads as `undefined` |
| Geometry.MirrorSwapsArrows | js/stageJsonToCanvas.js:205-229 | mirroring turns left arrows right and right arrows left and keeps "no arrow"; a status outside the table gives a right arrow either way |
| Geometry.MirrorReflectsLane | js/stageJsonToCanvas.js:146-160 | the mirrored lane's centre is the reflection of the lane's centre about the strip's centre line |
| Geometry.ArrowReflects | js/stageJsonToCanvas.js:229-236 | the chevron of the opposite direction at the reflected centre is the reflected chevron |
| Trackers.HoldStep | js/stageJsonToCanvas.js:149-170 | a hold on a free lane stores its beat and draws nothing; a tap or hold on a pending lane draws from the stored beat and frees it; a tap on a free lane does nothing; the `null` slot of lane 0 draws from beat 0 |
| Trackers.SlideStep | js/stageJsonToCanvas.js:174-190 | the group's point is always overwritten with the new lane and beat; a connector is drawn iff the group had a point and the beat is less than 4 beats past it |
| Trackers.SlidePart | js/stageJsonToCanvas.js:174-190 | an entry of group 0 changes nothing and draws nothing; any other stores its mirrored-if-needed lane and beat under its group, and draws at most one connector, exactly when the group had a point less than 4 beats back, from that point to the entry |
| Trackers.HoldPart | js/stageJsonToCanvas.js:148-171 | the hold tracker's share of one entry keeps six slots |
| Trackers.StepNote | js/stageJsonToCanvas.js:136-191 | one iteration of the first loop: hold tracker, then slide tracker |
| Trackers.ConnectPass | js/stageJsonToCanvas.js:133-191 | the first loop over the chart, from `[null,false,...]` and `{}`, keeps six slots |
| Trackers.SlotKept | js/stageJsonToCanvas.js:149-170 | entries that are not taps or holds on a lane leave its slot alone, only append commands, and draw no body on that lane |
| Trackers.StrayHoldDrawsNothing | js/stageJsonToCanvas.js:153-155 | a hold never followed by a tap or hold on its lane leaves the lane pending and draws no body there |
| Trackers.PendingCloses | js/stageJsonToCanvas.js:156-170 | a tap or hold on a pending lane appends exactly one body, from the pending beat to its own, first and alone among body rectangles, and frees the lane |
| Trackers.HoldPairsWithNextOnLane | js/stageJsonToCanvas.js:149-170 | a hold that opens a lane is closed by the next tap or hold on that lane, with exactly one body between their beats |
| Trackers.HoldPartMirrors | js/stageJsonToCanvas.js:146-170 | with the mirror option the hold tracker runs on mirrored lanes and draws the reflected bodies |
| Trackers.SlidePartMirrors | js/stageJsonToCanvas.js:174-190 | with the mirror option the slide tracker stores mirrored lanes and draws the reflected connectors |
| Trackers.StepMirrors | js/stageJsonToCanvas.js:136-191 | one mirrored iteration is the reflection of the plain one |
| Trackers.ConnectPassMirrors | js/stageJsonToCanvas.js:133-191 | with every drawn or grouped entry on lanes 1..5, the mirrored first loop draws the reflection of the plain one, its trackers mirrored |
| Config.Override | js/stageJsonToCanvas.js:454 | `Object.assign`: each of the ten options the caller gives replaces the default wholesale, each one not given is kept; no options change nothing |
| Config.Options.Defaults | js/stageJsonToCanvas.js:429-443 | the defaults: start 0, no tempo map, 120 BPM, no upbeat, no overrides, 16 beats per column, empty info, black, not mirrored |
| Config.Options.Assign | js/stageJsonToCanvas.js:454 | assigning the caller's options leaves the object equal to `Override` of its old state |
| Config.FirstTimed | js/stageJsonToCanvas.js:445-451 | the first entry whose `sec` is neither `""` nor 0, and none before it is |
| Config.ScanEnd | js/stageJsonToCanvas.js:445-451 | the scan reads at most all entries |
| Config.LastMeta | js/stageJsonToCanvas.js:446 | the last meta entry (type 100) of a prefix, with no meta entry after it |
| Config.NormalizeOptions | js/stageJsonToCanvas.js:428-457 | the scan loop with its early `break` and the assign produce a fresh options object equal to `Normalize` |
| Config.FirstTimedAt | js/stageJsonToCanvas.js:448-450 | a timed entry with no timed entry before it is the one the scan stops at |
| Config.StartZeroIffUntimed | js/stageJsonToCanvas.js:430-449 | the start time stays 0 exactly when no entry is timed |
| Config.MaxComboStopsAtStart | js/stageJsonToCanvas.js:445-451 | the max combo is read up to and including the first timed entry; a meta entry after it changes nothing |
| Config.StartExample | js/stageJsonToCanvas.js:445-451 | entries with `sec` `""`, 0, 1.5, 2 give start 1.5; a leading meta entry gives max combo 812 |
| Config.StartTime | js/stageJsonToCanvas.js:445-451 | the start is the `sec` of the first entry whose `sec` is neither `""` nor 0, and that value is nonzero; with no such entry it is 0 |
| Config.MaxCombo | js/stageJsonToCanvas.js:445-451 | the max combo is the status of the last meta entry (type 100) the scan reads, none reading none |
| Config.Normalize | js/stageJsonToCanvas.js:428-457 | every option is the caller's when given, otherwise the default: the scanned start and max combo, 120 BPM, no upbeat, 16 beats per column, black, not mirrored, empty maps |
| Config.UserInfoReplacesMaxCombo | js/stageJsonToCanvas.js:440-454 | a caller's `info` object replaces the scanned one (the max combo is lost); a caller's start wins over the detected one |
| Strip.TotalBeats | js/stageJsonToCanvas.js:110-114 | the strip's length in beats is the last entry's time less the start, mapped, on the 1/48 grid |
| Strip.Glyphs | js/stageJsonToCanvas.js:208-243 | an undrawn entry draws nothing; a drawn one draws its head at its lane and row first, a white ring and coloured core right after it iff it is a hold (lines 222-226), and an arrow last in the direction of its (mirrored) status iff that status is not 0 (lines 229-243), and nothing else: one to four shapes, as many as head, ring and arrow need |
| Strip.GlyphPass | js/stageJsonToCanvas.js:194-244 | the second loop draws at most four shapes per entry, and nothing for a chart without taps or holds |
| Strip.Marker | js/stageJsonToCanvas.js:252-262 | a marker is a red horizontal line across the strip half a pixel above the checkpoint's row, and its BPM in red to the right of the strip |
| Strip.WithMarker | js/stageJsonToCanvas.js:248-250 | an empty tempo map gets the checkpoint `{0, baseBpm}`, a given one is kept |
| Strip.Markers | js/stageJsonToCanvas.js:252-262 | two commands (line and BPM label) per checkpoint |
| Strip.ConnectNote | js/stageJsonToCanvas.js:136-191 | one iteration of the first loop updates `longStatus` in place as `HoldPart` says and returns the slide map and commands of `SlidePart` |
| Strip.DrawConnections | js/stageJsonToCanvas.js:133-191 | the first loop draws `ConnectPass` |
| Strip.DrawGlyphs | js/stageJsonToCanvas.js:194-244 | the second loop draws every entry's glyphs in order |
| Strip.DrawGlyph | js/stageJsonToCanvas.js:194-243 | one iteration of the second loop draws nothing for an undrawn entry; for a drawn one exactly the head first, the ring iff it is a hold, the arrow last iff the status asks for one |
| Strip.DrawMarkers | js/stageJsonToCanvas.js:252-262 | the marker loop draws one marker per checkpoint, placed by the tempo map |
| Strip.DrawMarker | js/stageJsonToCanvas.js:253-261 | one iteration of the marker loop draws the checkpoint's `Marker` |
| Strip.Pass1 | js/stageJsonToCanvas.js:107-265 | the strip is 170 wide and the chart's beats plus padding tall; it holds the note commands first and then two commands per checkpoint of the marked tempo map, at least one pair |
| Strip.DrawNotes | js/stageJsonToCanvas.js:133-244 | step 4, the connecting loop and then the glyph loop, draws `NoteCommands`: bodies and connectors, then heads and arrows |
| Strip.PushMarker | js/stageJsonToCanvas.js:248-250 | an empty tempo map on the options object gets the checkpoint `{0, baseBpm}`; no other option changes |
| Strip.FirstStage | js/stageJsonToCanvas.js:107-265 | returns the strip `Pass1` of the options as they were, and leaves the options changed only by the pushed tempo marker |
| Strip.StripHeightWhole | js/stageJsonToCanvas.js:117-126 | the strip is 170 wide and a whole number of pixels tall, so sizing the canvas loses nothing |
| Strip.EmptyTempoMarker | js/stageJsonToCanvas.js:248-262 | without a tempo map the strip ends with one marker on the bottom row labelled with the base BPM |
| Strip.GlyphsCentred | js/stageJsonToCanvas.js:208-236 | a head sits on its lane centre at its row; arrow points stay within 5 px across and 4 px up or down of it |
| Strip.LaterNotesHigher | js/stageJsonToCanvas.js:209-213 | for a tempo map from 0 s with non-negative BPMs a later entry's head is never below an earlier one's |
| Strip.GlyphsMirror | js/stageJsonToCanvas.js:203-242 | the mirrored glyphs of an entry on lanes 1..5 with status 0..2 are the reflected plain glyphs |
| Strip.GlyphPassMirrors | js/stageJsonToCanvas.js:194-244 | the mirrored second loop draws the reflection of the plain one |
| Strip.Pass1Mirrors | js/stageJsonToCanvas.js:107-265 | the mirrored strip is the plain strip with every note shape reflected and the markers unchanged, of the same size |
| Strip.MarkersIgnoreMirror | js/stageJsonToCanvas.js:252-262 | the markers do not depend on the mirror option |
| Breaks.MeasureLength | js/stageJsonToCanvas.js:287-292 | a measure is its override when that is present and nonzero (truthy), else 4; always positive for non-negative overrides |
| Breaks.InitialWalk | js/stageJsonToCanvas.js:278-284 | the walk starts with no columns, total 0 and the upbeat in the open column; at measure 2 iff there is an upbeat, else at measure 1 |
| Breaks.BreakStep | js/stageJsonToCanvas.js:287-306 | one iteration adds the measure to the total and moves to the next measure |
| Breaks.StepShrinks | js/stageJsonToCanvas.js:286-306 | while the strip is not covered, every iteration brings the walk closer to the top, so the loop terminates |
| Breaks.BreakLoop | js/stageJsonToCanvas.js:286-307 | the loop ends with `totalBeatCount * 48` at or above the strip's note area |
| Breaks.FinalWalk | js/stageJsonToCanvas.js:277-307 | the finished walk knows one first measure per closed column plus one for the open column |
| Breaks.InitialWalkInv | js/stageJsonToCanvas.js:277-284 | the start (measure 2 with the upbeat in the column when there is one) satisfies the walk invariant |
| Breaks.NextMeasureStart | js/stageJsonToCanvas.js:304-306 | the next measure starts where the current one ends |
| Breaks.BreakKeeps | js/stageJsonToCanvas.js:299-306 | closing a column keeps the invariant: the column ends where a measure ends and could not take the measure |
| Breaks.OpenKeeps | js/stageJsonToCanvas.js:299-306 | adding a measure to the open column keeps the invariant |
| Breaks.BreakStepInv | js/stageJsonToCanvas.js:287-306 | every iteration keeps the invariant |
| Breaks.BreakLoopInv | js/stageJsonToCanvas.js:286-307 | the loop keeps the invariant |
| Breaks.BreakLoopStopsFirst | js/stageJsonToCanvas.js:286 | the loop stops at the first measure that reaches the top: one measure less would not cover the strip |
| Breaks.FinalWalkInv | js/stageJsonToCanvas.js:277-307 | the finished walk satisfies the invariant |
| Breaks.ColumnsCoverStrip | js/stageJsonToCanvas.js:275-309 | the columns add up to the upbeat plus `totalBeatCount`, which covers the strip, and the walk stops at the first measure that does |
| Breaks.FlushSum | js/stageJsonToCanvas.js:309 | flushing the open column keeps the sum |
| Breaks.FlushPrefixes | js/stageJsonToCanvas.js:299-309 | every column begins at a measure start |
| Breaks.FlushFollowsMeasures | js/stageJsonToCanvas.js:299-309 | every column spans whole measures, ending where the next column begins |
| Breaks.ColumnsFollowMeasures | js/stageJsonToCanvas.js:277-309 | no measure is split between columns |
| Breaks.FlushGreedy | js/stageJsonToCanvas.js:294-302 | the flushed columns of any walk state are packed greedily |
| Breaks.ColumnsAreGreedy | js/stageJsonToCanvas.js:294-302 | each closed column could not take the next measure within its budget (`column[k+1]` if truthy, else `beatsPerColumn`), and a column exceeds its budget only when it holds one measure |
| Breaks.BreakLoopFilled | js/stageJsonToCanvas.js:299-306 | with a non-negative upbeat only the first closed column can be empty |
| Breaks.ColumnsNonEmpty | js/stageJsonToCanvas.js:299-309 | the last column is never empty, and only the first can be |
| Breaks.BreakLoopAgree | js/stageJsonToCanvas.js:286-307 | the loop reads only the measure lengths, the budgets and the upbeat |
| Breaks.ColumnsAgree | js/stageJsonToCanvas.js:277-309 | options that agree on those give the same columns |
| Breaks.Columns | js/stageJsonToCanvas.js:286-309 | a strip with no note area gives no columns, or the upbeat's column alone |
| Breaks.ComputeColumns | js/stageJsonToCanvas.js:272-309 | the `while` loop and the trailing flush compute `Columns` for the strip's note area |
| Sheet.WrittenGridStart | js/stageJsonToCanvas.js:325-326 | as written the grid walk starts in measure 1 with nothing counted and a length of 4 |
| Sheet.GridStart | js/stageJsonToCanvas.js:325-326 | the corrected grid walk starts in measure 1 with nothing counted and measure 1's own length, which ends where measure 2 of the break walk starts unless there is an upbeat (see Findings) |
| Sheet.ColumnOpen | js/stageJsonToCanvas.js:343 | while still in measure 1 with an upbeat, a column sets the measure length to the upbeat; otherwise it leaves the walk alone |
| Sheet.GridAfter | js/stageJsonToCanvas.js:345-369 | `k` rows move the walk forward by at most `k` measures, never back |
| Sheet.Tick | js/stageJsonToCanvas.js:352-368 | at a boundary (`beatCount === measureLength`) the walk moves to the next measure and reads its length; otherwise it counts half a beat |
| Sheet.TickCommands | js/stageJsonToCanvas.js:347-367 | each row draws one line at `bottom - 48*beat/2`, black at a boundary, otherwise darker on whole beats; at a boundary the line comes after the number of the measure that ends there, written 4 px left of the column on the row `length` beats below, where that measure began |
| Sheet.GridRows | js/stageJsonToCanvas.js:345-369 | `k` rows draw between `k` and `2k` commands |
| Sheet.RowCount | js/stageJsonToCanvas.js:345 | a column has exactly the integer rows below `2 * columns[col]` |
| Sheet.ColumnCopy | js/stageJsonToCanvas.js:380-391 | a column's `drawImage` takes the strip's full width and the band from beat `total` to `total + len` with 30 px of bleed above and below; the band's `total` row lands on the column's bottom and its left edge on the column's left less the padding |
| Sheet.CopySlice | js/stageJsonToCanvas.js:380-391 | the copy the loop builds takes that band: full width, from the row of `total + len` less the padding to the row of `total` plus the padding, placed at the column |
| Sheet.CloseColumn | js/stageJsonToCanvas.js:371-409 | the end of a column, six commands: the number of the measure the walk is in, 4 px left of the column on the row `length` beats above the top; black lines across the note area at the top and at the bottom; the copy of the column's slice; a white-to-clear fade one padding tall above the top and a clear-to-white fade below the bottom, both across the column and its margins |
| Sheet.FadesCoverBleed | js/stageJsonToCanvas.js:380-409 | the fades lie exactly on the padding the copy brings above the column's top and below its bottom, and span the column with its margins |
| Sheet.DrawColumn | js/stageJsonToCanvas.js:329-412 | a column leaves the grid walk `GridAfter` its rows from where the column opened it, and draws at least its borders, one line per row and its closing six commands |
| Sheet.DrawColumns | js/stageJsonToCanvas.js:328-413 | the column loop draws at least eight commands per column |
| Sheet.Pass2 | js/stageJsonToCanvas.js:311-322 | the sheet as written is `60 + 150 * columns` wide, as tall as a full column with padding and information band, and starts with a white rectangle over all of it |
| Sheet.CopyDrawn | js/stageJsonToCanvas.js:380-412 | column `k`'s copy is among the commands of all columns, and `totalBeatCount` then advances by `columns[k]` |
| Sheet.DrawGridRows | js/stageJsonToCanvas.js:345-369 | the inner loop leaves its three counters and its commands as `GridAfter` and `GridRows` say |
| Sheet.DrawGridRow | js/stageJsonToCanvas.js:346-368 | one turn of the inner loop moves the counters by `Tick` and draws `TickCommands` |
| Sheet.DrawAllColumns | js/stageJsonToCanvas.js:324-413 | the column loop, from the walk as written, draws `DrawColumns` |
| Sheet.DrawOneColumn | js/stageJsonToCanvas.js:329-412 | one iteration of the column loop leaves the grid walk `GridAfter` its rows from where the column opened it, draws at least eight commands plus one per row, and its third-last command is the copy of its slice |
| Sheet.SecondStage | js/stageJsonToCanvas.js:271-423 | the second pass, with its grid walk started as written at line 325, returns `Pass2` of the strip and the options |
| Sheet.ColumnsSideBySide | js/stageJsonToCanvas.js:312-330 | each column with its margins fills its own 150-pixel slot, the last ending one padding short of the sheet's edge |
| Sheet.ColumnFits | js/stageJsonToCanvas.js:313-336 | a column stays below the information band iff its beats, plus the upbeat it is raised by after the first column, fit `beatsPerColumn` |
| Sheet.CopyShowsSlice | js/stageJsonToCanvas.js:380-391 | a column copies the strip's beats from `total` to `total + len` with 30 px bleed, and each beat lands on the column's row for it, the lanes between its borders |
| Sheet.DrawColumnsPrefix | js/stageJsonToCanvas.js:328-413 | what the first columns draw is a prefix of what all draw |
| Sheet.SheetShowsWholeStrip | js/stageJsonToCanvas.js:380-412 | every column's copy is on the sheet, consecutive slices abut (`totalBeatCount` advances by `columns[col]`), and together they reach the top of the strip |
| Sheet.MeasureStartNext | js/stageJsonToCanvas.js:343-364 | measure `n+1` starts where measure `n` ends, the upbeat being measure 1 |
| Sheet.TickAtBoundary | js/stageJsonToCanvas.js:352-364 | a boundary row keeps the grid walk in step with the break walk's measures |
| Sheet.TickInside | js/stageJsonToCanvas.js:366-368 | a row inside a measure keeps the walk in step |
| Sheet.TickFollows | js/stageJsonToCanvas.js:352-368 | every row keeps the walk in step |
| Sheet.GridFollows | js/stageJsonToCanvas.js:343-368 | the corrected walk is in step with the break walk's measures at every row |
| Sheet.GridLabelsMeasures | js/stageJsonToCanvas.js:352-354 | on a column drawing the corrected walk from its start, a boundary row writes the measure's number on the row where the break walk starts that measure |
| Sheet.GridMarksMeasureStarts | js/stageJsonToCanvas.js:352-358 | a row draws a measure line iff a measure of the break walk starts there, and the number it writes is placed where the measure just ended began |
| Sheet.WrittenGridMissesMeasureOne | js/stageJsonToCanvas.js:325-326 | as written, with measure 1 overridden to 3 beats, no measure line is drawn at beat 3 where the break walk starts measure 2 |
| Sheet.WrittenStartAgrees | js/stageJsonToCanvas.js:325-343 | the written and corrected starts agree once the first column opens iff there is an upbeat or measure 1 is 4 beats long |
| Sheet.DrawColumnsFromOpen | js/stageJsonToCanvas.js:328-413 | two starts that agree once a column opens draw the same columns and end in walks that agree the same way |
| Sheet.CorrectionInvisible | js/stageJsonToCanvas.js:325-413 | with an upbeat or a 4-beat measure 1 the sheet as written equals the corrected sheet |
| Sheet.SheetFromOpen | js/stageJsonToCanvas.js:325-413 | two grid starts that agree once a column opens give the same sheet |
| Sheet.WrittenSheetGridFollows | js/stageJsonToCanvas.js:325-369 | in those cases, after any number of columns, the grid walk as written agrees with one walk from the corrected start over all their rows, which `Sheet.GridFollows` keeps in step with the break walk |
| Sheet.GridAfterAdd | js/stageJsonToCanvas.js:345-369 | rows walked in two runs are the rows walked in one |
| Sheet.SheetGridFollows | js/stageJsonToCanvas.js:328-369 | across the columns the grid walk from the corrected start is one continuous walk over all their rows |
| Sheet.GridAfterAgree | js/stageJsonToCanvas.js:352-368 | the grid walk reads only the measure overrides |
| Sheet.GridRowsAgree | js/stageJsonToCanvas.js:345-369 | so do the rows it draws |
| Sheet.DrawColumnAgree | js/stageJsonToCanvas.js:329-412 | a column reads of the strip only its size, and of the options only the measure overrides and the upbeat |
| Sheet.DrawColumnsAgree | js/stageJsonToCanvas.js:328-413 | so do all columns |
| Render.FinalCanvas | js/stageJsonToCanvas.js:459-465 | the rendered sheet is `60 + 48 * beatsPerColumn + 50` tall for the normalised options and starts with a white rectangle over all of it |
| Render.FinalCanvasCorrected | js/stageJsonToCanvas.js:325-326 | with an upbeat or a 4-beat measure 1 the rendered sheet is the corrected sheet of the normalised options |
| Render.StageJsonToCanvas | js/stageJsonToCanvas.js:459-465 | normalise, first pass, second pass: the result is `FinalCanvas` |
| Render.SheetSize | js/stageJsonToCanvas.js:312-313 | the sheet is `60 + 150 * columns` wide and `60 + 48 * beatsPerColumn + 50` tall |
| Render.SheetCoversChart | js/stageJsonToCanvas.js:459-465 | every slice of the strip is copied into its column, and the columns less the upbeat cover every beat of the chart |
| Render.MirrorOnlyReflectsStrip | js/stageJsonToCanvas.js:459-465 | the mirror option reflects the strip's note shapes and changes nothing on the sheet |
| Render.Pass2IgnoresMirror | js/stageJsonToCanvas.js:271-423 | the second pass reads the strip's size only, not the mirror option |

## Left out

- Pixels. Drawing calls are recorded as commands with their coordinates. Fills, strokes, arcs, image smoothing, gradient colour stops and the compositing of `drawImage` are not modelled. A `Copy` records its source rectangle and destination, not the pixels it copies.
- `measureText`. A measure number is recorded with the right edge of its text (`columnLeft - 4`) instead of its left edge, which needs the text's width.
- The colour tables `ST_NOTE`, `ST_LONG` and `ST_ASSIST`. These are enumerations (`Paint`), not hex strings.
- Floating point. Times, BPMs, beats and pixels are exact reals. The browser's truncation of non-integer `canvas.width`/`canvas.height` is not modelled. `Strip.StripHeightWhole` shows that the strip's height is whole anyway.
- The commented-out information text of step 4 of `secondStage`. The code draws nothing there.
- Aliasing. `options.sofuran.push` also changes a tempo array the caller passed in. The model updates the options object only.
- Object keys. The measure and column overrides are maps keyed by number, so a string key such as `"01"` (which JavaScript would not find) is not modelled.
- Lanes. Entries that are drawn (or, under the mirror option, grouped) must have lanes 0..5 (`Trackers.Placeable`). Other lanes index past the six-entry tables and read `undefined`. Mirror symmetry is proved for lanes 1..5 and statuses 0..2.
- Strip.FirstStage, Render.StageJsonToCanvas: require at least one chart entry. With an empty chart the source throws on `json[json.length - 1].sec`.
- Breaks.ComputeColumns, Sheet.SecondStage, Render.StageJsonToCanvas: require non-negative measure overrides (`Breaks.NonNegative`). The source's break loop ends for any overrides, since the map is finite and every measure past its largest key adds 4 beats. The model's termination measure divides the remaining beats by the shortest measure, and `Breaks.MeasureLength` is positive, only under this condition. The page reads only unsigned numbers into these maps (`js/index.js:106`).
- Sheet.GridMarksMeasureStarts, Sheet.GridLabelsMeasures, Sheet.GridFollows, Sheet.SheetGridFollows: require measure lengths and an upbeat that are non-negative whole numbers of half beats (`Sheet.HalfBeatMeasures`). The grid compares `beatCount === measureLength` while counting in half beats, so other lengths never meet a boundary.
- Render.MirrorOnlyReflectsStrip: stated for the options as a whole rather than for the caller's options. `Render.FinalCanvas` composes it with `Config.Normalize`.
- `js/index.js` and `js/utils.js` are not part of this model. They are DOM wiring, file reading and the textarea parsing that fills the `measure`, `column` and `sofuran` options.

## Findings

| source | as written | input that shows it | evidently intended | confidence | as-written member | corrected member |
|---|---|---|---|---|---|---|
| js/stageJsonToCanvas.js:325-326 | the grid walk starts measure 1 with length 4 and only replaces it by the upbeat (line 343); `options.measure[1]` is never read, while the break walk reads it (lines 290-292) | `measure: {1: 3}`, no upbeat: the columns are cut as if measure 2 starts at beat 3, but the grid draws measure 1's end line and number at beat 4 | start the grid with measure 1's own length, so that a measure line is drawn exactly where the break walk starts a measure (`Sheet.GridMarksMeasureStarts`) | not executed | Sheet.WrittenGridMissesMeasureOne | Sheet.GridStart |
