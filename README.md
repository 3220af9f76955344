# Chart editor core, modelled in Dafny

This project models the data core of a rhythm-game chart editor. It has three parts.

- **Timing map** (`timing.dfy`, module `Timing`). A `TimingData` object holds a sequence of tempo points `(beat, tempo)` and the wall-clock offset of beat 0. The tempos are in beats per minute.
  - `Beat(time)` and `Time(beat)` convert between seconds and beats by walking the tempo segments.
  - `Tempo(beat)` reports the tempo in force at a beat.
  - `SetTempo(beat, tempo)` edits the points. It can reject the edit, rewrite the base tempo, update a point, merge a redundant point away, or insert a new point.
  - The class invariant `Valid()` is: at least one point, a base point at beat 0, and strictly ascending beats.
- **Difficulty** (`difficulty.dfy`, module `Difficulties`). A `Difficulty` object holds two lists:
  - notes keyed by `(beat, lane)`, with add (which rejects a duplicate key), edit of optional fields, and remove-all;
  - note types keyed by name, with append, first-match lookup and remove-all.
- **Chart** (`chart.dfy`, module `Charts`). A `Chart` holds difficulties keyed by name, with append (no duplicate check), first-match lookup and remove-all.

Two small modules support them:
- `Wrappers` holds `Option`.
- `Sequences` holds what `std::ranges::find_if` and `std::erase_if` compute: a first-match search (`FirstMatch`) and an order-keeping filter (`Filter`), with their lemmas.

Each imperative operation is a method on its class. The method's postcondition ties its result or new state to a recursive or pure specification function. The lemmas then prove the source's promises about those functions:
- round trips: `beat(time(b)) == b` and `time(beat(t)) == t`;
- monotonicity;
- the segment the getter reads;
- the outcome of each setter case;
- preservation of the ordering invariant and of unique note keys;
- first-match and remove-all behaviour;
- which edits undo which.

Beats, tempos and times are `real`. The source divides by a tempo that may be zero. `Beat` and `Time` return `None` where that happens (see "Left out").

Five places in `src/Core/TimingData.cpp` do something other than what the surrounding code evidently intends (see "Findings"). For each one:
- a function models the code as written, and a lemma exhibits the difference;
- the class methods implement the intended behaviour, and the properties are proved about that.

The setter's merge branch (src/Core/TimingData.cpp:76-78) shows that a point repeating its predecessor's tempo is meant to be removed. The code merges only when the edited beat already has a point, though. Inserting a tempo equal to the one in force at a new beat keeps a redundant point, and the model follows the code there (`Timing.SetTempoInsertsRedundantPoint`).

## Model

| member | source | states |
|---|---|---|
| Timing.TimingData.Beat | src/Core/TimingData.cpp:10-31 | The loop's result equals `BeatOf`, the recursive definition of the beat at a time. It is `None` exactly where the loop divides by a zero tempo. |
| Timing.TimingData.Time | src/Core/TimingData.cpp:33-52 | The loop's result equals `TimeOf`, the wall-clock time of a beat, with the loop seeded with the base tempo. |
| Timing.TimingData.Tempo | src/Core/TimingData.cpp:54-62 | The backward scan returns `TempoAt`: the tempo of the last point at or before the beat, or 0 when there is none. |
| Timing.TimingData.SetTempo | src/Core/TimingData.cpp:64-89 | The new points are `SetTempoResult` of the old ones. The invariant (base point at beat 0, ascending beats) is kept and the offset is unchanged. Positive tempos stay positive unless a zero tempo is accepted. |
| Timing.BeatBeforeOffset | src/Core/TimingData.cpp:11-14 | At or before the offset, the beat is `(time - offset) / 60 * tempo0`, which is never positive. |
| Timing.BeatAsWritten | src/Core/TimingData.cpp:10-31 | `beat(time)` as the code computes it. At or before the offset it divides the seconds by `tempo0 / 60` (line 13), and it is `None` for a zero base tempo. After the offset it runs the same loop as `BeatOf`. Its properties are in `BeatAsWrittenBeforeOffset` and `BeatAsWrittenCounterexample`. |
| Timing.BeatAsWrittenBeforeOffset | src/Core/TimingData.cpp:13 | As written, the extrapolation is `(time - offset) * 60 / tempo0`. It agrees with the intended value iff the time is the offset or the base tempo is 60 BPM. |
| Timing.DivideEqualsMultiply | src/Core/TimingData.cpp:13 | Dividing seconds by beats per second equals multiplying by it iff the span is 0 or the tempo is 60. |
| Timing.BeatAsWrittenCounterexample | src/Core/TimingData.cpp:13 | At 120 BPM, one second before the offset, the code as written says beat -0.5. The intended beat is -2, and `time(-2)` is that second. |
| Timing.BeatSinglePoint | src/Core/TimingData.cpp:10-31 | With one tempo point, `beat` is the single line `(time - offset) / 60 * tempo0` for every time. |
| Timing.BeatScanAdvances | src/Core/TimingData.cpp:16-30 | With positive tempos, the beat loop is defined and never returns a beat before the one it started from. It moves strictly forward when time remains. |
| Timing.TimeScanAdvances | src/Core/TimingData.cpp:39-51 | With positive tempos, the time loop is defined and never returns a time before the one it started from. It moves strictly forward when beats remain. |
| Timing.BeatDefined | src/Core/TimingData.cpp:10-31 | With positive tempos, `beat` is defined everywhere. It is positive exactly after the offset. |
| Timing.TimeDefined | src/Core/TimingData.cpp:33-52 | With positive tempos, `time` is defined everywhere. It lies after the offset exactly for positive beats. |
| Timing.TimeBeforeFirstBeat | src/Core/TimingData.cpp:34-37 | At or before beat 0, the time is `beat / tempo0 * 60 + offset`, so `time(0)` is the offset. |
| Timing.TimeAsWritten | src/Core/TimingData.cpp:33-52 | `time(beat)` as the code computes it. The extrapolation at or before beat 0 is the intended one, and the loop is seeded with the base point's beat (line 41) instead of its tempo. Its properties are in `TimeAsWrittenDividesByZero`. |
| Timing.TimeAsWrittenDividesByZero | src/Core/TimingData.cpp:39-51 | As written, the loop is seeded with the base point's beat, which is 0. So every positive beat divides by zero, and the other beats agree with the intended `time`. |
| Timing.BeatScanInvertsTimeScan | src/Core/TimingData.cpp:10-52 | From any loop state, feeding the time loop's result to the beat loop gives back the beat. |
| Timing.TimeScanInvertsBeatScan | src/Core/TimingData.cpp:10-52 | From any loop state, feeding the beat loop's result to the time loop gives back the time. |
| Timing.BeatOfTimeOf | src/Core/TimingData.cpp:10-52 | With positive tempos, `beat(time(b)) == b` for every beat. |
| Timing.TimeOfBeatOf | src/Core/TimingData.cpp:10-52 | With positive tempos, `time(beat(t)) == t` for every time. |
| Timing.TimeScanMonotone | src/Core/TimingData.cpp:43-51 | The time loop is strictly increasing in its target beat. |
| Timing.TimeMonotone | src/Core/TimingData.cpp:33-52 | With positive tempos, `time` is strictly increasing. |
| Timing.BeatMonotone | src/Core/TimingData.cpp:10-31 | With positive tempos, `beat` is strictly increasing. |
| Timing.BackwardScan | src/Core/TimingData.cpp:72-86 | The downward scan stops at the first point whose beat is at most the target. Every point it passed lies after the target. Exhaustion means every point does. A start below `size()` never reads out of bounds; a start at `size()` is an out-of-bounds read. |
| Timing.ScanFindsSegment | src/Core/TimingData.cpp:72-86 | Under the invariant, a scan from the last point finds a point for every beat that is not negative. |
| Timing.SetterScanAsWrittenOutOfBounds | src/Core/TimingData.cpp:72-73 | As written, the setter's first read is index `size()`, one past the end. |
| Timing.TempoAtSegment | src/Core/TimingData.cpp:54-62 | The intended getter reports the tempo of the segment that holds the beat, and 0 for negative beats. |
| Timing.TempoAsWritten | src/Core/TimingData.cpp:54-62 | `tempo(beat)` as the code computes it. Because of the `break` at line 56 it looks only at the last point: that point's tempo when its beat is at most `beat`, otherwise 0. Its properties are in `TempoAsWrittenOnlySeesLastPoint` and `TempoAsWrittenCounterexample`. |
| Timing.TempoAsWrittenOnlySeesLastPoint | src/Core/TimingData.cpp:55-61 | As written, the getter is right in the last segment. In every earlier segment it reports 0, where the intended getter reports an earlier point's tempo. |
| Timing.TempoAsWrittenCounterexample | src/Core/TimingData.cpp:56 | With 120 BPM, then 240 BPM from beat 4, the getter as written reports 0 at beat 3 instead of 120. |
| Timing.SetTempoRejects | src/Core/TimingData.cpp:65-66 | A negative tempo or beat leaves the points unchanged. |
| Timing.SetTempoAtBase | src/Core/TimingData.cpp:67-70 | At beat 0, only the base tempo changes. The length and all other points stay. |
| Timing.SetTempoInserts | src/Core/TimingData.cpp:72-85 | At a positive beat with no point, exactly one point is inserted, right after the last point before the beat. |
| Timing.SetTempoUpdates | src/Core/TimingData.cpp:76-79 | An existing point whose predecessor has another tempo gets the new tempo in place. Nothing else changes, as written too. |
| Timing.MatchedPoint | src/Core/TimingData.cpp:72-76 | The scan for an existing point's beat stops at that point. |
| Timing.SetTempoMerges | src/Core/TimingData.cpp:76-78 | An existing point whose predecessor already has the tempo is erased. No point is then left at that beat. |
| Timing.SetTempoAsWritten | src/Core/TimingData.cpp:64-89 | `tempo(beat, tempo)` as the code computes it, except that its scan starts at `size() - 1`. On a merge it erases index 1 (line 78) instead of the matched point, and otherwise it agrees with `SetTempoResult`. The start at `size()` (lines 72-73) is recorded separately by `SetterScanAsWrittenOutOfBounds`. Its properties are in `SetTempoAsWrittenMerges`, `SetTempoAsWrittenCounterexample`, `SetTempoRejects`, `SetTempoUpdates` and `SetTempoAsWrittenKeepsValid`. |
| Timing.SetTempoAsWrittenMerges | src/Core/TimingData.cpp:77-78 | As written, the merge erases index 1. The matched point is gone iff it was point 1. |
| Timing.SetTempoAsWrittenCounterexample | src/Core/TimingData.cpp:78 | Merging at beat 8 of `[(0,120),(4,240),(8,180)]` as written drops the point at beat 4, so beat 8 still reads 180. |
| Timing.EraseKeepsValid | src/Core/TimingData.cpp:78 | Erasing any point but the base keeps the beats ascending. |
| Timing.UpdateKeepsValid | src/Core/TimingData.cpp:79 | Rewriting one tempo keeps the invariant. |
| Timing.InsertKeepsValid | src/Core/TimingData.cpp:84 | Inserting between a point and its successor keeps the beats ascending. |
| Timing.SetTempoKeepsValid | src/Core/TimingData.cpp:64-89 | The setter keeps the invariant. |
| Timing.SetTempoKeepsPositive | src/Core/TimingData.cpp:64-89 | With positive tempos, an edit whose tempo is positive, or which is rejected, keeps every tempo positive. So the conversion lemmas keep holding after such edits. |
| Timing.SetTempoAsWrittenKeepsValid | src/Core/TimingData.cpp:77-78 | The setter as written also keeps the invariant; it erases the wrong point. |
| Timing.SetTempoThenTempoAt | src/Core/TimingData.cpp:64-89 | After an accepted edit, the getter reports the new tempo at the edited beat. |
| Timing.SetTempoKeepsEarlierTempos | src/Core/TimingData.cpp:64-89 | An edit leaves the tempo unchanged at every beat before the edited one. |
| Timing.SetTempoInsertsRedundantPoint | src/Core/TimingData.cpp:84 | Setting the tempo already in force at a new beat still inserts a point. |
| Timing.TempoScenario | src/Core/TimingData.cpp:64-89 | Setting 240 at beat 4 over a 120 base, then 120 at beat 4, merges the point away. The getter reads 120, 240, 240 at beats 3, 4, 5 in between. |
| Sequences.FirstMatch | src/Core/Difficulty.cpp:14 | Returns the index of the first element satisfying the predicate, or none exactly when no element does. |
| Sequences.Filter | src/Core/Difficulty.cpp:28 | Keeps exactly the elements satisfying the predicate. |
| Sequences.FilterAppend | src/Core/Difficulty.cpp:28 | Filtering distributes over concatenation, so the survivors keep their relative order. |
| Difficulties.FindNote | src/Core/Difficulty.cpp:14 | Finds a note iff some note is at `(beat, lane)`, and it finds the first such note. |
| Difficulties.FoundNoteIsOnly | src/Core/Difficulty.cpp:20 | Under unique keys, the note found is the only one at its key. |
| Difficulties.AddNoteKeepsUnique | src/Core/Difficulty.cpp:13-17 | Appending at a free key keeps the `(beat, lane)` keys unique. |
| Difficulties.AddedNoteIsFound | src/Core/Difficulty.cpp:16 | A note appended at a free key is the one the search then finds. |
| Difficulties.EditNoteIn | src/Core/Difficulty.cpp:19-25 | Edits only the first note at the key, and only the fields present in the parameters. A missing key changes nothing. Beats and lanes are unchanged. |
| Difficulties.EditNoteKeepsUnique | src/Core/Difficulty.cpp:19-25 | Editing keeps the keys unique. |
| Difficulties.FindNoteSeesKeysOnly | src/Core/Difficulty.cpp:20 | The search depends only on beats and lanes. |
| Difficulties.EditNoteIdempotent | src/Core/Difficulty.cpp:19-25 | Repeating an edit changes nothing more. |
| Difficulties.EditNothing | src/Core/Difficulty.cpp:23-24 | An edit with no field present is a no-op. |
| Difficulties.RemoveNoteFrom | src/Core/Difficulty.cpp:27-29 | No note at the key remains. Every other note remains, and only old notes remain. |
| Difficulties.RemoveNoteKeepsOrder | src/Core/Difficulty.cpp:27-29 | Removal distributes over concatenation and drops a single note exactly when it sits at the key. So the surviving notes keep their order. |
| Difficulties.RemoveMissingNote | src/Core/Difficulty.cpp:28 | Removing a key that is not there is a no-op. |
| Difficulties.RemoveNoteKeepsUnique | src/Core/Difficulty.cpp:28 | Removing keeps the keys unique. |
| Difficulties.RemoveUndoesAdd | src/Core/Difficulty.cpp:13-29 | Removing a note just added at a free key restores the notes. |
| Difficulties.NoteTypeNamed | src/Core/Difficulty.cpp:38-44 | Returns the first note type with the name, or null exactly when none has it. |
| Difficulties.AddedNoteTypeLookup | src/Core/Difficulty.cpp:31-44 | An appended type is found by its name unless an earlier type with that name shadows it. |
| Difficulties.RemoveNoteTypeFrom | src/Core/Difficulty.cpp:46-48 | No type with the name remains. Every other type remains, and only old types remain. |
| Difficulties.RemoveNoteTypeKeepsOrder | src/Core/Difficulty.cpp:46-48 | Removal distributes over concatenation and drops a single type exactly when it has the name. So the surviving types keep their order. |
| Difficulties.RemoveMissingNoteType | src/Core/Difficulty.cpp:47 | Removing an absent name is a no-op. |
| Difficulties.RemoveOtherNoteType | src/Core/Difficulty.cpp:47 | Removing one name does not change the lookup of another. |
| Difficulties.Difficulty.AddNote | src/Core/Difficulty.cpp:13-17 | At an occupied key, it reports `NoteAlreadyExists(beat, lane)` and changes nothing. Otherwise it appends exactly the new note. Unique keys stay unique. |
| Difficulties.Difficulty.EditNote | src/Core/Difficulty.cpp:19-25 | The notes become `EditNoteIn` of the old notes. The types are untouched. |
| Difficulties.Difficulty.RemoveNote | src/Core/Difficulty.cpp:27-29 | The notes become `RemoveNoteFrom` of the old notes. |
| Difficulties.Difficulty.AddNoteType | src/Core/Difficulty.cpp:31-36 | Returns a new type with the given fields, appended without a name check. |
| Difficulties.Difficulty.GetNoteType | src/Core/Difficulty.cpp:38-44 | The search loop returns `NoteTypeNamed`: the first type with the name, or null. |
| Difficulties.Difficulty.RemoveNoteType | src/Core/Difficulty.cpp:46-48 | The types become `RemoveNoteTypeFrom` of the old types. The notes are untouched. |
| Charts.DifficultyNamed | src/Core/Chart.cpp:19-25 | Returns the first difficulty with the name, or null exactly when none has it. |
| Charts.CreatedDifficultyLookup | src/Core/Chart.cpp:12-25 | A created difficulty is found by its name unless an earlier one with that name shadows it. |
| Charts.DeleteDifficultyFrom | src/Core/Chart.cpp:27-29 | Afterwards, the lookup of the name is null. Every other difficulty remains, and only old ones remain. |
| Charts.DeleteDifficultyKeepsOrder | src/Core/Chart.cpp:27-29 | Deletion distributes over concatenation and drops a single difficulty exactly when it has the name. So the surviving difficulties keep their order. |
| Charts.DeleteMissingDifficulty | src/Core/Chart.cpp:28 | Deleting an absent name is a no-op. |
| Charts.DeleteDifficultyIdempotent | src/Core/Chart.cpp:28 | Deleting twice is deleting once. |
| Charts.DeleteUndoesCreate | src/Core/Chart.cpp:12-29 | Deleting a difficulty just created under a fresh name restores the list. |
| Charts.Chart.CreateDifficulty | src/Core/Chart.cpp:12-17 | Appends exactly one new, empty difficulty with the name, and returns it. |
| Charts.Chart.GetDifficulty | src/Core/Chart.cpp:19-25 | The search loop returns `DifficultyNamed`: the first match in creation order, or null. |
| Charts.Chart.DeleteDifficulty | src/Core/Chart.cpp:27-29 | The list becomes `DeleteDifficultyFrom` of the old list. |
| Charts.DuplicateNames | src/Core/Chart.cpp:12-29 | Two difficulties created under one name are distinct, and the chart then holds both. The lookup returns the first, and deleting the name removes both. |

## Left out

- Floating point. Beats, tempos and times are `real`, so rounding, overflow, infinities and NaN are not modelled.
  - A division by a zero tempo yields `None`.
  - The source computes an infinity or NaN and goes on; those values are not modelled.
  - `BeatOf` therefore differs from the source when a zero-tempo point is followed by another point. With points `(0,120),(4,0),(8,120)`, offset 0 and time 10, the source's step `(8 - 4) / 0 * 60` is +inf, which ends the loop at line 23, so it returns beat 4. `BeatOf` returns `None` there. When the zero-tempo point is the last one, `BeatOf` gives the same finite beat as the source.
  - The round-trip and monotonicity lemmas assume positive tempos. The setter accepts a zero tempo (src/Core/TimingData.cpp:65).
- Timing.SetTempoKeepsPositive: covers only edits with a positive tempo and rejected edits. An accepted zero tempo makes a segment stand still, which breaks positivity, and then the round trips no longer hold. The constructor likewise gives positive tempos only for a positive base tempo.
- Timing.BeatBeforeOffset: gives the closed form and its sign. The value 0 at the offset is that form at zero seconds and is not stated as a separate clause.
- `std::vector::at(0)` throwing on an empty vector is not modelled. The class invariant requires a base point.
- Undefined behaviour of the out-of-bounds read at index `size()` (src/Core/TimingData.cpp:72-73) is not modelled. It is recorded as the `OutOfBounds` scan result in a finding, and the method scans from `size() - 1`.
- Timing.TimingData.SetTempo: has no counterpart to the `emplace_back` fallback (src/Core/TimingData.cpp:88). Under the invariant the scan always stops at a point (`Timing.ScanFindsSegment`). `SetTempoResult` keeps the branch for completeness.
- Ownership and lifetime. `shared_ptr`/`weak_ptr` are not modelled.
  - Note types and difficulties are class references with constant names.
  - A note's type is a nullable reference, where `null` is an empty `weak_ptr`.
  - A reference held by a note does not expire after `removeNoteType`.
- Exceptions. `NoteAlreadyExistsException` is the `NoteAlreadyExists(beat, lane)` outcome of `AddNote`.
- Headers, constructors and accessors of `TimingPoint`, `Note`, `NoteType`, `Difficulty`, `Chart` and `TimingData` are not part of this model. They appear as plain records and constructors.
  - The `TimingData` constructor here builds the base point `(0, baseTempo)` and sets the offset.
- A lane is an integer in `0..255`, the range of `uint8_t`. Beats are compared with exact equality, as the source does.
- Unique note keys are not a precondition of any operation. `AddNote`, `EditNote` and `RemoveNote` preserve them when they hold.

## Findings

| source | as written | input that shows it | evidently intended | confidence | as-written member | corrected member |
|---|---|---|---|---|---|---|
| src/Core/TimingData.cpp:13 | `beat` before the offset divides the seconds by the beats per second: `(time - offset) / (tempo / 60)` | base 120 BPM, offset 0, time -1: gives -0.5, but `time(-2) == -1` | multiply: `(time - offset) / 60 * tempo`, the inverse of `time` before beat 0 | high, not executed | Timing.BeatAsWrittenCounterexample | Timing.BeatOfTimeOf |
| src/Core/TimingData.cpp:41 | `time` seeds `previousTempo` with the base point's beat, which is 0 | any positive beat: the first step divides by zero | seed with the base tempo | high, not executed | Timing.TimeAsWrittenDividesByZero | Timing.TimeDefined |
| src/Core/TimingData.cpp:56 | the getter `break`s at the first point after the beat, so it only ever looks at the last point | points 120 and 240 from beat 4, beat 3: gives 0 | `continue` down to the segment's point | high, not executed | Timing.TempoAsWrittenCounterexample | Timing.TempoAtSegment |
| src/Core/TimingData.cpp:72 | the setter's scan starts at `size()`, one past the end | any positive beat: the first read is out of bounds | start at `size() - 1` | high, not executed | Timing.SetterScanAsWrittenOutOfBounds | Timing.SetTempoInserts |
| src/Core/TimingData.cpp:78 | the merge erases index 1 instead of the matched point `i` | points `(0,120),(4,240),(8,180)`, set 240 at beat 8: drops the point at beat 4 | erase index `i` | high, not executed | Timing.SetTempoAsWrittenCounterexample | Timing.SetTempoMerges |
