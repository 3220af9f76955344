/** The timing map of a chart: tempo points `(beat, tempo)` sorted by beat, and the
    wall-clock time of beat 0. Beats, tempos (beats per minute) and times (seconds)
    are reals; a division by zero, which the source performs in floating point,
    yields `None`. */
module Timing {
  import opened Wrappers

  /** From `beat` on, the chart runs at `tempo` beats per minute. */
  datatype TimingPoint = TimingPoint(beat: real, tempo: real)

  /** The invariant every operation relies on: a base point at beat 0 and strictly
      ascending beats. */
  predicate ValidPoints(points: seq<TimingPoint>)
  {
    && |points| > 0
    && points[0].beat == 0.0
    && forall i, j :: 0 <= i < j < |points| ==> points[i].beat < points[j].beat
  }

  /** Every segment runs forward in time. The setter admits a zero tempo, so this is
      not part of the invariant. */
  predicate PositiveTempos(points: seq<TimingPoint>)
  {
    forall i :: 0 <= i < |points| ==> points[i].tempo > 0.0
  }

  lemma BeatsNonNegative(points: seq<TimingPoint>, k: int)
    requires ValidPoints(points) && 0 <= k < |points|
    ensures points[k].beat >= 0.0
  {
    if k > 0 {
      assert points[0].beat < points[k].beat;
    }
  }

  // ---------------------------------------------------------------------------
  // Segment arithmetic: seconds for a span of beats, `beats / tempo * 60`, and beats for
  // a span of seconds, `seconds / 60 * tempo`

  lemma SecondsNonNegative(d: real, tempo: real)
    requires tempo > 0.0
    ensures d >= 0.0 ==> d / tempo * 60.0 >= 0.0
    ensures d > 0.0 ==> d / tempo * 60.0 > 0.0
    ensures d <= 0.0 ==> d / tempo * 60.0 <= 0.0
  {
  }

  lemma SecondsMonotone(d1: real, d2: real, tempo: real)
    requires tempo > 0.0 && d1 < d2
    ensures d1 / tempo * 60.0 < d2 / tempo * 60.0
  {
    SecondsNonNegative(d2 - d1, tempo);
    assert d2 / tempo * 60.0 - d1 / tempo * 60.0 == (d2 - d1) / tempo * 60.0;
  }

  lemma BeatsNonNegativeArith(e: real, tempo: real)
    requires tempo >= 0.0
    ensures e >= 0.0 ==> e / 60.0 * tempo >= 0.0
    ensures e <= 0.0 ==> e / 60.0 * tempo <= 0.0
    ensures e > 0.0 && tempo > 0.0 ==> e / 60.0 * tempo > 0.0
    ensures e == 0.0 ==> e / 60.0 * tempo == 0.0
  {
  }

  lemma BeatsBelowSegment(e: real, d: real, tempo: real)
    requires tempo > 0.0 && e < d / tempo * 60.0
    ensures e / 60.0 * tempo < d
  {
  }

  /** Converting a span of beats to seconds and back is the identity. */
  lemma SecondsThenBeats(previousBeat: real, previousTime: real, beat: real, tempo: real, time: real)
    requires tempo > 0.0 && time == previousTime + (beat - previousBeat) / tempo * 60.0
    ensures previousBeat + (time - previousTime) / 60.0 * tempo == beat
  {
  }

  /** Converting a span of seconds to beats and back is the identity. */
  lemma BeatsThenSeconds(previousTime: real, previousBeat: real, time: real, tempo: real, beat: real)
    requires tempo > 0.0 && beat == previousBeat + (time - previousTime) / 60.0 * tempo
    ensures previousTime + (beat - previousBeat) / tempo * 60.0 == time
  {
  }

  /** The same two conversions in the shape the extrapolation before beat 0 uses. */
  lemma BaseSecondsThenBeats(beat: real, tempo: real, offset: real, time: real)
    requires tempo > 0.0 && time == beat / tempo * 60.0 + offset
    ensures (time - offset) / 60.0 * tempo == beat
  {
  }

  lemma BaseBeatsThenSeconds(time: real, tempo: real, offset: real, beat: real)
    requires tempo > 0.0 && beat == (time - offset) / 60.0 * tempo
    ensures beat / tempo * 60.0 + offset == time
  {
  }

  lemma SquareIs(tempo: real)
    requires tempo > 0.0 && tempo * tempo == 3600.0
    ensures tempo == 60.0
  {
    assert (tempo - 60.0) * (tempo + 60.0) == tempo * tempo - 3600.0;
  }

  lemma CancelFactor(d: real, x: real, y: real)
    requires d != 0.0 && d * x == d * y
    ensures x == y
  {
    assert d * (x - y) == 0.0;
  }

  /** Seconds over beats, as `beat()` computes it before the offset, equals beats only at
      60 BPM or at zero seconds. */
  lemma DivideEqualsMultiply(d: real, tempo: real)
    requires tempo > 0.0
    ensures d / (tempo / 60.0) == d * 60.0 / tempo
    ensures d * 60.0 / tempo == d / 60.0 * tempo <==> d == 0.0 || tempo == 60.0
  {
    if d * 60.0 / tempo == d / 60.0 * tempo && d != 0.0 {
      assert d * 60.0 / tempo * (60.0 * tempo) == d * 3600.0;
      assert d / 60.0 * tempo * (60.0 * tempo) == d * (tempo * tempo);
      CancelFactor(d, 3600.0, tempo * tempo);
      SquareIs(tempo);
    }
  }

  // ---------------------------------------------------------------------------
  // beat(time): TimingData.cpp:10-31

  /** The loop of `beat(time)` from point `i` on, with the loop's four accumulators. */
  function BeatScan(points: seq<TimingPoint>, i: nat, time: real, previousTime: real,
                    currentTime: real, previousBeat: real, previousTempo: real): Option<real>
    requires i <= |points|
    decreases |points| - i
  {
    if i == |points| then Some(previousBeat + (time - previousTime) / 60.0 * previousTempo)
    else if previousTempo == 0.0 then None
    else
      var nextTime := currentTime + (points[i].beat - previousBeat) / previousTempo * 60.0;
      if nextTime > time then Some(previousBeat + (time - previousTime) / 60.0 * previousTempo)
      else BeatScan(points, i + 1, time, nextTime, nextTime, points[i].beat, points[i].tempo)
  }

  /** The beat sounding at wall-clock `time`; before the offset it extrapolates with the
      base tempo, converting seconds to beats as the loop does. */
  function BeatOf(points: seq<TimingPoint>, offset: real, time: real): Option<real>
    requires |points| > 0
  {
    if time <= offset then Some((time - offset) / 60.0 * points[0].tempo)
    else BeatScan(points, 0, time, offset, offset, points[0].beat, points[0].tempo)
  }

  /** `beat(time)` as written: before the offset it divides the seconds by the beats per
      second instead of multiplying. */
  function BeatAsWritten(points: seq<TimingPoint>, offset: real, time: real): Option<real>
    requires |points| > 0
  {
    if time <= offset then
      if points[0].tempo == 0.0 then None else Some((time - offset) / (points[0].tempo / 60.0))
    else BeatOf(points, offset, time)
  }

  // ---------------------------------------------------------------------------
  // time(beat): TimingData.cpp:33-52

  /** The loop of `time(beat)` from point `i` on. */
  function TimeScan(points: seq<TimingPoint>, i: nat, beat: real,
                    currentTime: real, previousBeat: real, previousTempo: real): Option<real>
    requires i <= |points|
    decreases |points| - i
  {
    if previousTempo == 0.0 then None
    else if i == |points| || points[i].beat > beat then
      Some(currentTime + (beat - previousBeat) / previousTempo * 60.0)
    else
      TimeScan(points, i + 1, beat, currentTime + (points[i].beat - previousBeat) / previousTempo * 60.0,
               points[i].beat, points[i].tempo)
  }

  /** `time(beat)` with the loop's first `previousTempo` given as `seed`. */
  function TimeWithSeed(points: seq<TimingPoint>, offset: real, beat: real, seed: real): Option<real>
    requires |points| > 0
  {
    if beat <= 0.0 then
      if points[0].tempo == 0.0 then None else Some(beat / points[0].tempo * 60.0 + offset)
    else TimeScan(points, 0, beat, offset, points[0].beat, seed)
  }

  /** The wall-clock time of `beat`, seeding the loop with the base tempo. */
  function TimeOf(points: seq<TimingPoint>, offset: real, beat: real): Option<real>
    requires |points| > 0
  {
    TimeWithSeed(points, offset, beat, points[0].tempo)
  }

  /** `time(beat)` as written: the loop is seeded with the base point's beat. */
  function TimeAsWritten(points: seq<TimingPoint>, offset: real, beat: real): Option<real>
    requires |points| > 0
  {
    TimeWithSeed(points, offset, beat, points[0].beat)
  }

  // ---------------------------------------------------------------------------
  // Properties of beat(time) and time(beat)

  // One step of each loop, stated apart so that the proofs below match terms instead of
  // unfolding the loops in the middle of nonlinear arithmetic.

  lemma BeatScanStops(points: seq<TimingPoint>, i: nat, time: real, previousTime: real,
                      currentTime: real, previousBeat: real, previousTempo: real)
    requires i <= |points| && previousTempo != 0.0
    requires i < |points| ==> currentTime + (points[i].beat - previousBeat) / previousTempo * 60.0 > time
    ensures BeatScan(points, i, time, previousTime, currentTime, previousBeat, previousTempo)
            == Some(previousBeat + (time - previousTime) / 60.0 * previousTempo)
  {
  }

  lemma BeatScanSteps(points: seq<TimingPoint>, i: nat, time: real, previousTime: real,
                      currentTime: real, previousBeat: real, previousTempo: real, nextTime: real)
    requires i < |points| && previousTempo != 0.0
    requires nextTime == currentTime + (points[i].beat - previousBeat) / previousTempo * 60.0
    requires nextTime <= time
    ensures BeatScan(points, i, time, previousTime, currentTime, previousBeat, previousTempo)
            == BeatScan(points, i + 1, time, nextTime, nextTime, points[i].beat, points[i].tempo)
  {
  }

  lemma TimeScanStops(points: seq<TimingPoint>, i: nat, beat: real,
                      currentTime: real, previousBeat: real, previousTempo: real)
    requires i <= |points| && previousTempo != 0.0
    requires i < |points| ==> points[i].beat > beat
    ensures TimeScan(points, i, beat, currentTime, previousBeat, previousTempo)
            == Some(currentTime + (beat - previousBeat) / previousTempo * 60.0)
  {
  }

  lemma TimeScanSteps(points: seq<TimingPoint>, i: nat, beat: real,
                      currentTime: real, previousBeat: real, previousTempo: real, nextTime: real)
    requires i < |points| && previousTempo != 0.0 && points[i].beat <= beat
    requires nextTime == currentTime + (points[i].beat - previousBeat) / previousTempo * 60.0
    ensures TimeScan(points, i, beat, currentTime, previousBeat, previousTempo)
            == TimeScan(points, i + 1, beat, nextTime, points[i].beat, points[i].tempo)
  {
  }

  /** Before the offset, `beat` extrapolates with the base tempo, and is not positive. */
  lemma BeatBeforeOffset(points: seq<TimingPoint>, offset: real, time: real)
    requires ValidPoints(points) && points[0].tempo >= 0.0 && time <= offset
    ensures BeatOf(points, offset, time) == Some((time - offset) / 60.0 * points[0].tempo)
    ensures BeatOf(points, offset, time).value <= 0.0
  {
    BeatsNonNegativeArith(time - offset, points[0].tempo);
    assert BeatOf(points, offset, time) == Some((time - offset) / 60.0 * points[0].tempo);
  }

  /** As written, `beat` before the offset computes `(time - offset) * 60 / tempo0`; it
      agrees with the corrected form only at the offset or at 60 BPM. */
  lemma BeatAsWrittenBeforeOffset(points: seq<TimingPoint>, offset: real, time: real)
    requires ValidPoints(points) && points[0].tempo > 0.0 && time <= offset
    ensures BeatAsWritten(points, offset, time) == Some((time - offset) * 60.0 / points[0].tempo)
    ensures BeatAsWritten(points, offset, time) == BeatOf(points, offset, time)
        <==> time == offset || points[0].tempo == 60.0
  {
    DivideEqualsMultiply(time - offset, points[0].tempo);
  }

  /** At 120 BPM one second before the offset is beat -2; as written, `beat` says -0.5, so
      it does not invert `time` there. */
  lemma BeatAsWrittenCounterexample()
    ensures BeatAsWritten([TimingPoint(0.0, 120.0)], 0.0, -1.0) == Some(-0.5)
    ensures BeatOf([TimingPoint(0.0, 120.0)], 0.0, -1.0) == Some(-2.0)
    ensures TimeOf([TimingPoint(0.0, 120.0)], 0.0, -2.0) == Some(-1.0)
  {
  }

  /** With a single tempo point, `beat` is one straight line through `(offset, 0)`. */
  lemma BeatSinglePoint(points: seq<TimingPoint>, offset: real, time: real)
    requires ValidPoints(points) && |points| == 1 && points[0].tempo > 0.0
    ensures BeatOf(points, offset, time) == Some((time - offset) / 60.0 * points[0].tempo)
  {
    if time <= offset {
      BeatBeforeOffset(points, offset, time);
    } else {
      assert (points[0].beat - points[0].beat) / points[0].tempo * 60.0 == 0.0;
      assert BeatScan(points, 0, time, offset, offset, points[0].beat, points[0].tempo)
          == BeatScan(points, 1, time, offset + 0.0, offset + 0.0, points[0].beat, points[0].tempo);
      var x := BeatScan(points, 1, time, offset, offset, points[0].beat, points[0].tempo);
      assert 1 == |points|;
      assert x.Some?;
      assert x.value == points[0].beat + (time - offset) / 60.0 * points[0].tempo;
    }
  }

  /** The loops' state when they reach point `i`: the previous beat is that of the
      point before `i` (of point 0 when `i` is 0) and the tempo in force is positive. */
  predicate ScanState(points: seq<TimingPoint>, i: nat, previousBeat: real, previousTempo: real)
    requires |points| > 0
  {
    && i <= |points|
    && previousTempo > 0.0
    && previousBeat == points[if i == 0 then 0 else i - 1].beat
  }

  lemma ScanStateNext(points: seq<TimingPoint>, i: nat, previousBeat: real, previousTempo: real)
    requires ValidPoints(points) && PositiveTempos(points)
    requires ScanState(points, i, previousBeat, previousTempo) && i < |points|
    ensures previousBeat <= points[i].beat
    ensures ScanState(points, i + 1, points[i].beat, points[i].tempo)
  {
  }

  /** The time loop, from any state, is defined and never goes back in time; it moves
      forward as soon as the target lies past the previous beat. */
  lemma {:induction false} TimeScanAdvances(points: seq<TimingPoint>, i: nat, beat: real,
                                            currentTime: real, previousBeat: real, previousTempo: real)
    requires ValidPoints(points) && PositiveTempos(points)
    requires ScanState(points, i, previousBeat, previousTempo) && previousBeat <= beat
    ensures TimeScan(points, i, beat, currentTime, previousBeat, previousTempo).Some?
    ensures TimeScan(points, i, beat, currentTime, previousBeat, previousTempo).value >= currentTime
    ensures previousBeat < beat ==>
              TimeScan(points, i, beat, currentTime, previousBeat, previousTempo).value > currentTime
    decreases |points| - i
  {
    if i == |points| || points[i].beat > beat {
      TimeScanStops(points, i, beat, currentTime, previousBeat, previousTempo);
      SecondsNonNegative(beat - previousBeat, previousTempo);
    } else {
      ScanStateNext(points, i, previousBeat, previousTempo);
      var nextTime := currentTime + (points[i].beat - previousBeat) / previousTempo * 60.0;
      TimeScanSteps(points, i, beat, currentTime, previousBeat, previousTempo, nextTime);
      SecondsNonNegative(points[i].beat - previousBeat, previousTempo);
      TimeScanAdvances(points, i + 1, beat, nextTime, points[i].beat, points[i].tempo);
    }
  }

  /** The beat loop, from any state whose time has not passed the target, is defined
      and never goes back in beats; it moves forward when time remains. */
  lemma {:induction false} BeatScanAdvances(points: seq<TimingPoint>, i: nat, time: real,
                                            previousTime: real, previousBeat: real, previousTempo: real)
    requires ValidPoints(points) && PositiveTempos(points)
    requires ScanState(points, i, previousBeat, previousTempo) && previousTime <= time
    ensures BeatScan(points, i, time, previousTime, previousTime, previousBeat, previousTempo).Some?
    ensures BeatScan(points, i, time, previousTime, previousTime, previousBeat, previousTempo).value
            >= previousBeat
    ensures previousTime < time ==>
              BeatScan(points, i, time, previousTime, previousTime, previousBeat, previousTempo).value
              > previousBeat
    decreases |points| - i
  {
    if i < |points| {
      ScanStateNext(points, i, previousBeat, previousTempo);
      var nextTime := previousTime + (points[i].beat - previousBeat) / previousTempo * 60.0;
      if nextTime <= time {
        BeatScanSteps(points, i, time, previousTime, previousTime, previousBeat, previousTempo, nextTime);
        SecondsNonNegative(points[i].beat - previousBeat, previousTempo);
        BeatScanAdvances(points, i + 1, time, nextTime, points[i].beat, points[i].tempo);
        return;
      }
    }
    BeatScanStops(points, i, time, previousTime, previousTime, previousBeat, previousTempo);
    BeatsNonNegativeArith(time - previousTime, previousTempo);
  }

  /** With positive tempos, `time` is defined everywhere. */
  lemma TimeDefined(points: seq<TimingPoint>, offset: real, beat: real)
    requires ValidPoints(points) && PositiveTempos(points)
    ensures TimeOf(points, offset, beat).Some?
    ensures beat <= 0.0 ==> TimeOf(points, offset, beat).value <= offset
    ensures beat > 0.0 ==> TimeOf(points, offset, beat).value > offset
  {
    if beat <= 0.0 {
      SecondsNonNegative(beat, points[0].tempo);
    } else {
      TimeScanAdvances(points, 0, beat, offset, points[0].beat, points[0].tempo);
    }
  }

  /** With positive tempos, `beat` is defined everywhere, and it is positive exactly
      after the offset. */
  lemma BeatDefined(points: seq<TimingPoint>, offset: real, time: real)
    requires ValidPoints(points) && PositiveTempos(points)
    ensures BeatOf(points, offset, time).Some?
    ensures time <= offset ==> BeatOf(points, offset, time).value <= 0.0
    ensures time > offset ==> BeatOf(points, offset, time).value > 0.0
  {
    if time <= offset {
      BeatsNonNegativeArith(time - offset, points[0].tempo);
    } else {
      BeatScanAdvances(points, 0, time, offset, points[0].beat, points[0].tempo);
    }
  }

  /** Before beat 0, `time` extrapolates with the base tempo; `time(0)` is the offset. */
  lemma TimeBeforeFirstBeat(points: seq<TimingPoint>, offset: real, beat: real)
    requires ValidPoints(points) && points[0].tempo > 0.0 && beat <= 0.0
    ensures TimeOf(points, offset, beat) == Some(beat / points[0].tempo * 60.0 + offset)
    ensures beat == 0.0 ==> TimeOf(points, offset, beat) == Some(offset)
  {
  }

  /** As written, `time` divides by the base point's beat, zero, for every positive beat;
      for other beats it agrees with the corrected `time`. */
  lemma TimeAsWrittenDividesByZero(points: seq<TimingPoint>, offset: real, beat: real)
    requires ValidPoints(points)
    ensures beat > 0.0 ==> TimeAsWritten(points, offset, beat) == None
    ensures beat <= 0.0 ==> TimeAsWritten(points, offset, beat) == TimeOf(points, offset, beat)
  {
  }

  /** Running the time loop and feeding its result to the beat loop from the same state
      gives the beat back. */
  lemma {:induction false} BeatScanInvertsTimeScan(points: seq<TimingPoint>, i: nat, beat: real,
                                                   currentTime: real, previousBeat: real, previousTempo: real)
    requires ValidPoints(points) && PositiveTempos(points)
    requires ScanState(points, i, previousBeat, previousTempo) && previousBeat <= beat
    ensures TimeScan(points, i, beat, currentTime, previousBeat, previousTempo).Some?
    ensures BeatScan(points, i, TimeScan(points, i, beat, currentTime, previousBeat, previousTempo).value,
                     currentTime, currentTime, previousBeat, previousTempo) == Some(beat)
    decreases |points| - i
  {
    TimeScanAdvances(points, i, beat, currentTime, previousBeat, previousTempo);
    var t := TimeScan(points, i, beat, currentTime, previousBeat, previousTempo).value;
    if i == |points| || points[i].beat > beat {
      TimeScanStops(points, i, beat, currentTime, previousBeat, previousTempo);
      SecondsThenBeats(previousBeat, currentTime, beat, previousTempo, t);
      if i < |points| {
        SecondsMonotone(beat - previousBeat, points[i].beat - previousBeat, previousTempo);
      }
      BeatScanStops(points, i, t, currentTime, currentTime, previousBeat, previousTempo);
    } else {
      ScanStateNext(points, i, previousBeat, previousTempo);
      var nextTime := currentTime + (points[i].beat - previousBeat) / previousTempo * 60.0;
      TimeScanSteps(points, i, beat, currentTime, previousBeat, previousTempo, nextTime);
      TimeScanAdvances(points, i + 1, beat, nextTime, points[i].beat, points[i].tempo);
      BeatScanSteps(points, i, t, currentTime, currentTime, previousBeat, previousTempo, nextTime);
      BeatScanInvertsTimeScan(points, i + 1, beat, nextTime, points[i].beat, points[i].tempo);
    }
  }

  /** Running the beat loop and feeding its result to the time loop from the same state
      gives the time back. */
  lemma {:induction false} TimeScanInvertsBeatScan(points: seq<TimingPoint>, i: nat, time: real,
                                                   previousTime: real, previousBeat: real, previousTempo: real)
    requires ValidPoints(points) && PositiveTempos(points)
    requires ScanState(points, i, previousBeat, previousTempo) && previousTime <= time
    ensures BeatScan(points, i, time, previousTime, previousTime, previousBeat, previousTempo).Some?
    ensures TimeScan(points, i,
                     BeatScan(points, i, time, previousTime, previousTime, previousBeat, previousTempo).value,
                     previousTime, previousBeat, previousTempo) == Some(time)
    decreases |points| - i
  {
    BeatScanAdvances(points, i, time, previousTime, previousBeat, previousTempo);
    var b := BeatScan(points, i, time, previousTime, previousTime, previousBeat, previousTempo).value;
    if i < |points| {
      ScanStateNext(points, i, previousBeat, previousTempo);
      var nextTime := previousTime + (points[i].beat - previousBeat) / previousTempo * 60.0;
      if nextTime <= time {
        BeatScanSteps(points, i, time, previousTime, previousTime, previousBeat, previousTempo, nextTime);
        BeatScanAdvances(points, i + 1, time, nextTime, points[i].beat, points[i].tempo);
        TimeScanSteps(points, i, b, previousTime, previousBeat, previousTempo, nextTime);
        TimeScanInvertsBeatScan(points, i + 1, time, nextTime, points[i].beat, points[i].tempo);
        return;
      }
      BeatsBelowSegment(time - previousTime, points[i].beat - previousBeat, previousTempo);
    }
    BeatScanStops(points, i, time, previousTime, previousTime, previousBeat, previousTempo);
    BeatsThenSeconds(previousTime, previousBeat, time, previousTempo, b);
    TimeScanStops(points, i, b, previousTime, previousBeat, previousTempo);
  }

  /** `beat(time(b)) == b` for every beat when all tempos are positive. */
  lemma BeatOfTimeOf(points: seq<TimingPoint>, offset: real, beat: real)
    requires ValidPoints(points) && PositiveTempos(points)
    ensures TimeOf(points, offset, beat).Some?
    ensures BeatOf(points, offset, TimeOf(points, offset, beat).value) == Some(beat)
  {
    TimeDefined(points, offset, beat);
    if beat <= 0.0 {
      var t := TimeOf(points, offset, beat).value;
      TimeBeforeFirstBeat(points, offset, beat);
      BaseSecondsThenBeats(beat, points[0].tempo, offset, t);
      assert (t - offset) / 60.0 * points[0].tempo == beat;
      BeatBeforeOffset(points, offset, t);
      assert BeatOf(points, offset, t) == Some((t - offset) / 60.0 * points[0].tempo);
      assert BeatOf(points, offset, t) == Some(beat);
    } else {
      BeatScanInvertsTimeScan(points, 0, beat, offset, points[0].beat, points[0].tempo);
    }
  }

  /** `time(beat(t)) == t` for every time when all tempos are positive. */
  lemma TimeOfBeatOf(points: seq<TimingPoint>, offset: real, time: real)
    requires ValidPoints(points) && PositiveTempos(points)
    ensures BeatOf(points, offset, time).Some?
    ensures TimeOf(points, offset, BeatOf(points, offset, time).value) == Some(time)
  {
    BeatDefined(points, offset, time);
    if time <= offset {
      var b := BeatOf(points, offset, time).value;
      BeatBeforeOffset(points, offset, time);
      BaseBeatsThenSeconds(time, points[0].tempo, offset, b);
      TimeBeforeFirstBeat(points, offset, b);
    } else {
      TimeScanInvertsBeatScan(points, 0, time, offset, points[0].beat, points[0].tempo);
    }
  }

  /** The time loop is strictly increasing in its target beat. */
  lemma {:induction false} TimeScanMonotone(points: seq<TimingPoint>, i: nat, beat1: real, beat2: real,
                                            currentTime: real, previousBeat: real, previousTempo: real)
    requires ValidPoints(points) && PositiveTempos(points)
    requires ScanState(points, i, previousBeat, previousTempo) && previousBeat <= beat1 < beat2
    ensures TimeScan(points, i, beat1, currentTime, previousBeat, previousTempo).Some?
    ensures TimeScan(points, i, beat2, currentTime, previousBeat, previousTempo).Some?
    ensures TimeScan(points, i, beat1, currentTime, previousBeat, previousTempo).value
          < TimeScan(points, i, beat2, currentTime, previousBeat, previousTempo).value
    decreases |points| - i
  {
    TimeScanAdvances(points, i, beat1, currentTime, previousBeat, previousTempo);
    TimeScanAdvances(points, i, beat2, currentTime, previousBeat, previousTempo);
    if i == |points| || points[i].beat > beat2 {
      SecondsMonotone(beat1 - previousBeat, beat2 - previousBeat, previousTempo);
    } else {
      ScanStateNext(points, i, previousBeat, previousTempo);
      var nextTime := currentTime + (points[i].beat - previousBeat) / previousTempo * 60.0;
      if points[i].beat <= beat1 {
        TimeScanMonotone(points, i + 1, beat1, beat2, nextTime, points[i].beat, points[i].tempo);
      } else {
        SecondsMonotone(beat1 - previousBeat, points[i].beat - previousBeat, previousTempo);
        TimeScanAdvances(points, i + 1, beat2, nextTime, points[i].beat, points[i].tempo);
      }
    }
  }

  /** With positive tempos, `time` is strictly increasing in the beat. */
  lemma TimeMonotone(points: seq<TimingPoint>, offset: real, beat1: real, beat2: real)
    requires ValidPoints(points) && PositiveTempos(points) && beat1 < beat2
    ensures TimeOf(points, offset, beat1).Some? && TimeOf(points, offset, beat2).Some?
    ensures TimeOf(points, offset, beat1).value < TimeOf(points, offset, beat2).value
  {
    TimeDefined(points, offset, beat1);
    TimeDefined(points, offset, beat2);
    if beat2 <= 0.0 {
      SecondsMonotone(beat1, beat2, points[0].tempo);
    } else if beat1 > 0.0 {
      TimeScanMonotone(points, 0, beat1, beat2, offset, points[0].beat, points[0].tempo);
    }
  }

  /** With positive tempos, `beat` is strictly increasing in the time. */
  lemma BeatMonotone(points: seq<TimingPoint>, offset: real, time1: real, time2: real)
    requires ValidPoints(points) && PositiveTempos(points) && time1 < time2
    ensures BeatOf(points, offset, time1).Some? && BeatOf(points, offset, time2).Some?
    ensures BeatOf(points, offset, time1).value < BeatOf(points, offset, time2).value
  {
    TimeOfBeatOf(points, offset, time1);
    TimeOfBeatOf(points, offset, time2);
    var b1, b2 := BeatOf(points, offset, time1).value, BeatOf(points, offset, time2).value;
    if b2 < b1 {
      TimeMonotone(points, offset, b2, b1);
    }
  }

  // ---------------------------------------------------------------------------
  // The backward scan shared by tempo(beat) and the setter: TimingData.cpp:55-59, :72-86

  datatype ScanResult = Found(index: nat) | Exhausted | OutOfBounds

  /** Walk from index `start` down to 0 and stop at the first point whose beat is at most
      `beat`; reading index `|points|` is an out-of-bounds access. */
  function BackwardScan(points: seq<TimingPoint>, beat: real, start: int): (r: ScanResult)
    requires start <= |points|
    ensures start < |points| ==> !r.OutOfBounds?
    ensures start == |points| ==> r == OutOfBounds
    ensures r.Found? ==> r.index <= start && r.index < |points| && points[r.index].beat <= beat
    ensures r.Found? ==> forall j :: r.index < j <= start && j < |points| ==> points[j].beat > beat
    ensures r.Exhausted? ==> forall j :: 0 <= j <= start && j < |points| ==> points[j].beat > beat
    decreases start + 1
  {
    if start < 0 then Exhausted
    else if start == |points| then OutOfBounds
    else if points[start].beat > beat then BackwardScan(points, beat, start - 1)
    else Found(start)
  }

  /** Under the invariant the scan from the last point finds the segment holding `beat`
      whenever `beat` is not negative. */
  lemma ScanFindsSegment(points: seq<TimingPoint>, beat: real)
    requires ValidPoints(points) && beat >= 0.0
    ensures BackwardScan(points, beat, |points| - 1).Found?
  {
  }

  /** The setter's scan as written starts at `size()`, so its very first read is out of bounds. */
  lemma SetterScanAsWrittenOutOfBounds(points: seq<TimingPoint>, beat: real)
    ensures BackwardScan(points, beat, |points|) == OutOfBounds
  {
  }

  // ---------------------------------------------------------------------------
  // tempo(beat): TimingData.cpp:54-62

  /** The tempo in force at `beat`: that of the last point at or before it, 0 before the
      first point. */
  function TempoAt(points: seq<TimingPoint>, beat: real): real
  {
    match BackwardScan(points, beat, |points| - 1)
    case Found(k) => points[k].tempo
    case _ => 0.0
  }

  /** `beat` lies in the segment that point `k` starts. */
  predicate InSegment(points: seq<TimingPoint>, k: int, beat: real)
  {
    && 0 <= k < |points|
    && points[k].beat <= beat
    && (k + 1 < |points| ==> beat < points[k + 1].beat)
  }

  /** The tempo getter reports the tempo of the segment holding `beat`, and 0 before beat 0. */
  lemma TempoAtSegment(points: seq<TimingPoint>, k: int, beat: real)
    requires ValidPoints(points)
    ensures InSegment(points, k, beat) ==> TempoAt(points, beat) == points[k].tempo
    ensures beat < 0.0 ==> TempoAt(points, beat) == 0.0
  {
    var r := BackwardScan(points, beat, |points| - 1);
    if r.Found? {
      BeatsNonNegative(points, r.index);
      if InSegment(points, k, beat) && k + 1 < |points| {
        assert forall j :: k + 1 < j < |points| ==> points[k + 1].beat < points[j].beat;
      }
    }
  }

  /** `tempo(beat)` as written: the loop breaks where it should continue, so only the
      last point is ever looked at. */
  function TempoAsWritten(points: seq<TimingPoint>, beat: real): real
  {
    if |points| == 0 || points[|points| - 1].beat > beat then 0.0 else points[|points| - 1].tempo
  }

  /** As written, the getter is right in the last segment and reports 0 in every earlier one,
      where the intended getter reports the tempo of an earlier point. */
  lemma TempoAsWrittenOnlySeesLastPoint(points: seq<TimingPoint>, beat: real)
    requires ValidPoints(points)
    ensures points[|points| - 1].beat <= beat ==> TempoAsWritten(points, beat) == TempoAt(points, beat)
    ensures 0.0 <= beat < points[|points| - 1].beat ==>
              && TempoAsWritten(points, beat) == 0.0
              && BackwardScan(points, beat, |points| - 1).Found?
              && BackwardScan(points, beat, |points| - 1).index < |points| - 1
              && TempoAt(points, beat) == points[BackwardScan(points, beat, |points| - 1).index].tempo
  {
  }

  /** Two points, 120 then 240 BPM from beat 4: at beat 3 the written getter says 0. */
  lemma TempoAsWrittenCounterexample()
    ensures TempoAsWritten([TimingPoint(0.0, 120.0), TimingPoint(4.0, 240.0)], 3.0) == 0.0
    ensures TempoAt([TimingPoint(0.0, 120.0), TimingPoint(4.0, 240.0)], 3.0) == 120.0
  {
    var points := [TimingPoint(0.0, 120.0), TimingPoint(4.0, 240.0)];
    assert BackwardScan(points, 3.0, 0) == Found(0);
    assert BackwardScan(points, 3.0, 1) == Found(0);
  }

  // ---------------------------------------------------------------------------
  // tempo(beat, tempo): TimingData.cpp:64-89

  /** The setter hits an existing point at `beat` whose predecessor already has `tempo`:
      the segment boundary is redundant. */
  predicate Merges(points: seq<TimingPoint>, beat: real, tempo: real)
    requires ValidPoints(points)
  {
    && tempo >= 0.0
    && beat > 0.0
    && var r := BackwardScan(points, beat, |points| - 1);
    && r.Found? && r.index >= 1 && points[r.index].beat == beat
    && points[r.index - 1].tempo == tempo
  }

  /** The points after the setter, the merge erasing the matched point. */
  function SetTempoResult(points: seq<TimingPoint>, beat: real, tempo: real): seq<TimingPoint>
    requires ValidPoints(points)
  {
    if tempo < 0.0 || beat < 0.0 then points
    else if beat == 0.0 then points[0 := points[0].(tempo := tempo)]
    else match BackwardScan(points, beat, |points| - 1)
      case Found(i) =>
        if points[i].beat == beat then
          if points[i - 1].tempo == tempo then points[..i] + points[i + 1..]
          else points[i := points[i].(tempo := tempo)]
        else points[..i + 1] + [TimingPoint(beat, tempo)] + points[i + 1..]
      case _ => points + [TimingPoint(beat, tempo)]
  }

  /** The setter as written: a merge erases index 1, whichever point matched. */
  function SetTempoAsWritten(points: seq<TimingPoint>, beat: real, tempo: real): seq<TimingPoint>
    requires ValidPoints(points)
  {
    if Merges(points, beat, tempo) then points[..1] + points[2..]
    else SetTempoResult(points, beat, tempo)
  }

  /** A negative tempo or beat leaves the points untouched. */
  lemma SetTempoRejects(points: seq<TimingPoint>, beat: real, tempo: real)
    requires ValidPoints(points) && (tempo < 0.0 || beat < 0.0)
    ensures SetTempoResult(points, beat, tempo) == points
    ensures SetTempoAsWritten(points, beat, tempo) == points
  {
  }

  /** At beat 0 the setter rewrites the base tempo and nothing else; the base point stays. */
  lemma SetTempoAtBase(points: seq<TimingPoint>, tempo: real)
    requires ValidPoints(points) && tempo >= 0.0
    ensures var r := SetTempoResult(points, 0.0, tempo);
      && |r| == |points|
      && r[0] == TimingPoint(0.0, tempo)
      && r[1..] == points[1..]
  {
  }

  /** A positive beat with no point on it: exactly one point is inserted, right after the
      last point before it. */
  lemma SetTempoInserts(points: seq<TimingPoint>, beat: real, tempo: real)
    requires ValidPoints(points) && tempo >= 0.0 && beat > 0.0
    requires forall j :: 0 <= j < |points| ==> points[j].beat != beat
    ensures exists i :: 0 <= i < |points| && InSegment(points, i, beat) && points[i].beat < beat &&
              SetTempoResult(points, beat, tempo) == points[..i + 1] + [TimingPoint(beat, tempo)] + points[i + 1..]
  {
    var r := BackwardScan(points, beat, |points| - 1);
    assert r.Found?;
    var i := r.index;
    assert InSegment(points, i, beat);
  }

  /** An existing point at a positive beat whose predecessor has another tempo: only its
      tempo changes. */
  lemma SetTempoUpdates(points: seq<TimingPoint>, k: int, tempo: real)
    requires ValidPoints(points) && tempo >= 0.0 && 0 < k < |points|
    requires points[k - 1].tempo != tempo
    ensures SetTempoResult(points, points[k].beat, tempo) == points[k := TimingPoint(points[k].beat, tempo)]
    ensures SetTempoAsWritten(points, points[k].beat, tempo) == SetTempoResult(points, points[k].beat, tempo)
  {
    BeatsNonNegative(points, k);
    MatchedPoint(points, k);
  }

  lemma MatchedPoint(points: seq<TimingPoint>, k: int)
    requires ValidPoints(points) && 0 < k < |points|
    ensures BackwardScan(points, points[k].beat, |points| - 1) == Found(k)
  {
    assert forall j :: k < j < |points| ==> points[k].beat < points[j].beat;
  }

  /** An existing point at a positive beat whose predecessor has the same tempo: the
      corrected setter erases exactly that point, so no point is left at the beat. */
  lemma SetTempoMerges(points: seq<TimingPoint>, k: int, tempo: real)
    requires ValidPoints(points) && tempo >= 0.0 && 0 < k < |points|
    requires points[k - 1].tempo == tempo
    ensures Merges(points, points[k].beat, tempo)
    ensures SetTempoResult(points, points[k].beat, tempo) == points[..k] + points[k + 1..]
    ensures forall j :: 0 <= j < |points| - 1 ==> SetTempoResult(points, points[k].beat, tempo)[j].beat != points[k].beat
  {
    BeatsNonNegative(points, k);
    MatchedPoint(points, k);
    var r := points[..k] + points[k + 1..];
    forall j | 0 <= j < |points| - 1 ensures r[j].beat != points[k].beat {
      if j < k {
        assert r[j] == points[j];
      } else {
        assert r[j] == points[j + 1];
      }
    }
  }

  /** The same merge as written: it always erases index 1, so the matched point goes only
      when it is point 1; otherwise it survives and the point at index 1 is lost. */
  lemma SetTempoAsWrittenMerges(points: seq<TimingPoint>, k: int, tempo: real)
    requires ValidPoints(points) && tempo >= 0.0 && 0 < k < |points|
    requires points[k - 1].tempo == tempo
    ensures SetTempoAsWritten(points, points[k].beat, tempo) == points[..1] + points[2..]
    ensures |SetTempoAsWritten(points, points[k].beat, tempo)| == |points| - 1
    ensures (k == 1) <==> (forall j :: 0 <= j < |points| - 1 ==>
                             SetTempoAsWritten(points, points[k].beat, tempo)[j].beat != points[k].beat)
  {
    SetTempoMerges(points, k, tempo);
    var r := points[..1] + points[2..];
    if k > 1 {
      assert r[k - 1] == points[k];
    } else {
      assert r == points[..k] + points[k + 1..];
    }
  }

  /** Points 120, 240 at beat 4, 180 at beat 8: setting 240 at beat 8 merges, and the
      written setter drops the point at beat 4 instead of the one at beat 8. */
  lemma SetTempoAsWrittenCounterexample()
    ensures var points := [TimingPoint(0.0, 120.0), TimingPoint(4.0, 240.0), TimingPoint(8.0, 180.0)];
      && SetTempoAsWritten(points, 8.0, 240.0) == [TimingPoint(0.0, 120.0), TimingPoint(8.0, 180.0)]
      && SetTempoResult(points, 8.0, 240.0) == [TimingPoint(0.0, 120.0), TimingPoint(4.0, 240.0)]
      && TempoAt(SetTempoAsWritten(points, 8.0, 240.0), 8.0) == 180.0
  {
    var points := [TimingPoint(0.0, 120.0), TimingPoint(4.0, 240.0), TimingPoint(8.0, 180.0)];
    assert ValidPoints(points);
    MatchedPoint(points, 2);
    SetTempoMerges(points, 2, 240.0);
    assert points[..2] + points[3..] == [TimingPoint(0.0, 120.0), TimingPoint(4.0, 240.0)];
    assert points[..1] + points[2..] == [TimingPoint(0.0, 120.0), TimingPoint(8.0, 180.0)];
  }

  /** Erasing any point but the base keeps the invariant. */
  lemma EraseKeepsValid(points: seq<TimingPoint>, k: int)
    requires ValidPoints(points) && 0 < k < |points|
    ensures ValidPoints(points[..k] + points[k + 1..])
  {
    var r := points[..k] + points[k + 1..];
    forall i, j | 0 <= i < j < |r| ensures r[i].beat < r[j].beat {
      var i' := if i < k then i else i + 1;
      var j' := if j < k then j else j + 1;
      assert r[i] == points[i'] && r[j] == points[j'];
    }
  }

  /** Inserting a point strictly between point `i` and its successor keeps the invariant. */
  lemma InsertKeepsValid(points: seq<TimingPoint>, i: int, p: TimingPoint)
    requires ValidPoints(points) && 0 <= i < |points|
    requires points[i].beat < p.beat && (i + 1 < |points| ==> p.beat < points[i + 1].beat)
    ensures ValidPoints(points[..i + 1] + [p] + points[i + 1..])
  {
    var r := points[..i + 1] + [p] + points[i + 1..];
    forall a, b | 0 <= a < b < |r| ensures r[a].beat < r[b].beat {
      var a' := if a <= i then a else a - 1;
      var b' := if b <= i then b else b - 1;
      if a == i + 1 {
        assert r[a] == p && r[b] == points[b'];
        assert points[i + 1].beat <= points[b'].beat;
      } else if b == i + 1 {
        assert r[a] == points[a'] && r[b] == p;
        assert points[a'].beat <= points[i].beat;
      } else {
        assert r[a] == points[a'] && r[b] == points[b'] && a' < b';
      }
    }
  }

  /** Rewriting the tempo of one point keeps the invariant. */
  lemma UpdateKeepsValid(points: seq<TimingPoint>, k: int, tempo: real)
    requires ValidPoints(points) && 0 <= k < |points|
    ensures ValidPoints(points[k := points[k].(tempo := tempo)])
  {
    var r := points[k := points[k].(tempo := tempo)];
    assert forall j :: 0 <= j < |r| ==> r[j].beat == points[j].beat;
  }

  /** The setter keeps the invariant. */
  lemma SetTempoKeepsValid(points: seq<TimingPoint>, beat: real, tempo: real)
    requires ValidPoints(points)
    ensures ValidPoints(SetTempoResult(points, beat, tempo))
  {
    if tempo < 0.0 || beat < 0.0 {
    } else if beat == 0.0 {
      UpdateKeepsValid(points, 0, tempo);
    } else {
      ScanFindsSegment(points, beat);
      var i := BackwardScan(points, beat, |points| - 1).index;
      if points[i].beat == beat {
        if points[i - 1].tempo == tempo {
          EraseKeepsValid(points, i);
        } else {
          UpdateKeepsValid(points, i, tempo);
        }
      } else {
        InsertKeepsValid(points, i, TimingPoint(beat, tempo));
      }
    }
  }

  /** The setter keeps every tempo positive unless it is handed a zero tempo it accepts;
      with positive tempos the conversion lemmas above keep holding after every edit. */
  lemma SetTempoKeepsPositive(points: seq<TimingPoint>, beat: real, tempo: real)
    requires ValidPoints(points) && PositiveTempos(points)
    requires tempo > 0.0 || tempo < 0.0 || beat < 0.0
    ensures PositiveTempos(SetTempoResult(points, beat, tempo))
  {
    var r := SetTempoResult(points, beat, tempo);
    if tempo < 0.0 || beat < 0.0 {
    } else if beat == 0.0 {
      assert forall j :: 0 < j < |r| ==> r[j] == points[j];
    } else {
      ScanFindsSegment(points, beat);
      var i := BackwardScan(points, beat, |points| - 1).index;
      if points[i].beat == beat && points[i - 1].tempo == tempo {
        forall j | 0 <= j < |r| ensures r[j].tempo > 0.0 {
          assert r[j] == if j < i then points[j] else points[j + 1];
        }
      } else if points[i].beat == beat {
        assert forall j :: 0 <= j < |r| && j != i ==> r[j] == points[j];
      } else {
        forall j | 0 <= j < |r| ensures r[j].tempo > 0.0 {
          assert r[j] == if j <= i then points[j] else if j == i + 1 then TimingPoint(beat, tempo) else points[j - 1];
        }
      }
    }
  }

  /** The setter as written keeps the invariant too: erasing index 1 leaves the
      remaining beats ascending, though at the wrong place. */
  lemma SetTempoAsWrittenKeepsValid(points: seq<TimingPoint>, beat: real, tempo: real)
    requires ValidPoints(points)
    ensures ValidPoints(SetTempoAsWritten(points, beat, tempo))
  {
    if Merges(points, beat, tempo) {
      EraseKeepsValid(points, 1);
    } else {
      SetTempoKeepsValid(points, beat, tempo);
    }
  }

  /** After a valid edit the getter reports the new tempo at the edited beat. */
  lemma SetTempoThenTempoAt(points: seq<TimingPoint>, beat: real, tempo: real)
    requires ValidPoints(points) && tempo >= 0.0 && beat >= 0.0
    ensures TempoAt(SetTempoResult(points, beat, tempo), beat) == tempo
  {
    SetTempoKeepsValid(points, beat, tempo);
    var r := SetTempoResult(points, beat, tempo);
    if beat == 0.0 {
      TempoAtSegment(r, 0, beat);
    } else {
      var s := BackwardScan(points, beat, |points| - 1);
      assert s.Found?;
      var i := s.index;
      if points[i].beat == beat {
        if points[i - 1].tempo == tempo {
          assert r == points[..i] + points[i + 1..];
          assert r[i - 1] == points[i - 1];
          if i < |points| - 1 {
            assert r[i] == points[i + 1];
          }
          TempoAtSegment(r, i - 1, beat);
        } else {
          TempoAtSegment(r, i, beat);
        }
      } else {
        assert r[i + 1] == TimingPoint(beat, tempo);
        if i + 2 < |r| {
          assert r[i + 2] == points[i + 1];
        }
        TempoAtSegment(r, i + 1, beat);
      }
    }
  }

  /** Before the edited beat every tempo is as it was. */
  lemma SetTempoKeepsEarlierTempos(points: seq<TimingPoint>, beat: real, tempo: real, before: real)
    requires ValidPoints(points) && before < beat
    ensures TempoAt(SetTempoResult(points, beat, tempo), before) == TempoAt(points, before)
  {
    SetTempoKeepsValid(points, beat, tempo);
    var r := SetTempoResult(points, beat, tempo);
    if before < 0.0 {
      TempoAtSegment(points, 0, before);
      TempoAtSegment(r, 0, before);
    } else if tempo >= 0.0 && beat > 0.0 {
      var i := BackwardScan(points, beat, |points| - 1).index;
      var e := BackwardScan(points, before, |points| - 1);
      assert e.Found?;
      var k := e.index;
      assert InSegment(points, k, before);
      TempoAtSegment(points, k, before);
      assert k <= i;
      if points[i].beat == beat {
        assert k < i;
        if points[i - 1].tempo == tempo {
          assert r == points[..i] + points[i + 1..];
          assert r[k] == points[k];
          if k + 1 < |r| {
            assert r[k + 1] == points[k + 1] || r[k + 1] == points[k + 2];
          }
        } else {
          assert r == points[i := TimingPoint(beat, tempo)];
        }
      } else {
        assert r == points[..i + 1] + [TimingPoint(beat, tempo)] + points[i + 1..];
        assert r[k] == points[k];
        assert r[k + 1] == if k < i then points[k + 1] else TimingPoint(beat, tempo);
      }
      TempoAtSegment(r, k, before);
    }
  }

  /** The setter merges only on an exact hit: a new point whose tempo equals the one in
      force before it is inserted all the same, so equal adjacent tempos can occur. */
  lemma SetTempoInsertsRedundantPoint()
    ensures var points := [TimingPoint(0.0, 120.0)];
      && SetTempoResult(points, 4.0, 120.0) == [TimingPoint(0.0, 120.0), TimingPoint(4.0, 120.0)]
      && TempoAt(points, 4.0) == 120.0
  {
    var points := [TimingPoint(0.0, 120.0)];
    assert BackwardScan(points, 4.0, 0) == Found(0);
    assert points[..1] + [TimingPoint(4.0, 120.0)] + points[1..]
        == [TimingPoint(0.0, 120.0), TimingPoint(4.0, 120.0)];
  }

  /** An editing session: 240 BPM from beat 4 over a 120 BPM base, then back to 120,
      which merges the point away. */
  lemma TempoScenario()
    ensures var once := SetTempoResult([TimingPoint(0.0, 120.0)], 4.0, 240.0);
      && once == [TimingPoint(0.0, 120.0), TimingPoint(4.0, 240.0)]
      && TempoAt(once, 3.0) == 120.0 && TempoAt(once, 4.0) == 240.0 && TempoAt(once, 5.0) == 240.0
      && SetTempoResult(once, 4.0, 120.0) == [TimingPoint(0.0, 120.0)]
  {
    var base := [TimingPoint(0.0, 120.0)];
    assert BackwardScan(base, 4.0, 0) == Found(0);
    var once := [TimingPoint(0.0, 120.0), TimingPoint(4.0, 240.0)];
    assert base[..1] + [TimingPoint(4.0, 240.0)] + base[1..] == once;
    assert ValidPoints(once);
    MatchedPoint(once, 1);
    assert once[..1] + once[2..] == base;
  }

  // ---------------------------------------------------------------------------
  // The class

  /** The timing map of a difficulty: tempo points and the time of beat 0. */
  class TimingData {
    var points: seq<TimingPoint>
    var offset: real

    ghost predicate Valid()
      reads this
    {
      ValidPoints(points)
    }

    constructor (offset: real, baseTempo: real)
      ensures Valid()
      ensures points == [TimingPoint(0.0, baseTempo)] && this.offset == offset
      ensures baseTempo > 0.0 ==> PositiveTempos(points)
    {
      points := [TimingPoint(0.0, baseTempo)];
      this.offset := offset;
    }

    /** The beat sounding at wall-clock `time`. */
    method Beat(time: real) returns (r: Option<real>)
      requires Valid()
      ensures r == BeatOf(points, offset, time)
    {
      if time <= offset {
        return Some((time - offset) / 60.0 * points[0].tempo);
      }
      var previousTime := offset;
      var currentTime := offset;
      var previousBeat := points[0].beat;
      var previousTempo := points[0].tempo;
      var i := 0;
      while i < |points|
        invariant 0 <= i <= |points|
        invariant BeatScan(points, i, time, previousTime, currentTime, previousBeat, previousTempo)
                  == BeatOf(points, offset, time)
      {
        if previousTempo == 0.0 {
          return None;
        }
        currentTime := currentTime + (points[i].beat - previousBeat) / previousTempo * 60.0;
        if currentTime > time {
          break;
        }
        previousBeat := points[i].beat;
        previousTempo := points[i].tempo;
        previousTime := currentTime;
        i := i + 1;
      }
      return Some(previousBeat + (time - previousTime) / 60.0 * previousTempo);
    }

    /** The wall-clock time of `beat`, the loop seeded with the base tempo. */
    method Time(beat: real) returns (r: Option<real>)
      requires Valid()
      ensures r == TimeOf(points, offset, beat)
    {
      if beat <= 0.0 {
        if points[0].tempo == 0.0 {
          return None;
        }
        return Some(beat / points[0].tempo * 60.0 + offset);
      }
      var currentTime := offset;
      var previousBeat := points[0].beat;
      var previousTempo := points[0].tempo;
      var i := 0;
      while i < |points|
        invariant 0 <= i <= |points|
        invariant TimeScan(points, i, beat, currentTime, previousBeat, previousTempo)
                  == TimeOf(points, offset, beat)
      {
        if points[i].beat > beat {
          break;
        }
        if previousTempo == 0.0 {
          return None;
        }
        currentTime := currentTime + (points[i].beat - previousBeat) / previousTempo * 60.0;
        previousBeat := points[i].beat;
        previousTempo := points[i].tempo;
        i := i + 1;
      }
      if previousTempo == 0.0 {
        return None;
      }
      return Some(currentTime + (beat - previousBeat) / previousTempo * 60.0);
    }

    /** The tempo in force at `beat`, scanning from the last point down. */
    method Tempo(beat: real) returns (t: real)
      requires Valid()
      ensures t == TempoAt(points, beat)
    {
      var i := |points|;
      while i > 0
        invariant 0 <= i <= |points|
        invariant BackwardScan(points, beat, i - 1) == BackwardScan(points, beat, |points| - 1)
      {
        i := i - 1;
        if points[i].beat > beat {
          continue;
        }
        return points[i].tempo;
      }
      return 0.0;
    }

    /** Set the tempo from `beat` on: reject, rewrite the base, update, merge or insert. */
    method SetTempo(beat: real, tempo: real)
      requires Valid()
      modifies this
      ensures Valid()
      ensures points == SetTempoResult(old(points), beat, tempo)
      ensures offset == old(offset)
      ensures PositiveTempos(old(points)) && (tempo > 0.0 || tempo < 0.0 || beat < 0.0) ==> PositiveTempos(points)
    {
      SetTempoKeepsValid(points, beat, tempo);
      if PositiveTempos(points) && (tempo > 0.0 || tempo < 0.0 || beat < 0.0) {
        SetTempoKeepsPositive(points, beat, tempo);
      }
      if tempo < 0.0 {
        return;
      }
      if beat < 0.0 {
        return;
      }
      if beat == 0.0 {
        points := points[0 := points[0].(tempo := tempo)];
        return;
      }
      var ps := points;
      var i := |ps| - 1;
      while ps[i].beat > beat
        invariant 0 <= i < |ps|
        invariant BackwardScan(ps, beat, i) == BackwardScan(ps, beat, |ps| - 1)
        decreases i
      {
        i := i - 1;
      }
      var tp := ps[i];
      if tp.beat == beat {
        var previous := ps[i - 1];
        if previous.tempo == tempo {
          points := ps[..i] + ps[i + 1..];
        } else {
          points := ps[i := tp.(tempo := tempo)];
        }
        return;
      }
      points := ps[..i + 1] + [TimingPoint(beat, tempo)] + ps[i + 1..];
    }
  }
}
