/**
  The baseline tracker and classifier: updateRead and updateNoise of
  CapacitivePin.cpp as functions from the tracker state before one sample
  cycle to the tracker state after it, and what the code guarantees about them.
 */
module Classifier {
  import opened Ints
  import opened Settings

  /** state_t, with the codes getState reports. */
  datatype State = Idle | BaselineChanged | Rising | Falling | Proximity | Touch
  {
    function Code(): Byte
    {
      match this
      case Idle => 0
      case BaselineChanged => 1
      case Rising => 2
      case Falling => 3
      case Proximity => 4
      case Touch => 5
    }
  }

  /** mode_t: Setting during calibration, Running afterwards. */
  datatype Mode = Running | Setting
  {
    function Code(): Byte
    {
      match this
      case Running => 0
      case Setting => 1
    }
  }

  /** The codes are those of the enumerations, and distinct states have distinct codes. */
  lemma Codes()
    ensures Idle.Code() == 0 && BaselineChanged.Code() == 1 && Rising.Code() == 2
    ensures Falling.Code() == 3 && Proximity.Code() == 4 && Touch.Code() == 5
    ensures Running.Code() == 0 && Setting.Code() == 1
    ensures forall s: State, s': State :: s.Code() == s'.Code() ==> s == s'
  {
  }

  /** The fields updateRead and updateNoise change; noiseCount is _noiseInstantCount, shared by both directions. */
  datatype Tracker = Tracker(state: State, previousState: State, baseline: Byte, noiseCount: Byte)

  /**
    delta = _data - _baseline stored into an int16_t. While the data value
    fits in int16_t it is the plain difference; above that it wraps.
   */
  function Delta(data: Word, baseline: Byte): (d: int)
    ensures -0x8000 <= d < 0x8000
    ensures d == data - baseline || d == data - baseline - 0x1_0000
    ensures data < 0x8000 ==> d == data - baseline
  {
    var x := data - baseline;
    if x < 0x8000 then x else x - 0x1_0000
  }

  /**
    absDelta = abs(delta) stored into an int16_t: the magnitude, except
    that -32768 has no positive counterpart and stays -32768.
   */
  function AbsDelta(d: int): (m: int)
    requires -0x8000 <= d < 0x8000
    ensures d != -0x8000 ==> m == (if d < 0 then -d else d)
    ensures d == -0x8000 ==> m == -0x8000
  {
    if d > 0 then d else if d == -0x8000 then d else -d
  }

  /** Delta and AbsDelta are the int16_t casts of the difference and of its magnitude. */
  lemma DeltaIsInt16(data: Word, baseline: Byte)
    ensures Delta(data, baseline) == Int16(data - baseline)
    ensures var d := Delta(data, baseline); AbsDelta(d) == Int16(if d > 0 then d else -d)
  {
  }

  /** updateNoise, called once the state has been set to Rising or Falling. */
  function NoiseStep(c: Config, t: Tracker): Tracker
  {
    if t.state == Rising then
      if t.previousState != t.state then t.(noiseCount := 0)
      else if (t.noiseCount + 1) % 0x100 >= c.noiseCountRising then
        t.(noiseCount := 0, baseline := (t.baseline + c.noiseIncrement) % 0x100, state := Idle)
      else t.(noiseCount := (t.noiseCount + 1) % 0x100)
    else if t.state == Falling then
      if t.previousState != t.state then t.(noiseCount := 0)
      else if (t.noiseCount + 1) % 0x100 >= c.noiseCountFalling then
        t.(noiseCount := 0, baseline := (t.baseline - c.noiseIncrement) % 0x100, state := Idle)
      else t.(noiseCount := (t.noiseCount + 1) % 0x100)
    else t
  }

  /** The first if-chain of updateRead (first match wins), with its calls of updateNoise. */
  function FirstPass(c: Config, t: Tracker, delta: int, mode: Mode): Tracker
    requires -0x8000 <= delta < 0x8000
  {
    if AbsDelta(delta) <= c.maxDelta then t.(baseline := (t.baseline + delta) % 0x100, state := Idle)
    else if delta > Int8(c.touchThreshold) && mode == Running then t.(state := Touch)
    else if delta > Int8(c.senseThreshold) && mode == Running then t.(state := Proximity)
    else if delta > 0 then NoiseStep(c, t.(state := Rising))
    else if delta < 0 then NoiseStep(c, t.(state := Falling))
    else t
  }

  /** The second if-chain of updateRead: release and re-entry tests on Touch and Proximity. */
  function Hysteresis(c: Config, s: State, delta: int): State
  {
    if s == Touch then
      if delta < Int8(c.touchReleaseThreshold) then
        if delta > Int8(c.senseReleaseThreshold) then Proximity else Idle
      else Touch
    else if s == Proximity then
      if delta > Int8(c.touchThreshold) then Touch
      else if delta < Int8(c.senseReleaseThreshold) then Idle
      else Proximity
    else s
  }

  /** updateRead: one classification of the data value against the baseline. */
  function ReadStep(c: Config, t: Tracker, data: Word, mode: Mode): Tracker
  {
    var delta := Delta(data, t.baseline);
    var t1 := FirstPass(c, t.(previousState := t.state), delta, mode);
    t1.(state := Hysteresis(c, t1.state, delta))
  }

  /** The edge queries: entered this cycle, left this cycle. */
  predicate JustEntered(t: Tracker, s: State)
  {
    t.state == s && t.previousState != s
  }

  predicate JustLeft(t: Tracker, s: State)
  {
    t.state != s && t.previousState == s
  }

  // ---------------------------------------------------------------------------
  // What one classification guarantees

  /**
    The previous state is the state before the call; the result is never
    BaselineChanged; in Setting mode it is never Touch or Proximity.
   */
  lemma ReadStepOutcome(c: Config, t: Tracker, data: Word, mode: Mode)
    ensures ReadStep(c, t, data, mode).previousState == t.state
    ensures ReadStep(c, t, data, mode).state in {Idle, Rising, Falling, Proximity, Touch}
    ensures mode == Setting ==> ReadStep(c, t, data, mode).state in {Idle, Rising, Falling}
  {
  }

  /** Edge detection after one classification compares the new state with the one before the call. */
  lemma EdgesAfterStep(c: Config, t: Tracker, data: Word, mode: Mode, s: State)
    ensures JustEntered(ReadStep(c, t, data, mode), s) <==> ReadStep(c, t, data, mode).state == s && t.state != s
    ensures JustLeft(ReadStep(c, t, data, mode), s) <==> ReadStep(c, t, data, mode).state != s && t.state == s
  {
    ReadStepOutcome(c, t, data, mode);
  }

  /**
    Dead band: when the magnitude test passes, the state becomes Idle, the
    baseline takes the data value modulo 256, and the noise counter is left alone.
    While data < 0x8000 the test is -maxDelta <= data - baseline <= maxDelta.
   */
  lemma DeadBandPullIn(c: Config, t: Tracker, data: Word, mode: Mode)
    requires AbsDelta(Delta(data, t.baseline)) <= c.maxDelta
    ensures ReadStep(c, t, data, mode) == Tracker(Idle, t.state, data % 0x100, t.noiseCount)
  {
    var delta := Delta(data, t.baseline);
    assert (t.baseline + delta) % 0x100 == data % 0x100;
  }

  /**
    The hysteresis pass never sees the previous state: the sample is Touch
    exactly when it is outside the dead band, the sensor is Running, and delta
    exceeds the int8 touch threshold without falling below the int8 release threshold.
   */
  lemma TouchIff(c: Config, t: Tracker, data: Word, mode: Mode)
    ensures var delta := Delta(data, t.baseline);
      ReadStep(c, t, data, mode).state == Touch <==>
        AbsDelta(delta) > c.maxDelta && mode == Running &&
        delta > Int8(c.touchThreshold) && delta >= Int8(c.touchReleaseThreshold)
  {
  }

  /** The same characterisation for Proximity: a downgraded Touch, or a sense-level sample not below the sense release. */
  lemma ProximityIff(c: Config, t: Tracker, data: Word, mode: Mode)
    ensures var delta := Delta(data, t.baseline);
      ReadStep(c, t, data, mode).state == Proximity <==>
        AbsDelta(delta) > c.maxDelta && mode == Running &&
        ((delta > Int8(c.touchThreshold) && delta < Int8(c.touchReleaseThreshold) && delta > Int8(c.senseReleaseThreshold)) ||
         (delta <= Int8(c.touchThreshold) && delta > Int8(c.senseThreshold) && delta >= Int8(c.senseReleaseThreshold)))
  {
  }

  /** With the sense release not above the sense threshold plus one (7 and 10 are), a Proximity result is never changed. */
  lemma HysteresisKeepsProximity(c: Config, t: Tracker, delta: int, mode: Mode)
    requires -0x8000 <= delta < 0x8000
    requires Int8(c.senseReleaseThreshold) <= Int8(c.senseThreshold) + 1
    requires FirstPass(c, t, delta, mode).state == Proximity
    ensures Hysteresis(c, Proximity, delta) == Proximity
  {
  }

  /**
    A Touch result is changed exactly when delta is below the int8 release
    threshold, which needs that threshold to exceed the int8 touch threshold.
   */
  lemma HysteresisOnTouch(c: Config, t: Tracker, delta: int, mode: Mode)
    requires -0x8000 <= delta < 0x8000
    requires FirstPass(c, t, delta, mode).state == Touch
    ensures Hysteresis(c, Touch, delta) != Touch <==> delta < Int8(c.touchReleaseThreshold)
    ensures Hysteresis(c, Touch, delta) != Touch ==> Int8(c.touchReleaseThreshold) > Int8(c.touchThreshold)
  {
  }

  /** Under the constructor's thresholds (100, 80, 10, 7) the hysteresis pass changes nothing. */
  lemma HysteresisInertUnderDefaults(c: Config, t: Tracker, delta: int, mode: Mode)
    requires -0x8000 <= delta < 0x8000
    requires c.touchThreshold == 100 && c.touchReleaseThreshold == 80
    requires c.senseThreshold == 10 && c.senseReleaseThreshold == 7
    ensures Hysteresis(c, FirstPass(c, t, delta, mode).state, delta) == FirstPass(c, t, delta, mode).state
  {
    var s := FirstPass(c, t, delta, mode).state;
    if s == Touch {
      HysteresisOnTouch(c, t, delta, mode);
    } else if s == Proximity {
      HysteresisKeepsProximity(c, t, delta, mode);
    }
  }

  /**
    Release from Touch is not delayed: under the default thresholds a
    delta between the release threshold (80) and the touch threshold (100)
    after a Touch cycle gives Proximity, not Touch.
   */
  lemma NoDelayedRelease(c: Config, t: Tracker, data: Word)
    requires c.touchThreshold == 100 && c.touchReleaseThreshold == 80
    requires c.senseThreshold == 10 && c.senseReleaseThreshold == 7
    requires c.maxDelta < 80
    requires t.state == Touch
    requires data < 0x8000 && 80 <= data - t.baseline <= 100
    ensures ReadStep(c, t, data, Running).state == Proximity
    ensures JustLeft(ReadStep(c, t, data, Running), Touch)
  {
    ProximityIff(c, t, data, Running);
    ReadStepOutcome(c, t, data, Running);
  }

  /**
    The int8 cast turns a touch threshold of 128 or more negative: with
    touch threshold 200 and release 180, a data value 10 below the baseline
    is reported as Touch.
   */
  lemma FallingSignalReadAsTouch(c: Config, t: Tracker)
    requires c.touchThreshold == 200 && c.touchReleaseThreshold == 180 && c.maxDelta == 1
    requires t.baseline == 50
    ensures ReadStep(c, t, 40, Running).state == Touch
  {
    TouchIff(c, t, 40, Running);
  }

  /**
    A data value below the baseline is read as Touch only when both the
    touch and the touch release thresholds cast to negative int8 values, and
    delta is not below the release one.
   */
  lemma FallingTouchNeedsNegativeThresholds(c: Config, t: Tracker, data: Word, mode: Mode)
    requires Delta(data, t.baseline) < 0
    requires ReadStep(c, t, data, mode).state == Touch
    ensures Int8(c.touchThreshold) < 0 && Int8(c.touchReleaseThreshold) <= Delta(data, t.baseline) < 0
  {
    TouchIff(c, t, data, mode);
  }

  /** A sample classified Touch or Proximity never moves the baseline nor the noise counter. */
  lemma OccupiedHoldsBaseline(c: Config, t: Tracker, data: Word, mode: Mode)
    requires ReadStep(c, t, data, mode).state in {Touch, Proximity}
    ensures ReadStep(c, t, data, mode).baseline == t.baseline
    ensures ReadStep(c, t, data, mode).noiseCount == t.noiseCount
  {
  }

  // ---------------------------------------------------------------------------
  // Noise debounce

  /** The debounce count of a direction. */
  function NoiseLimit(c: Config, dir: State): Byte
  {
    if dir == Rising then c.noiseCountRising else c.noiseCountFalling
  }

  /** The baseline after one nudge in a direction, modulo 256. */
  function Nudged(c: Config, baseline: Byte, dir: State): Byte
  {
    if dir == Rising then (baseline + c.noiseIncrement) % 0x100 else (baseline - c.noiseIncrement) % 0x100
  }

  /** delta falls through the first chain to updateNoise in direction dir. */
  predicate Drifting(c: Config, delta: int, mode: Mode, dir: State)
    requires -0x8000 <= delta < 0x8000
  {
    && AbsDelta(delta) > c.maxDelta
    && (mode == Setting || (delta <= Int8(c.touchThreshold) && delta <= Int8(c.senseThreshold)))
    && ((dir == Rising && delta > 0) || (dir == Falling && delta < 0))
  }

  /**
    One drifting cycle: a change of direction only resets the shared counter;
    a repeated direction increments it and, on reaching that direction's count,
    nudges the baseline by the noise increment, resets the counter and reports Idle.
    Afterwards the counter is 0 or below the direction's count.
   */
  lemma DriftStep(c: Config, t: Tracker, data: Word, mode: Mode, dir: State)
    requires Drifting(c, Delta(data, t.baseline), mode, dir)
    ensures var r := ReadStep(c, t, data, mode);
      && (t.state != dir ==> r == Tracker(dir, t.state, t.baseline, 0))
      && (t.state == dir && (t.noiseCount + 1) % 0x100 >= NoiseLimit(c, dir) ==>
            r == Tracker(Idle, dir, Nudged(c, t.baseline, dir), 0))
      && (t.state == dir && (t.noiseCount + 1) % 0x100 < NoiseLimit(c, dir) ==>
            r == Tracker(dir, dir, t.baseline, (t.noiseCount + 1) % 0x100))
      && (r.noiseCount == 0 || r.noiseCount < NoiseLimit(c, dir))
  {
  }

  /** Consecutive classifications, one per data value of `datas`. */
  ghost function Run(c: Config, t: Tracker, datas: seq<Word>, mode: Mode): Tracker
  {
    if datas == [] then t else ReadStep(c, Run(c, t, datas[..|datas| - 1], mode), datas[|datas| - 1], mode)
  }

  /**
    Starting from any other state, the first Coerce(limit) cycles (one
    resetting cycle, then the count, at least one) of a
    drift in one direction leave the baseline alone, whatever the data values
    as long as each of them drifts that way: the state is dir and the shared
    counter has reached one less than the number of cycles.
   */
  lemma {:induction false} DebounceCounts(c: Config, t: Tracker, datas: seq<Word>, mode: Mode, dir: State)
    requires forall j :: 0 <= j < |datas| ==> Drifting(c, Delta(datas[j], t.baseline), mode, dir)
    requires t.state != dir
    requires 1 <= |datas| <= Coerce(NoiseLimit(c, dir))
    ensures Run(c, t, datas, mode) == Tracker(dir, if |datas| == 1 then t.state else dir, t.baseline, |datas| - 1)
  {
    var k := |datas|;
    var p := Run(c, t, datas[..k - 1], mode);
    if k == 1 {
      assert p == t;
      assert ReadStep(c, t, datas[0], mode) == Tracker(dir, t.state, t.baseline, 0) by {
        DriftStep(c, t, datas[0], mode, dir);
      }
    } else {
      assert p == Tracker(dir, if k == 2 then t.state else dir, t.baseline, k - 2) by {
        DebounceCounts(c, t, datas[..k - 1], mode, dir);
      }
      assert ReadStep(c, p, datas[k - 1], mode) == Tracker(dir, dir, t.baseline, k - 1) by {
        assert (p.noiseCount + 1) % 0x100 == k - 1 < NoiseLimit(c, dir);
        DriftStep(c, p, datas[k - 1], mode, dir);
      }
    }
  }

  /**
    The nudge comes on the (Coerce(limit) + 1)-th consecutive drifting
    cycle: the baseline moves by exactly the noise increment (modulo 256), the
    counter is reset and the state collapses to Idle.
   */
  lemma DebounceFires(c: Config, t: Tracker, datas: seq<Word>, mode: Mode, dir: State)
    requires forall j :: 0 <= j < |datas| ==> Drifting(c, Delta(datas[j], t.baseline), mode, dir)
    requires t.state != dir
    requires |datas| == Coerce(NoiseLimit(c, dir)) + 1
    ensures Run(c, t, datas, mode) == Tracker(Idle, dir, Nudged(c, t.baseline, dir), 0)
  {
    var n := |datas| - 1;
    DebounceCounts(c, t, datas[..n], mode, dir);
    var p := Run(c, t, datas[..n], mode);
    DriftStep(c, p, datas[n], mode, dir);
  }
}
