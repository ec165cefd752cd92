/**
  One sensor as a value: every field CapacitivePin.h declares (the pins
  aside), the time gate and the sample cycle of update(), and the calibration
  arithmetic of begin(). The class in capacitive_pin.dfy is proved against these.
 */
module Engine {
  import opened Ints
  import opened Settings
  import opened Classifier
  import opened Filter

  /** The number of sampled cycles whose data values seed the baseline. */
  const CalibrationReads := 511

  datatype Sensor = Sensor(
    cfg: Config,
    lastSampleTime: Word,   // the low 16 bits of the clock at the last sample cycle
    data: Word,             // the filtered data value
    window: Window,         // _raws, _readIndex, _runningAverage
    timeout: Word,          // tick limit of one charge cycle
    tracker: Tracker,       // _state, _previousState, _baseline, _noiseInstantCount
    mode: Mode
  )

  /**
    What every reachable sensor satisfies: no division by zero, a write
    index inside the 16 slots, an exact running sum, and no BaselineChanged
    state (nothing ever assigns it).
   */
  predicate WellFormed(s: Sensor)
  {
    && 1 <= s.cfg.samples
    && 1 <= s.cfg.numReads <= Slots
    && WindowValid(s.window)
    && s.tracker.state != BaselineChanged
    && s.tracker.previousState != BaselineChanged
  }

  /**
    The sensor the constructor leaves: the default configuration, the clock
    reading at construction, Setting mode, and zero in the fields the
    constructor does not initialise (as for an object in static storage).
   */
  function Initial(now: Long): (s: Sensor)
    ensures WellFormed(s)
    ensures s.cfg == Defaults && s.mode == Setting && TailClear(s.window, s.cfg.numReads)
  {
    var raws := seq(Slots, _ => 0);
    SumOfBlock(raws, 0, 0);
    Sensor(Defaults, now % 0x1_0000, 0, Window(raws, 0, 0), 0, Tracker(Idle, Idle, 0, 0), Setting)
  }

  // ---------------------------------------------------------------------------
  // The time gate

  /** `millis() - _lastSampleTime` in 32-bit unsigned arithmetic. */
  function Elapsed(now: Long, last: Word): Long
  {
    (now - last) % 0x1_0000_0000
  }

  /** update() takes a sample only when strictly more than the interval has elapsed. */
  predicate GateOpen(s: Sensor, now: Long)
  {
    Elapsed(now, s.lastSampleTime) > s.cfg.sampleInterval
  }

  /** While the clock is below 65536 and not behind the last sample, the gate compares the plain difference. */
  lemma GateBefore16Bits(s: Sensor, now: Long)
    requires s.lastSampleTime <= now < 0x1_0000
    ensures GateOpen(s, now) <==> now - s.lastSampleTime > s.cfg.sampleInterval
  {
  }

  /** The comparison is strict: exactly one interval after the last sample, the gate is still closed. */
  lemma GateStrict(s: Sensor, now: Long)
    requires now == s.lastSampleTime + s.cfg.sampleInterval
    ensures !GateOpen(s, now)
  {
  }

  // ---------------------------------------------------------------------------
  // One sample cycle

  /** `_timeout = _baseline + 2 * _touchThreshold` in 16 bits. */
  function Timeout(s: Sensor): (t: Word)
    ensures s.cfg.touchThreshold < 0x100 ==> t == s.tracker.baseline + 2 * s.cfg.touchThreshold <= 765
  {
    (s.tracker.baseline + 2 * s.cfg.touchThreshold) % 0x1_0000
  }

  /**
    The sampling half of update() once the gate is open: recompute the
    timeout, record the clock, take one raw reading (updateSample), push it
    into the circular buffer and divide the running sum into the data value.
    Configuration, classification and mode are untouched.
   */
  function TakeSample(s: Sensor, now: Long, ticks: seq<nat>): (r: Sensor)
    requires WellFormed(s) && |ticks| == s.cfg.samples
    ensures WellFormed(r)
    ensures r.cfg == s.cfg && r.mode == s.mode && r.tracker == s.tracker
    ensures r.lastSampleTime == now % 0x1_0000 && r.timeout == Timeout(s)
    ensures r.window == Push(s.window, s.cfg.numReads, SampleAverage(ticks, Timeout(s), s.cfg.samples))
    ensures r.data == DataOf(r.window, s.cfg.numReads)
  {
    var timeout := Timeout(s);
    var window := Push(s.window, s.cfg.numReads, SampleAverage(ticks, timeout, s.cfg.samples));
    s.(lastSampleTime := now % 0x1_0000, timeout := timeout, window := window,
       data := DataOf(window, s.cfg.numReads))
  }

  /**
    The body of update() once the gate is open: take a sample, then classify
    the new data value (updateRead). Configuration and mode are untouched.
   */
  function SampleCycle(s: Sensor, now: Long, ticks: seq<nat>): (r: Sensor)
    requires WellFormed(s) && |ticks| == s.cfg.samples
    ensures WellFormed(r)
    ensures r.cfg == s.cfg && r.mode == s.mode
    ensures r.lastSampleTime == now % 0x1_0000
    ensures r.tracker.previousState == s.tracker.state
    ensures s.mode == Setting ==> r.tracker.state in {Idle, Rising, Falling}
  {
    var p := TakeSample(s, now, ticks);
    ReadStepOutcome(p.cfg, p.tracker, p.data, p.mode);
    p.(tracker := ReadStep(p.cfg, p.tracker, p.data, p.mode))
  }

  /** update(): a sample cycle when the gate is open, no change at all otherwise. */
  function Step(s: Sensor, now: Long, ticks: seq<nat>): (r: Sensor)
    requires WellFormed(s) && |ticks| == s.cfg.samples
    ensures WellFormed(r)
    ensures !GateOpen(s, now) ==> r == s
  {
    if GateOpen(s, now) then SampleCycle(s, now, ticks) else s
  }

  /**
    A sample cycle writes only the slot at the old write index, keeps the
    running sum equal to the sum of all sixteen slots, and keeps the write index
    below the read count. With the index below the read count and the slots
    beyond it clear (always so with sixteen reads), the data value is the floor
    of the mean of the live slots and the tail stays clear.
   */
  lemma SampleCycleFilter(s: Sensor, now: Long, ticks: seq<nat>)
    requires WellFormed(s) && |ticks| == s.cfg.samples
    ensures var r := SampleCycle(s, now, ticks);
      && r.window.raws[s.window.readIndex] == SampleAverage(ticks, Timeout(s), s.cfg.samples)
      && (forall j :: 0 <= j < Slots && j != s.window.readIndex ==> r.window.raws[j] == s.window.raws[j])
      && r.window.runningAverage == Sum(r.window.raws)
      && r.window.readIndex < s.cfg.numReads
      && r.lastSampleTime == now % 0x1_0000 && r.timeout == Timeout(s)
    ensures var r := SampleCycle(s, now, ticks);
      (s.window.readIndex < s.cfg.numReads && TailClear(s.window, s.cfg.numReads)) || s.cfg.numReads == Slots ==>
        && r.data == Sum(r.window.raws[..s.cfg.numReads]) / s.cfg.numReads
        && s.cfg.numReads * r.data <= r.window.runningAverage < s.cfg.numReads * r.data + s.cfg.numReads
        && (s.cfg.numReads < Slots ==> TailClear(r.window, s.cfg.numReads))
  {
    var r := SampleCycle(s, now, ticks);
    if (s.window.readIndex < s.cfg.numReads && TailClear(s.window, s.cfg.numReads)) || s.cfg.numReads == Slots {
      DataIsMean(r.window, s.cfg.numReads);
    }
  }

  /**
    The gate stops limiting the rate once the clock passes 65536 ms: only
    the low 16 bits of the clock are kept, so every later call, however soon
    after a sample taken from then on, finds at least 65536 ms elapsed and
    takes a sample.
   */
  lemma GateAlwaysOpenPast16Bits(s: Sensor, now: Long, later: Long, ticks: seq<nat>)
    requires WellFormed(s) && |ticks| == s.cfg.samples
    requires 0x1_0000 <= now <= later
    ensures GateOpen(SampleCycle(s, now, ticks), later)
  {
    assert Elapsed(later, now % 0x1_0000) == later - now % 0x1_0000;
  }

  /**
    Below that point the gate works as intended: with the default interval
    of 5 ms, a call 2 ms after a sample is refused, one 5 ms after is refused
    too (the test is strict), and one 6 ms after samples again.
   */
  lemma GateScenario(s: Sensor, now: Long, ticks: seq<nat>)
    requires WellFormed(s) && |ticks| == s.cfg.samples && s.cfg.sampleInterval == 5
    requires now + 6 < 0x1_0000
    ensures var r := SampleCycle(s, now, ticks);
      !GateOpen(r, now + 2) && !GateOpen(r, now + 5) && GateOpen(r, now + 6)
  {
    SampleCycleFilter(s, now, ticks);
    var r := SampleCycle(s, now, ticks);
    assert r.lastSampleTime == now && r.cfg.sampleInterval == 5;
    GateBefore16Bits(r, now + 2);
    GateBefore16Bits(r, now + 5);
    GateBefore16Bits(r, now + 6);
  }

  // ---------------------------------------------------------------------------
  // Calibration

  /**
    begin() sums 511 data values in 32 bits (no wrap: 511 * 65535 < 2^32),
    divides by 511 and stores the quotient into the 8-bit baseline.
   */
  function CalibratedBaseline(readings: seq<Word>): (b: Byte)
    requires |readings| == CalibrationReads
    ensures Sum(readings) < 0x1_0000_0000
  {
    SumBounds(readings, 0, 0xFFFF);
    (Sum(readings) / CalibrationReads) % 0x100
  }

  /**
    When every calibration reading fits in 8 bits, the calibrated baseline
    lies between the smallest and the largest of them.
   */
  lemma CalibrationWithinReadings(readings: seq<Word>, lo: nat, hi: nat)
    requires |readings| == CalibrationReads
    requires hi < 0x100
    requires forall k :: 0 <= k < |readings| ==> lo <= readings[k] <= hi
    ensures lo <= CalibratedBaseline(readings) <= hi
  {
    SumBounds(readings, lo, hi);
    var q := Sum(readings) / CalibrationReads;
    DivAtMost(Sum(readings), CalibrationReads, hi);
    DivBracket(Sum(readings), CalibrationReads);
  }

  /** A steady signal calibrates to itself, modulo 256. */
  lemma CalibrationOfSteadySignal(readings: seq<Word>, d: Word)
    requires |readings| == CalibrationReads
    requires forall k :: 0 <= k < |readings| ==> readings[k] == d
    ensures CalibratedBaseline(readings) == d % 0x100
  {
    SumBounds(readings, d, d);
    DivExact(Sum(readings), CalibrationReads, d);
  }

  /**
    The state begin() sets before its loop: Setting mode, Idle as both the
    state and the previous state, and the rising debounce count forced to 3.
   */
  function CalibrationStart(s: Sensor): (r: Sensor)
    requires WellFormed(s)
    ensures WellFormed(r)
  {
    s.(mode := Setting,
       cfg := s.cfg.(noiseCountRising := CalibrationNoiseCountRising),
       tracker := s.tracker.(state := Idle, previousState := Idle))
  }

  /**
    The first n of consecutive sample cycles, one per entry of `times` (the
    clock) and `ticks` (the pin responses of its charge cycles), with the
    trail of the data values they produce.
   */
  ghost function Cycles(s: Sensor, times: seq<Long>, ticks: seq<seq<nat>>, n: nat): (r: (Sensor, seq<Word>))
    requires WellFormed(s) && |times| == |ticks| && n <= |times|
    requires forall k :: 0 <= k < |ticks| ==> |ticks[k]| == s.cfg.samples
    ensures WellFormed(r.0) && r.0.cfg == s.cfg && r.0.mode == s.mode && |r.1| == n
    ensures s.mode == Setting && s.tracker.state in {Idle, Rising, Falling} && s.tracker.previousState in {Idle, Rising, Falling} ==>
      r.0.tracker.state in {Idle, Rising, Falling} && r.0.tracker.previousState in {Idle, Rising, Falling}
  {
    if n == 0 then (s, [])
    else
      var (p, trail) := Cycles(s, times, ticks, n - 1);
      var q := SampleCycle(p, times[n - 1], ticks[n - 1]);
      (q, trail + [q.data])
  }

  /**
    Each clock reading in `times` is more than `interval` past the one
    before it as the gate sees it (the first against `last`).
   */
  predicate ClockAlwaysDue(last: Word, interval: Byte, times: seq<Long>)
  {
    && |times| >= 1
    && Elapsed(times[0], last) > interval
    && forall k :: 1 <= k < |times| ==> Elapsed(times[k], times[k - 1] % 0x1_0000) > interval
  }

  /** Under such a clock, every call of a run finds the gate open. */
  lemma GateOnEveryCall(s: Sensor, times: seq<Long>, ticks: seq<seq<nat>>, i: nat)
    requires WellFormed(s) && |times| == |ticks| && i < |times|
    requires forall k :: 0 <= k < |ticks| ==> |ticks[k]| == s.cfg.samples
    requires ClockAlwaysDue(s.lastSampleTime, s.cfg.sampleInterval, times)
    ensures GateOpen(Cycles(s, times, ticks, i).0, times[i])
  {
    if i > 0 {
      var p := Cycles(s, times, ticks, i - 1).0;
      SampleCycleFilter(p, times[i - 1], ticks[i - 1]);
    }
  }

  /**
    begin() once the pins are accepted: 511 sample cycles in Setting mode,
    then the mean of their data values as the baseline, and Running mode.
   */
  ghost function Calibrate(s: Sensor, times: seq<Long>, ticks: seq<seq<nat>>): (r: Sensor)
    requires WellFormed(s) && |times| == |ticks| == CalibrationReads
    requires forall k :: 0 <= k < |ticks| ==> |ticks[k]| == s.cfg.samples
    ensures WellFormed(r)
  {
    var (q, trail) := Cycles(CalibrationStart(s), times, ticks, CalibrationReads);
    q.(tracker := q.tracker.(baseline := CalibratedBaseline(trail)), mode := Running)
  }

  /**
    After calibration the sensor is Running, the rising debounce count is 3
    and every other setting is kept, the baseline is the truncated mean of the
    511 data values modulo 256, and since Touch and Proximity are suppressed
    in Setting mode, neither the state nor the previous state is one of them.
   */
  lemma CalibrationOutcome(s: Sensor, times: seq<Long>, ticks: seq<seq<nat>>)
    requires WellFormed(s) && |times| == |ticks| == CalibrationReads
    requires forall k :: 0 <= k < |ticks| ==> |ticks[k]| == s.cfg.samples
    ensures var r := Calibrate(s, times, ticks);
      && r.mode == Running
      && r.cfg == s.cfg.(noiseCountRising := 3)
      && r.tracker.baseline == CalibratedBaseline(Cycles(CalibrationStart(s), times, ticks, CalibrationReads).1)
      && r.tracker.state in {Idle, Rising, Falling}
      && r.tracker.previousState in {Idle, Rising, Falling}
  {
  }
}
