/**
  The CapacitivePin class of CapacitivePin.h / CapacitivePin.cpp: the fields
  it updates in place, with _raws as a 16-slot array, and its methods, each
  proved against the value-level sensor of the Engine module.

  The hardware is passed in: a clock reading `now` stands for millis(), and
  for each charge cycle of updateSample a tick count stands for the pin: the
  receive pin is read high from that tick of the counting loop on.
 */
module Device {
  import opened Ints
  import opened Settings
  import opened Classifier
  import opened Filter
  import opened Engine

  class CapacitivePin {
    var samples: Byte
    var numReads: Byte            // _reads
    var sampleInterval: Byte
    var lastSampleTime: Word
    var data: Word
    var runningAverage: nat       // uint32_t; it never exceeds 16 * 65535
    var raws: array<Word>
    var readIndex: Byte
    var baseline: Byte
    var maxDelta: Byte
    var noiseIncrement: Byte
    var noiseCountRising: Byte
    var noiseCountFalling: Byte
    var noiseInstantCount: Byte
    var senseThreshold: Word
    var senseReleaseThreshold: Word
    var touchThreshold: Word
    var touchReleaseThreshold: Word
    var timeout: Word
    var state: State
    var previousState: State
    var mode: Mode

    /** The configuration fields, as a value. */
    ghost function Cfg(): Config
      reads this`samples, this`numReads, this`sampleInterval, this`maxDelta, this`noiseIncrement,
        this`noiseCountRising, this`noiseCountFalling, this`senseThreshold, this`senseReleaseThreshold,
        this`touchThreshold, this`touchReleaseThreshold
    {
      Config(samples, numReads, sampleInterval, maxDelta, noiseIncrement, noiseCountRising,
             noiseCountFalling, senseThreshold, senseReleaseThreshold, touchThreshold, touchReleaseThreshold)
    }

    /** The fields the classifier updates, as a value. */
    ghost function Tracked(): Tracker
      reads this`state, this`previousState, this`baseline, this`noiseInstantCount
    {
      Tracker(state, previousState, baseline, noiseInstantCount)
    }

    /** The circular buffer, as a value. */
    ghost function Buffer(): Window
      reads this`raws, this`readIndex, this`runningAverage, raws
    {
      Window(raws[..], readIndex, runningAverage)
    }

    /** The whole object, as a value. */
    ghost function Snapshot(): Sensor
      reads this, raws
      requires raws.Length == Slots
    {
      Sensor(Cfg(), lastSampleTime, data, Buffer(), timeout,
             Tracked(), mode)
    }

    ghost predicate Valid()
      reads this, raws
    {
      raws.Length == Slots && WellFormed(Snapshot())
    }

    /** The constructor: defaults, the clock reading, Setting mode; the fields it leaves alone are zero. */
    constructor (now: Long)
      ensures Valid() && fresh(raws)
      ensures Snapshot() == Initial(now)
    {
      samples := 6;
      numReads := 16;
      sampleInterval := 5;
      maxDelta := 1;
      touchThreshold := 100;
      touchReleaseThreshold := 80;
      senseThreshold := 10;
      senseReleaseThreshold := 7;
      noiseIncrement := 1;
      noiseCountRising := 5;
      noiseCountFalling := 2;
      lastSampleTime := now % 0x1_0000;
      readIndex := 0;
      mode := Setting;
      data := 0;
      runningAverage := 0;
      raws := new Word[Slots](_ => 0);
      baseline := 0;
      noiseInstantCount := 0;
      timeout := 0;
      state := Idle;
      previousState := Idle;
      new;
      assert raws[..] == seq(Slots, _ => 0);
      SumOfBlock(raws[..], 0, 0);
    }

    // -------------------------------------------------------------------------
    // begin

    /**
      begin(): refuse pins beyond the board's pin count with status 1 and no
      change; otherwise calibrate: 511 sampled calls of update() in Setting
      mode, their data values averaged into the baseline, then Running mode.
      `times` and `ticks` are the clock and the pin during the sampled calls.
     */
    method Begin(receivePin: Byte, sendPin: Byte, pinsNumber: Byte, times: seq<Long>, ticks: seq<seq<nat>>)
      returns (status: Byte)
      requires Valid()
      requires |times| == |ticks| == CalibrationReads
      requires forall k :: 0 <= k < |ticks| ==> |ticks[k]| == samples
      requires receivePin <= pinsNumber && sendPin <= pinsNumber ==> ClockAlwaysDue(lastSampleTime, sampleInterval, times)
      modifies this, raws
      ensures Valid() && raws == old(raws)
      ensures status == (if receivePin > pinsNumber || sendPin > pinsNumber then 1 else 0)
      ensures status == 1 ==> Snapshot() == old(Snapshot())
      ensures status == 0 ==> Snapshot() == Calibrate(old(Snapshot()), times, ticks)
    {
      if receivePin > pinsNumber || sendPin > pinsNumber {
        return 1;
      }
      mode := Setting;
      state := Idle;
      previousState := Idle;
      noiseCountRising := CalibrationNoiseCountRising;
      ghost var start := Snapshot();
      assert start == CalibrationStart(old(Snapshot()));
      ghost var trail: seq<Word> := [];
      var sum: nat := 0;
      var i := 0;
      while i < CalibrationReads
        invariant 0 <= i <= CalibrationReads
        invariant raws == old(raws) && raws.Length == Slots
        invariant Cycles(start, times, ticks, i) == (Snapshot(), trail)
        invariant sum == Sum(trail)
      {
        ghost var before := Snapshot();
        // every call listed in `times` finds the gate open, so update() samples
        assert GateOpen(before, times[i]) by {
          GateOnEveryCall(start, times, ticks, i);
        }
        var _ := Update(times[i], ticks[i]);
        assert Snapshot() == SampleCycle(before, times[i], ticks[i]);
        assert Cycles(start, times, ticks, i + 1) == (Snapshot(), trail + [data]);
        ghost var next := trail + [data];
        assert sum + data == Sum(next) by {
          SumSnoc(trail, data);
        }
        i := i + 1;
        sum := sum + data;
        trail := next;
      }
      ghost var last := Snapshot();
      baseline := (sum / CalibrationReads) % 0x100;
      mode := Running;
      assert Snapshot() == last.(tracker := last.tracker.(baseline := CalibratedBaseline(trail)), mode := Running);
      status := 0;
    }

    // -------------------------------------------------------------------------
    // update

    /**
      update(): when strictly more than the interval has elapsed since the
      last sample (in 32-bit arithmetic against the stored 16 bits), one sample
      cycle, reported by `sampled`; otherwise nothing changes.
     */
    method Update(now: Long, ticks: seq<nat>) returns (sampled: bool)
      requires Valid() && |ticks| == samples
      modifies this, raws
      ensures raws == old(raws)
      ensures sampled == GateOpen(old(Snapshot()), now)
      ensures Snapshot() == Step(old(Snapshot()), now, ticks)
      ensures Valid()
    {
      if (now - lastSampleTime) % 0x1_0000_0000 > sampleInterval {
        ghost var s0 := Snapshot();
        TakeSample(now, ticks);
        ghost var s1 := Snapshot();
        var _ := UpdateRead();
        assert Snapshot() == s1.(tracker := ReadStep(s1.cfg, s1.tracker, s1.data, s1.mode));
        assert Snapshot() == SampleCycle(s0, now, ticks);
        sampled := true;
      } else {
        sampled := false;
      }
    }

    /**
      The sampling half of update(): the timeout for this cycle, the clock,
      one raw reading replacing the oldest slot of the circular buffer and the
      running sum, the data value and the advanced write index.
     */
    method TakeSample(now: Long, ticks: seq<nat>)
      requires Valid() && |ticks| == samples
      modifies this`timeout, this`lastSampleTime, this`runningAverage, this`data, this`readIndex, raws
      ensures Snapshot() == Engine.TakeSample(old(Snapshot()), now, ticks)
      ensures Valid()
    {
      ghost var s0 := Snapshot();
      timeout := (baseline + 2 * touchThreshold) % 0x1_0000;
      var raw := UpdateSample(ticks);
      lastSampleTime := now % 0x1_0000;
      PushReading(raw);
      assert Snapshot() == s0.(lastSampleTime := now % 0x1_0000, timeout := Timeout(s0), window := Buffer(), data := data);
    }

    /**
      Lines 90-96 of update(): the raw reading replaces the oldest slot of the
      circular buffer and of the running sum, the data value is the new sum
      divided by the read count, and the write index advances.
     */
    method PushReading(raw: Word)
      requires raws.Length == Slots && WindowValid(Buffer()) && 1 <= numReads <= Slots
      modifies this`runningAverage, this`data, this`readIndex, raws
      ensures Buffer() == Push(old(Buffer()), numReads, raw)
      ensures data == DataOf(Buffer(), numReads)
    {
      ghost var w := Push(Buffer(), numReads, raw);
      assert raws[readIndex] <= runningAverage by {
        SumReplace(raws[..], readIndex, 0);
      }
      runningAverage := runningAverage - raws[readIndex];
      raws[readIndex] := raw;
      runningAverage := runningAverage + raws[readIndex];
      assert raws[..] == w.raws && runningAverage == w.runningAverage;
      data := (runningAverage / numReads) % 0x1_0000;
      readIndex := if readIndex + 1 >= numReads then 0 else readIndex + 1;
    }

    /**
      updateSample(): `samples` charge cycles, each counting ticks until the
      receive pin reads high or the timeout is reached, summed in 16 bits and
      divided by the number of cycles.
     */
    method UpdateSample(ticks: seq<nat>) returns (average: Word)
      requires 1 <= samples && |ticks| == samples
      ensures average == SampleAverage(ticks, timeout, samples)
    {
      var total: Word := 0;
      var i := 0;
      while i < samples
        invariant 0 <= i <= samples
        invariant total == CappedTotal(ticks[..i], timeout) % 0x1_0000
      {
        var count := CountTicks(ticks[i]);
        WrappedTotalNext(ticks, i, timeout, total, count);
        total := (total + count) % 0x1_0000;
        i := i + 1;
      }
      assert ticks[..i] == ticks;
      average := total / samples;
    }

    /**
      One charge cycle of updateSample(): count ticks until the receive pin
      reads high (from tick `response` on) or the timeout is reached.
     */
    method CountTicks(response: nat) returns (count: Word)
      ensures count == Min(response, timeout)
    {
      count := 0;
      while count < timeout
        invariant count <= timeout && count <= response
      {
        if count >= response {
          // the receive pin reads high
          break;
        }
        count := count + 1;
      }
    }

    /**
      updateRead(): classify the data value against the baseline, as
      ReadStep; the configuration, the filter and the mode are untouched.
     */
    method UpdateRead() returns (s: State)
      modifies this`state, this`previousState, this`baseline, this`noiseInstantCount
      ensures Tracked() == ReadStep(Cfg(), old(Tracked()), data, mode)
      ensures s == state
    {
      ghost var t := Tracked();
      var delta := Delta(data, baseline);
      var absDelta := AbsDelta(delta);
      previousState := state;
      if absDelta <= maxDelta {
        baseline := (baseline + delta) % 0x100;
        state := Idle;
      } else if delta > Int8(touchThreshold) && mode == Running {
        state := Touch;
      } else if delta > Int8(senseThreshold) && mode == Running {
        state := Proximity;
      } else if delta > 0 {
        state := Rising;
        var _ := UpdateNoise();
      } else if delta < 0 {
        state := Falling;
        var _ := UpdateNoise();
      }
      assert Tracked() == FirstPass(Cfg(), t.(previousState := t.state), delta, mode);
      ghost var t1 := Tracked();
      if state == Touch {
        if delta < Int8(touchReleaseThreshold) {
          if delta > Int8(senseReleaseThreshold) {
            state := Proximity;
          } else {
            state := Idle;
          }
        }
      } else if state == Proximity {
        if delta > Int8(touchThreshold) {
          state := Touch;
        } else if delta < Int8(senseReleaseThreshold) {
          state := Idle;
        }
      }
      assert Tracked() == t1.(state := Hysteresis(Cfg(), t1.state, delta));
      s := state;
    }

    /** updateNoise(): the debounced baseline nudge, as NoiseStep. */
    method UpdateNoise() returns (s: State)
      modifies this`state, this`baseline, this`noiseInstantCount
      ensures Tracked() == NoiseStep(Cfg(), old(Tracked()))
      ensures s == state
    {
      if state == Rising {
        if previousState != state {
          noiseInstantCount := 0;
        } else {
          noiseInstantCount := (noiseInstantCount + 1) % 0x100;
          if noiseInstantCount >= noiseCountRising {
            noiseInstantCount := 0;
            baseline := (baseline + noiseIncrement) % 0x100;
            state := Idle;
          }
        }
      } else if state == Falling {
        if previousState != state {
          noiseInstantCount := 0;
        } else {
          noiseInstantCount := (noiseInstantCount + 1) % 0x100;
          if noiseInstantCount >= noiseCountFalling {
            noiseInstantCount := 0;
            baseline := (baseline - noiseIncrement) % 0x100;
            state := Idle;
          }
        }
      }
      s := state;
    }

    // -------------------------------------------------------------------------
    // Setters

    method SetTouchThreshold(threshold: Byte)
      requires Valid()
      modifies this
      ensures Valid() && raws == old(raws)
      ensures Snapshot() == old(Snapshot()).(cfg := old(Cfg()).(touchThreshold := threshold))
    {
      touchThreshold := threshold;
    }

    method SetTouchReleaseThreshold(threshold: Byte)
      requires Valid()
      modifies this
      ensures Valid() && raws == old(raws)
      ensures Snapshot() == old(Snapshot()).(cfg := old(Cfg()).(touchReleaseThreshold := threshold))
    {
      touchReleaseThreshold := threshold;
    }

    /** Zero cycles per reading is replaced by one. */
    method SetSamples(numSamples: Byte)
      requires Valid()
      modifies this
      ensures Valid() && raws == old(raws)
      ensures Snapshot() == old(Snapshot()).(cfg := old(Cfg()).(samples := Coerce(numSamples)))
    {
      var n := numSamples;
      if n == 0 {
        n := 1;
      }
      samples := n;
    }

    /** Zero readings per data value is replaced by one; more than the 16 slots is outside the contract. */
    method SetReads(count: Byte)
      requires Valid() && count <= Slots
      modifies this
      ensures Valid() && raws == old(raws)
      ensures Snapshot() == old(Snapshot()).(cfg := old(Cfg()).(numReads := Coerce(count)))
    {
      var n := count;
      if n == 0 {
        n := 1;
      }
      numReads := n;
    }

    /** Zero is replaced by one, then the 16-bit delay is stored into the 8-bit interval. */
    method SetInterval(delay: Word)
      requires Valid()
      modifies this
      ensures Valid() && raws == old(raws)
      ensures Snapshot() == old(Snapshot()).(cfg := old(Cfg()).(sampleInterval := StoredInterval(delay)))
    {
      var d := delay;
      if d == 0 {
        d := 1;
      }
      sampleInterval := d % 0x100;
    }

    method SetMaxDelta(delta: Byte)
      requires Valid()
      modifies this
      ensures Valid() && raws == old(raws)
      ensures Snapshot() == old(Snapshot()).(cfg := old(Cfg()).(maxDelta := delta))
    {
      maxDelta := delta;
    }

    method SetNoiseIncrement(increment: Byte)
      requires Valid()
      modifies this
      ensures Valid() && raws == old(raws)
      ensures Snapshot() == old(Snapshot()).(cfg := old(Cfg()).(noiseIncrement := increment))
    {
      noiseIncrement := increment;
    }

    method SetNoiseCountRising(noiseCount: Byte)
      requires Valid()
      modifies this
      ensures Valid() && raws == old(raws)
      ensures Snapshot() == old(Snapshot()).(cfg := old(Cfg()).(noiseCountRising := noiseCount))
    {
      noiseCountRising := noiseCount;
    }

    method SetNoiseCountFalling(noiseCount: Byte)
      requires Valid()
      modifies this
      ensures Valid() && raws == old(raws)
      ensures Snapshot() == old(Snapshot()).(cfg := old(Cfg()).(noiseCountFalling := noiseCount))
    {
      noiseCountFalling := noiseCount;
    }

    // -------------------------------------------------------------------------
    // Queries

    /** getState(): the code of the state, which is never 1 (BaselineChanged is never assigned). */
    function GetState(): (code: Byte)
      reads this, raws
      requires Valid()
      ensures code in {0, 2, 3, 4, 5}
      ensures forall s: State :: s.Code() == code <==> s == state
    {
      Codes();
      state.Code()
    }

    function IsTouched(): (b: bool)
      reads this
      ensures b <==> state.Code() == Touch.Code()
    {
      state == Touch
    }

    /** Touch and Proximity exclude each other. */
    function IsProximity(): (b: bool)
      reads this
      ensures b ==> !IsTouched()
      ensures b <==> state.Code() == Proximity.Code()
    {
      Codes();
      state == Proximity
    }

    /** A release edge: the sensor is not touched now. */
    function IsJustTouchReleased(): (b: bool)
      reads this
      ensures b ==> !IsTouched()
      ensures b <==> !IsTouched() && previousState.Code() == Touch.Code()
      ensures b <==> JustLeft(Tracked(), Touch)
    {
      Codes();
      state != Touch && previousState == Touch
    }

    /** A touch edge: touched now, and so not a release edge. */
    function IsJustTouched(): (b: bool)
      reads this
      ensures b ==> IsTouched() && !IsJustTouchReleased()
      ensures b <==> IsTouched() && previousState.Code() != Touch.Code()
      ensures b <==> JustEntered(Tracked(), Touch)
    {
      Codes();
      state == Touch && previousState != Touch
    }

    function IsJustProximityReleased(): (b: bool)
      reads this
      ensures b ==> !IsProximity()
      ensures b <==> !IsProximity() && previousState.Code() == Proximity.Code()
      ensures b <==> JustLeft(Tracked(), Proximity)
    {
      Codes();
      state != Proximity && previousState == Proximity
    }

    function IsJustProximity(): (b: bool)
      reads this
      ensures b ==> IsProximity() && !IsTouched() && !IsJustProximityReleased()
      ensures b <==> IsProximity() && previousState.Code() != Proximity.Code()
      ensures b <==> JustEntered(Tracked(), Proximity)
    {
      Codes();
      state == Proximity && previousState != Proximity
    }

    /** getData(): the filtered data value. */
    function GetData(): (d: Word)
      reads this, raws
      requires Valid()
      ensures d == Snapshot().data
    {
      data
    }

    /** getBaseline(): the tracked baseline. */
    function GetBaseline(): (b: Byte)
      reads this, raws
      requires Valid()
      ensures b == Snapshot().tracker.baseline
    {
      baseline
    }
  }
}
