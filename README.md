# CapacitivePin in Dafny

A model of the `CapacitivePin` class, a capacitive touch and proximity sensor
for AVR boards. One send pin charges a pad through a resistor, and the sensor
counts ticks until the receive pin reads high. The model covers four parts:

- **The time gate.** `update()` samples only when strictly more than the
  sample interval has elapsed since the last sample.
- **The two-stage filter.** `updateSample()` averages `samples` charge cycles,
  each capped at a timeout, into one raw reading. `update()` pushes that
  reading into a 16-slot circular buffer with a running sum and divides the
  sum by the read count to get the data value.
- **The baseline tracker and classifier.** `updateRead()` and `updateNoise()`
  handle the dead-band pull-in, Touch and Proximity entry (suppressed in
  Setting mode), the hysteresis pass and the debounced baseline nudge.
- **Configuration, queries and calibration.** This covers the setters with
  their zero-to-one coercion, the state and edge queries, and `begin()`. After
  its pin check, `begin()` runs 511 sampled updates in Setting mode and stores
  the truncated mean of their data values as the 8-bit baseline.

Layout:

- `ints.dfy` (module `Ints`) holds the field widths and the `int8_t` and
  `int16_t` conversions.
- `settings.dfy` (module `Settings`) holds the configuration record, the
  constructor defaults and the coercion policy of the setters.
- `classifier.dfy` (module `Classifier`) holds `updateRead` and `updateNoise`
  as functions on the tracker fields, with their properties.
- `filter.dfy` (module `Filter`) holds the capped tick average, the circular
  buffer and the running sum.
- `engine.dfy` (module `Engine`) is the whole sensor as a value: the gate, one
  sample cycle and calibration.
- `capacitive_pin.dfy` (module `Device`) holds the class `CapacitivePin`. Its
  fields are those of the header, and `_raws` is an `array` of 16 slots. The
  methods that change the whole sensor (`Begin`, `Update`, `TakeSample`) are
  proved against the `Engine` functions through `Snapshot()`. Each setter
  states the new `Snapshot()` as the old one with a single configuration field
  replaced, using `Settings.Coerce` and `Settings.StoredInterval` where the
  source coerces.
  `UpdateRead` and `UpdateNoise` are proved against the `Classifier` functions
  through `Tracked()` and `Cfg()`. `PushReading` is proved against
  `Filter.Push` through `Buffer()`, and `UpdateSample` against
  `Filter.SampleAverage`.

The hardware is passed in as parameters:

- `now` stands for `millis()`.
- For each charge cycle, a tick count stands for the pin: the receive pin reads
  high from that tick of the counting loop on.
- `pinsNumber` stands for the board constant `PINS_NUMBER`.

The source's `update()` is split into methods. `TakeSample` covers lines
87-96, and its buffer half (lines 90-96) is `PushReading`. `UpdateRead` covers
the classification. `Update` calls `TakeSample` and then `UpdateRead` when the
gate is open. The inner counting loop of `updateSample()`, one charge cycle,
is `CountTicks`.

Integers are unbounded in Dafny, so every width of the source is written out:

- `_baseline` and `_sampleInterval` wrap modulo 256;
- `_data`, `_timeout` and `_lastSampleTime` wrap modulo 65536;
- the updateSample total is 16 bits and wraps;
- `delta` and `absDelta` are `int16_t` conversions;
- the thresholds are compared after an `int8_t` conversion.

In several places the code does not do what its names and comments suggest.
The model follows the code, and each of these points is proved:

- **The hysteresis pass is inert.** The first if-chain always reassigns the
  state, so the hysteresis pass never sees the previous cycle. Under the
  default thresholds it changes nothing (`HysteresisInertUnderDefaults`).
  Release from Touch is therefore not delayed: after a Touch cycle, a delta
  between 80 and 100 gives Proximity (`NoDelayedRelease`). A release
  threshold below the touch threshold is meant to hold Touch until delta drops
  below it, and that never happens.
- **The debounce fires one cycle late.** The first cycle of a direction only
  resets the counter, so with a count N of at least 1 the nudge comes on the
  (N+1)-th consecutive cycle, not the N-th; with N = 0, which the
  noise-count setters accept uncoerced, it comes on the 2nd (`DebounceFires`,
  which counts `Coerce(N) + 1` cycles). The counter is shared by both
  directions.
- **Large thresholds turn negative.** A threshold of 128 or more becomes
  negative through the `int8_t` cast. When the touch and the touch release
  thresholds are both 128 or more, a falling signal can be read as Touch
  (`FallingSignalReadAsTouch`). It takes both: a falling signal is Touch only
  when both casts are negative and delta is not below the release one
  (`FallingTouchNeedsNegativeThresholds`).
- **The time gate stops limiting the rate.** `_lastSampleTime` keeps only
  16 bits of the 32-bit clock. After a sample taken at 65536 ms or later,
  every later call finds at least 65536 ms elapsed and samples
  (`GateAlwaysOpenPast16Bits`). The interval is meant to space the samples
  for as long as the sensor runs.
- **`setInterval` can store 0.** `setInterval(256)` stores an interval of 0,
  so the zero-to-one coercion is lost in the 8-bit store
  (`IntervalCoercionLost`).
- **`abs(-32768)` stays -32768.** `AbsDelta` keeps it, as the `int16_t`
  store does.
- **Calibration counts sampled calls.** The 511 readings averaged by
  `begin()` are the data values of the `update()` calls that pass the gate.

## Model

| member | source | states |
|---|---|---|
| Device.CapacitivePin.constructor | CapacitivePin.cpp:25-42 | the object is well formed and equals `Initial(now)`: default settings (6, 16, 5, 1, 1, 5, 2, thresholds 10/7/100/80), Setting mode, clock stored in 16 bits, an empty buffer with an exact running sum |
| Device.CapacitivePin.Begin | CapacitivePin.cpp:47-81 | status 1 and no change when either pin exceeds the pin count; otherwise status 0 and the state is the calibration outcome: 511 sample cycles from the Setting start, then their truncated mean as baseline and Running mode |
| Device.CapacitivePin.Update | CapacitivePin.cpp:84-104 | returns true exactly when the 32-bit elapsed time exceeds the interval; then the new state is one full sample cycle, otherwise nothing changes; the buffer array is the same object and stays consistent |
| Device.CapacitivePin.TakeSample | CapacitivePin.cpp:87-96 | new timeout, clock in 16 bits, the raw reading written at the write index with the running sum kept equal to the sum of all slots, data value = running sum / reads stored in 16 bits, index advanced modulo reads |
| Device.CapacitivePin.PushReading | CapacitivePin.cpp:90-96 | the buffer becomes one `Push` of the reading (only the slot at the write index changes, the running sum stays exact, the index advances below the read count) and the data value is the new sum divided by the read count, stored in 16 bits |
| Device.CapacitivePin.UpdateSample | CapacitivePin.cpp:195-229 | the result is the 16-bit sum of the tick counts, each capped at the timeout, truncating-divided by the number of cycles |
| Device.CapacitivePin.CountTicks | CapacitivePin.cpp:204-213 | one charge cycle counts the ticks before the receive pin reads high, and stops at the timeout: the minimum of the two |
| Filter.WrappedTotalNext | CapacitivePin.cpp:220 | the 16-bit running total after one more cycle is the exact capped total so far, modulo 65536 |
| Device.CapacitivePin.UpdateRead | CapacitivePin.cpp:231-284 | the tracker fields become `ReadStep` of the old ones (first chain then hysteresis pass), and the state is returned |
| Device.CapacitivePin.UpdateNoise | CapacitivePin.cpp:292-311 | the tracker fields become `NoiseStep` of the old ones: a reset on a new direction, otherwise an increment and the nudge at the direction's count |
| Device.CapacitivePin.SetTouchThreshold | CapacitivePin.cpp:106-108 | only the touch threshold changes, to the argument |
| Device.CapacitivePin.SetTouchReleaseThreshold | CapacitivePin.cpp:110-112 | only the touch release threshold changes, to the argument |
| Device.CapacitivePin.SetSamples | CapacitivePin.cpp:115-118 | only the cycle count changes, to the argument with 0 replaced by 1 |
| Device.CapacitivePin.SetReads | CapacitivePin.cpp:121-124 | only the read count changes, to the argument with 0 replaced by 1 |
| Device.CapacitivePin.SetInterval | CapacitivePin.cpp:127-131 | only the interval changes, to the coerced delay modulo 256 |
| Device.CapacitivePin.SetMaxDelta | CapacitivePin.cpp:133-135 | only the dead band changes, to the argument |
| Device.CapacitivePin.SetNoiseIncrement | CapacitivePin.cpp:137-139 | only the nudge size changes, to the argument |
| Device.CapacitivePin.SetNoiseCountRising | CapacitivePin.cpp:141-143 | only the rising debounce count changes, to the argument |
| Device.CapacitivePin.SetNoiseCountFalling | CapacitivePin.cpp:145-147 | only the falling debounce count changes, to the argument |
| Device.CapacitivePin.IsTouched | CapacitivePin.cpp:149-152 | true exactly when the state code is Touch's |
| Device.CapacitivePin.IsJustTouched | CapacitivePin.cpp:154-157 | true exactly when touched now and not on the previous cycle, that is `JustEntered` of the tracker fields; it implies touched and excludes a release edge |
| Device.CapacitivePin.IsJustTouchReleased | CapacitivePin.cpp:159-162 | true exactly when not touched now but touched on the previous cycle, that is `JustLeft` of the tracker fields |
| Device.CapacitivePin.IsProximity | CapacitivePin.cpp:164-167 | true exactly when the state code is Proximity's; excludes touched |
| Device.CapacitivePin.IsJustProximity | CapacitivePin.cpp:169-172 | true exactly when in Proximity now and not on the previous cycle (`JustEntered` of the tracker fields); excludes touched and a proximity release edge |
| Device.CapacitivePin.IsJustProximityReleased | CapacitivePin.cpp:174-177 | true exactly when not in Proximity now but on the previous cycle (`JustLeft` of the tracker fields) |
| Device.CapacitivePin.GetData | CapacitivePin.cpp:179-181 | the filtered data value of the sensor |
| Device.CapacitivePin.GetBaseline | CapacitivePin.cpp:183-185 | the 8-bit tracked baseline |
| Device.CapacitivePin.GetState | CapacitivePin.cpp:187-189 | the code of the state, identifying it uniquely, and never 1 (BaselineChanged is never assigned) |
| Classifier.Codes | CapacitivePin.h:29-41 | state codes 0..5 and mode codes 0..1 as the enumerations give them; distinct states have distinct codes |
| Classifier.Delta | CapacitivePin.cpp:232 | delta is in the int16 range and congruent to `data - baseline` modulo 65536: it equals that difference while the difference is below 32768 (so whenever the data value is), and otherwise the difference minus 65536 |
| Classifier.AbsDelta | CapacitivePin.cpp:233 | the magnitude of delta, except that -32768 stays -32768 |
| Classifier.DeltaIsInt16 | CapacitivePin.cpp:232-233 | delta and absDelta are the `int16_t` conversions of the difference and of its magnitude |
| Classifier.ReadStepOutcome | CapacitivePin.cpp:235-272 | the previous state becomes the state before the call; the result is never BaselineChanged; in Setting mode never Touch or Proximity |
| Classifier.EdgesAfterStep | CapacitivePin.cpp:149-177 | after a classification, the edge predicates (which the class's edge queries equal) compare the new state with the state before the call, in both directions |
| Classifier.DeadBandPullIn | CapacitivePin.cpp:237-239 | inside the dead band the state becomes Idle, the baseline becomes the data value modulo 256 and the noise counter is kept |
| Classifier.TouchIff | CapacitivePin.cpp:237-272 | the result is Touch if and only if outside the dead band, Running, and delta exceeds the int8 touch threshold without being below the int8 release threshold |
| Classifier.ProximityIff | CapacitivePin.cpp:237-272 | the result is Proximity if and only if outside the dead band, Running, and either a downgraded touch or a sense-level delta not below the sense release |
| Classifier.HysteresisKeepsProximity | CapacitivePin.cpp:264-271 | with the sense thresholds 10 and 7 (or any release at most threshold + 1) the hysteresis pass never changes a Proximity result |
| Classifier.HysteresisOnTouch | CapacitivePin.cpp:256-263 | the pass changes a Touch result exactly when delta is below the int8 release threshold, which requires that threshold to exceed the int8 touch threshold |
| Classifier.HysteresisInertUnderDefaults | CapacitivePin.cpp:256-272 | under the default thresholds the hysteresis pass changes nothing |
| Classifier.NoDelayedRelease | CapacitivePin.cpp:240-272 | after a Touch cycle, a delta between 80 and 100 yields Proximity and a release edge, not a held Touch |
| Classifier.FallingSignalReadAsTouch | CapacitivePin.cpp:240-262 | with touch threshold 200 and release threshold 180 (int8 -56 and -76) and dead band 1, a data value 10 below the baseline is reported as Touch |
| Classifier.FallingTouchNeedsNegativeThresholds | CapacitivePin.cpp:240-262 | a data value below the baseline gives Touch only when both the touch and the release threshold cast to negative int8 values and delta is at least the release one |
| Classifier.OccupiedHoldsBaseline | CapacitivePin.cpp:240-245 | a Touch or Proximity result leaves the baseline and the noise counter unchanged |
| Classifier.DriftStep | CapacitivePin.cpp:292-311 | a new drift direction only resets the shared counter; a repeated one increments it and at the direction's count nudges the baseline by the increment, resets the counter and reports Idle; afterwards the counter is 0 or below the count |
| Classifier.DebounceCounts | CapacitivePin.cpp:292-311 | for the first Coerce(count) consecutive cycles drifting in one direction, whatever their data values, the baseline is unchanged, the state is that direction and the counter equals cycles minus one |
| Classifier.DebounceFires | CapacitivePin.cpp:292-311 | on consecutive drifting cycles with any data values, the nudge comes on cycle Coerce(count) + 1 (the (N+1)-th for N >= 1, the 2nd for N = 0): baseline moved by exactly the increment (mod 256), counter 0, state Idle |
| Filter.SampleAverage | CapacitivePin.cpp:197-226 | the raw reading is at most the timeout whenever the 16-bit total does not wrap |
| Filter.SteadyResponse | CapacitivePin.cpp:197-226 | a steady pin response gives back its own tick count, capped at the timeout, when the total fits 16 bits |
| Filter.CappedTotalAtMost | CapacitivePin.cpp:205-216 | no charge cycle counts beyond the timeout: the total is at most cycles times timeout |
| Filter.NextIndex | CapacitivePin.cpp:96 | the advanced write index is below the read count; it is the successor modulo the count, or 0 when the index was already out of range |
| Filter.Push | CapacitivePin.cpp:90-96 | only the slot at the write index changes, to the new reading; the running sum stays the sum of all slots; the index stays below the count and a clear tail stays clear |
| Filter.DataIsMean | CapacitivePin.cpp:94 | with a clear tail (always with 16 reads) the data value is the floor of the mean of the live slots, with the division bracket |
| Filter.FeedCovers | CapacitivePin.cpp:90-96 | n pushes of one reading fill the n slots from the write index on, cyclically within the read count, and leave every other slot alone |
| Filter.SteadyState | CapacitivePin.cpp:90-96 | starting from a write index below the read count with the slots beyond the count clear, feeding one reading as many times as the read count makes the data value exactly that reading |
| Filter.SteadyStateSixteen | CapacitivePin.cpp:90-96 | with 16 reads, 16 equal readings always give that reading, whatever the buffer held |
| Engine.Initial | CapacitivePin.cpp:25-42 | the constructed sensor is well formed, has the defaults, Setting mode and a clear buffer tail |
| Engine.GateBefore16Bits | CapacitivePin.cpp:86 | below 65536 ms the gate compares the plain elapsed time |
| Engine.GateStrict | CapacitivePin.cpp:86 | exactly one interval after the last sample the gate is still closed |
| Engine.Timeout | CapacitivePin.cpp:87 | for 8-bit touch thresholds the timeout is baseline + 2 * threshold with no wrap (at most 765) |
| Engine.TakeSample | CapacitivePin.cpp:87-96 | keeps settings, mode and tracker; records the clock and timeout; the buffer is one push of the capped average; data value from the new running sum |
| Engine.SampleCycle | CapacitivePin.cpp:86-99 | keeps settings and mode, records the clock, previous state becomes the old state, and Setting mode never yields Touch or Proximity |
| Engine.Step | CapacitivePin.cpp:84-104 | a closed gate changes nothing; the result is always well formed |
| Engine.SampleCycleFilter | CapacitivePin.cpp:87-96 | a sample cycle writes only the slot at the old index, keeps the running sum exact, the index below the read count, and (with a clear tail) the data value the floor of the mean |
| Engine.GateAlwaysOpenPast16Bits | CapacitivePin.cpp:86-88 | after a sample taken at 65536 ms or later, every later call (before the 32-bit clock wraps) finds the gate open |
| Engine.GateScenario | CapacitivePin.cpp:86 | with interval 5, calls 2 and 5 ms after a sample are refused and one 6 ms after samples |
| Engine.CalibratedBaseline | CapacitivePin.cpp:64-76 | the 32-bit sum of 511 data values never wraps |
| Engine.CalibrationWithinReadings | CapacitivePin.cpp:64-76 | with 8-bit readings the calibrated baseline lies between the smallest and largest reading |
| Engine.CalibrationOfSteadySignal | CapacitivePin.cpp:64-76 | a steady data value calibrates to itself modulo 256 |
| Engine.CalibrationStart | CapacitivePin.cpp:51-61 | the state before the calibration loop is well formed |
| Engine.Cycles | CapacitivePin.cpp:64-73 | a run of sample cycles keeps settings and mode, yields one data value per cycle, and in Setting mode never leaves Idle/Rising/Falling |
| Engine.GateOnEveryCall | CapacitivePin.cpp:68-72 | when each clock reading is more than the interval after the previous one, every call of the run finds the gate open |
| Engine.Calibrate | CapacitivePin.cpp:64-78 | the calibrated sensor is well formed |
| Engine.CalibrationOutcome | CapacitivePin.cpp:51-78 | after calibration: Running, rising debounce count 3 and other settings kept, baseline the mean of the 511 data values mod 256, neither state nor previous state Touch or Proximity |
| Settings.Coerce | CapacitivePin.cpp:115-131 | zero becomes one and any other value is kept |
| Settings.StoredInterval | CapacitivePin.cpp:127-131 | the stored interval is the coerced delay modulo 256; below 256 it is the coerced delay |
| Settings.IntervalCoercionLost | CapacitivePin.cpp:127-131 | a delay of 256 is stored as 0, while 0 and 1 both store 1 |
| Ints.Int16 | CapacitivePin.cpp:232-233 | the int16 value congruent to its argument modulo 65536 |
| Ints.Int8Cast | CapacitivePin.cpp:240-268 | the int8 conversion is the one int8 value congruent to its argument modulo 256 |
| Ints.Int8OfByte | CapacitivePin.cpp:240-268 | a threshold below 128 is kept by the int8 conversion; from 128 on it becomes negative |

## Left out

- GPIO through `DigitalPin`, and `cli()`/`sei()` (CapacitivePin.cpp:199-223): each charge cycle's pin is an input tick count.
- `Serial.print` diagnostics (CapacitivePin.cpp:274-281): output only, no effect on state.
- The `updateBaseline` stub (CapacitivePin.cpp:288-290): it does nothing and nothing calls it.
- `begin`'s busy loop while the gate is closed (CapacitivePin.cpp:68-73). Those `update()` calls change nothing (Update's contract), so `Begin` takes only the clock readings and pin responses of the 511 sampled calls. Its precondition `ClockAlwaysDue` says each of them finds the gate open.
- `update()` reads `millis()` twice (gate test and store); the model uses one reading `now` for both.
- `PINS_NUMBER` is the parameter `pinsNumber`.
- Fields the constructor leaves uninitialised (`_raws`, `_runningAverage`, `_baseline`, `_noiseInstantCount`, `_data`, `_timeout`, `_state`, `_previousState`) are zero, as for an object in static storage.
- `_runningAverage` is an unbounded `nat`: with 16 slots of 16 bits it never reaches 2^32, so no wrap is lost.
- The commented-out sense-threshold setters (CapacitivePin.h:51-54): the sense thresholds keep their constructor values.
- Device.CapacitivePin.SetReads: a count above 16 is excluded by its precondition, because the source then indexes `_raws` beyond its 16 slots.
- Changing the read count while stale slots lie beyond it: `Push` and `DataIsMean` state the mean property only while the write index is below the count and the slots beyond it are clear (always true with 16 reads).
- Device.CapacitivePin.TakeSample: `updateSample()` is called before the clock is stored and before the old slot leaves the running sum, not between lines 90 and 92. It reads only the cycle count, the timeout and the pin, so the order changes nothing.
