/**
  The tunables of one sensor (the constructor's initialiser list and the
  setters of CapacitivePin.cpp) and the zero-to-one coercion policy.
 */
module Settings {
  import opened Ints

  /**
    The configuration fields, with the widths CapacitivePin.h gives them.
    The sense thresholds have no setter: they keep their constructor values.
   */
  datatype Config = Config(
    samples: Byte,                 // charge cycles averaged into one raw reading
    numReads: Byte,                // raw readings in the running average (_reads)
    sampleInterval: Byte,          // milliseconds between two sample cycles
    maxDelta: Byte,                // dead band of the fast baseline pull-in
    noiseIncrement: Byte,          // size of one debounced baseline nudge
    noiseCountRising: Byte,        // debounce count of the upward nudge
    noiseCountFalling: Byte,       // debounce count of the downward nudge
    senseThreshold: Word,          // entry into Proximity
    senseReleaseThreshold: Word,   // release from Proximity
    touchThreshold: Word,          // entry into Touch
    touchReleaseThreshold: Word    // release from Touch
  )

  /** The values the constructor installs. */
  const Defaults := Config(6, 16, 5, 1, 1, 5, 2, 10, 7, 100, 80)

  /** Calibration overrides the rising debounce count with this value. */
  const CalibrationNoiseCountRising: Byte := 3

  /**
    The policy of setSamples, setReads and setInterval: zero is replaced by
    one, anything else is kept.
   */
  function Coerce(n: Word): (m: Word)
    ensures m != 0
    ensures n != 0 ==> m == n
    ensures n == 0 ==> m == 1
  {
    if n == 0 then 1 else n
  }

  /** setInterval takes 16 bits but stores 8: the stored interval is the coerced delay modulo 256. */
  function StoredInterval(delay: Word): (i: Byte)
    ensures delay < 0x100 ==> i == Coerce(delay)
    ensures (Coerce(delay) - i) % 0x100 == 0
  {
    Coerce(delay) % 0x100
  }

  /**
    The coercion does not survive the narrowing store: a delay of 256 is
    stored as an interval of 0, so every elapsed millisecond opens the gate.
   */
  lemma IntervalCoercionLost()
    ensures StoredInterval(0x100) == 0
    ensures StoredInterval(0) == StoredInterval(1) == 1
  {
  }
}
