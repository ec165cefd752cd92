/**
  The two filtering stages of CapacitivePin.cpp: updateSample averages
  `samples` charge cycles, each cut off at the timeout, into one raw reading;
  update keeps the last raw readings in a 16-slot circular buffer whose running
  sum gives the data value.
 */
module Filter {
  import opened Ints

  /** Capacity of _raws, whatever _reads says. */
  const Slots := 16

  function Sum(s: seq<nat>): nat
  {
    if s == [] then 0 else Sum(s[..|s| - 1]) + s[|s| - 1]
  }

  /** Replacing one element changes the sum by the difference. */
  lemma {:induction false} SumReplace(s: seq<nat>, i: nat, v: nat)
    requires i < |s|
    ensures s[i] <= Sum(s)
    ensures Sum(s[i := v]) + s[i] == Sum(s) + v
  {
    var n := |s| - 1;
    if i < n {
      SumReplace(s[..n], i, v);
      assert s[i := v][..n] == s[..n][i := v];
    } else {
      assert s[i := v][..n] == s[..n];
    }
  }

  lemma SumSnoc(s: seq<nat>, x: nat)
    ensures Sum(s + [x]) == Sum(s) + x
  {
    assert (s + [x])[..|s|] == s;
  }

  /** Every element at most `hi` bounds the sum by |s| * hi, and at least `lo` from below. */
  lemma {:induction false} SumBounds(s: seq<nat>, lo: nat, hi: nat)
    requires forall j :: 0 <= j < |s| ==> lo <= s[j] <= hi
    ensures |s| * lo <= Sum(s) <= |s| * hi
  {
    if s != [] {
      var n := |s| - 1;
      SumBounds(s[..n], lo, hi);
      assert Sum(s) == Sum(s[..n]) + s[n];
      assert |s| * lo == n * lo + lo && |s| * hi == n * hi + hi;
    }
  }

  /** A block of k copies of v followed by zeros sums to k * v. */
  lemma {:induction false} SumOfBlock(s: seq<nat>, k: nat, v: nat)
    requires k <= |s|
    requires forall j :: 0 <= j < k ==> s[j] == v
    requires forall j :: k <= j < |s| ==> s[j] == 0
    ensures Sum(s) == k * v
  {
    if s != [] {
      var n := |s| - 1;
      if k == |s| {
        SumOfBlock(s[..n], n, v);
      } else {
        SumOfBlock(s[..n], k, v);
      }
    }
  }

  // ---------------------------------------------------------------------------
  // updateSample

  /**
    The sum, in mathematical integers, of the tick counts of the charge
    cycles: each cycle counts up to the tick at which the receive pin first
    reads high, and stops at the timeout.
   */
  function CappedTotal(ticks: seq<nat>, timeout: nat): nat
  {
    if ticks == [] then 0 else CappedTotal(ticks[..|ticks| - 1], timeout) + Min(ticks[|ticks| - 1], timeout)
  }

  /** One more charge cycle adds its capped count to the total. */
  lemma CappedTotalNext(ticks: seq<nat>, i: nat, timeout: nat)
    requires i < |ticks|
    ensures CappedTotal(ticks[..i + 1], timeout) == CappedTotal(ticks[..i], timeout) + Min(ticks[i], timeout)
  {
    assert ticks[..i + 1][..i] == ticks[..i];
  }

  /**
    The 16-bit running total of updateSample after one more charge cycle is
    the exact total of the cycles so far, modulo 65536.
   */
  lemma WrappedTotalNext(ticks: seq<nat>, i: nat, timeout: nat, total: nat, count: nat)
    requires i < |ticks|
    requires total == CappedTotal(ticks[..i], timeout) % 0x1_0000
    requires count == Min(ticks[i], timeout)
    ensures (total + count) % 0x1_0000 == CappedTotal(ticks[..i + 1], timeout) % 0x1_0000
  {
    var before := CappedTotal(ticks[..i], timeout);
    CappedTotalNext(ticks, i, timeout);
    assert (before % 0x1_0000 + count) % 0x1_0000 == (before + count) % 0x1_0000;
  }

  /** No cycle counts beyond the timeout. */
  lemma {:induction false} CappedTotalAtMost(ticks: seq<nat>, timeout: nat)
    ensures CappedTotal(ticks, timeout) <= |ticks| * timeout
  {
    if ticks != [] {
      var n := |ticks| - 1;
      CappedTotalAtMost(ticks[..n], timeout);
      assert |ticks| * timeout == n * timeout + timeout;
    }
  }

  /** Cycles that all see the same pin response count that response, capped, each. */
  lemma {:induction false} CappedTotalOfSteady(ticks: seq<nat>, timeout: nat, t: nat)
    requires forall j :: 0 <= j < |ticks| ==> ticks[j] == t
    ensures CappedTotal(ticks, timeout) == |ticks| * Min(t, timeout)
  {
    if ticks != [] {
      var n := |ticks| - 1;
      CappedTotalOfSteady(ticks[..n], timeout, t);
      assert |ticks| * Min(t, timeout) == n * Min(t, timeout) + Min(t, timeout);
    }
  }

  /**
    The raw reading: the 16-bit running total (which wraps) divided, with
    truncation, by the number of cycles. Unless the total wrapped, it lies
    within the timeout.
   */
  function SampleAverage(ticks: seq<nat>, timeout: Word, samples: Byte): (avg: Word)
    requires samples >= 1
    requires |ticks| == samples
    ensures CappedTotal(ticks, timeout) < 0x1_0000 ==> avg <= timeout
  {
    CappedTotalAtMost(ticks, timeout);
    DivAtMost(CappedTotal(ticks, timeout) % 0x1_0000, samples, timeout);
    (CappedTotal(ticks, timeout) % 0x1_0000) / samples
  }

  /**
    A steady pin response gives back its own tick count (capped at the
    timeout) when the total does not wrap; a pin that never rises gives the
    timeout itself.
   */
  lemma SteadyResponse(ticks: seq<nat>, timeout: Word, samples: Byte, t: nat)
    requires samples >= 1 && |ticks| == samples
    requires forall j :: 0 <= j < |ticks| ==> ticks[j] == t
    requires samples * Min(t, timeout) < 0x1_0000
    ensures SampleAverage(ticks, timeout, samples) == Min(t, timeout)
  {
    var m := Min(t, timeout);
    CappedTotalOfSteady(ticks, timeout, t);
    DivExact(samples * m, samples, m);
  }

  // ---------------------------------------------------------------------------
  // The running average

  /** `if(++_readIndex >= _reads) _readIndex = 0;`: the write index advances modulo the read count. */
  function NextIndex(i: Byte, count: Byte): (j: Byte)
    requires i < Slots && 1 <= count <= Slots
    ensures j < count
    ensures i < count ==> j == (i + 1) % count
    ensures i >= count ==> j == 0
  {
    if i + 1 >= count then
      assert i < count ==> i + 1 == count && (i + 1) % count == 0;
      0
    else
      assert (i + 1) % count == i + 1;
      i + 1
  }

  /** The circular buffer: its slots, the next slot to overwrite, and the running sum. */
  datatype Window = Window(raws: seq<Word>, readIndex: Byte, runningAverage: nat)

  /** The running sum is the sum of all 16 slots, and the index stays inside the array. */
  predicate WindowValid(w: Window)
  {
    |w.raws| == Slots && w.readIndex < Slots && w.runningAverage == Sum(w.raws)
  }

  /** Slots from `count` on are zero, as long as no sample was written with a larger read count. */
  predicate TailClear(w: Window, count: Byte)
    requires |w.raws| == Slots
  {
    forall j :: count <= j < Slots ==> w.raws[j] == 0
  }

  /**
    One raw reading enters the buffer: the oldest slot's value leaves the
    running sum, the new reading replaces it and joins the sum, and the index
    advances. Only the slot at readIndex changes, and the sum stays exact.
   */
  function Push(w: Window, count: Byte, raw: Word): (r: Window)
    requires WindowValid(w) && 1 <= count <= Slots
    ensures WindowValid(r)
    ensures r.raws[w.readIndex] == raw
    ensures forall j :: 0 <= j < Slots && j != w.readIndex ==> r.raws[j] == w.raws[j]
    ensures r.readIndex < count
    ensures w.readIndex < count && TailClear(w, count) ==> TailClear(r, count)
  {
    SumReplace(w.raws, w.readIndex, raw);
    var ra := w.runningAverage - w.raws[w.readIndex] + raw;
    Window(w.raws[w.readIndex := raw], NextIndex(w.readIndex, count), ra)
  }

  /** `_data = _runningAverage / _reads`, stored into 16 bits. */
  function DataOf(w: Window, count: Byte): Word
    requires 1 <= count
  {
    (w.runningAverage / count) % 0x1_0000
  }

  /**
    The store into 16 bits truncates nothing when the slots from `count` on
    are clear, and in particular with sixteen reads: the data value is then
    the floor of the mean of the `count` live slots.
   */
  lemma DataIsMean(w: Window, count: Byte)
    requires WindowValid(w) && 1 <= count <= Slots
    requires TailClear(w, count) || count == Slots
    ensures DataOf(w, count) == Sum(w.raws[..count]) / count
    ensures count * DataOf(w, count) <= w.runningAverage < count * DataOf(w, count) + count
  {
    var live := w.raws[..count];
    SumOfTail(w.raws, count);
    assert w.runningAverage == Sum(live);
    SumBounds(live, 0, 0xFFFF);
    DivAtMost(w.runningAverage, count, 0xFFFF);
    var q := w.runningAverage / count;
    assert 0 <= q < 0x1_0000;
    assert q % 0x1_0000 == q;
    DivBracket(w.runningAverage, count);
  }

  /** Zero slots after position k add nothing to the sum. */
  lemma {:induction false} SumOfTail(s: seq<nat>, k: nat)
    requires k <= |s|
    requires forall j :: k <= j < |s| ==> s[j] == 0
    ensures Sum(s) == Sum(s[..k])
  {
    if |s| > k {
      var n := |s| - 1;
      assert s[..n][..k] == s[..k];
      SumOfTail(s[..n], k);
    } else {
      assert s[..k] == s;
    }
  }

  /** n pushes of the same raw reading. */
  ghost function Feed(w: Window, count: Byte, raw: Word, n: nat): (r: Window)
    requires WindowValid(w) && 1 <= count <= Slots
    ensures WindowValid(r)
  {
    if n == 0 then w else Push(Feed(w, count, raw, n - 1), count, raw)
  }

  /** Slot j is among the n slots written cyclically, within the first count, from start on. */
  predicate Covered(start: nat, n: nat, count: nat, j: nat)
  {
    (start <= j < start + n && j < count) || j < start + n - count
  }

  /**
    After n <= count pushes of one reading from an index below count, the n
    slots from that index on (cyclically within the first count slots) hold
    the reading and every other slot is untouched.
   */
  lemma {:induction false} FeedCovers(w: Window, count: Byte, raw: Word, n: nat)
    requires WindowValid(w) && 1 <= count <= Slots && w.readIndex < count
    requires n <= count
    ensures Feed(w, count, raw, n).readIndex == (if w.readIndex + n < count then w.readIndex + n else w.readIndex + n - count)
    ensures forall j :: 0 <= j < Slots ==>
      Feed(w, count, raw, n).raws[j] == if Covered(w.readIndex, n, count, j) then raw else w.raws[j]
  {
    if n > 0 {
      FeedCovers(w, count, raw, n - 1);
      var p := Feed(w, count, raw, n - 1);
      var i := p.readIndex;
      assert i == (if w.readIndex + n - 1 < count then w.readIndex + n - 1 else w.readIndex + n - 1 - count);
      var r := Push(p, count, raw);
      assert Feed(w, count, raw, n) == r;
      assert r.readIndex == NextIndex(i, count);
      forall j | 0 <= j < Slots
        ensures r.raws[j] == if Covered(w.readIndex, n, count, j) then raw else w.raws[j]
      {
        if j == i {
          assert Covered(w.readIndex, n, count, j);
        } else {
          assert Covered(w.readIndex, n, count, j) == Covered(w.readIndex, n - 1, count, j);
        }
      }
    }
  }

  /**
    Steady state: feeding the same raw reading `count` times, from an index
    below count and with a clear tail, makes the data value exactly that reading.
   */
  lemma SteadyState(w: Window, count: Byte, raw: Word)
    requires WindowValid(w) && 1 <= count <= Slots && w.readIndex < count
    requires TailClear(w, count)
    ensures DataOf(Feed(w, count, raw, count), count) == raw
  {
    var r := Feed(w, count, raw, count);
    FeedCovers(w, count, raw, count);
    assert forall j :: 0 <= j < count ==> Covered(w.readIndex, count, count, j);
    SumOfBlock(r.raws, count, raw);
    DivExact(r.runningAverage, count, raw);
  }

  /** With the default sixteen count there is no tail: sixteen equal readings always give that reading. */
  lemma SteadyStateSixteen(w: Window, raw: Word)
    requires WindowValid(w)
    ensures DataOf(Feed(w, Slots, raw, Slots), Slots) == raw
  {
    SteadyState(w, Slots, raw);
  }
}
