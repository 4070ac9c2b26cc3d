/** Finding the counter's tick rate: device-tree value, calibration against the clock, cache. */
module Calibration {
  import opened Prelude
  import opened BusyWait

  const WINDOW: nat := 10_000_000

  // ---- The device-tree cell ----

  function DecodeBe(b: seq<byte>): nat
    requires |b| == 4
  {
    (b[0] as nat) * 0x100_0000 + (b[1] as nat) * 0x1_0000 + (b[2] as nat) * 0x100 + b[3] as nat
  }

  function EncodeBe(v: nat): seq<byte>
    requires v < 0x1_0000_0000
  {
    [(v / 0x100_0000) as byte, (v / 0x1_0000 % 0x100) as byte, (v / 0x100 % 0x100) as byte, (v % 0x100) as byte]
  }

  lemma DecodeEncode(v: nat)
    requires v < 0x1_0000_0000
    ensures DecodeBe(EncodeBe(v)) == v
  {
    assert v / 0x1_0000 == v / 0x100_0000 * 0x100 + v / 0x1_0000 % 0x100;
    assert v / 0x100 == v / 0x1_0000 * 0x100 + v / 0x100 % 0x100;
  }

  lemma StripByte(high: nat, low: nat)
    requires low < 0x100
    ensures (high * 0x100 + low) / 0x100 == high && (high * 0x100 + low) % 0x100 == low
  {
  }

  lemma EncodeDecode(b: seq<byte>)
    requires |b| == 4
    ensures DecodeBe(b) < 0x1_0000_0000 && EncodeBe(DecodeBe(b)) == b
  {
    var w1 := (b[0] as nat) * 0x100 + b[1] as nat;
    var w2 := w1 * 0x100 + b[2] as nat;
    var w := w2 * 0x100 + b[3] as nat;
    StripByte(b[0] as nat, b[1] as nat);
    StripByte(w1, b[2] as nat);
    StripByte(w2, b[3] as nat);
    assert DecodeBe(b) == w;
    assert w / 0x1_0000 == w1 && w / 0x100_0000 == b[0] as nat;
  }

  /** Every 32-bit frequency survives the big-endian cell, and every cell is such a frequency. */
  lemma BigEndianRoundTrip(v: nat, b: seq<byte>)
    requires v < 0x1_0000_0000 && |b| == 4
    ensures DecodeBe(EncodeBe(v)) == v
    ensures DecodeBe(b) < 0x1_0000_0000 && EncodeBe(DecodeBe(b)) == b
  {
    DecodeEncode(v);
    EncodeDecode(b);
  }

  // ---- The calibration formula ----

  /** (c1 - c0) * 1000000000ULL / elapsed_ns in 64-bit unsigned arithmetic. */
  function Frequency(c0: nat, c1: nat, elapsed: nat): nat
    requires elapsed > 0
  {
    (c1 - c0) % TWO64 * SEC % TWO64 / elapsed
  }

  /** The 64-bit product is exact if and only if the tick difference is at most 18446744073. */
  lemma ProductFitsIff(ticks: nat)
    requires ticks < TWO64
    ensures ticks * SEC % TWO64 == ticks * SEC <==> ticks <= 18446744073
  {
  }

  lemma FrequencyIsQuotient(c0: nat, c1: nat, elapsed: nat)
    requires elapsed > 0 && 0 <= c1 - c0 <= 18446744073
    ensures var freq := Frequency(c0, c1, elapsed);
            freq * elapsed <= (c1 - c0) * 1_000_000_000 < (freq + 1) * elapsed
  {
    var ns := (c1 - c0) * SEC;
    assert Frequency(c0, c1, elapsed) == ns / elapsed;
    assert ns == elapsed * (ns / elapsed) + ns % elapsed;
  }

  /** An ideal counter of rate f (ticks per second) at the instant x (nanoseconds). */
  function Ideal(f: real, phase: real, x: real): int { (f * x / 1000000000.0 + phase).Floor }

  lemma ScaleKeepsOrder(a: real, b: real, e: real)
    requires a <= b && e >= 0.0
    ensures a * e <= b * e
  {
  }

  lemma CancelScale(a: real, b: real, e: real)
    requires e > 0.0 && a * e < b * e
    ensures a < b
  {
    if b <= a {
      ScaleKeepsOrder(b, a, e);
    }
  }

  lemma SplitDifference(a: real, b: real, e: real)
    ensures (a - b) * e == a * e - b * e
  {
  }

  /** Ticks counted between two phases of the ideal counter, scaled back to nanoseconds. */
  lemma FloorDifference(y0: real, y1: real)
    requires y0 <= y1
    ensures var ticks := y1.Floor - y0.Floor;
            ticks >= 0 && -1000000000.0 < (ticks * SEC) as real - (y1 - y0) * 1000000000.0 < 1000000000.0
  {
    var ticks := y1.Floor - y0.Floor;
    assert -1.0 < ticks as real - (y1 - y0) < 1.0;
    assert (ticks * SEC) as real == ticks as real * 1000000000.0;
  }

  lemma TickDifference(f: real, phase: real, x0: real, x1: real)
    requires f >= 0.0 && x0 <= x1
    ensures var ticks := Ideal(f, phase, x1) - Ideal(f, phase, x0);
            ticks >= 0 && -1000000000.0 < (ticks * SEC) as real - f * (x1 - x0) < 1000000000.0
  {
    var p0, p1 := f * x0, f * x1;
    ScaleKeepsOrder(x0, x1, f);
    SplitDifference(x1, x0, f);
    FloorDifference(p0 / 1000000000.0 + phase, p1 / 1000000000.0 + phase);
  }

  lemma BoundTimesWindow(fd: real, er: real)
    requires fd >= 0.0 && er >= 10000000.0
    ensures (fd / 10000000.0 + 101.0) * er >= fd + 1000000000.0 + er
  {
    var r := fd / 10000000.0;
    ScaleKeepsOrder(10000000.0, er, r);
    assert r * er >= fd;
  }

  lemma FloorQuotient(n: nat, e: nat)
    requires e > 0
    ensures (n / e) as real * e as real <= n as real < (n / e) as real * e as real + e as real
  {
    assert n == e * (n / e) + n % e;
    assert ((n / e) * e) as real == (n / e) as real * e as real;
  }

  lemma ShiftBounds(f: real, d: real, shift: real, er: real)
    requires f >= 0.0 && -d <= shift <= d
    ensures f * er - f * d <= f * (er + shift) <= f * er + f * d
  {
    ScaleKeepsOrder(-d, shift, f);
    ScaleKeepsOrder(shift, d, f);
  }

  /** The estimate with its products as quantities of their own: quotient, rate and bound, each times
      the window. */
  lemma WithinScaledBound(qe: real, fe: real, be: real, fd: real, er: real, n: real)
    requires qe <= n < qe + er && fe - fd - 1000000000.0 < n < fe + fd + 1000000000.0
    requires be >= fd + 1000000000.0 + er && er >= 0.0
    ensures qe - fe < be && 0.0 * er - be < qe - fe
  {
  }

  lemma QuotientErrorScaled(f: real, fd: real, bound: real, q: real, er: real, n: real)
    requires er > 0.0 && bound * er >= fd + 1000000000.0 + er
    requires q * er <= n < q * er + er
    requires f * er - fd - 1000000000.0 < n < f * er + fd + 1000000000.0
    ensures -bound < q - f < bound
  {
    SplitDifference(q, f, er);
    SplitDifference(0.0, bound, er);
    WithinScaledBound(q * er, f * er, bound * er, fd, er, n);
    CancelScale(q - f, bound, er);
    CancelScale(0.0 - bound, q - f, er);
  }

  /** How far a floor quotient over the window can be from the rate. */
  lemma QuotientError(f: real, d: real, n: nat, e: nat, shift: real)
    requires f >= 0.0 && -d <= shift <= d && e >= WINDOW
    requires -1000000000.0 < n as real - f * (e as real + shift) < 1000000000.0
    ensures var bound := f * d / 10000000.0 + 101.0; -bound < (n / e) as real - f < bound
  {
    var er := e as real;
    ShiftBounds(f, d, shift, er);
    ScaleKeepsOrder(0.0, d, f);
    FloorQuotient(n, e);
    BoundTimesWindow(f * d, er);
    QuotientErrorScaled(f, f * d, f * d / 10000000.0 + 101.0, (n / e) as real, er, n as real);
  }

  /** With an ideal counter of rate f read within d ns after each clock sample, the calibrated
      frequency is off by less than f*d/10^7 + 101 Hz. */
  lemma CalibrationError(f: real, phase: real, d: real, s0: int, s1: int, lag0: real, lag1: real)
    requires f >= 0.0 && 0.0 <= lag0 <= d && 0.0 <= lag1 <= d
    requires s1 - s0 >= WINDOW && s0 as real + lag0 <= s1 as real + lag1
    requires var c0, c1 := Ideal(f, phase, s0 as real + lag0), Ideal(f, phase, s1 as real + lag1);
             0 <= c0 && c1 - c0 <= 18446744073
    ensures var c0, c1 := Ideal(f, phase, s0 as real + lag0), Ideal(f, phase, s1 as real + lag1);
            && c1 >= c0
            && var freq := Frequency(c0, c1, s1 - s0) as real;
               -(f * d / 10000000.0 + 101.0) < freq - f < f * d / 10000000.0 + 101.0
  {
    var x0, x1 := s0 as real + lag0, s1 as real + lag1;
    TickDifference(f, phase, x0, x1);
    var ticks := Ideal(f, phase, x1) - Ideal(f, phase, x0);
    ProductFitsIff(ticks);
    var e := s1 - s0;
    assert x1 - x0 == e as real + (lag1 - lag0);
    QuotientError(f, d, ticks * SEC, e, lag1 - lag0);
    assert ticks % TWO64 == ticks;
  }

  // ---- The cached reader ----

  predicate PastWindow(clock: nat -> Timespec, n: nat) { clock(n).Ns() - clock(0).Ns() >= WINDOW }

  predicate FirstPast(clock: nat -> Timespec, n: nat) {
    PastWindow(clock, n) && forall k | 1 <= k < n :: !PastWindow(clock, k)
  }

  /** What a call leaves in the cache when calibration would find the given value. */
  function Found(cached: nat, node: Option<seq<byte>>, calibrated: nat): nat {
    if cached != 0 then cached
    else if node.Some? && |node.value| >= 4 && DecodeBe(node.value[..4]) != 0 then DecodeBe(node.value[..4])
    else calibrated
  }

  /** The first sample 10 ms or more after sample 0 is n, and freq is the rate of the ticks counted up
      to it, rounded down, whenever their number times 10^9 fits in 64 bits. */
  predicate Calibrated(clock: nat -> Timespec, c0: nat, c1: nat, n: nat, freq: nat) {
    var elapsed := clock(n).Ns() - clock(0).Ns();
    && elapsed >= 10_000_000 && (forall k | 1 <= k < n :: clock(k).Ns() - clock(0).Ns() < 10_000_000)
    && freq == Frequency(c0, c1, elapsed)
    && (0 <= c1 - c0 <= 18446744073 ==> freq * elapsed <= (c1 - c0) * 1_000_000_000 < (freq + 1) * elapsed)
  }

  lemma WindowCalibrates(clock: nat -> Timespec, c0: nat, c1: nat, n: nat)
    requires FirstPast(clock, n)
    ensures Calibrated(clock, c0, c1, n, Frequency(c0, c1, clock(n).Ns() - clock(0).Ns()))
  {
    var elapsed := clock(n).Ns() - clock(0).Ns();
    forall k | 1 <= k < n ensures clock(k).Ns() - clock(0).Ns() < 10_000_000 {
      assert !PastWindow(clock, k);
    }
    if 0 <= c1 - c0 <= 18446744073 {
      FrequencyIsQuotient(c0, c1, elapsed);
    }
  }

  /** read_freerun_freq with its static cache. */
  class FrequencyReader {
    var cached: nat

    constructor ()
      ensures cached == 0
    {
      cached := 0;
    }

    /** node is the device-tree file if it can be opened; c0 and c1 are what the counter shows at
        the two reads. n is the clock sample that ended the calibration window. */
    method ReadFreq(node: Option<seq<byte>>, clock: nat -> Timespec, c0: nat, c1: nat)
      returns (freq: nat, ghost n: nat)
      requires GoodClock(clock)
      modifies this
      ensures n >= 1 && FirstPast(clock, n)
      ensures freq == Found(old(cached), node, Frequency(c0, c1, clock(n).Ns() - clock(0).Ns()))
      ensures cached == freq
      ensures var b := if node.Some? && |node.value| >= 4 then node.value else [0, 0, 0, 0];
              var cell := (b[0] as nat) * 16777216 + (b[1] as nat) * 65536 + (b[2] as nat) * 256 + b[3] as nat;
              && (old(cached) != 0 ==> freq == old(cached))
              && (old(cached) == 0 && cell != 0 ==> freq == cell)
              && (old(cached) == 0 && cell == 0 ==> Calibrated(clock, c0, c1, n, freq))
    {
      n := FirstSample(clock);
      if cached != 0 {
        return cached, n;
      }
      if node.Some? {
        if |node.value| >= 4 {
          cached := DecodeBe(node.value[..4]);
        }
      }
      if cached == 0 {
        var t0 := clock(0);
        var k := 1;
        while clock(k).Ns() - t0.Ns() < WINDOW
          invariant 1 <= k <= n && cached == 0
          decreases n - k
        {
          k := k + 1;
        }
        assert PastWindow(clock, k);
        var elapsed := clock(k).Ns() - t0.Ns();
        cached := Frequency(c0, c1, elapsed);
        WindowCalibrates(clock, c0, c1, k);
      }
      freq := cached;
    }
  }

  lemma FirstSample(clock: nat -> Timespec) returns (n: nat)
    requires GoodClock(clock)
    ensures n >= 1 && FirstPast(clock, n)
  {
    assert PassesEventually(clock, 1, clock(0).Ns() + WINDOW);
    var last: nat :| Passes(clock, 1, clock(0).Ns() + WINDOW, last);
    n := 1;
    while !PastWindow(clock, n)
      invariant 1 <= n <= last && forall k | 1 <= k < n :: !PastWindow(clock, k)
      decreases last - n
    {
      n := n + 1;
    }
  }

  /** The cache over a series of calls, each with its own device-tree file and calibration. */
  function CacheAfter(calls: seq<(Option<seq<byte>>, nat)>): nat {
    if calls == [] then 0
    else
      var last := calls[|calls| - 1];
      Found(CacheAfter(calls[..|calls| - 1]), last.0, last.1)
  }

  /** Once a call has produced a non-zero frequency every later call returns the same one. */
  lemma {:induction false} FrequencyNeverChanges(calls: seq<(Option<seq<byte>>, nat)>, i: nat)
    requires i <= |calls| && CacheAfter(calls[..i]) != 0
    ensures CacheAfter(calls) == CacheAfter(calls[..i])
  {
    if i == |calls| {
      assert calls[..i] == calls;
    } else {
      var shorter := calls[..|calls| - 1];
      assert shorter[..i] == calls[..i];
      FrequencyNeverChanges(shorter, i);
    }
  }
}
