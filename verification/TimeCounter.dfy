/** Reading the 64-bit time counter of RV32 through its two 32-bit halves. */
module TimeCounter {
  import opened Prelude

  /** The halves the CSR reads return while the counter stands at t. */
  function Lo(t: nat): nat { t % TWO32 }

  function Hi(t: nat): nat { t / TWO32 % TWO32 }

  function Join(hi: nat, lo: nat): nat { hi * TWO32 + lo }

  /** The counter never runs backwards; t(j) is its value at the j-th CSR read of the loop. */
  ghost predicate Monotone(t: nat -> nat) {
    forall i: nat, j: nat :: i <= j ==> t(i) <= t(j)
  }

  /** Iteration i reads high, low, high at instants 3i, 3i+1, 3i+2 and leaves the loop if the two
      high halves agree. */
  predicate Agrees(t: nat -> nat, i: nat) { Hi(t(3 * i)) == Hi(t(3 * i + 2)) }

  /** By how much the unbounded high word moves from a to b. */
  function HighSteps(a: nat, b: nat): int { b / TWO32 - a / TWO32 }

  /** During iteration i the high word goes all the way round. */
  predicate Laps(t: nat -> nat, i: nat) { HighSteps(t(3 * i), t(3 * i + 2)) >= TWO32 }

  /** A counter that has not wrapped never laps, however long an iteration takes. */
  lemma UnwrappedNeverLaps(t: nat -> nat, i: nat)
    requires t(3 * i + 2) < TWO64
    ensures !Laps(t, i)
  {
    assert t(3 * i + 2) / TWO32 < TWO32;
  }

  /** Nor does one that wraps, unless an iteration takes more than 2^64 - 2^32 ticks. */
  lemma ShortIterationsNeverLap(t: nat -> nat, i: nat)
    requires t(3 * i + 2) - t(3 * i) <= TWO64 - TWO32
    ensures !Laps(t, i)
  {
    var a, b := t(3 * i), t(3 * i + 2);
    assert b == TWO32 * (b / TWO32) + b % TWO32 && a == TWO32 * (a / TWO32) + a % TWO32;
  }

  lemma JoinHalves(t: nat)
    ensures Join(Hi(t), Lo(t)) == t % TWO64
  {
    var h := t / TWO32;
    assert t == TWO32 * h + t % TWO32;
    var q := h / TWO32;
    assert h == TWO32 * q + h % TWO32;
    assert t == TWO64 * q + (TWO32 * (h % TWO32) + t % TWO32);
  }

  /** Equal high halves around an iteration that does not lap mean the high word stood still. */
  lemma AgreementMeansNoCarry(a: nat, m: nat, b: nat)
    requires a <= m <= b && HighSteps(a, b) < TWO32 && Hi(a) == Hi(b)
    ensures Hi(m) == Hi(a)
  {
    var ha, hm, hb := a / TWO32, m / TWO32, b / TWO32;
    assert ha <= hm <= hb;
    assert hb == TWO32 * (hb / TWO32) + hb % TWO32 && ha == TWO32 * (ha / TWO32) + ha % TWO32;
    assert hb - ha == TWO32 * (hb / TWO32 - ha / TWO32);
  }

  /** Agreeing high halves vouch for every low half that may have been read between them if and only
      if the high word moved by less than 2^32. */
  lemma AgreementIsRightIff(a: nat, b: nat)
    requires a <= b && Hi(a) == Hi(b)
    ensures (forall m: nat | a <= m <= b :: Join(Hi(a), Lo(m)) == m % TWO64) <==> HighSteps(a, b) < TWO32
  {
    if HighSteps(a, b) < TWO32 {
      forall m: nat | a <= m <= b ensures Join(Hi(a), Lo(m)) == m % TWO64 {
        AgreementMeansNoCarry(a, m, b);
        JoinHalves(m);
      }
    } else {
      var m := CarryBetween(a, b);
      JoinHalves(m);
      assert Join(Hi(a), Lo(m)) != m % TWO64;
    }
  }

  /** The first instant after a at which the high half shows another value. */
  lemma CarryBetween(a: nat, b: nat) returns (m: nat)
    requires a <= b && HighSteps(a, b) >= TWO32
    ensures a <= m <= b && Hi(m) != Hi(a)
  {
    var ha := a / TWO32;
    m := (ha + 1) * TWO32;
    assert m / TWO32 == ha + 1;
    assert a == TWO32 * ha + a % TWO32 && b == TWO32 * (b / TWO32) + b % TWO32;
    assert TWO32 * (ha + 1) <= TWO32 * (b / TWO32);
    assert ha % TWO32 != (ha + 1) % TWO32;
  }

  /** Two failing iterations in a row take at least 2^32 ticks. */
  lemma TwoFailuresSpan(t: nat -> nat, i: nat)
    requires Monotone(t) && !Agrees(t, i) && !Agrees(t, i + 1)
    ensures t(3 * i + 5) - t(3 * i) > TWO32
  {
    var a, b, c, d := t(3 * i), t(3 * i + 2), t(3 * i + 3), t(3 * i + 5);
    assert 3 * (i + 1) == 3 * i + 3 && 3 * (i + 1) + 2 == 3 * i + 5;
    assert a / TWO32 < b / TWO32 <= c / TWO32 < d / TWO32;
    assert d >= TWO32 * (d / TWO32) && a < TWO32 * (a / TWO32) + TWO32;
    assert TWO32 * (a / TWO32 + 2) <= TWO32 * (d / TWO32);
  }

  lemma AtMostOneRetry(t: nat -> nat, n: nat)
    requires Monotone(t) && forall i: nat | i < n :: !Agrees(t, i)
    ensures t(5) - t(0) <= TWO32 ==> n <= 1
  {
    if n > 1 {
      TwoFailuresSpan(t, 0);
    }
  }

  /** A counter that stays within 64 bits lets the loop end: every failure raises the high word. */
  lemma {:induction false} BoundedCounterAgrees(t: nat -> nat, i: nat) returns (m: nat)
    requires Monotone(t) && forall j: nat :: t(j) < TWO64
    ensures i <= m && Agrees(t, m)
    decreases TWO32 - t(3 * i) / TWO32
  {
    if Agrees(t, i) {
      m := i;
    } else {
      assert t(3 * i) / TWO32 < t(3 * i + 2) / TWO32 <= t(3 * (i + 1)) / TWO32;
      m := BoundedCounterAgrees(t, i + 1);
    }
  }

  /** read_time_rv32, get_rdtime and the RV32 branch of read_freerun_counter. The value returned
      is the whole counter as it stood at the instant the low half was read, on every counter that
      stays below 2^64 and on every other one that does not lap in the last iteration. Whenever the
      first two iterations together take at most 2^32 ticks the loop retries at most once. */
  method ReadTimeRv32(t: nat -> nat) returns (value: nat, n: nat)
    requires Monotone(t)
    requires exists m: nat :: Agrees(t, m)
    ensures !Laps(t, n) ==> value == t(3 * n + 1) % TWO64
    ensures (forall j: nat :: t(j) < TWO64) ==> value == t(3 * n + 1)
    ensures Agrees(t, n) && forall i: nat | i < n :: !Agrees(t, i)
    ensures t(5) - t(0) <= TWO32 ==> n <= 1
  {
    ghost var m: nat :| Agrees(t, m);
    n := 0;
    var hi, lo, hi2 := Hi(t(0)), Lo(t(1)), Hi(t(2));
    while hi != hi2
      invariant hi == Hi(t(3 * n)) && lo == Lo(t(3 * n + 1)) && hi2 == Hi(t(3 * n + 2))
      invariant n <= m && forall i: nat | i < n :: !Agrees(t, i)
      decreases m - n
    {
      n := n + 1;
      hi, lo, hi2 := Hi(t(3 * n)), Lo(t(3 * n + 1)), Hi(t(3 * n + 2));
    }
    value := Join(hi, lo);
    LastIteration(t, n);
    AtMostOneRetry(t, n);
  }

  /** What the iteration that leaves the loop has read. */
  lemma LastIteration(t: nat -> nat, n: nat)
    requires Monotone(t) && Agrees(t, n)
    ensures var value := Join(Hi(t(3 * n)), Lo(t(3 * n + 1)));
            && (!Laps(t, n) ==> value == t(3 * n + 1) % TWO64)
            && ((forall j: nat :: t(j) < TWO64) ==> value == t(3 * n + 1))
  {
    if !Laps(t, n) {
      AgreementMeansNoCarry(t(3 * n), t(3 * n + 1), t(3 * n + 2));
      JoinHalves(t(3 * n + 1));
    }
    if forall j: nat :: t(j) < TWO64 {
      UnwrappedNeverLaps(t, n);
    }
  }
}
