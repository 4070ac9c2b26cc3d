/** Elapsed milliseconds as C computes them, and the busy waits built on them. */
module BusyWait {
  import opened Prelude

  const MS: nat := 1_000_000
  const SEC: nat := 1_000_000_000

  /** Busy slices per payment message, and the length payment asks for each of them. */
  const SLICES: nat := 20
  const SLICE_MS: nat := 100

  datatype Timespec = Timespec(sec: int, nsec: int) {
    predicate Valid() { 0 <= nsec < SEC }

    /** The instant in nanoseconds. */
    function Ns(): int { sec * SEC + nsec }
  }

  /** C integer division, which truncates towards zero. */
  function TruncDiv(a: int, b: nat): int
    requires b > 0
  {
    if a >= 0 then a / b else -(-a / b)
  }

  /** (t2.tv_sec - t1.tv_sec) * 1000 + (t2.tv_nsec - t1.tv_nsec) / 1000000 */
  function ElapsedMs(t1: Timespec, t2: Timespec): int {
    (t2.sec - t1.sec) * 1000 + TruncDiv(t2.nsec - t1.nsec, MS)
  }

  function CeilMs(ns: int): int { -(-ns / MS) }

  /** Exactly the floor of the true elapsed time, or exactly its ceiling when the nanosecond
      field has to borrow. */
  lemma ElapsedIsFloorOrCeiling(t1: Timespec, t2: Timespec)
    requires t1.Valid() && t2.Valid()
    ensures var d := t2.Ns() - t1.Ns();
            ElapsedMs(t1, t2) == if t1.nsec <= t2.nsec then d / MS else CeilMs(d)
  {
    var n := t2.nsec - t1.nsec;
    var d := t2.Ns() - t1.Ns();
    assert d == (t2.sec - t1.sec) * 1000 * MS + n;
    if n >= 0 {
      assert d / MS == (t2.sec - t1.sec) * 1000 + n / MS;
    } else {
      assert -d == (t1.sec - t2.sec) * 1000 * MS + (-n);
      assert -d / MS == (t1.sec - t2.sec) * 1000 + -n / MS;
    }
  }

  /** Later second samples never show less elapsed time. */
  lemma ElapsedIsMonotone(t1: Timespec, t2: Timespec, t3: Timespec)
    requires t1.Valid() && t2.Valid() && t3.Valid() && t2.Ns() <= t3.Ns()
    ensures ElapsedMs(t1, t2) <= ElapsedMs(t1, t3)
  {
    if t2.sec == t3.sec {
      assert t2.nsec <= t3.nsec;
    } else {
      assert t2.sec < t3.sec;
    }
  }

  /** Exactly when a wait may end before its time: the nanosecond field borrows and less than one
      millisecond is missing. */
  lemma EarlyReturnIff(t1: Timespec, t2: Timespec, ms: int)
    requires t1.Valid() && t2.Valid()
    ensures var d := t2.Ns() - t1.Ns();
            ElapsedMs(t1, t2) >= ms && d < ms * MS <==> t2.nsec < t1.nsec && (ms - 1) * MS < d < ms * MS
  {
    ElapsedIsFloorOrCeiling(t1, t2);
  }

  /** One slice that ends 999999 ns early. */
  lemma ShortSliceExists()
    ensures var t1, t2 := Timespec(0, 950_000_000), Timespec(1, 49_000_001);
            t1.Valid() && t2.Valid() && ElapsedMs(t1, t2) >= SLICE_MS && t2.Ns() - t1.Ns() == 99_000_001
  {
    assert -(49_000_001 - 950_000_000) / MS == 900;
  }

  /** A monotonic clock whose k-th sample is clock(k) and which passes every instant. */
  ghost predicate GoodClock(clock: nat -> Timespec) {
    && (forall k: nat :: clock(k).Valid())
    && (forall j: nat, k: nat :: j <= k ==> clock(j).Ns() <= clock(k).Ns())
    && (forall k: nat, ns: int :: PassesEventually(clock, k, ns))
  }

  ghost predicate PassesEventually(clock: nat -> Timespec, k: nat, ns: int) {
    exists j: nat :: Passes(clock, k, ns, j)
  }

  predicate Passes(clock: nat -> Timespec, k: nat, ns: int, j: nat) { k <= j && clock(j).Ns() >= ns }

  /** A wait that took its first sample at t1 ends with sample j: the first one after t1 at which
      the elapsed milliseconds reach ms. */
  predicate WaitEnds(clock: nat -> Timespec, t1: nat, ms: int, j: nat) {
    t1 < j && ElapsedMs(clock(t1), clock(j)) >= ms && forall k | t1 < k < j :: ElapsedMs(clock(t1), clock(k)) < ms
  }

  /** busy_wait_ms: samples i+1, i+2, ... until the elapsed milliseconds reach ms. It never returns
      at or before ms-1 true milliseconds, and no sample it let pass was at or beyond ms. */
  method BusyWaitMs(clock: nat -> Timespec, i: nat, ms: int) returns (j: nat)
    requires GoodClock(clock)
    ensures WaitEnds(clock, i, ms, j)
    ensures clock(j).Ns() - clock(i).Ns() > (ms - 1) * MS
    ensures forall k | i < k < j :: clock(k).Ns() - clock(i).Ns() < ms * MS
  {
    var t1 := clock(i);
    ghost var last := WaitIsOver(clock, i, ms);
    j := i + 1;
    var elapsed := ElapsedMs(t1, clock(j));
    while elapsed < ms
      invariant i < j <= last && elapsed == ElapsedMs(t1, clock(j))
      invariant forall k | i < k < j :: ElapsedMs(t1, clock(k)) < ms
      decreases last - j
    {
      j := j + 1;
      elapsed := ElapsedMs(t1, clock(j));
    }
    WaitTakes(clock, i, ms, j);
  }

  /** Some later sample ends the wait. */
  lemma WaitIsOver(clock: nat -> Timespec, i: nat, ms: int) returns (last: nat)
    requires GoodClock(clock)
    ensures last > i && ElapsedMs(clock(i), clock(last)) >= ms
  {
    assert PassesEventually(clock, i + 1, clock(i).Ns() + ms * MS);
    last :| Passes(clock, i + 1, clock(i).Ns() + ms * MS, last);
    ElapsedIsFloorOrCeiling(clock(i), clock(last));
  }

  lemma WaitTakes(clock: nat -> Timespec, i: nat, ms: int, j: nat)
    requires GoodClock(clock) && WaitEnds(clock, i, ms, j)
    ensures clock(j).Ns() - clock(i).Ns() > (ms - 1) * MS
    ensures forall k | i < k < j :: clock(k).Ns() - clock(i).Ns() < ms * MS
  {
    ElapsedIsFloorOrCeiling(clock(i), clock(j));
    forall k | i < k < j ensures clock(k).Ns() - clock(i).Ns() < ms * MS {
      ElapsedIsFloorOrCeiling(clock(i), clock(k));
    }
  }

  // ---- A payment job ----

  /** What a job is certain to take: 2000 ms less twice 999999 ns. */
  const JOB_NS: nat := 1_998_000_002

  /** The first clock sample of slice i, a message stamp which a second one follows at once. The job
      starts with sample start and slice i ends with sample ends[i]. */
  function StampOf(start: nat, ends: seq<nat>, i: nat): nat
    requires i <= |ends|
  {
    if i == 0 then start else ends[i - 1] + 1
  }

  predicate IsSlice(clock: nat -> Timespec, start: nat, ends: seq<nat>, i: nat)
    requires i < |ends|
  {
    WaitEnds(clock, StampOf(start, ends, i) + 1, SLICE_MS, ends[i])
  }

  predicate AreSlices(clock: nat -> Timespec, start: nat, ends: seq<nat>) {
    forall i: nat | i < |ends| :: IsSlice(clock, start, ends, i)
  }

  /** The samples at which the 20 waits of a payment job end. */
  predicate IsJob(clock: nat -> Timespec, start: nat, ends: seq<nat>) {
    |ends| == SLICES && AreSlices(clock, start, ends)
  }

  lemma OneMoreSlice(clock: nat -> Timespec, start: nat, ends: seq<nat>, end: nat)
    requires AreSlices(clock, start, ends) && WaitEnds(clock, StampOf(start, ends, |ends|) + 1, SLICE_MS, end)
    ensures AreSlices(clock, start, ends + [end])
  {
    forall i: nat | i < |ends| + 1 ensures IsSlice(clock, start, ends + [end], i) {
      assert StampOf(start, ends + [end], i) == StampOf(start, ends, i);
      assert i < |ends| ==> IsSlice(clock, start, ends, i);
    }
  }

  function JobTime(clock: nat -> Timespec, start: nat, ends: seq<nat>): int
    requires |ends| > 0
  {
    clock(ends[|ends| - 1]).Ns() - clock(start).Ns()
  }

  /** Slice i takes less than its 100 ms. */
  predicate Early(clock: nat -> Timespec, start: nat, ends: seq<nat>, i: nat)
    requires i < |ends|
  {
    clock(ends[i]).Ns() - clock(StampOf(start, ends, i) + 1).Ns() < SLICE_MS * MS
  }

  function EarlySlices(clock: nat -> Timespec, start: nat, ends: seq<nat>, n: nat): nat
    requires n <= |ends|
  {
    if n == 0 then 0 else EarlySlices(clock, start, ends, n - 1) + if Early(clock, start, ends, n - 1) then 1 else 0
  }

  /** An early slice lacks at most 999999 ns and a full second strikes while it lasts. */
  lemma EarlySliceCrossesSecond(clock: nat -> Timespec, start: nat, ends: seq<nat>, i: nat)
    requires GoodClock(clock) && i < |ends| && IsSlice(clock, start, ends, i)
    ensures var t1 := StampOf(start, ends, i) + 1;
            && clock(ends[i]).Ns() - clock(t1).Ns() >=
               SLICE_MS * MS - (if Early(clock, start, ends, i) then 999_999 else 0)
            && (Early(clock, start, ends, i) ==> clock(t1).sec < clock(ends[i]).sec)
  {
    EarlyReturnIff(clock(StampOf(start, ends, i) + 1), clock(ends[i]), SLICE_MS);
  }

  /** What the first n slices take, when e of them are early: 100 ms each less at most 999999 ns for
      every early one. Each of those crosses a second of its own; `second` is the first crossed. */
  lemma {:induction false} SlicesTake(clock: nat -> Timespec, start: nat, ends: seq<nat>, n: nat)
    returns (e: nat, second: int)
    requires GoodClock(clock) && IsJob(clock, start, ends) && n <= SLICES
    ensures e == EarlySlices(clock, start, ends, n)
    ensures var now := if n == 0 then clock(start).Ns() else clock(ends[n - 1]).Ns();
            && now - clock(start).Ns() >= n * SLICE_MS * MS - e * 999_999
            && (e > 0 ==> clock(start).Ns() < second * SEC && (second + e - 1) * SEC <= now)
    decreases n
  {
    if n == 0 {
      e, second := 0, 0;
    } else {
      e, second := SlicesTake(clock, start, ends, n - 1);
      var i, t1 := n - 1, StampOf(start, ends, n - 1) + 1;
      assert IsSlice(clock, start, ends, i);
      EarlySliceCrossesSecond(clock, start, ends, i);
      assert i > 0 ==> clock(ends[i - 1]).Ns() <= clock(t1).Ns();
      assert clock(start).Ns() <= clock(t1).Ns() <= clock(ends[i]).Ns();
      if Early(clock, start, ends, i) {
        var struck := clock(ends[i]).sec;
        if e == 0 {
          second := struck;
        } else {
          assert second + e - 1 <= clock(t1).sec < struck;
        }
        e := e + 1;
      }
    }
  }

  /** A job never takes less than JOB_NS, and it takes its 2000 ms if no slice is early. */
  lemma JobTakes(clock: nat -> Timespec, start: nat, ends: seq<nat>)
    requires GoodClock(clock) && IsJob(clock, start, ends)
    ensures JobTime(clock, start, ends) >= JOB_NS
    ensures EarlySlices(clock, start, ends, SLICES) == 0 ==> JobTime(clock, start, ends) >= SLICES * SLICE_MS * MS
  {
    var e, second := SlicesTake(clock, start, ends, SLICES);
    if e >= 3 {
      assert (second + 2) * SEC <= clock(ends[SLICES - 1]).Ns();
    }
  }

  /** One payment job: 20 slices of 100 ms, each preceded by a clock reading for the message. From
      the first reading to the last it takes more than 1998 ms. */
  method PaymentJob(clock: nat -> Timespec, start: nat) returns (end: nat, ghost ends: seq<nat>)
    requires GoodClock(clock)
    ensures IsJob(clock, start, ends) && end == ends[SLICES - 1]
    ensures clock(end).Ns() - clock(start).Ns() >= JOB_NS
    ensures EarlySlices(clock, start, ends, SLICES) == 0 ==> clock(end).Ns() - clock(start).Ns() >= 2000 * MS
  {
    ends := [];
    end := start;
    var next := start;
    for i := 0 to SLICES
      invariant |ends| == i && next == StampOf(start, ends, i) && (i > 0 ==> end == ends[i - 1])
      invariant AreSlices(clock, start, ends)
    {
      var stamp := clock(next);
      end := BusyWaitMs(clock, next + 1, SLICE_MS);
      next := end + 1;
      OneMoreSlice(clock, start, ends, end);
      ends := ends + [end];
    }
    JobTakes(clock, start, ends);
  }

  // ---- The bound is met ----

  /** Slice boundaries of a job that starts at 0.95 s and whose first and eleventh slices take
      99.000001 ms, all others 100 ms. */
  function ShortJobNs(i: nat): nat {
    if i == 0 then 950_000_000
    else if i <= 10 then 1_049_000_001 + (i - 1) * SLICE_MS * MS
    else 2_048_000_002 + (i - 11) * SLICE_MS * MS
  }

  /** Three samples per slice: stamp and first sample at its beginning, one at its end. */
  function ShortJobClock(k: nat): Timespec {
    var ns := ShortJobNs(k / 3 + if k % 3 == 2 then 1 else 0);
    Timespec(ns / SEC, ns % SEC)
  }

  lemma ShortJobNsGrows(i: nat, j: nat)
    requires i <= j
    ensures i <= ShortJobNs(i) <= ShortJobNs(j)
  {
  }

  lemma ShortJobClockIsGood()
    ensures GoodClock(ShortJobClock)
  {
    forall k: nat ensures ShortJobClock(k).Ns() == ShortJobNs(k / 3 + if k % 3 == 2 then 1 else 0) {
    }
    forall j: nat, k: nat | j <= k ensures ShortJobClock(j).Ns() <= ShortJobClock(k).Ns() {
      ShortJobNsGrows(j / 3 + if j % 3 == 2 then 1 else 0, k / 3 + if k % 3 == 2 then 1 else 0);
    }
    forall k: nat, ns: int ensures PassesEventually(ShortJobClock, k, ns) {
      var n: nat := Max(k, ns);
      ShortJobNsGrows(n, n);
      assert 3 * n / 3 == n && Passes(ShortJobClock, k, ns, 3 * n);
    }
  }

  lemma ShortJobSlice(i: nat)
    requires i < SLICES
    ensures WaitEnds(ShortJobClock, 3 * i + 1, SLICE_MS, 3 * i + 2)
  {
    var a, b := ShortJobNs(i), ShortJobNs(i + 1);
    assert ShortJobClock(3 * i + 1) == Timespec(a / SEC, a % SEC);
    assert ShortJobClock(3 * i + 2) == Timespec(b / SEC, b % SEC);
    ElapsedIsFloorOrCeiling(ShortJobClock(3 * i + 1), ShortJobClock(3 * i + 2));
  }

  function ShortJobEnds(): (ends: seq<nat>)
    ensures |ends| == SLICES && forall i: nat | i < SLICES :: ends[i] == 3 * i + 2
  {
    seq(SLICES, (i: nat) => 3 * i + 2)
  }

  lemma ShortJobIsJob()
    ensures IsJob(ShortJobClock, 0, ShortJobEnds())
  {
    forall i: nat | i < SLICES ensures IsSlice(ShortJobClock, 0, ShortJobEnds(), i) {
      ShortJobSlice(i);
      assert StampOf(0, ShortJobEnds(), i) == 3 * i;
    }
  }

  /** A job on a perfectly good clock that takes JOB_NS exactly. */
  lemma ShortestJobExists() returns (clock: nat -> Timespec, ends: seq<nat>)
    ensures GoodClock(clock) && IsJob(clock, 0, ends) && JobTime(clock, 0, ends) == JOB_NS < 2000 * MS
  {
    clock, ends := ShortJobClock, ShortJobEnds();
    ShortJobClockIsGood();
    ShortJobIsJob();
    assert ShortJobClock(ends[19]).Ns() == ShortJobNs(20) && ShortJobClock(0).Ns() == ShortJobNs(0);
  }
}
