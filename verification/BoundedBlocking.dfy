/** How long health waits for the lock when the inheriting mutex is compiled in. */
module BoundedBlocking {
  import opened Prelude
  import opened LockProtocol
  import opened Testbed
  import opened TestbedInvariant

  /** The logger holds the lock and is about to read a FIFO with nothing in it. */
  predicate AtEmptyRead(s: State) { s.logger.LRead? && s.fifo == "" }

  /** Steps left in the logger's critical section once its read has data. */
  function Remaining(pc: LoggerPc): nat {
    match pc
    case LRead => 4
    case LFormat(_) => 3
    case LAppend(_) => 2
    case LPost => 1
    case _ => 0
  }

  predicate BlockedThroughout(s: State, ms: seq<Move>)
    requires Legal(s, ms)
    decreases |ms|
  {
    HealthBlocked(s) && (ms == [] || BlockedThroughout(Next(s, ms[0]), ms[1..]))
  }

  /** Payment and the server, whose steps inside the window would be an inversion. */
  predicate Outsider(m: Move) { m.PaymentMove? || m.ServerMove? }

  predicate HasOutsider(ms: seq<Move>) { exists i | 0 <= i < |ms| :: Outsider(ms[i]) }

  function LoggerMoves(ms: seq<Move>): nat {
    if ms == [] then 0 else (if ms[0].LoggerMove? then 1 else 0) + LoggerMoves(ms[1..])
  }

  lemma WindowStep(s: State, m: Move)
    requires Inv(InheritMutex, s) && HealthBlocked(s) && !AtEmptyRead(s) && Enabled(s, m)
    ensures !Outsider(m) && !m.HealthMove?
    ensures !m.LoggerMove? ==> HealthBlocked(Next(s, m)) && Next(s, m).logger == s.logger
    ensures m.LoggerMove? && !s.logger.LPost? ==>
              HealthBlocked(Next(s, m)) && Remaining(Next(s, m).logger) == Remaining(s.logger) - 1
    ensures m.LoggerMove? && s.logger.LPost? ==> !HealthBlocked(Next(s, m)) && HealthHolds(Next(s, m))
    ensures !AtEmptyRead(Next(s, m))
  {
    assert Ready(s, Logger);
    assert s.lock.waiters == {Health};
    if m.LoggerMove? && s.logger.LPost? {
      assert m.wake == Health;
    }
  }

  /** From any point of any run at which health is blocked and the logger's read has data, health
      stays blocked only while the logger works through the rest of its critical section:
      neither payment nor the server takes a step and the logger takes fewer than Remaining. */
  lemma {:induction false} BoundedBlockingFrom(s: State, ms: seq<Move>)
    requires Inv(InheritMutex, s) && !AtEmptyRead(s)
    requires Legal(s, ms) && BlockedThroughout(s, ms)
    ensures !HasOutsider(ms) && LoggerMoves(ms) < Remaining(s.logger)
    decreases |ms|
  {
    if ms == [] {
    } else {
      WindowStep(s, ms[0]);
      StepKeepsInv(InheritMutex, s, ms[0]);
      BoundedBlockingFrom(Next(s, ms[0]), ms[1..]);
      forall i | 0 <= i < |ms| ensures !Outsider(ms[i]) {
        assert i > 0 ==> ms[i] == ms[1..][i - 1];
      }
    }
  }

  /** And the wait does end: the logger alone carries out exactly those steps, the last of which
      hands the lock to health. */
  lemma {:induction false} LoggerHandsOver(s: State) returns (ms: seq<Move>)
    requires Inv(InheritMutex, s) && HealthBlocked(s) && !AtEmptyRead(s)
    ensures |ms| == Remaining(s.logger) && LoggerMoves(ms) == |ms|
    ensures Legal(s, ms) && HealthHolds(Exec(s, ms))
    decreases Remaining(s.logger)
  {
    var m := LoggerMove(if s.logger.LRead? then 1 else 0, Health);
    assert s.lock.waiters == {Health} && Ready(s, Logger) && Enabled(s, m);
    WindowStep(s, m);
    StepKeepsInv(InheritMutex, s, m);
    if s.logger.LPost? {
      ms := [m];
      assert ms[1..] == [];
    } else {
      var rest := LoggerHandsOver(Next(s, m));
      ms := [m] + rest;
      assert ms[1..] == rest;
    }
  }

  ghost predicate OutsiderCanRun(s: State) {
    exists ms :: Legal(s, ms) && BlockedThroughout(s, ms) && HasOutsider(ms)
  }

  /** The exact condition, over both builds: while health is blocked payment or the server can run
      before it gets the lock if and only if the lock is the plain semaphore or the logger holds it
      at the read of an empty FIFO. */
  lemma InversionIff(b: Build, s: State)
    requires Inv(b, s) && HealthBlocked(s)
    ensures OutsiderCanRun(s) <==> b.PlainSemaphore? || AtEmptyRead(s)
  {
    if b.PlainSemaphore? {
      var ms := OutsiderRun(s);
    } else if AtEmptyRead(s) {
      EmptyReadRun(s);
    } else {
      forall ms | Legal(s, ms) && BlockedThroughout(s, ms) ensures !HasOutsider(ms) {
        BoundedBlockingFrom(s, ms);
      }
    }
  }

  /** A new writer makes the read of the empty FIFO sleep. */
  lemma EmptyReadRun(s: State)
    requires Inv(InheritMutex, s) && HealthBlocked(s) && AtEmptyRead(s)
    ensures OutsiderCanRun(s)
  {
    var s1 := Next(s, OpenWriter);
    var ms := OutsiderRun(s1);
    var all := [OpenWriter] + ms;
    assert all[1..] == ms;
    assert Legal(s, all) && BlockedThroughout(s, all);
    var i :| 0 <= i < |ms| && Outsider(ms[i]);
    assert Outsider(all[i + 1]);
  }

  /** A request arrives, and payment or the server runs while health waits for a logger that is not
      raised or asleep. */
  lemma OutsiderRun(s: State) returns (ms: seq<Move>)
    requires HealthBlocked(s) && s.eff.payment == Base(Payment) && s.eff.server == Base(Server)
    requires Ready(s, Logger) ==> s.eff.logger == Base(Logger)
    ensures Legal(s, ms) && BlockedThroughout(s, ms) && HasOutsider(ms)
  {
    var s1 := Next(s, Arrive(0, "x"));
    assert !Ready(s1, Health) && Ready(s1, Server);
    var m := if Ready(s1, Payment) then PaymentMove(if s1.psock == "" then 0 else 1, false) else ServerMove;
    assert Enabled(s1, m);
    OutsiderKeepsBlocked(s1, m);
    ms := [Arrive(0, "x"), m];
    assert ms[1..] == [m] && [m][1..] == [];
    assert Legal(s1, [m]) && BlockedThroughout(s1, [m]);
    assert Outsider(ms[1]);
  }

  lemma OutsiderKeepsBlocked(s: State, m: Move)
    requires HealthBlocked(s) && Enabled(s, m) && Outsider(m)
    ensures HealthBlocked(Next(s, m))
  {
  }

  // ---- Whole runs ----

  /** No poll of the run is answered by a hang-up: somebody keeps the FIFO's write end open. */
  predicate WriterAtPolls(s: State, ms: seq<Move>)
    requires Legal(s, ms)
    decreases |ms|
  {
    ms == [] || ((ms[0].LoggerMove? && s.logger.LPoll? ==> s.writers > 0) && WriterAtPolls(Next(s, ms[0]), ms[1..]))
  }

  predicate DataAtRead(s: State) { s.logger.LWait? || s.logger.LRead? ==> s.fifo != "" }

  lemma StepKeepsData(s: State, m: Move)
    requires DataAtRead(s) && Enabled(s, m) && s.lock.waiters <= {Health}
    requires m.LoggerMove? && s.logger.LPoll? ==> s.writers > 0
    ensures DataAtRead(Next(s, m))
  {
    match m
    case LoggerMove(k, w) => LoggerKeepsData(s, k, w);
    case HealthMove(evs, k, late, w) => HealthFrame(s, evs, k, late, w);
    case _ =>
  }

  lemma LoggerKeepsData(s: State, k: nat, w: Proc)
    requires DataAtRead(s) && Enabled(s, LoggerMove(k, w)) && (s.logger.LPoll? ==> s.writers > 0)
    ensures DataAtRead(LoggerStep(s, k, w))
  {
    if s.logger.LPost? {
      assert LoggerStep(s, k, w).fifo == s.fifo && (w != Logger || s.lock.waiters == {});
    }
  }

  lemma {:induction false} RunKeepsData(s: State, ms: seq<Move>)
    requires Inv(InheritMutex, s) && DataAtRead(s) && Legal(s, ms) && WriterAtPolls(s, ms)
    ensures DataAtRead(Exec(s, ms)) && Inv(InheritMutex, Exec(s, ms))
    decreases |ms|
  {
    if ms == [] {
    } else {
      StepKeepsData(s, ms[0]);
      StepKeepsInv(InheritMutex, s, ms[0]);
      RunKeepsData(Next(s, ms[0]), ms[1..]);
    }
  }

  /** The promise of the inheriting build. In every run from the start in which the FIFO has a
      writer whenever it is polled, and at every moment health is blocked in it, health is delayed
      by at most the logger's four critical steps and by nobody else. */
  lemma InheritanceBoundsBlocking(before: seq<Move>, window: seq<Move>)
    requires Legal(Init(InheritMutex), before) && WriterAtPolls(Init(InheritMutex), before)
    requires var s := Exec(Init(InheritMutex), before); Legal(s, window) && BlockedThroughout(s, window)
    ensures !HasOutsider(window)
    ensures LoggerMoves(window) < Remaining(Exec(Init(InheritMutex), before).logger) <= 4
  {
    InitKeeps(InheritMutex);
    RunKeepsData(Init(InheritMutex), before);
    BoundedBlockingFrom(Exec(Init(InheritMutex), before), window);
  }
}
