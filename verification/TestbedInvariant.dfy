/** What every step of the testbed keeps, whichever lock is compiled in. */
module TestbedInvariant {
  import opened Prelude
  import opened LockProtocol
  import opened Testbed
  import B = BusyWait

  predicate LoggerHolds(s: State) {
    s.logger.LRead? || s.logger.LFormat? || s.logger.LAppend? || s.logger.LPost?
  }

  predicate HealthHolds(s: State) {
    s.health.HCheck? || s.health.HDelay? || s.health.HCmd? || s.health.HPost?
  }

  predicate HealthBlocked(s: State) { Health in s.lock.waiters }

  /** The lock agrees with the program counters, only health ever waits, and only a logger
      that keeps health waiting on the inheriting mutex is raised above its base priority. */
  predicate LockInv(b: Build, s: State) {
    && !(LoggerHolds(s) && HealthHolds(s))
    && (match s.lock
        case Sem(value, _) => b.PlainSemaphore? && value == if LoggerHolds(s) || HealthHolds(s) then 0 else 1
        case Mutex(owner, _) =>
          && b.InheritMutex?
          && owner == if LoggerHolds(s) then Some(Logger) else if HealthHolds(s) then Some(Health) else None)
    && (s.lock.waiters == {} || s.lock.waiters == {Health})
    && (HealthBlocked(s) ==> LoggerHolds(s) && (s.health.HWaitCheck? || s.health.HWaitCmd?))
    && s.eff == if b.InheritMutex? && HealthBlocked(s) then BASE_PRIOS.With(Logger, Base(Health)) else BASE_PRIOS
  }

  function EventsOf(h: HealthPc): seq<Ev> {
    if h.HEpoll? then [] else h.evs
  }

  /** An event health has been told about stays pending until health consumes it, so neither
      the timer read nor the socket read can block. */
  predicate EventsInv(s: State) {
    var es := EventsOf(s.health);
    && (|es| <= 1 || (|es| == 2 && es[0] != es[1]))
    && forall e | e in es :: Pending(s, e)
  }

  predicate SliceInRange(s: State) { s.payment.PSlice? ==> s.payment.i < B.SLICES }

  predicate Inv(b: Build, s: State) { LockInv(b, s) && EventsInv(s) && SliceInRange(s) }

  lemma InitKeeps(b: Build)
    ensures Inv(b, Init(b))
  {
  }

  /** Health in its critical section outranks everyone, so nobody else moves. */
  lemma HealthRunsAlone(b: Build, s: State, p: Proc)
    requires LockInv(b, s) && HealthHolds(s) && MayRun(s, p)
    ensures p == Health
  {
    assert Ready(s, Health);
  }

  /** The health program counter once it has been handed the lock. */
  function Handed(h: HealthPc): HealthPc {
    match h
    case HWaitCheck(es) => HCheck(es)
    case HWaitCmd(cmd, es) => HCmd(cmd, es)
    case other => other
  }

  /** What the logger's release amounts to: nobody else is raised any more, and health, if it was
      waiting, proceeds with the lock. */
  lemma LoggerReleases(b: Build, s: State, k: nat, w: Proc)
    requires LockInv(b, s) && Enabled(s, LoggerMove(k, w)) && s.logger.LPost?
    ensures var s' := LoggerStep(s, k, w);
            && s' == s.(logger := LPoll, lock := s'.lock, eff := BASE_PRIOS,
                        health := if HealthBlocked(s) then Handed(s.health) else s.health)
            && s'.lock == if HealthBlocked(s) then Take(NewLock(b), Health) else NewLock(b)
  {
    if HealthBlocked(s) {
      assert s.lock.waiters == {Health} && w == Health && {Health} - {w} == {};
    }
  }

  lemma LoggerKeepsLock(b: Build, s: State, k: nat, w: Proc)
    requires LockInv(b, s) && Enabled(s, LoggerMove(k, w))
    ensures LockInv(b, LoggerStep(s, k, w))
  {
    if HealthHolds(s) {
      HealthRunsAlone(b, s, Logger);
    }
    if s.logger.LPost? {
      LoggerReleases(b, s, k, w);
    } else {
      LoggerElsewhereKeepsLock(b, s, k, w);
    }
  }

  lemma LoggerElsewhereKeepsLock(b: Build, s: State, k: nat, w: Proc)
    requires LockInv(b, s) && Enabled(s, LoggerMove(k, w)) && !s.logger.LPost? && !HealthHolds(s)
    ensures LockInv(b, LoggerStep(s, k, w))
  {
  }

  lemma HealthPostKeepsLock(b: Build, s: State, evs: seq<Ev>, k: nat, late: bool, w: Proc)
    requires LockInv(b, s) && Enabled(s, HealthMove(evs, k, late, w)) && s.health.HPost?
    ensures LockInv(b, HealthStep(s, evs, k, late, w))
  {
    assert s.lock.waiters == {};
  }

  lemma HealthEntersKeepsLock(b: Build, s: State, evs: seq<Ev>, k: nat, late: bool, w: Proc)
    requires LockInv(b, s) && Enabled(s, HealthMove(evs, k, late, w)) && Free(s.lock)
    requires s.health.HWaitCheck? || s.health.HWaitCmd?
    ensures LockInv(b, HealthStep(s, evs, k, late, w))
  {
    assert s.lock.waiters == {};
  }

  lemma HealthBlocksKeepsLock(b: Build, s: State, evs: seq<Ev>, k: nat, late: bool, w: Proc)
    requires LockInv(b, s) && Enabled(s, HealthMove(evs, k, late, w)) && !Free(s.lock)
    requires s.health.HWaitCheck? || s.health.HWaitCmd?
    ensures LockInv(b, HealthStep(s, evs, k, late, w))
  {
    assert s.lock.waiters == {} && {} + {Health} == {Health};
    assert LoggerHolds(s);
  }

  lemma HealthWaitKeepsLock(b: Build, s: State, evs: seq<Ev>, k: nat, late: bool, w: Proc)
    requires LockInv(b, s) && Enabled(s, HealthMove(evs, k, late, w))
    requires s.health.HWaitCheck? || s.health.HWaitCmd?
    ensures LockInv(b, HealthStep(s, evs, k, late, w))
  {
    if Free(s.lock) {
      HealthEntersKeepsLock(b, s, evs, k, late, w);
    } else {
      HealthBlocksKeepsLock(b, s, evs, k, late, w);
    }
  }

  /** The remaining steps of health leave the lock and the logger alone and keep its hold. */
  lemma HealthElsewhereKeepsLock(b: Build, s: State, evs: seq<Ev>, k: nat, late: bool, w: Proc)
    requires LockInv(b, s) && Enabled(s, HealthMove(evs, k, late, w))
    requires !s.health.HPost? && !s.health.HWaitCheck? && !s.health.HWaitCmd?
    ensures LockInv(b, HealthStep(s, evs, k, late, w))
  {
    var s' := HealthStep(s, evs, k, late, w);
    assert s'.lock == s.lock && s'.eff == s.eff && s'.logger == s.logger by {
      match s.health
      case HCmd(cmd, es) => assert Commanded(s, cmd).lock == s.lock;
      case _ =>
    }
    assert HealthHolds(s') == HealthHolds(s);
    assert !HealthBlocked(s);
  }

  lemma HealthKeepsLock(b: Build, s: State, evs: seq<Ev>, k: nat, late: bool, w: Proc)
    requires LockInv(b, s) && Enabled(s, HealthMove(evs, k, late, w))
    ensures LockInv(b, HealthStep(s, evs, k, late, w))
  {
    if s.health.HPost? {
      HealthPostKeepsLock(b, s, evs, k, late, w);
    } else if s.health.HWaitCheck? || s.health.HWaitCmd? {
      HealthWaitKeepsLock(b, s, evs, k, late, w);
    } else {
      HealthElsewhereKeepsLock(b, s, evs, k, late, w);
    }
  }

  /** Payment, the server and outside events touch neither the lock nor the log nor its writers. */
  lemma OutsideFrame(s: State, m: Move)
    requires Enabled(s, m) && !m.LoggerMove? && !m.HealthMove?
    ensures var s' := Next(s, m);
            && s'.lock == s.lock && s'.eff == s.eff && s'.log == s.log && s'.logger == s.logger && s'.cnt == s.cnt
            && s'.health == s.health && s'.running == s.running && s'.ticks == s.ticks + if m.Tick? then 1 else 0
  {
    match m
    case ServerMove => ServerFrame(s);
    case _ =>
  }

  lemma ServerFrame(s: State)
    requires Enabled(s, ServerMove)
    ensures var s' := ServerStep(s);
            s' == s.(fifo := s'.fifo, psock := s'.psock, hsock := s'.hsock, inbox := s'.inbox, todo := s'.todo)
  {
  }

  /** Apart from its append the logger leaves the log alone and moves health only past a wait. */
  lemma LoggerFrame(b: Build, s: State, k: nat, w: Proc)
    requires LockInv(b, s) && Enabled(s, LoggerMove(k, w)) && !s.logger.LAppend?
    ensures var s' := LoggerStep(s, k, w);
            && s'.log == s.log && s'.running == s.running && s'.cnt == s.cnt && s'.ticks == s.ticks
            && (s'.health == s.health || (HealthBlocked(s) && s'.health == Handed(s.health)))
  {
    if s.logger.LPost? {
      LoggerReleases(b, s, k, w);
    }
  }

  /** Health leaves the logger, its FIFO and payment alone. */
  lemma HealthFrame(s: State, evs: seq<Ev>, k: nat, late: bool, w: Proc)
    requires Enabled(s, HealthMove(evs, k, late, w)) && s.lock.waiters <= {Health}
    ensures var s' := HealthStep(s, evs, k, late, w);
            s'.logger == s.logger && s'.fifo == s.fifo && s'.payment == s.payment
  {
    match s.health
    case HCmd(cmd, es) =>
      var c := Commanded(s, cmd);
      assert c.logger == s.logger && c.fifo == s.fifo && c.payment == s.payment;
    case _ =>
  }

  lemma StepKeepsLock(b: Build, s: State, m: Move)
    requires LockInv(b, s) && Enabled(s, m)
    ensures LockInv(b, Next(s, m))
  {
    match m
    case LoggerMove(k, w) => LoggerKeepsLock(b, s, k, w);
    case HealthMove(evs, k, late, w) => HealthKeepsLock(b, s, evs, k, late, w);
    case _ => OutsideFrame(s, m);
  }

  lemma DispatchKeepsEvents(s: State, evs: seq<Ev>, k: nat, late: bool, w: Proc)
    requires EventsInv(s) && Enabled(s, HealthMove(evs, k, late, w))
    requires s.health.HNext? && s.health.evs != []
    ensures EventsInv(HealthStep(s, evs, k, late, w))
  {
    var es := s.health.evs;
    var s' := HealthStep(s, evs, k, late, w);
    assert EventsOf(s'.health) == es[1..];
    forall e | e in es[1..] ensures Pending(s', e) {
      assert e in es && e == es[1];
    }
  }

  predicate SameSources(s: State, s': State) {
    s'.ticks == s.ticks && s'.hsock == s.hsock && s'.hEof == s.hEof && EventsOf(s'.health) == EventsOf(s.health)
  }

  lemma SameSourcesKeepEvents(s: State, s': State)
    requires EventsInv(s) && SameSources(s, s')
    ensures EventsInv(s')
  {
    forall e | e in EventsOf(s'.health) ensures Pending(s', e) {
      assert Pending(s, e);
    }
  }

  lemma PassiveHealthSteps(s: State, evs: seq<Ev>, k: nat, late: bool, w: Proc)
    requires Enabled(s, HealthMove(evs, k, late, w)) && !s.health.HEpoll? && !s.health.HNext?
    ensures SameSources(s, HealthStep(s, evs, k, late, w))
  {
    if s.health.HCmd? {
      var c := Commanded(s, s.health.cmd);
      assert c.ticks == s.ticks && c.hsock == s.hsock && c.hEof == s.hEof;
    } else if s.health.HPost? {
      var s1 := s.(health := HNext(s.health.evs));
      PostingKeepsSources(s1, Health, w);
    }
  }

  lemma PostingKeepsSources(s: State, p: Proc, w: Proc)
    ensures SameSources(s, Posted(s, p, w))
  {
  }

  lemma HealthKeepsEvents(s: State, evs: seq<Ev>, k: nat, late: bool, w: Proc)
    requires EventsInv(s) && Enabled(s, HealthMove(evs, k, late, w))
    ensures EventsInv(HealthStep(s, evs, k, late, w))
  {
    if s.health.HNext? && s.health.evs != [] {
      DispatchKeepsEvents(s, evs, k, late, w);
    } else if !s.health.HEpoll? && !s.health.HNext? {
      PassiveHealthSteps(s, evs, k, late, w);
      SameSourcesKeepEvents(s, HealthStep(s, evs, k, late, w));
    }
  }

  lemma LoggerKeepsEvents(s: State, k: nat, w: Proc)
    requires EventsInv(s) && Enabled(s, LoggerMove(k, w))
    ensures EventsInv(LoggerStep(s, k, w))
  {
    if s.logger.LPost? {
      PostingKeepsSources(s.(logger := LPoll), Logger, w);
    }
    SameSourcesKeepEvents(s, LoggerStep(s, k, w));
  }

  lemma StepKeepsEvents(s: State, m: Move)
    requires EventsInv(s) && Enabled(s, m)
    ensures EventsInv(Next(s, m))
  {
    match m
    case LoggerMove(k, w) => LoggerKeepsEvents(s, k, w);
    case HealthMove(evs, k, late, w) => HealthKeepsEvents(s, evs, k, late, w);
    case _ => OthersKeepEvents(s, m);
  }

  lemma OthersKeepEvents(s: State, m: Move)
    requires EventsInv(s) && Enabled(s, m) && !m.LoggerMove? && !m.HealthMove?
    ensures EventsInv(Next(s, m))
  {
    var s' := Next(s, m);
    assert s'.health == s.health;
    forall e | Pending(s, e) ensures Pending(s', e) {
    }
  }

  lemma StepKeepsSlices(s: State, m: Move)
    requires SliceInRange(s) && Enabled(s, m) && s.lock.waiters <= {Health}
    ensures SliceInRange(Next(s, m))
  {
    match m
    case HealthMove(evs, k, late, w) => HealthFrame(s, evs, k, late, w);
    case ServerMove => ServerFrame(s);
    case _ =>
  }

  lemma StepKeepsInv(b: Build, s: State, m: Move)
    requires Inv(b, s) && Enabled(s, m)
    ensures Inv(b, Next(s, m))
  {
    StepKeepsLock(b, s, m);
    StepKeepsEvents(s, m);
    StepKeepsSlices(s, m);
  }

  lemma {:induction false} RunKeepsInv(b: Build, s: State, ms: seq<Move>)
    requires Inv(b, s) && Legal(s, ms)
    ensures Inv(b, Exec(s, ms))
    decreases |ms|
  {
    if ms == [] {
    } else {
      StepKeepsInv(b, s, ms[0]);
      RunKeepsInv(b, Next(s, ms[0]), ms[1..]);
    }
  }

  lemma LockInvInherits(s: State)
    requires LockInv(InheritMutex, s)
    ensures Inherits(s.lock, s.eff)
  {
  }

  /** In every reachable state of either build at most one process is in its critical section,
      the owner outranks its waiters, and the logger itself never sleeps on the lock. */
  lemma MutualExclusionAndRank(b: Build, ms: seq<Move>)
    requires Legal(Init(b), ms)
    ensures var s := Exec(Init(b), ms);
            && !(LoggerHolds(s) && HealthHolds(s))
            && (b.InheritMutex? ==> Inherits(s.lock, s.eff))
            && OwnerOutranksWaiters(s.lock, s.eff)
            && s.lock.waiters <= {Health}
  {
    InitKeeps(b);
    RunKeepsInv(b, Init(b), ms);
    var s := Exec(Init(b), ms);
    if b.InheritMutex? {
      LockInvInherits(s);
      InheritingOwnerOutranks(s.lock, s.eff);
    }
  }
}
