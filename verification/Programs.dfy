/** The main loops of logger, health and payment as the programs are written, on the shared lock,
    log and channels changed in place. Run undisturbed, one iteration of each is exactly a run of
    that process's moves in the step system. */
module Programs {
  import opened Prelude
  import opened LockProtocol
  import opened Testbed
  import opened TestbedInvariant
  import B = BusyWait

  // ---- Runs of one process alone ----

  /** The effect of one turn of the logger's loop. */
  function LoggerTurn(s: State, k: nat): State
    requires k <= |s.fifo|
  {
    if s.fifo == "" then s
    else
      s.(fifo := s.fifo[k..], cnt := s.cnt + 1, log := s.log + [LogRecord(s.cnt + 1, RecordText(s.fifo[..k]))])
  }

  predicate Quiet(s: State) { !Ready(s, Health) && !Ready(s, Payment) && s.lock.waiters == {} }

  lemma LoggerMayRun(b: Build, s: State)
    requires LockInv(b, s) && Quiet(s) && !ReadWouldSleep(s)
    ensures MayRun(s, Logger)
  {
  }

  lemma LoggerEnters(b: Build, s: State, k: nat) returns (ms: seq<Move>)
    requires LockInv(b, s) && s.logger.LPoll? && Free(s.lock) && Quiet(s) && (s.fifo != "" || s.writers == 0)
    ensures Legal(s, ms) && Exec(s, ms) == s.(logger := LRead, lock := Take(s.lock, Logger))
    ensures LockInv(b, Exec(s, ms)) && Quiet(Exec(s, ms))
  {
    LoggerMayRun(b, s);
    ms := Then(s, [], LoggerMove(k, Logger));
    var s1 := s.(logger := LWait);
    assert Exec(s, ms) == s1;
    LoggerMayRun(b, s1);
    ms := Then(s, ms, LoggerMove(k, Logger));
  }

  lemma LoggerReads(b: Build, s: State, k: nat) returns (ms: seq<Move>)
    requires LockInv(b, s) && s.logger.LRead? && Quiet(s) && s.fifo != "" && ReadCount(s.fifo, 255, k)
    ensures Legal(s, ms) && Exec(s, ms) == s.(fifo := s.fifo[k..], logger := LAppend(RecordText(s.fifo[..k])))
  {
    LoggerMayRun(b, s);
    ms := Then(s, [], LoggerMove(k, Logger));
    var s1 := s.(fifo := s.fifo[k..], logger := LFormat(s.fifo[..k]));
    assert Exec(s, ms) == s1;
    LoggerMayRun(b, s1);
    ms := Then(s, ms, LoggerMove(k, Logger));
  }

  lemma LoggerWrites(b: Build, s: State, k: nat) returns (ms: seq<Move>)
    requires LockInv(b, s) && s.logger.LRead? && Quiet(s) && s.fifo != "" && ReadCount(s.fifo, 255, k)
    ensures Legal(s, ms) && Exec(s, ms) == LoggerTurn(s, k).(logger := LPost)
  {
    ms := LoggerReads(b, s, k);
    var s1 := s.(fifo := s.fifo[k..], logger := LAppend(RecordText(s.fifo[..k])));
    LoggerMayRun(b, s1);
    ms := Then(s, ms, LoggerMove(k, Logger));
    LoggerAppendsTurn(s, s1, k);
  }

  lemma LoggerAppendsTurn(s: State, s1: State, k: nat)
    requires s.fifo != "" && k <= |s.fifo| && Enabled(s1, LoggerMove(k, Logger))
    requires s1 == s.(fifo := s.fifo[k..], logger := LAppend(RecordText(s.fifo[..k])))
    ensures Next(s1, LoggerMove(k, Logger)) == LoggerTurn(s, k).(logger := LPost)
  {
  }

  lemma LoggerLeaves(b: Build, s: State, k: nat) returns (ms: seq<Move>)
    requires LockInv(b, s) && Quiet(s)
    requires s.logger.LPost? || (s.logger.LRead? && s.fifo == "" && s.writers == 0)
    ensures Legal(s, ms) && Exec(s, ms) == s.(logger := LPoll, lock := NewLock(b))
  {
    ms := [];
    if s.logger.LRead? {
      ms := Then(s, ms, LoggerMove(0, Logger));
    }
    var s1 := s.(logger := LPost);
    assert Exec(s, ms) == s1 && LockInv(b, s1);
    ms := Then(s, ms, LoggerMove(k, Logger));
    LoggerReleases(b, s1, k, Logger);
  }

  lemma LoggerInside(b: Build, s: State, k: nat) returns (ms: seq<Move>)
    requires LockInv(b, s) && s.logger.LRead? && Quiet(s) && ReadCount(s.fifo, 255, k)
    requires s.fifo != "" || s.writers == 0
    ensures Legal(s, ms) && Exec(s, ms) == LoggerTurn(s, k).(logger := LPoll, lock := NewLock(b))
  {
    if s.fifo == "" {
      ms := LoggerLeaves(b, s, k);
    } else {
      ms := LoggerWrites(b, s, k);
      var s1 := Exec(s, ms);
      assert LockInv(b, s1) && Quiet(s1);
      var leave := LoggerLeaves(b, s1, k);
      RunsCompose(s, ms, leave);
      ms := ms + leave;
    }
  }

  lemma LoggerPollsInVain(b: Build, s: State, k: nat) returns (ms: seq<Move>)
    requires LockInv(b, s) && s.logger.LPoll? && Quiet(s) && s.fifo == "" && s.writers > 0
    ensures Legal(s, ms) && Exec(s, ms) == s
  {
    ms := Then(s, [], LoggerMove(k, Logger));
  }

  /** A turn of the logger's loop with nobody more urgent about. */
  lemma LoggerAlone(b: Build, s: State, k: nat) returns (ms: seq<Move>)
    requires LockInv(b, s) && s.logger.LPoll? && s.lock == NewLock(b) && Quiet(s) && ReadCount(s.fifo, 255, k)
    ensures Legal(s, ms) && Exec(s, ms) == LoggerTurn(s, k)
  {
    if s.fifo == "" && s.writers > 0 {
      ms := LoggerPollsInVain(b, s, k);
    } else {
      var enter := LoggerEnters(b, s, k);
      var s1 := Exec(s, enter);
      var inside := LoggerInside(b, s1, k);
      RunsCompose(s, enter, inside);
      ms := enter + inside;
      LoggerTurnFromInside(s, s1, k);
    }
  }

  lemma LoggerTurnFromInside(s: State, s1: State, k: nat)
    requires k <= |s.fifo| && s1 == s.(logger := s1.logger, lock := s1.lock) && s.logger.LPoll?
    ensures LoggerTurn(s1, k).(logger := LPoll, lock := s.lock) == LoggerTurn(s, k)
  {
  }

  /** The variables health's loop works on. */
  datatype Vars = Vars(log: seq<Record>, running: bool, ticks: nat, hsock: string)

  function VarsOf(s: State): Vars { Vars(s.log, s.running, s.ticks, s.hsock) }

  function WithVars(s: State, v: Vars, h: HealthPc): State {
    s.(log := v.log, running := v.running, ticks := v.ticks, hsock := v.hsock, health := h)
  }

  /** The effect of handling one event in health's loop, and of handling them one after the other. */
  function EventHandled(v: Vars, e: Ev, k: nat, late: bool): Vars {
    match e
    case Timer =>
      if v.running then v.(ticks := 0, log := v.log + [HealthCheck] + if late then [HealthDelay] else [])
      else v.(ticks := 0)
    case Client =>
      if !(0 < k <= |v.hsock|) then v
      else
        var rest := v.(hsock := v.hsock[k..]);
        match Verdict(v.hsock[..k])
        case None => rest
        case Some(on) => rest.(running := on, log := v.log + [Line(on)])
  }

  function EventsHandled(v: Vars, evs: seq<Ev>, k: nat, late: bool): Vars
    decreases |evs|
  {
    if evs == [] then v else EventsHandled(EventHandled(v, evs[0], k, late), evs[1..], k, late)
  }

  /** Only health moves, each with what the clock says about the check it may be part of. */
  predicate AllHealth(ms: seq<Move>, late: bool) { forall m | m in ms :: m.HealthMove? && m.late == late }

  lemma CheckAlone(b: Build, s: State, late: bool, es: seq<Ev>) returns (ms: seq<Move>)
    requires LockInv(b, s) && Free(s.lock) && s.lock.waiters == {} && s.health == HWaitCheck(es)
    ensures Legal(s, ms) && AllHealth(ms, late)
    ensures Exec(s, ms) == s.(log := s.log + [HealthCheck] + (if late then [HealthDelay] else []), health := HPost(es),
                              lock := Take(s.lock, Health))
  {
    var m := HealthMove([], 0, late, Health);
    ms := Then(s, [], m);
    var s1 := s.(lock := Take(s.lock, Health), health := HCheck(es));
    assert Exec(s, ms) == s1;
    ms := Then(s, ms, m);
    var s2 := s1.(log := s.log + [HealthCheck], health := HDelay(es));
    assert Exec(s, ms) == s2;
    ms := Then(s, ms, m);
  }

  lemma CommandAlone(b: Build, s: State, cmd: string, late: bool, es: seq<Ev>) returns (ms: seq<Move>)
    requires LockInv(b, s) && Free(s.lock) && s.lock.waiters == {} && s.health == HWaitCmd(cmd, es)
    ensures Legal(s, ms) && AllHealth(ms, late)
    ensures Exec(s, ms) == Commanded(s, cmd).(health := HPost(es), lock := Take(s.lock, Health))
  {
    var m := HealthMove([], 0, late, Health);
    ms := Then(s, [], m);
    var s1 := s.(lock := Take(s.lock, Health), health := HCmd(cmd, es));
    assert Exec(s, ms) == s1 && Ready(s1, Health);
    ms := Then(s, ms, m);
    CommandedFrame(s, cmd, Take(s.lock, Health), HCmd(cmd, es));
  }

  lemma CommandedFrame(s: State, cmd: string, l: Lock, h: HealthPc)
    ensures Commanded(s.(lock := l, health := h), cmd) == Commanded(s, cmd).(lock := l, health := h)
  {
  }

  lemma ReleaseAlone(b: Build, s: State, late: bool) returns (ms: seq<Move>)
    requires LockInv(b, s) && s.health.HPost?
    ensures Legal(s, ms) && AllHealth(ms, late)
    ensures Exec(s, ms) == s.(health := HNext(s.health.evs), lock := NewLock(b))
  {
    ms := Then(s, [], HealthMove([], 0, late, Health));
  }

  /** Health takes up the next event of its list. */
  lemma Dispatched(s: State, k: nat, late: bool) returns (ms: seq<Move>)
    requires s.lock.waiters == {} && s.eff == BASE_PRIOS && s.health.HNext? && s.health.evs != []
    requires Pending(s, s.health.evs[0]) && ReadCount(s.hsock, 127, k)
    ensures Legal(s, ms) && AllHealth(ms, late)
    ensures var es := s.health.evs;
            Exec(s, ms) ==
              if es[0] == Timer then s.(ticks := 0, health := if s.running then HWaitCheck(es[1..]) else HNext(es[1..]))
              else if k == 0 then s.(health := HNext(es[1..]))
              else s.(hsock := s.hsock[k..], health := HWaitCmd(s.hsock[..k], es[1..]))
  {
    ms := Then(s, [], HealthMove([], k, late, Health));
  }

  lemma ReleasedAfter(b: Build, s: State, before: seq<Move>, late: bool) returns (ms: seq<Move>)
    requires AllHealth(before, late)
    requires Legal(s, before) && Exec(s, before).health.HPost? && LockInv(b, Exec(s, before))
    ensures Legal(s, ms) && AllHealth(ms, late)
    ensures Exec(s, ms) == Exec(s, before).(health := HNext(Exec(s, before).health.evs), lock := NewLock(b))
  {
    var more := ReleaseAlone(b, Exec(s, before), late);
    RunsCompose(s, before, more);
    ms := before + more;
  }

  lemma TimerAlone(b: Build, s: State, k: nat, late: bool) returns (ms: seq<Move>)
    requires LockInv(b, s) && s.lock == NewLock(b) && s.health.HNext? && s.health.evs != [] && s.health.evs[0] == Timer
    requires s.ticks > 0
    ensures Legal(s, ms) && AllHealth(ms, late)
    ensures Exec(s, ms) == WithVars(s, EventHandled(VarsOf(s), Timer, k, late), HNext(s.health.evs[1..]))
  {
    ms := Dispatched(s, if s.hsock == "" then 0 else 1, late);
    if s.running {
      var s1 := s.(ticks := 0, health := HWaitCheck(s.health.evs[1..]));
      assert Exec(s, ms) == s1 && LockInv(b, s1);
      var more := CheckAlone(b, s1, late, s1.health.evs);
      RunsCompose(s, ms, more);
      ms := ms + more;
      assert LockInv(b, Exec(s, ms));
      ms := ReleasedAfter(b, s, ms, late);
    }
  }

  lemma ClientAlone(b: Build, s: State, k: nat, late: bool) returns (ms: seq<Move>)
    requires LockInv(b, s) && s.lock == NewLock(b) && s.health.HNext? && s.health.evs != [] && s.health.evs[0] == Client
    requires Pending(s, Client) && ReadCount(s.hsock, 127, k)
    ensures Legal(s, ms) && AllHealth(ms, late)
    ensures Exec(s, ms) == WithVars(s, EventHandled(VarsOf(s), Client, k, late), HNext(s.health.evs[1..]))
  {
    ms := Dispatched(s, k, late);
    if k > 0 {
      var cmd, es := s.hsock[..k], s.health.evs[1..];
      var s1 := s.(hsock := s.hsock[k..], health := HWaitCmd(cmd, es));
      assert Exec(s, ms) == s1 && LockInv(b, s1);
      var more := CommandAlone(b, s1, cmd, late, es);
      RunsCompose(s, ms, more);
      ms := ms + more;
      assert LockInv(b, Exec(s, ms));
      ms := ReleasedAfter(b, s, ms, late);
    }
  }

  lemma HandledKeepsRest(b: Build, s: State, k: nat, late: bool)
    requires LockInv(b, s) && s.lock == NewLock(b) && s.health.HNext? && s.health.evs != []
    requires EventsInv(s) && (Client in s.health.evs ==> ReadCount(s.hsock, 127, k))
    ensures var s1 := WithVars(s, EventHandled(VarsOf(s), s.health.evs[0], k, late), HNext(s.health.evs[1..]));
            LockInv(b, s1) && EventsInv(s1) && (Client in s1.health.evs ==> ReadCount(s1.hsock, 127, k))
  {
    var evs := s.health.evs;
    var s1 := WithVars(s, EventHandled(VarsOf(s), evs[0], k, late), HNext(evs[1..]));
    forall e | e in evs[1..] ensures Pending(s1, e) {
      assert e in evs && e == evs[1] && Pending(s, e);
    }
  }

  /** Health handles its events, lock and all, without anybody getting in between. */
  lemma {:induction false} EventsAlone(b: Build, s: State, k: nat, late: bool) returns (ms: seq<Move>)
    requires LockInv(b, s) && s.lock == NewLock(b) && s.health.HNext?
    requires EventsInv(s) && (Client in s.health.evs ==> ReadCount(s.hsock, 127, k))
    ensures Legal(s, ms) && AllHealth(ms, late)
    ensures Exec(s, ms) == WithVars(s, EventsHandled(VarsOf(s), s.health.evs, k, late), HNext([]))
    decreases |s.health.evs|
  {
    var evs := s.health.evs;
    if evs == [] {
      ms := [];
    } else {
      assert Pending(s, evs[0]);
      if evs[0] == Timer {
        ms := TimerAlone(b, s, k, late);
      } else {
        ms := ClientAlone(b, s, k, late);
      }
      var s1 := Exec(s, ms);
      HandledKeepsRest(b, s, k, late);
      var rest := EventsAlone(b, s1, k, late);
      RunsCompose(s, ms, rest);
      ms := ms + rest;
    }
  }

  lemma HealthWakes(b: Build, s: State, evs: seq<Ev>, k: nat, late: bool) returns (ms: seq<Move>)
    requires LockInv(b, s) && s.lock == NewLock(b) && s.health.HEpoll? && Reportable(s, evs)
    ensures Legal(s, ms) && AllHealth(ms, late)
    ensures Exec(s, ms) == s.(health := HNext(evs)) && EventsInv(Exec(s, ms))
  {
    assert Pending(s, evs[0]);
    ms := Then(s, [], HealthMove(evs, k, late, Health));
  }

  lemma HealthSleeps(s: State, late: bool) returns (ms: seq<Move>)
    requires s.lock.waiters == {} && s.eff == BASE_PRIOS && s.health == HNext([])
    ensures Legal(s, ms) && AllHealth(ms, late) && Exec(s, ms) == s.(health := HEpoll)
  {
    ms := Then(s, [], HealthMove([], if s.hsock == "" then 0 else 1, late, Health));
  }

  /** A turn of health's loop. */
  lemma HealthAlone(b: Build, s: State, evs: seq<Ev>, k: nat, late: bool) returns (ms: seq<Move>)
    requires LockInv(b, s) && s.lock == NewLock(b) && s.health.HEpoll?
    requires Reportable(s, evs) && ReadCount(s.hsock, 127, k)
    ensures Legal(s, ms) && AllHealth(ms, late)
    ensures Exec(s, ms) == WithVars(s, EventsHandled(VarsOf(s), evs, k, late), HEpoll)
  {
    ms := HealthWakes(b, s, evs, k, late);
    var s1 := s.(health := HNext(evs));
    var work := EventsAlone(b, s1, k, late);
    RunsCompose(s, ms, work);
    ms := ms + work;
    var sleep := HealthSleeps(Exec(s, ms), late);
    RunsCompose(s, ms, sleep);
    ms := ms + sleep;
  }

  /** The moves of n slices in a row. */
  function SliceMoves(n: nat): (ms: seq<Move>)
    ensures |ms| == n
    ensures n > 0 ==> ms == [PaymentMove(0, true)] + SliceMoves(n - 1)
  {
    if n == 0 then [] else [PaymentMove(0, true)] + SliceMoves(n - 1)
  }

  /** Payment works through the slices of a message. */
  lemma {:induction false} SlicesAlone(s: State, i: nat)
    requires s.payment == PSlice(i) && i < B.SLICES && MayRun(s, Payment)
    ensures var ms := SliceMoves(B.SLICES - i); Legal(s, ms) && Exec(s, ms) == s.(payment := PRead)
    decreases B.SLICES - i
  {
    var m := PaymentMove(0, true);
    var s1 := s.(payment := if i + 1 < B.SLICES then PSlice(i + 1) else PRead);
    assert Next(s, m) == s1;
    if i + 1 < B.SLICES {
      assert Ready(s1, Payment);
      SlicesAlone(s1, i + 1);
    }
    assert SliceMoves(B.SLICES - i)[1..] == SliceMoves(B.SLICES - i - 1);
  }

  /** It reads k bytes and then completes 20 slices. */
  function MessageMoves(k: nat): seq<Move> { [PaymentMove(k, false)] + SliceMoves(B.SLICES) }

  lemma MessageAlone(s: State, k: nat)
    requires s.payment.PRead? && s.psock != "" && ReadCount(s.psock, 1023, k) && MayRun(s, Payment)
    ensures Legal(s, MessageMoves(k)) && Exec(s, MessageMoves(k)) == s.(psock := s.psock[k..])
  {
    var ms := Then(s, [], PaymentMove(k, false));
    var s1 := s.(psock := s.psock[k..], payment := PSlice(0));
    assert Exec(s, ms) == s1 && Ready(s1, Payment);
    SlicesAlone(s1, 0);
    RunsCompose(s, ms, SliceMoves(B.SLICES));
  }

  lemma TakeThenRelease(b: Build, p: Proc)
    ensures Release(Take(NewLock(b), p), BASE_PRIOS, p, p) == (NewLock(b), BASE_PRIOS)
  {
  }

  // ---- The programs ----

  /** What a program does to the lock and the log, in order. */
  datatype Act = Entered(p: Proc) | Wrote(line: Record) | Left(p: Proc)

  function Wrotes(lines: seq<Record>): seq<Act> {
    if lines == [] then [] else Wrotes(lines[..|lines| - 1]) + [Wrote(lines[|lines| - 1])]
  }

  lemma WroteNone(before: seq<Record>)
    ensures before <= before && Wrotes(before[|before|..]) == []
  {
  }

  lemma WroteOne(before: seq<Record>, a: Record)
    ensures var log := before + [a]; before <= log && Wrotes(log[|before|..]) == [Wrote(a)]
  {
    var log := before + [a];
    assert log[|before|..] == [a] && [a][..0] == [];
  }

  lemma WroteTwo(before: seq<Record>, a: Record, b: Record)
    ensures var log := before + [a] + [b]; before <= log && Wrotes(log[|before|..]) == [Wrote(a), Wrote(b)]
  {
    var log := before + [a] + [b];
    WroteOne([], a);
    assert [] + [a] == [a][0..] == [a] && Wrotes([a]) == [Wrote(a)];
    assert log[|before|..] == [a, b] && [a, b][..1] == [a];
    assert Wrotes([a, b]) == Wrotes([a]) + [Wrote(b)];
  }

  /** What the programs share, and the variables they keep between iterations. Which of the two lock
      objects pi_sem_wait and pi_sem_post work on is settled when the programs are built. */
  class World {
    const build: Build
    const sem: PlainSem
    const mutex: PiMutex
    var log: seq<Record>
    var cnt: nat
    var fifo: string
    var writers: nat
    var running: bool
    var ticks: nat
    var hsock: string
    var psock: string
    ghost var history: seq<Act>

    constructor (b: Build)
      ensures build == b && Shows(Init(b)) && history == [] && fresh(sem) && fresh(mutex)
    {
      build := b;
      sem := new PlainSem();
      mutex := new PiMutex();
      log, cnt := [], 0;
      fifo, writers := "", 1;
      running, ticks, hsock := false, 0, "";
      psock := "";
      history := [];
    }

    ghost function TheLock(): Lock
      reads sem, mutex
    {
      if build.PlainSemaphore? then sem.Contents() else mutex.Contents().0
    }

    ghost function Priorities(): Prios
      reads mutex
    {
      if build.PlainSemaphore? then BASE_PRIOS else mutex.eff
    }

    /** Nobody holds the lock or waits for it. */
    ghost predicate AtRest()
      reads sem, mutex
    {
      TheLock() == NewLock(build) && Priorities() == BASE_PRIOS
    }

    /** The fields are those of the step system's state s. */
    ghost predicate Shows(s: State)
      reads this, sem, mutex
    {
      && TheLock() == s.lock && Priorities() == s.eff
      && log == s.log && cnt == s.cnt && fifo == s.fifo && writers == s.writers
      && running == s.running && ticks == s.ticks && hsock == s.hsock && psock == s.psock
    }

    /** pi_sem_wait, finding the lock free. */
    method Wait(p: Proc)
      requires AtRest()
      modifies sem, mutex, this`history
      ensures TheLock() == Take(NewLock(build), p) && Priorities() == BASE_PRIOS
      ensures history == old(history) + [Entered(p)]
    {
      history := history + [Entered(p)];
      if build.PlainSemaphore? {
        var entered := sem.Wait(BASE_PRIOS, p);
      } else {
        var entered := mutex.Wait(p);
      }
    }

    /** pi_sem_post, with nobody waiting. */
    method Post(p: Proc)
      requires TheLock() == Take(NewLock(build), p) && Priorities() == BASE_PRIOS
      modifies sem, mutex, this`history
      ensures AtRest() && history == old(history) + [Left(p)]
    {
      history := history + [Left(p)];
      TakeThenRelease(build, p);
      if build.PlainSemaphore? {
        sem.Post(BASE_PRIOS, p, p);
      } else {
        mutex.Post(p);
      }
    }

    /** dprintf to the shared log. */
    method Write(line: Record)
      modifies this`log, this`history
      ensures log == old(log) + [line] && history == old(history) + [Wrote(line)]
    {
      log := log + [line];
      history := history + [Wrote(line)];
    }

    /** One turn of the logger's loop; a successful poll is followed by a read of k bytes. */
    method LoggerIteration(k: nat, ghost s: State) returns (ghost ms: seq<Move>)
      requires Shows(s) && LockInv(build, s) && s.logger.LPoll? && s.lock == NewLock(build) && Quiet(s)
      requires ReadCount(s.fifo, 255, k)
      modifies sem, mutex, this`fifo, this`cnt, this`log, this`history
      ensures Legal(s, ms) && Exec(s, ms) == LoggerTurn(s, k) && Shows(LoggerTurn(s, k))
    {
      TakeTurn(k, s);
      ms := LoggerAlone(build, s, k);
    }

    method TakeTurn(k: nat, ghost s: State)
      requires Shows(s) && s.lock == NewLock(build) && s.eff == BASE_PRIOS && ReadCount(s.fifo, 255, k)
      modifies sem, mutex, this`fifo, this`cnt, this`log, this`history
      ensures Shows(LoggerTurn(s, k))
    {
      PollAndRecord(k);
    }

    /** Since then p entered the critical section once, wrote what the log has gained inside it, and left. */
    ghost predicate Sectioned(p: Proc, logThen: seq<Record>, before: seq<Act>)
      reads this
    {
      && logThen <= log
      && history == before + [Entered(p)] + Wrotes(log[|logThen|..]) + [Left(p)]
    }

    /** Polls without blocking and enters the critical section on data or a hang-up. */
    method PollAndRecord(k: nat)
      requires AtRest() && ReadCount(fifo, 255, k)
      modifies sem, mutex, this`fifo, this`cnt, this`log, this`history
      ensures AtRest() && fifo == old(fifo)[k..]
      ensures old(fifo) == "" ==> cnt == old(cnt) && log == old(log)
      ensures old(fifo) != "" ==> cnt == old(cnt) + 1 && log == old(log) + [LogRecord(cnt, RecordText(old(fifo)[..k]))]
      ensures old(fifo) == "" && writers > 0 ==> history == old(history)
      ensures old(fifo) != "" || writers == 0 ==> Sectioned(Logger, old(log), old(history))
    {
      if fifo != "" || writers == 0 {
        ReadAndRecord(k);
      }
    }

    /** Its critical section. */
    method ReadAndRecord(k: nat)
      requires AtRest() && k <= |fifo|
      modifies sem, mutex, this`fifo, this`cnt, this`log, this`history
      ensures AtRest() && fifo == old(fifo)[k..]
      ensures k == 0 ==> cnt == old(cnt) && log == old(log)
      ensures k > 0 ==> cnt == old(cnt) + 1 && log == old(log) + [LogRecord(cnt, RecordText(old(fifo)[..k]))]
      ensures Sectioned(Logger, old(log), old(history))
    {
      Wait(Logger);
      var chunk := fifo[..k];
      fifo := fifo[k..];
      if k > 0 {
        cnt := cnt + 1;
        Write(LogRecord(cnt, RecordText(chunk)));
        WroteOne(old(log), LogRecord(cnt, RecordText(chunk)));
      } else {
        WroteNone(old(log));
      }
      Post(Logger);
    }

    /** One turn of health's loop over the events epoll reported; a command read returns k bytes,
        and t1 and t2 are the clock before the wait and after the check line. */
    method HealthIteration(evs: seq<Ev>, k: nat, t1: B.Timespec, t2: B.Timespec, ghost s: State)
      returns (ghost ms: seq<Move>)
      requires Shows(s) && LockInv(build, s) && s.lock == NewLock(build) && s.health.HEpoll?
      requires Reportable(s, evs) && ReadCount(s.hsock, 127, k)
      modifies sem, mutex, this`log, this`running, this`ticks, this`hsock, this`history
      ensures Legal(s, ms) && AllHealth(ms, B.ElapsedMs(t1, t2) > 10) && Shows(Exec(s, ms))
      ensures Exec(s, ms) == WithVars(s, EventsHandled(VarsOf(s), evs, k, B.ElapsedMs(t1, t2) > 10), HEpoll)
    {
      ghost var late := B.ElapsedMs(t1, t2) > 10;
      ms := HealthAlone(build, s, evs, k, late);
      for i := 0 to |evs|
        invariant AtRest()
        invariant EventsHandled(HealthVars(), evs[i..], k, late) == EventsHandled(VarsOf(s), evs, k, late)
      {
        assert evs[i..][1..] == evs[i + 1..];
        if evs[i] == Timer {
          CheckIfRunning(t1, t2);
        } else {
          ReadCommand(k);
        }
      }
    }

    ghost function HealthVars(): Vars
      reads this
    {
      Vars(log, running, ticks, hsock)
    }

    /** The timer branch. */
    method CheckIfRunning(t1: B.Timespec, t2: B.Timespec)
      requires AtRest()
      modifies sem, mutex, this`log, this`ticks, this`history
      ensures AtRest()
      ensures HealthVars() == EventHandled(old(HealthVars()), Timer, 0, B.ElapsedMs(t1, t2) > 10)
      ensures ticks == 0
      ensures !running ==> log == old(log) && history == old(history)
      ensures running ==> Sectioned(Health, old(log), old(history))
      ensures running && B.ElapsedMs(t1, t2) > 10 ==> log == old(log) + [HealthCheck, HealthDelay]
      ensures running && B.ElapsedMs(t1, t2) <= 10 ==> log == old(log) + [HealthCheck]
    {
      ticks := 0;
      if running {
        Wait(Health);
        Write(HealthCheck);
        var delayMs := B.ElapsedMs(t1, t2);
        if delayMs > 10 {
          Write(HealthDelay);
          WroteTwo(old(log), HealthCheck, HealthDelay);
        } else {
          WroteOne(old(log), HealthCheck);
        }
        Post(Health);
      }
    }

    /** The client branch. */
    method ReadCommand(k: nat)
      requires AtRest()
      modifies sem, mutex, this`log, this`running, this`hsock, this`history
      ensures AtRest()
      ensures HealthVars() == EventHandled(old(HealthVars()), Client, k, false)
      ensures !(0 < k <= |old(hsock)|) ==>
                hsock == old(hsock) && running == old(running) && log == old(log) && history == old(history)
      ensures 0 < k <= |old(hsock)| ==> Sectioned(Health, old(log), old(history))
      ensures 0 < k <= |old(hsock)| ==>
                && hsock == old(hsock)[k..]
                && var text := CStr(old(hsock)[..k]);
                && (Contains(text, "STOP") ==> !running && log == old(log) + [HealthStopped])
                && (!Contains(text, "STOP") && Contains(text, "START") ==> running && log == old(log) + [HealthStarted])
                && (!Contains(text, "STOP") && !Contains(text, "START") ==> running == old(running) && log == old(log))
    {
      if 0 < k <= |hsock| {
        var cmd := hsock[..k];
        hsock := hsock[k..];
        Wait(Health);
        var v := Verdict(cmd);
        if v.Some? {
          running := v.value;
          Write(Line(v.value));
          WroteOne(old(log), Line(v.value));
        } else {
          WroteNone(old(log));
        }
        Post(Health);
      }
    }

    /** One turn of payment's loop: read a message, then burn its slices on the CPU. */
    method PaymentIteration(k: nat, clock: nat -> B.Timespec, start: nat, ghost s: State)
      returns (end: nat, ghost ends: seq<nat>)
      requires B.GoodClock(clock)
      requires Shows(s) && s.payment.PRead? && s.psock != "" && ReadCount(s.psock, 1023, k) && MayRun(s, Payment)
      modifies this`psock
      ensures Legal(s, MessageMoves(k)) && Exec(s, MessageMoves(k)) == s.(psock := s.psock[k..])
      ensures Shows(s.(psock := s.psock[k..]))
      ensures B.IsJob(clock, start, ends) && end == ends[B.SLICES - 1]
      ensures clock(end).Ns() - clock(start).Ns() >= B.JOB_NS
    {
      psock := psock[k..];
      assert Shows(s.(psock := s.psock[k..]));
      end, ends := B.PaymentJob(clock, start);
      MessageAlone(s, k);
    }
  }
}
