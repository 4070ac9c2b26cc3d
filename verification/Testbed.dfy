/** The priority-inversion testbed as a one-CPU step system: logger, health, payment and
    epoll_server interleave, one model step being one system call or one pure computation. */
module Testbed {
  import opened Prelude
  import opened LockProtocol
  import D = Dispatcher
  import B = BusyWait

  datatype Record =
    | LogRecord(n: nat, text: string)
    | HealthCheck
    | HealthDelay
    | HealthStarted
    | HealthStopped

  datatype LoggerPc = LPoll | LWait | LRead | LFormat(chunk: string) | LAppend(text: string) | LPost

  /** Entries of the event array health walks through. */
  datatype Ev = Timer | Client

  datatype HealthPc =
    | HEpoll
    | HNext(evs: seq<Ev>)
    | HWaitCheck(evs: seq<Ev>)
    | HCheck(evs: seq<Ev>)
    | HDelay(evs: seq<Ev>)
    | HWaitCmd(cmd: string, evs: seq<Ev>)
    | HCmd(cmd: string, evs: seq<Ev>)
    | HPost(evs: seq<Ev>)

  datatype PaymentPc = PRead | PSlice(i: nat) | PExit

  datatype State = State(
    lock: Lock, eff: Prios, log: seq<Record>,
    logger: LoggerPc, cnt: nat, fifo: string, writers: nat,
    health: HealthPc, running: bool, ticks: nat, hsock: string, hEof: bool,
    payment: PaymentPc, psock: string, pEof: bool,
    inbox: seq<(D.Fd, string)>, todo: seq<D.Out>)

  /** Steps of the four processes, with what the kernel decides, and events from outside. */
  datatype Move =
    | LoggerMove(k: nat, wake: Proc)
    | HealthMove(evs: seq<Ev>, k: nat, late: bool, wake: Proc)
    | PaymentMove(k: nat, finish: bool)
    | ServerMove
    | Tick
    | OpenWriter
    | CloseWriter
    | FifoWrite(data: string)
    | Arrive(fd: D.Fd, data: string)
    | HealthHangup
    | PaymentHangup

  /** The logger's poll loop is entered with the FIFO open, hence with a writer. */
  function Init(b: Build): State {
    State(NewLock(b), BASE_PRIOS, [],
          LPoll, 0, "", 1,
          HEpoll, false, 0, "", false,
          PRead, "", false,
          [], [])
  }

  // ---- Who can run ----

  predicate Pending(s: State, e: Ev) {
    match e
    case Timer => s.ticks > 0
    case Client => s.hsock != "" || s.hEof
  }

  /** The FIFO read sleeps when the pipe is empty but somebody holds its write end. */
  predicate ReadWouldSleep(s: State) {
    s.logger.LRead? && s.fifo == "" && s.writers > 0
  }

  predicate Ready(s: State, p: Proc) {
    match p
    case Logger => Logger !in s.lock.waiters && !ReadWouldSleep(s)
    case Health =>
      && Health !in s.lock.waiters
      && (s.health.HEpoll? ==> Pending(s, Timer) || Pending(s, Client))
      && (s.health.HNext? && s.health.evs != [] ==> Pending(s, s.health.evs[0]))
    case Payment =>
      && !s.payment.PExit?
      && (s.payment.PRead? ==> s.psock != "" || s.pEof)
    case Server => s.todo != [] || s.inbox != []
  }

  /** Preemptive priority scheduling: nobody ready outranks p. */
  predicate MayRun(s: State, p: Proc) {
    Ready(s, p) && forall q | q in {Logger, Health, Payment, Server} && Ready(s, q) :: s.eff.Of(q) <= s.eff.Of(p)
  }

  /** How many bytes a read of a non-empty stream may return into a buffer of size cap. */
  predicate ReadCount(stream: string, cap: nat, k: nat) {
    if stream == "" then k == 0 else 1 <= k <= Min(|stream|, cap)
  }

  predicate WakeOk(s: State, w: Proc) {
    s.lock.waiters != {} ==> MayWake(s.eff, s.lock.waiters, w)
  }

  /** What epoll_wait may report: one or two distinct pending descriptors. */
  predicate Reportable(s: State, evs: seq<Ev>) {
    evs != [] && (forall e | e in evs :: Pending(s, e)) && (|evs| == 1 || (|evs| == 2 && evs[0] != evs[1]))
  }

  predicate Enabled(s: State, m: Move) {
    match m
    case LoggerMove(k, w) =>
      && MayRun(s, Logger)
      && (s.logger.LRead? ==> ReadCount(s.fifo, 255, k))
      && (s.logger.LPost? ==> WakeOk(s, w))
    case HealthMove(evs, k, _, w) =>
      && MayRun(s, Health)
      && (s.health.HEpoll? ==> Reportable(s, evs))
      && (s.health.HNext? ==> ReadCount(s.hsock, 127, k))
      && (s.health.HPost? ==> WakeOk(s, w))
    case PaymentMove(k, _) =>
      && MayRun(s, Payment)
      && (s.payment.PRead? ==> ReadCount(s.psock, 1023, k))
    case ServerMove => MayRun(s, Server)
    case CloseWriter => s.writers > 0
    case FifoWrite(_) => s.writers > 0
    case Arrive(_, data) => data != ""
    case _ => true
  }

  // ---- The steps ----

  /** The logger's record text: the chunk as a C string, less one trailing newline. */
  function RecordText(chunk: string): string {
    CStr(if chunk != "" && chunk[|chunk| - 1] == '\n' then chunk[..|chunk| - 1] else chunk)
  }

  function LoggerStep(s: State, k: nat, w: Proc): State
    requires Enabled(s, LoggerMove(k, w))
  {
    match s.logger
    case LPoll => if s.fifo != "" || s.writers == 0 then s.(logger := LWait) else s
    case LWait =>
      if Free(s.lock) then s.(lock := Take(s.lock, Logger), logger := LRead)
      else var (l, e) := Enqueue(s.lock, s.eff, Logger); s.(lock := l, eff := e)
    case LRead =>
      if k == 0 then s.(logger := LPost)
      else s.(fifo := s.fifo[k..], logger := LFormat(s.fifo[..k]))
    case LFormat(chunk) => s.(logger := LAppend(RecordText(chunk)))
    case LAppend(text) => s.(cnt := s.cnt + 1, log := s.log + [LogRecord(s.cnt + 1, text)], logger := LPost)
    case LPost => Posted(s.(logger := LPoll), Logger, w)
  }

  /** Release by p, and the woken process proceeds past its wait. */
  function Posted(s: State, p: Proc, w: Proc): State {
    var (l, e) := Release(s.lock, s.eff, p, w);
    var s' := s.(lock := l, eff := e);
    if s.lock.waiters == {} then s'
    else if w == Logger then s'.(logger := LRead)
    else if w == Health && s.health.HWaitCheck? then s'.(health := HCheck(s.health.evs))
    else if w == Health && s.health.HWaitCmd? then s'.(health := HCmd(s.health.cmd, s.health.evs))
    else s'
  }

  /** What a command tells health: STOP is looked for first, so a command holding both words
      stops, and one holding neither changes nothing. */
  function Verdict(cmd: string): Option<bool> {
    if Contains(CStr(cmd), "STOP") then Some(false)
    else if Contains(CStr(cmd), "START") then Some(true)
    else None
  }

  function Line(started: bool): Record { if started then HealthStarted else HealthStopped }

  function Commanded(s: State, cmd: string): State {
    match Verdict(cmd)
    case None => s
    case Some(on) => s.(running := on, log := s.log + [Line(on)])
  }

  function HealthStep(s: State, evs: seq<Ev>, k: nat, late: bool, w: Proc): State
    requires Enabled(s, HealthMove(evs, k, late, w))
  {
    match s.health
    case HEpoll => s.(health := HNext(evs))
    case HNext(es) =>
      if es == [] then s.(health := HEpoll)
      else if es[0] == Timer then
        s.(ticks := 0, health := if s.running then HWaitCheck(es[1..]) else HNext(es[1..]))
      else if k == 0 then s.(health := HNext(es[1..]))
      else s.(hsock := s.hsock[k..], health := HWaitCmd(s.hsock[..k], es[1..]))
    case HWaitCheck(es) =>
      if Free(s.lock) then s.(lock := Take(s.lock, Health), health := HCheck(es))
      else var (l, e) := Enqueue(s.lock, s.eff, Health); s.(lock := l, eff := e)
    case HCheck(es) => s.(log := s.log + [HealthCheck], health := HDelay(es))
    case HDelay(es) => s.(log := if late then s.log + [HealthDelay] else s.log, health := HPost(es))
    case HWaitCmd(cmd, es) =>
      if Free(s.lock) then s.(lock := Take(s.lock, Health), health := HCmd(cmd, es))
      else var (l, e) := Enqueue(s.lock, s.eff, Health); s.(lock := l, eff := e)
    case HCmd(cmd, es) => Commanded(s, cmd).(health := HPost(es))
    case HPost(es) => Posted(s.(health := HNext(es)), Health, w)
  }

  /** A busy-wait slice spins for as long as it likes before it finishes. */
  function PaymentStep(s: State, k: nat, finish: bool): State
    requires Enabled(s, PaymentMove(k, finish))
  {
    match s.payment
    case PRead => if k == 0 then s.(payment := PExit) else s.(psock := s.psock[k..], payment := PSlice(0))
    case PSlice(i) => if !finish then s else s.(payment := if i + 1 < B.SLICES then PSlice(i + 1) else PRead)
    case PExit => s
  }

  /** The server performs the next write of the request in hand, or picks up a new request.
      Its logger channel reaches the FIFO while that has a writer. */
  function ServerStep(s: State): State
    requires Enabled(s, ServerMove)
  {
    if s.todo == [] then
      (if s.inbox[0].1 == "" then s.(inbox := s.inbox[1..])
       else s.(inbox := s.inbox[1..], todo := D.Outputs(s.inbox[0].0, s.inbox[0].1)))
    else
      var s' := s.(todo := s.todo[1..]);
      match s.todo[0]
      case ToLogger(t) => if s.writers > 0 then s'.(fifo := s.fifo + t) else s'
      case ToPayment(d) => s'.(psock := s.psock + d)
      case ToHealth(d) => s'.(hsock := s.hsock + d)
      case Reply(_, _) => s'
  }

  function Next(s: State, m: Move): State
    requires Enabled(s, m)
  {
    match m
    case LoggerMove(k, w) => LoggerStep(s, k, w)
    case HealthMove(evs, k, late, w) => HealthStep(s, evs, k, late, w)
    case PaymentMove(k, finish) => PaymentStep(s, k, finish)
    case ServerMove => ServerStep(s)
    case Tick => s.(ticks := s.ticks + 1)
    case OpenWriter => s.(writers := s.writers + 1)
    case CloseWriter => s.(writers := s.writers - 1)
    case FifoWrite(data) => s.(fifo := s.fifo + data)
    case Arrive(fd, data) => s.(inbox := s.inbox + [(fd, data)])
    case HealthHangup => s.(hEof := true)
    case PaymentHangup => s.(pEof := true)
  }

  // ---- Runs ----

  predicate Legal(s: State, ms: seq<Move>)
    decreases |ms|
  {
    ms == [] || (Enabled(s, ms[0]) && Legal(Next(s, ms[0]), ms[1..]))
  }

  function Exec(s: State, ms: seq<Move>): State
    requires Legal(s, ms)
    decreases |ms|
  {
    if ms == [] then s else Exec(Next(s, ms[0]), ms[1..])
  }

  lemma {:induction false} RunsCompose(s: State, a: seq<Move>, b: seq<Move>)
    requires Legal(s, a) && Legal(Exec(s, a), b)
    ensures Legal(s, a + b) && Exec(s, a + b) == Exec(Exec(s, a), b)
    decreases |a|
  {
    if a == [] {
      assert a + b == b;
    } else {
      var s1, ab := Next(s, a[0]), a + b;
      assert ab[0] == a[0] && ab[1..] == a[1..] + b;
      RunsCompose(s1, a[1..], b);
      assert Exec(s, ab) == Exec(s1, ab[1..]);
    }
  }

  lemma Then(s: State, ms: seq<Move>, m: Move) returns (more: seq<Move>)
    requires Legal(s, ms) && Enabled(Exec(s, ms), m)
    ensures more == ms + [m] && Legal(s, more) && Exec(s, more) == Next(Exec(s, ms), m)
  {
    assert [m][1..] == [] && Legal(Next(Exec(s, ms), m), []);
    RunsCompose(s, ms, [m]);
    more := ms + [m];
  }
}
