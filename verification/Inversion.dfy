/** The inversion without inheritance: how long it lasts and exactly when it is unbounded; and the one
    way it still happens with inheritance. */
module Inversion {
  import opened Prelude
  import opened LockProtocol
  import opened Testbed
  import opened TestbedInvariant
  import opened BoundedBlocking
  import B = BusyWait
  import D = Dispatcher

  predicate CompletesSlice(s: State, m: Move) { m.PaymentMove? && m.finish && s.payment.PSlice? }

  /** Number of busy slices payment completes in a run. */
  function SlicesDone(s: State, ms: seq<Move>): nat
    requires Legal(s, ms)
    decreases |ms|
  {
    if ms == [] then 0
    else
      (if CompletesSlice(s, ms[0]) then 1 else 0) + SlicesDone(Next(s, ms[0]), ms[1..])
  }

  /** Health waits for a lock the logger holds, and stays there, all along the run. */
  predicate Stuck(s: State) { HealthBlocked(s) && LoggerHolds(s) }

  predicate StuckThroughout(s: State, ms: seq<Move>)
    requires Legal(s, ms)
    decreases |ms|
  {
    Stuck(s) && (ms == [] || StuckThroughout(Next(s, ms[0]), ms[1..]))
  }

  lemma {:induction false} StuckRunsCompose(s: State, a: seq<Move>, b: seq<Move>)
    requires Legal(s, a) && Legal(Exec(s, a), b)
    requires StuckThroughout(s, a) && StuckThroughout(Exec(s, a), b)
    ensures Legal(s, a + b) && Exec(s, a + b) == Exec(Exec(s, a), b)
    ensures StuckThroughout(s, a + b)
    ensures SlicesDone(s, a + b) == SlicesDone(s, a) + SlicesDone(Exec(s, a), b)
    decreases |a|
  {
    if a == [] {
      assert a + b == b;
    } else {
      assert (a + b)[0] == a[0] && (a + b)[1..] == a[1..] + b;
      StuckRunsCompose(Next(s, a[0]), a[1..], b);
    }
  }

  lemma OneStuckStep(s: State, m: Move)
    requires Enabled(s, m) && Stuck(s) && Stuck(Next(s, m))
    ensures Legal(s, [m]) && Exec(s, [m]) == Next(s, m) && StuckThroughout(s, [m])
    ensures SlicesDone(s, [m]) == if CompletesSlice(s, m) then 1 else 0
  {
    assert [m][1..] == [];
    assert Legal(Next(s, m), []) && StuckThroughout(Next(s, m), []);
  }

  /** Health blocked behind the logger on the plain semaphore, payment and the server idle. */
  predicate Idle(s: State) {
    && LockInv(PlainSemaphore, s) && HealthBlocked(s)
    && s.payment.PRead? && s.psock == "" && !s.pEof && s.todo == [] && s.inbox == []
  }

  lemma {:induction false} JobRun(s: State, i: nat) returns (ms: seq<Move>)
    requires LockInv(PlainSemaphore, s) && HealthBlocked(s) && s.payment == PSlice(i) && i < B.SLICES
    ensures Legal(s, ms) && StuckThroughout(s, ms)
    ensures Exec(s, ms) == s.(payment := PRead) && SlicesDone(s, ms) == B.SLICES - i
    decreases B.SLICES - i
  {
    var m := PaymentMove(0, true);
    assert s.lock.waiters == {Health} && Ready(s, Payment) && Enabled(s, m);
    var s' := Next(s, m);
    OneStuckStep(s, m);
    ms := [m];
    if i + 1 < B.SLICES {
      var rest := JobRun(s', i + 1);
      StuckRunsCompose(s, ms, rest);
      ms := ms + rest;
    }
  }

  lemma Extend(s: State, ms: seq<Move>, m: Move) returns (more: seq<Move>)
    requires Legal(s, ms) && StuckThroughout(s, ms)
    requires Enabled(Exec(s, ms), m) && Stuck(Exec(s, ms)) && Stuck(Next(Exec(s, ms), m))
    requires m.PaymentMove? ==> !m.finish
    ensures Legal(s, more) && StuckThroughout(s, more) && Exec(s, more) == Next(Exec(s, ms), m)
    ensures SlicesDone(s, more) == SlicesDone(s, ms)
  {
    OneStuckStep(Exec(s, ms), m);
    StuckRunsCompose(s, ms, [m]);
    more := ms + [m];
  }

  /** With health blocked and payment idle the server may run, whatever the logger is doing. */
  lemma ServerMayRun(s: State)
    requires LockInv(PlainSemaphore, s) && HealthBlocked(s)
    requires s.payment.PRead? && s.psock == "" && !s.pEof && (s.todo != [] || s.inbox != [])
    ensures Enabled(s, ServerMove)
    ensures Stuck(s) && Stuck(Next(s, ServerMove))
  {
    assert s.lock.waiters == {Health};
  }

  /** The server takes up one payment request. */
  lemma RequestRun(s: State) returns (ms: seq<Move>)
    requires Idle(s)
    ensures Legal(s, ms) && StuckThroughout(s, ms) && SlicesDone(s, ms) == 0
    ensures Exec(s, ms) == s.(todo := D.Outputs(0, "Px"))
  {
    ms := [];
    assert Stuck(s);
    ms := Extend(s, ms, Arrive(0, "Px"));
    var s1 := s.(inbox := [(0, "Px")]);
    assert Exec(s, ms) == s1;
    ServerMayRun(s1);
    ms := Extend(s, ms, ServerMove);
  }

  lemma OutputsOfRequest()
    ensures D.Outputs(0, "Px") == [D.ToLogger("PAYING " + CStr("x")), D.ToPayment("x"), D.Reply(0, "ACK payment\n\0")]
  {
    assert "Px"[1..] == "x";
  }

  /** It logs the request and forwards it, which wakes payment. */
  lemma ForwardRun(s: State, line: string, reply: D.Out) returns (ms: seq<Move>)
    requires Idle(s.(todo := [])) && s.todo == [D.ToLogger(line), D.ToPayment("x"), reply]
    ensures Legal(s, ms) && StuckThroughout(s, ms) && SlicesDone(s, ms) == 0
    ensures Exec(s, ms) ==
              s.(todo := [reply], psock := "x", fifo := if s.writers > 0 then s.fifo + line else s.fifo)
  {
    ServerMayRun(s);
    ms := [];
    ms := Extend(s, ms, ServerMove);
    var s1 := s.(todo := [D.ToPayment("x"), reply], fifo := if s.writers > 0 then s.fifo + line else s.fifo);
    assert Exec(s, ms) == s1;
    ServerMayRun(s1);
    ms := Extend(s, ms, ServerMove);
    assert s1.psock + "x" == "x";
  }

  /** Payment reads the request and works it off, the server acknowledges. */
  lemma WorkRun(s: State) returns (ms: seq<Move>)
    requires Idle(s.(todo := [], psock := "")) && s.psock == "x" && |s.todo| == 1 && s.todo[0].Reply?
    ensures Legal(s, ms) && StuckThroughout(s, ms) && SlicesDone(s, ms) == B.SLICES
    ensures Exec(s, ms) == s.(todo := [], psock := "")
  {
    var read := PaymentMove(1, false);
    assert s.lock.waiters == {Health} && Ready(s, Payment) && Enabled(s, read);
    var s1 := s.(payment := PSlice(0), psock := "");
    assert Next(s, read) == s1;
    OneStuckStep(s, read);
    var job := JobRun(s1, 0);
    StuckRunsCompose(s, [read], job);
    ms := [read] + job;
    var s2 := s.(psock := "");
    assert Exec(s, ms) == s2;
    ServerMayRun(s2);
    ms := Extend(s, ms, ServerMove);
  }

  /** One payment request goes through all 20 slices while nothing moves health or the logger. */
  lemma MessageRun(s: State) returns (ms: seq<Move>)
    requires Idle(s)
    ensures Legal(s, ms) && StuckThroughout(s, ms)
    ensures Idle(Exec(s, ms)) && SlicesDone(s, ms) == B.SLICES
  {
    var request := RequestRun(s);
    var s1 := Exec(s, request);
    OutputsOfRequest();
    var forward := ForwardRun(s1, "PAYING " + CStr("x"), D.Reply(0, "ACK payment\n\0"));
    var s2 := Exec(s1, forward);
    var work := WorkRun(s2);
    StuckRunsCompose(s1, forward, work);
    StuckRunsCompose(s, request, forward + work);
    ms := request + (forward + work);
  }

  lemma {:induction false} IdleInversion(s: State, k: nat) returns (ms: seq<Move>)
    requires Idle(s)
    ensures Legal(s, ms) && StuckThroughout(s, ms) && SlicesDone(s, ms) == k * B.SLICES
    decreases k
  {
    if k == 0 {
      ms := [];
      assert Stuck(s);
    } else {
      var first := MessageRun(s);
      var rest := IdleInversion(Exec(s, first), k - 1);
      StuckRunsCompose(s, first, rest);
      ms := first + rest;
    }
  }

  // ---- From every blocked state ----

  /** Health blocked behind the logger, whatever payment and the server are in the middle of, and
      payment still served: it has not exited and will not find its connection closed. */
  predicate Served(s: State) {
    LockInv(PlainSemaphore, s) && HealthBlocked(s) && SliceInRange(s) && !s.payment.PExit? && !s.pEof
  }

  /** Work at hand goes down along this: requests, then writes of the request in hand, then messages
      to payment, then the message it works on. */
  lemma DrainStep(s: State) returns (ms: seq<Move>)
    requires Served(s) && !Idle(s)
    ensures Legal(s, ms) && StuckThroughout(s, ms)
    ensures var s' := Exec(s, ms);
            && Served(s')
            && (|s'.inbox| < |s.inbox|
                || (|s'.inbox| == |s.inbox|
                    && (|s'.todo| < |s.todo|
                        || (|s'.todo| == |s.todo|
                            && (|s'.psock| < |s.psock|
                                || (s'.psock == s.psock && s'.payment.PRead? && s.payment.PSlice?))))))
  {
    assert s.lock.waiters == {Health};
    if s.payment.PSlice? {
      ms := JobRun(s, s.payment.i);
    } else if s.psock != "" {
      ms := ReadRun(s);
    } else {
      ms := ServeRun(s);
    }
  }

  /** The server takes its next step. */
  lemma ServeRun(s: State) returns (ms: seq<Move>)
    requires Served(s) && s.payment.PRead? && s.psock == "" && (s.todo != [] || s.inbox != [])
    ensures Legal(s, ms) && StuckThroughout(s, ms)
    ensures var s' := Exec(s, ms);
            && Served(s')
            && (|s'.inbox| < |s.inbox| || (|s'.inbox| == |s.inbox| && |s'.todo| < |s.todo|))
  {
    ServerMayRun(s);
    StepKeepsLock(PlainSemaphore, s, ServerMove);
    OneStuckStep(s, ServerMove);
    ms := [ServerMove];
  }

  /** Payment picks up a message. */
  lemma ReadRun(s: State) returns (ms: seq<Move>)
    requires Served(s) && s.payment.PRead? && s.psock != ""
    ensures Legal(s, ms) && StuckThroughout(s, ms)
    ensures exists k | 0 < k <= |s.psock| :: Exec(s, ms) == s.(psock := s.psock[k..], payment := PSlice(0))
  {
    var m := PaymentMove(1, false);
    assert s.lock.waiters == {Health} && Ready(s, Payment) && Enabled(s, m);
    OneStuckStep(s, m);
    ms := [m];
  }

  lemma {:induction false} Drain(s: State) returns (ms: seq<Move>)
    requires Served(s)
    ensures Legal(s, ms) && StuckThroughout(s, ms) && Idle(Exec(s, ms))
    decreases |s.inbox|, |s.todo|, |s.psock|, s.payment.PSlice?
  {
    if Idle(s) {
      ms := [];
      assert Stuck(s);
    } else {
      var first := DrainStep(s);
      var rest := Drain(Exec(s, first));
      StuckRunsCompose(s, first, rest);
      ms := first + rest;
    }
  }

  /** From every such state, for every k, the inversion can last for k whole payment messages beyond
      the work at hand. */
  lemma InversionFrom(s: State, k: nat) returns (ms: seq<Move>)
    requires Served(s)
    ensures Legal(s, ms) && StuckThroughout(s, ms) && SlicesDone(s, ms) >= k * B.SLICES
  {
    var first := Drain(s);
    var rest := IdleInversion(Exec(s, first), k);
    StuckRunsCompose(s, first, rest);
    ms := first + rest;
  }

  // ---- Exactly when it is unbounded ----

  function SlicesLeft(s: State): nat {
    match s.payment
    case PSlice(i) => if i < B.SLICES then B.SLICES - i else 0
    case _ => 0
  }

  /** Payment has exited, or finds its connection closed once it has read what is there. */
  predicate Closing(s: State) { s.payment.PExit? || s.pEof }

  /** The slices a closing payment can still come to. */
  function LastSlices(s: State): nat {
    if s.payment.PExit? then 0 else SlicesLeft(s) + B.SLICES * |s.psock|
  }

  lemma ClosingStep(s: State, m: Move)
    requires LockInv(PlainSemaphore, s) && HealthBlocked(s) && SliceInRange(s) && Closing(s) && Enabled(s, m)
    ensures var s' := Next(s, m);
            && Closing(s')
            && (if CompletesSlice(s, m) then 1 else 0) + LastSlices(s') <= LastSlices(s)
  {
    assert s.lock.waiters == {Health};
    match m
    case ServerMove => assert s.payment.PExit? || !Ready(s, Payment);
    case PaymentMove(k, finish) => assert s.payment.PRead? && k > 0 ==> |s.psock[k..]| < |s.psock|;
    case _ =>
  }

  lemma {:induction false} ClosingRun(s: State, ms: seq<Move>)
    requires LockInv(PlainSemaphore, s) && SliceInRange(s) && Closing(s) && Legal(s, ms) && StuckThroughout(s, ms)
    ensures SlicesDone(s, ms) <= LastSlices(s)
    decreases |ms|
  {
    if ms == [] {
    } else {
      ClosingStep(s, ms[0]);
      StepKeepsLock(PlainSemaphore, s, ms[0]);
      StepKeepsSlices(s, ms[0]);
      ClosingRun(Next(s, ms[0]), ms[1..]);
    }
  }

  /** Health can stay blocked behind the logger while payment completes more than n slices. */
  ghost predicate CanExceed(s: State, n: nat) {
    exists ms :: Legal(s, ms) && StuckThroughout(s, ms) && SlicesDone(s, ms) > n
  }

  /** The exact condition, in every state the plain build can reach with health blocked: no number of
      slices bounds the inversion if and only if payment has neither exited nor been hung up on. */
  lemma UnboundedIff(before: seq<Move>)
    requires Legal(Init(PlainSemaphore), before) && HealthBlocked(Exec(Init(PlainSemaphore), before))
    ensures var s := Exec(Init(PlainSemaphore), before);
            (forall n: nat :: CanExceed(s, n)) <==> !s.payment.PExit? && !s.pEof
  {
    InitKeeps(PlainSemaphore);
    RunKeepsInv(PlainSemaphore, Init(PlainSemaphore), before);
    var s := Exec(Init(PlainSemaphore), before);
    if Closing(s) {
      forall ms | Legal(s, ms) && StuckThroughout(s, ms) ensures SlicesDone(s, ms) <= LastSlices(s) {
        ClosingRun(s, ms);
      }
      assert !CanExceed(s, LastSlices(s));
    } else {
      forall n: nat ensures CanExceed(s, n) {
        var ms := InversionFrom(s, n + 1);
      }
    }
  }

  // ---- Reaching such states from the start ----

  const START := "START"

  lemma StartIsNotStop()
    ensures Contains(CStr(START), "START") && !Contains(CStr(START), "STOP")
  {
    assert CStr("START") == "START" by {
      assert "START"[1..] == "TART" && "TART"[1..] == "ART" && "ART"[1..] == "RT" && "RT"[1..] == "T" && "T"[1..] == "";
    }
    assert OccursAt("START", "START", 0);
    forall i ensures !OccursAt("START", "STOP", i) {
      if 0 <= i && i + 4 <= 5 {
        var piece := "START"[i..i + 4];
        assert piece[2] == "START"[i + 2];
      }
    }
  }

  /** A client's "HSTART" travels through the server into health's socket. */
  lemma CommandSent(b: Build) returns (ms: seq<Move>)
    ensures Legal(Init(b), ms)
    ensures Exec(Init(b), ms) == Init(b).(hsock := START, todo := [D.Reply(7, "ACK: health\n")])
  {
    var s := Init(b);
    ms := [];
    ms := Then(s, ms, Arrive(7, "HSTART"));
    var s1 := s.(inbox := [(7, "HSTART")]);
    assert Exec(s, ms) == s1;
    ms := Then(s, ms, ServerMove);
    assert "HSTART"[1..] == START;
    var s2 := s.(todo := [D.ToHealth(START), D.Reply(7, "ACK: health\n")]);
    assert Exec(s, ms) == s2;
    ms := Then(s, ms, ServerMove);
    assert s2.hsock + START == START;
  }

  lemma StartObeyed(s: State)
    ensures Commanded(s, START) == s.(running := true, log := s.log + [HealthStarted])
  {
    StartIsNotStop();
  }

  /** Health is notified and reads it. */
  lemma CommandRead(b: Build, s: State) returns (ms: seq<Move>)
    requires s == Init(b).(hsock := START, todo := [D.Reply(7, "ACK: health\n")])
    ensures Legal(s, ms)
    ensures Exec(s, ms) == s.(hsock := "", health := HWaitCmd(START, []))
  {
    ms := [];
    ms := Then(s, ms, HealthMove([Client], 5, false, Health));
    var s1 := s.(health := HNext([Client]));
    assert Exec(s, ms) == s1;
    ms := Then(s, ms, HealthMove([], 5, false, Health));
    assert [Client][1..] == [] && START[..5] == START && START[5..] == "";
  }

  /** It takes the lock. */
  lemma CommandEnters(b: Build, s: State) returns (ms: seq<Move>)
    requires s == Init(b).(todo := [D.Reply(7, "ACK: health\n")], health := HWaitCmd(START, []))
    ensures Legal(s, ms)
    ensures Exec(s, ms) == s.(health := HCmd(START, []), lock := Take(NewLock(b), Health))
  {
    ms := [];
    ms := Then(s, ms, HealthMove([], 0, false, Health));
  }

  /** It starts checking. */
  lemma CommandDone(b: Build, s: State) returns (ms: seq<Move>)
    requires s == Init(b).(todo := [D.Reply(7, "ACK: health\n")], health := HCmd(START, []),
                           lock := Take(NewLock(b), Health))
    ensures Legal(s, ms)
    ensures Exec(s, ms) == s.(health := HPost([]), running := true, log := [HealthStarted])
  {
    StartObeyed(s);
    ms := [];
    assert Ready(s, Health);
    ms := Then(s, ms, HealthMove([], 0, false, Health));
  }

  /** It releases the lock and waits for the next event. */
  lemma CommandLeft(b: Build, s: State) returns (ms: seq<Move>)
    requires s == Init(b).(todo := [D.Reply(7, "ACK: health\n")], health := HPost([]), lock := Take(NewLock(b), Health),
                           running := true, log := [HealthStarted])
    ensures Legal(s, ms)
    ensures Exec(s, ms) == s.(health := HEpoll, lock := NewLock(b))
  {
    ms := [];
    ms := Then(s, ms, HealthMove([], 0, false, Health));
    var s2 := s.(health := HNext([]), lock := NewLock(b));
    assert Exec(s, ms) == s2;
    ms := Then(s, ms, HealthMove([], 0, false, Health));
  }

  lemma CommandEntered(b: Build) returns (ms: seq<Move>)
    ensures Legal(Init(b), ms)
    ensures Exec(Init(b), ms) ==
      Init(b).(todo := [D.Reply(7, "ACK: health\n")], health := HCmd(START, []), lock := Take(NewLock(b), Health))
  {
    var s := Init(b);
    ms := CommandSent(b);
    var more := CommandRead(b, Exec(s, ms));
    RunsCompose(s, ms, more);
    ms := ms + more;
    more := CommandEnters(b, Exec(s, ms));
    RunsCompose(s, ms, more);
    ms := ms + more;
  }

  lemma HealthStartedRun(b: Build) returns (ms: seq<Move>)
    ensures Legal(Init(b), ms)
    ensures Exec(Init(b), ms) == Init(b).(running := true, log := [HealthStarted])
  {
    var s := Init(b);
    ms := CommandEntered(b);
    var more := CommandDone(b, Exec(s, ms));
    RunsCompose(s, ms, more);
    ms := ms + more;
    more := CommandLeft(b, Exec(s, ms));
    RunsCompose(s, ms, more);
    ms := ms + more;
    ms := Then(s, ms, ServerMove);
  }

  /** A poll that finds data, or a hang-up, sends the logger into its critical section. */
  lemma LoggerTakesLock(b: Build, s: State) returns (ms: seq<Move>)
    requires s == Init(b).(running := true, log := [HealthStarted], fifo := s.fifo, writers := s.writers)
    requires s.fifo != "" || s.writers == 0
    ensures Legal(s, ms) && Exec(s, ms) == s.(logger := LRead, lock := Take(NewLock(b), Logger))
  {
    ms := [];
    ms := Then(s, ms, LoggerMove(0, Health));
    assert Exec(s, ms) == s.(logger := LWait);
    ms := Then(s, ms, LoggerMove(0, Health));
  }

  /** The timer fires and health runs into the held lock. */
  lemma CheckBlocks(b: Build, s: State) returns (ms: seq<Move>)
    requires LockInv(b, s) && s.logger.LRead? && s.health.HEpoll? && s.running && s.ticks == 0
    requires s.hsock == "" && !s.hEof
    ensures Legal(s, ms)
    ensures var (l, e) := Enqueue(s.lock, s.eff, Health);
            Exec(s, ms) == s.(health := HWaitCheck([]), lock := l, eff := e)
  {
    assert s.lock.waiters == {};
    ms := [];
    ms := Then(s, ms, Tick);
    var s1 := s.(ticks := 1);
    assert Exec(s, ms) == s1 && Ready(s1, Health);
    ms := Then(s, ms, HealthMove([Timer], 0, false, Health));
    var s2 := s1.(health := HNext([Timer]));
    assert Exec(s, ms) == s2 && Ready(s2, Health);
    ms := Then(s, ms, HealthMove([], 0, false, Health));
    assert [Timer][1..] == [];
    var s3 := s.(health := HWaitCheck([]));
    assert Exec(s, ms) == s3 && Ready(s3, Health);
    ms := Then(s, ms, HealthMove([], 0, false, Health));
  }

  /** Health has been told to check and what the logger polls for has happened, all at rest. */
  function Started(b: Build, first: Move): State
    requires first == FifoWrite("a") || first == CloseWriter
  {
    Next(Init(b), first).(running := true, log := [HealthStarted])
  }

  lemma StartedRun(b: Build, first: Move) returns (ms: seq<Move>)
    requires first == FifoWrite("a") || first == CloseWriter
    ensures Legal(Init(b), ms) && Exec(Init(b), ms) == Started(b, first)
  {
    ms := HealthStartedRun(b);
    ms := Then(Init(b), ms, first);
  }

  lemma LockTakenRun(b: Build, first: Move) returns (ms: seq<Move>)
    requires first == FifoWrite("a") || first == CloseWriter
    ensures Legal(Init(b), ms)
    ensures Exec(Init(b), ms) == Started(b, first).(logger := LRead, lock := Take(NewLock(b), Logger))
  {
    ms := StartedRun(b, first);
    var more := LoggerTakesLock(b, Started(b, first));
    RunsCompose(Init(b), ms, more);
    ms := ms + more;
  }

  lemma BlockedAfter(b: Build, first: Move) returns (ms: seq<Move>)
    requires first == FifoWrite("a") || first == CloseWriter
    ensures Legal(Init(b), ms)
    ensures var (l, e) := Enqueue(Take(NewLock(b), Logger), BASE_PRIOS, Health);
            Exec(Init(b), ms) == Started(b, first).(logger := LRead, health := HWaitCheck([]), lock := l, eff := e)
  {
    ms := LockTakenRun(b, first);
    var more := CheckBlocks(b, Started(b, first).(logger := LRead, lock := Take(NewLock(b), Logger)));
    RunsCompose(Init(b), ms, more);
    ms := ms + more;
  }

  /** The plain semaphore has no bound. For every k there is a legal run from the start after which
      a health check stays blocked, the logger holding the lock all along, while payment burns
      k times 20 busy slices. */
  lemma UnboundedInversion(k: nat) returns (before: seq<Move>, window: seq<Move>)
    ensures Legal(Init(PlainSemaphore), before)
    ensures var s := Exec(Init(PlainSemaphore), before);
            && s.health.HWaitCheck?
            && Legal(s, window) && StuckThroughout(s, window) && SlicesDone(s, window) == k * B.SLICES
  {
    before := BlockedAfter(PlainSemaphore, FifoWrite("a"));
    window := IdleInversion(Exec(Init(PlainSemaphore), before), k);
  }

  /** The inheriting build's exception is reachable: a poll answered by a hang-up sends the logger
      into its critical section with nothing to read, and a health check can block on it there. */
  lemma EmptyReadReachable() returns (ms: seq<Move>)
    ensures Legal(Init(InheritMutex), ms)
    ensures HealthBlocked(Exec(Init(InheritMutex), ms)) && AtEmptyRead(Exec(Init(InheritMutex), ms))
  {
    ms := BlockedAfter(InheritMutex, CloseWriter);
  }
}
