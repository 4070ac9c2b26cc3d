/** What becomes of the clients' requests over every run of the testbed: the bytes for payment and
    health on their way through the server, and the commands health obeys. */
module RequestAccounts {
  import opened Prelude
  import opened LockProtocol
  import opened Testbed
  import opened TestbedInvariant
  import opened RunAccounts
  import D = Dispatcher
  import L = LogShape

  // ---- Through the server to payment and health ----

  predicate OnSocket(v: D.View) { v.PaymentWrites? || v.HealthWrites? }

  function Socket(v: D.View, s: State): string { if v.PaymentWrites? then s.psock else s.hsock }

  /** What a step reads from payment's or health's socket. */
  function SocketRead(v: D.View, s: State, m: Move): string
    requires Enabled(s, m)
  {
    if v.PaymentWrites? && m.PaymentMove? && s.payment.PRead? then s.psock[..m.k]
    else if v.HealthWrites? && m.HealthMove? && s.health.HNext? && s.health.evs != [] && s.health.evs[0].Client? then
      s.hsock[..m.k]
    else ""
  }

  /** The chunks those reads return over a run. */
  function SocketReads(v: D.View, s: State, ms: seq<Move>): seq<string>
    requires Legal(s, ms)
    decreases |ms|
  {
    if ms == [] then []
    else
      (if SocketRead(v, s, ms[0]) != "" then [SocketRead(v, s, ms[0])] else [])
      + SocketReads(v, Next(s, ms[0]), ms[1..])
  }

  /** What an arriving request asks the server to pass on. */
  function Asked(v: D.View, m: Move): seq<string> {
    if m.Arrive? then D.Owed(v, D.Readable(m.fd, m.data)) else []
  }

  function AllAsked(v: D.View, ms: seq<Move>): seq<string> {
    if ms == [] then [] else Asked(v, ms[0]) + AllAsked(v, ms[1..])
  }

  function InboxAsks(v: D.View, inbox: seq<(D.Fd, string)>): seq<string> {
    if inbox == [] then [] else D.Owed(v, D.Readable(inbox[0].0, inbox[0].1)) + InboxAsks(v, inbox[1..])
  }

  /** Bytes asked for and not yet read: in the socket, in the server's hands, not yet taken up. */
  function OnTheWay(v: D.View, socket: string, todo: seq<D.Out>, inbox: seq<(D.Fd, string)>): string {
    socket + Concat(D.Seen(v, todo)) + Concat(InboxAsks(v, inbox))
  }

  function Underway(v: D.View, s: State): string { OnTheWay(v, Socket(v, s), s.todo, s.inbox) }

  lemma {:induction false} ConcatJoins(a: seq<string>, b: seq<string>)
    ensures Concat(a + b) == Concat(a) + Concat(b)
  {
    if a == [] {
      assert a + b == b;
    } else {
      assert (a + b)[0] == a[0] && (a + b)[1..] == a[1..] + b;
      ConcatJoins(a[1..], b);
    }
  }

  lemma {:induction false} InboxGrows(v: D.View, inbox: seq<(D.Fd, string)>, r: (D.Fd, string))
    ensures InboxAsks(v, inbox + [r]) == InboxAsks(v, inbox) + D.Owed(v, D.Readable(r.0, r.1))
  {
    if inbox == [] {
      assert ([] + [r])[1..] == [];
    } else {
      assert (inbox + [r])[0] == inbox[0] && (inbox + [r])[1..] == inbox[1..] + [r];
      InboxGrows(v, inbox[1..], r);
    }
  }

  lemma Associate(a: string, b: string, c: string, d: string)
    ensures a + b + (c + d) == a + b + c + d
    ensures a + (b + c) + d == (a + b) + c + d
  {
  }

  /** A request arrives. */
  lemma Arrives(v: D.View, socket: string, todo: seq<D.Out>, inbox: seq<(D.Fd, string)>, fd: D.Fd, data: string)
    ensures OnTheWay(v, socket, todo, inbox) + Concat(D.Owed(v, D.Readable(fd, data))) ==
            OnTheWay(v, socket, todo, inbox + [(fd, data)])
  {
    var owed := D.Owed(v, D.Readable(fd, data));
    InboxGrows(v, inbox, (fd, data));
    ConcatJoins(InboxAsks(v, inbox), owed);
    Associate(socket, Concat(D.Seen(v, todo)), Concat(InboxAsks(v, inbox)), Concat(owed));
  }

  /** The server takes it up. */
  lemma TakenUp(v: D.View, socket: string, inbox: seq<(D.Fd, string)>)
    requires OnSocket(v) && inbox != []
    ensures var (fd, data) := inbox[0];
            OnTheWay(v, socket, [], inbox) ==
            OnTheWay(v, socket, if data == "" then [] else D.Outputs(fd, data), inbox[1..])
  {
    var (fd, data) := inbox[0];
    var owed, rest := D.Owed(v, D.Readable(fd, data)), InboxAsks(v, inbox[1..]);
    ConcatJoins(owed, rest);
    if data != "" {
      D.OutputsOwed(v, fd, data);
    }
    Associate(socket, "", Concat(owed), Concat(rest));
  }

  /** It performs one of its writes. */
  lemma PassedOn(v: D.View, socket: string, todo: seq<D.Out>, inbox: seq<(D.Fd, string)>)
    requires todo != []
    ensures OnTheWay(v, socket, todo, inbox) ==
            OnTheWay(v, socket + Concat(D.SeenIn(v, todo[0])), todo[1..], inbox)
  {
    var o, rest := todo[0], todo[1..];
    assert todo == [o] + rest;
    D.SeenConcat(v, [o], rest);
    D.SeenOne(v, o);
    ConcatJoins(D.SeenIn(v, o), D.Seen(v, rest));
    Associate(socket, Concat(D.SeenIn(v, o)), Concat(D.Seen(v, rest)), Concat(InboxAsks(v, inbox)));
  }

  lemma OneChunk(chunks: seq<string>)
    requires |chunks| <= 1
    ensures Concat(chunks) == if chunks == [] then "" else chunks[0]
  {
  }

  lemma ServerWrites(v: D.View, s: State)
    requires OnSocket(v) && Enabled(s, ServerMove) && s.todo != []
    ensures var s' := ServerStep(s);
            && s'.todo == s.todo[1..] && s'.inbox == s.inbox
            && Socket(v, s') == Socket(v, s) + Concat(D.SeenIn(v, s.todo[0]))
  {
    OneChunk(D.SeenIn(v, s.todo[0]));
  }

  lemma ServerMovesRequests(v: D.View, s: State)
    requires OnSocket(v) && Enabled(s, ServerMove)
    ensures Underway(v, ServerStep(s)) == Underway(v, s)
  {
    if s.todo == [] {
      TakenUp(v, Socket(v, s), s.inbox);
    } else {
      PassedOn(v, Socket(v, s), s.todo, s.inbox);
      ServerWrites(v, s);
    }
  }

  /** Payment and health read their own socket; nobody else touches it or the server's work. */
  predicate Reads(v: D.View, s: State, m: Move, s': State)
    requires Enabled(s, m)
  {
    s'.todo == s.todo && s'.inbox == s.inbox && Socket(v, s) == SocketRead(v, s, m) + Socket(v, s')
  }

  lemma PaymentReads(v: D.View, s: State, m: Move)
    requires OnSocket(v) && Enabled(s, m) && m.PaymentMove?
    ensures Reads(v, s, m, Next(s, m))
  {
    if s.payment.PRead? {
      CutAt(s.psock, m.k);
    }
  }

  predicate SameRequests(s: State, s': State) {
    s'.todo == s.todo && s'.inbox == s.inbox && s'.psock == s.psock && s'.hsock == s.hsock
  }

  lemma NothingRead(v: D.View, s: State, m: Move, s': State)
    requires Enabled(s, m) && SocketRead(v, s, m) == "" && SameRequests(s, s')
    ensures Reads(v, s, m, s')
  {
    NothingBefore(Socket(v, s'));
  }

  lemma PostingLeavesRequests(s: State, p: Proc, w: Proc)
    ensures SameRequests(s, Posted(s, p, w))
  {
  }

  lemma LoggerLeavesRequests(s: State, k: nat, w: Proc)
    requires Enabled(s, LoggerMove(k, w))
    ensures SameRequests(s, LoggerStep(s, k, w))
  {
    if s.logger.LPost? {
      PostingLeavesRequests(s.(logger := LPoll), Logger, w);
    }
  }

  lemma CommandLeavesRequests(s: State, cmd: string)
    ensures SameRequests(s, Commanded(s, cmd))
  {
  }

  lemma HealthLeavesRequests(s: State, evs: seq<Ev>, k: nat, late: bool, w: Proc)
    requires Enabled(s, HealthMove(evs, k, late, w)) && !s.health.HNext?
    ensures SameRequests(s, HealthStep(s, evs, k, late, w))
  {
    if s.health.HCmd? {
      CommandLeavesRequests(s, s.health.cmd);
    } else if s.health.HPost? {
      PostingLeavesRequests(s.(health := HNext(s.health.evs)), Health, w);
    }
  }

  lemma HealthReads(v: D.View, s: State, m: Move)
    requires OnSocket(v) && Enabled(s, m) && m.HealthMove?
    ensures Reads(v, s, m, Next(s, m))
  {
    if !s.health.HNext? {
      HealthLeavesRequests(s, m.evs, m.k, m.late, m.wake);
      NothingRead(v, s, m, Next(s, m));
    } else if s.health.evs != [] && s.health.evs[0].Client? {
      ClientRead(v, s, m);
    } else {
      NothingRead(v, s, m, Next(s, m));
    }
  }

  lemma ClientRead(v: D.View, s: State, m: Move)
    requires OnSocket(v) && Enabled(s, m) && m.HealthMove?
    requires s.health.HNext? && s.health.evs != [] && s.health.evs[0].Client?
    ensures Reads(v, s, m, Next(s, m))
  {
    ClientStep(s, m);
    if v.HealthWrites? {
      CutAt(s.hsock, m.k);
    } else {
      NothingBefore(s.psock);
    }
  }

  lemma ClientStep(s: State, m: Move)
    requires Enabled(s, m) && m.HealthMove? && s.health.HNext? && s.health.evs != [] && s.health.evs[0].Client?
    ensures var s' := Next(s, m);
            && s'.todo == s.todo && s'.inbox == s.inbox && s'.psock == s.psock
            && m.k <= |s.hsock| && s'.hsock == s.hsock[m.k..]
  {
  }

  lemma CutAt(a: string, k: nat)
    requires k <= |a|
    ensures a == a[..k] + a[k..]
  {
  }

  lemma EventsLeaveRequests(s: State, m: Move)
    requires Enabled(s, m) && !m.LoggerMove? && !m.HealthMove? && !m.PaymentMove? && !m.ServerMove? && !m.Arrive?
    ensures SameRequests(s, Next(s, m))
  {
  }

  lemma ReadersMoveRequests(v: D.View, s: State, m: Move)
    requires OnSocket(v) && Enabled(s, m) && !m.ServerMove? && !m.Arrive?
    ensures Underway(v, s) == SocketRead(v, s, m) + Underway(v, Next(s, m))
  {
    if m.HealthMove? {
      HealthReads(v, s, m);
    } else if m.PaymentMove? {
      PaymentReads(v, s, m);
    } else {
      if m.LoggerMove? {
        LoggerLeavesRequests(s, m.k, m.wake);
      } else {
        EventsLeaveRequests(s, m);
      }
      NothingRead(v, s, m, Next(s, m));
    }
    ReadingLeavesRest(v, s, m, Next(s, m));
  }

  lemma StepMovesRequests(v: D.View, s: State, m: Move)
    requires OnSocket(v) && Enabled(s, m)
    ensures Underway(v, s) + Concat(Asked(v, m)) == SocketRead(v, s, m) + Underway(v, Next(s, m))
  {
    if m.Arrive? {
      Arrives(v, Socket(v, s), s.todo, s.inbox, m.fd, m.data);
      NothingBefore(Underway(v, Next(s, m)));
    } else {
      NothingBehind(Underway(v, s));
      if m.ServerMove? {
        ServerMovesRequests(v, s);
        NothingBefore(Underway(v, s));
      } else {
        ReadersMoveRequests(v, s, m);
      }
    }
  }

  lemma NothingBehind(a: string)
    ensures a + "" == a && a + Concat([]) == a
  {
  }

  lemma ReadingLeavesRest(v: D.View, s: State, m: Move, s': State)
    requires Enabled(s, m) && Reads(v, s, m, s')
    ensures Underway(v, s) == SocketRead(v, s, m) + Underway(v, s')
  {
    Prepended(SocketRead(v, s, m), Socket(v, s'), Concat(D.Seen(v, s.todo)), Concat(InboxAsks(v, s.inbox)));
  }

  lemma Prepended(a: string, b: string, c: string, d: string)
    ensures (a + b) + c + d == a + (b + c + d)
  {
  }

  lemma {:induction false} RequestsArriveFrom(v: D.View, s: State, ms: seq<Move>)
    requires OnSocket(v) && Legal(s, ms)
    ensures Underway(v, s) + Concat(AllAsked(v, ms)) == Concat(SocketReads(v, s, ms)) + Underway(v, Exec(s, ms))
    decreases |ms|
  {
    if ms == [] {
    } else {
      var m, s' := ms[0], Next(s, ms[0]);
      var rest := SocketReads(v, s', ms[1..]);
      StepMovesRequests(v, s, m);
      RequestsArriveFrom(v, s', ms[1..]);
      ConcatJoins(Asked(v, m), AllAsked(v, ms[1..]));
      ConcatPrepend(SocketRead(v, s, m), rest);
      Splice(Underway(v, s), Concat(Asked(v, m)), Concat(AllAsked(v, ms[1..])),
             SocketRead(v, s, m), Underway(v, s'), Concat(rest), Underway(v, Exec(s, ms)));
    }
  }

  /** Over every run payment reads exactly the payloads of the P requests that arrived, in order, and
      health those of the H requests, but for what is still underway at the end. */
  lemma RequestsArrive(b: Build, v: D.View, ms: seq<Move>)
    requires OnSocket(v) && Legal(Init(b), ms)
    ensures Concat(AllAsked(v, ms)) == Concat(SocketReads(v, Init(b), ms)) + Underway(v, Exec(Init(b), ms))
  {
    RequestsArriveFrom(v, Init(b), ms);
    assert Underway(v, Init(b)) == "";
    NothingBefore(Concat(AllAsked(v, ms)));
  }

  // ---- The commands ----

  /** The "started" and "stopped" lines of the log, in order. */
  function StateLines(log: seq<Record>): seq<Record> {
    if log == [] then []
    else
      var last := log[|log| - 1];
      StateLines(log[..|log| - 1]) + if last.HealthStarted? || last.HealthStopped? then [last] else []
  }

  /** The lines a series of commands owes the log, by the words in them. */
  function LinesOwed(cmds: seq<string>): seq<Record> {
    if cmds == [] then []
    else
      (if Contains(CStr(cmds[0]), "STOP") then [HealthStopped]
       else if Contains(CStr(cmds[0]), "START") then [HealthStarted]
       else [])
      + LinesOwed(cmds[1..])
  }

  function CommandInHand(h: HealthPc): seq<string> {
    match h
    case HWaitCmd(cmd, _) => [cmd]
    case HCmd(cmd, _) => [cmd]
    case _ => []
  }

  function LastStarted(log: seq<Record>): bool {
    var lines := StateLines(log);
    lines != [] && lines[|lines| - 1].HealthStarted?
  }

  /** Health's step at a command: the words decide, STOP before START, and one line says so. */
  lemma CommandObeyed(s: State, m: Move)
    requires Enabled(s, m) && m.HealthMove? && s.health.HCmd?
    ensures var s', text := Next(s, m), CStr(s.health.cmd);
            && (Contains(text, "STOP") ==> !s'.running && s'.log == s.log + [HealthStopped])
            && (!Contains(text, "STOP") && Contains(text, "START") ==> s'.running && s'.log == s.log + [HealthStarted])
            && (!Contains(text, "STOP") && !Contains(text, "START") ==> s'.running == s.running && s'.log == s.log)
  {
  }

  lemma LinesGrow(log: seq<Record>, r: Record)
    ensures StateLines(log + [r]) == StateLines(log) + if r.HealthStarted? || r.HealthStopped? then [r] else []
  {
    assert (log + [r])[..|log|] == log;
  }

  lemma OneCommand(cmd: string)
    ensures LinesOwed([cmd]) ==
            if Contains(CStr(cmd), "STOP") then [HealthStopped]
            else if Contains(CStr(cmd), "START") then [HealthStarted]
            else []
  {
    assert [cmd][1..] == [];
  }

  lemma LinesAfterCommand(log: seq<Record>, was: bool, cmd: string, log': seq<Record>, now: bool)
    requires var text := CStr(cmd);
             && (Contains(text, "STOP") ==> !now && log' == log + [HealthStopped])
             && (!Contains(text, "STOP") && Contains(text, "START") ==> now && log' == log + [HealthStarted])
             && (!Contains(text, "STOP") && !Contains(text, "START") ==> now == was && log' == log)
    requires was == LastStarted(log)
    ensures StateLines(log') == StateLines(log) + LinesOwed([cmd]) && now == LastStarted(log')
  {
    var text := CStr(cmd);
    OneCommand(cmd);
    if Contains(text, "STOP") {
      LinesGrow(log, HealthStopped);
    } else if Contains(text, "START") {
      LinesGrow(log, HealthStarted);
    }
  }

  lemma CommandWritesLine(s: State, m: Move)
    requires Enabled(s, m) && m.HealthMove? && s.health.HCmd? && s.running == LastStarted(s.log)
    ensures var s' := Next(s, m);
            && StateLines(s'.log) == StateLines(s.log) + LinesOwed([s.health.cmd])
            && s'.running == LastStarted(s'.log) && CommandInHand(s'.health) == []
  {
    CommandObeyed(s, m);
    LinesAfterCommand(s.log, s.running, s.health.cmd, Next(s, m).log, Next(s, m).running);
  }

  /** Every other step leaves the lines and `running` alone. */
  predicate LinesKept(s: State, s': State) { StateLines(s'.log) == StateLines(s.log) && s'.running == s.running }

  lemma HealthKeepsLines(b: Build, s: State, m: Move)
    requires LockInv(b, s) && Enabled(s, m) && m.HealthMove? && !s.health.HCmd?
    ensures LinesKept(s, Next(s, m))
  {
    if s.health.HCheck? || s.health.HDelay? {
      LinesGrow(s.log, HealthCheck);
      LinesGrow(s.log, HealthDelay);
    } else {
      L.HealthElsewhere(s, m.evs, m.k, m.late, m.wake);
    }
  }

  lemma LoggerKeepsLines(b: Build, s: State, m: Move)
    requires LockInv(b, s) && Enabled(s, m) && m.LoggerMove?
    ensures LinesKept(s, Next(s, m)) && CommandInHand(Next(s, m).health) == CommandInHand(s.health)
  {
    if s.logger.LAppend? {
      LinesGrow(s.log, LogRecord(s.cnt + 1, s.logger.text));
    } else {
      LoggerFrame(b, s, m.k, m.wake);
    }
  }

  function NewCommand(s: State, m: Move): seq<string>
    requires Enabled(s, m)
  {
    if SocketRead(D.HealthWrites, s, m) != "" then [SocketRead(D.HealthWrites, s, m)] else []
  }

  lemma HealthTakesCommand(b: Build, s: State, m: Move)
    requires LockInv(b, s) && Enabled(s, m) && m.HealthMove? && !s.health.HCmd?
    ensures CommandInHand(Next(s, m).health) == CommandInHand(s.health) + NewCommand(s, m)
  {
    if s.health.HPost? {
      assert s.lock.waiters == {};
    }
  }

  lemma StepOwesLines(b: Build, s: State, m: Move)
    requires LockInv(b, s) && Enabled(s, m) && s.running == LastStarted(s.log)
    ensures var s' := Next(s, m);
            && StateLines(s'.log) + LinesOwed(CommandInHand(s'.health)) ==
               StateLines(s.log) + LinesOwed(CommandInHand(s.health) + NewCommand(s, m))
            && s'.running == LastStarted(s'.log)
  {
    if m.HealthMove? && s.health.HCmd? {
      CommandWritesLine(s, m);
      assert NewCommand(s, m) == [] && CommandInHand(s.health) + [] == [s.health.cmd];
    } else {
      StepTakesCommand(b, s, m);
    }
  }

  lemma StepTakesCommand(b: Build, s: State, m: Move)
    requires LockInv(b, s) && Enabled(s, m) && !(m.HealthMove? && s.health.HCmd?)
    ensures LinesKept(s, Next(s, m))
    ensures CommandInHand(Next(s, m).health) == CommandInHand(s.health) + NewCommand(s, m)
  {
    match m
    case LoggerMove(_, _) => LoggerKeepsLines(b, s, m);
    case HealthMove(_, _, _, _) =>
      HealthKeepsLines(b, s, m);
      HealthTakesCommand(b, s, m);
    case _ => OutsideFrame(s, m);
  }

  lemma {:induction false} LinesJoin(a: seq<string>, b: seq<string>)
    ensures LinesOwed(a + b) == LinesOwed(a) + LinesOwed(b)
  {
    if a == [] {
      assert a + b == b;
    } else {
      assert (a + b)[0] == a[0] && (a + b)[1..] == a[1..] + b;
      LinesJoin(a[1..], b);
    }
  }

  /** If a step owes the lines `before` with the command it takes `now`, so does it with any to come. */
  lemma LinesShift(lines: seq<Record>, before: seq<string>, now: seq<string>, rest: seq<string>,
                   lines': seq<Record>, before': seq<string>)
    requires lines' + LinesOwed(before') == lines + LinesOwed(before + now)
    ensures lines + LinesOwed(before + (now + rest)) == lines' + LinesOwed(before' + rest)
  {
    Reassociate(before, now, rest);
    LinesJoin(before + now, rest);
    LinesJoin(before', rest);
    Reassociate(lines, LinesOwed(before + now), LinesOwed(rest));
    Reassociate(lines', LinesOwed(before'), LinesOwed(rest));
  }

  lemma {:induction false} CommandsObeyedFrom(b: Build, s: State, ms: seq<Move>)
    requires LockInv(b, s) && Legal(s, ms) && s.running == LastStarted(s.log)
    ensures var s' := Exec(s, ms);
            && StateLines(s.log) + LinesOwed(CommandInHand(s.health) + SocketReads(D.HealthWrites, s, ms)) ==
               StateLines(s'.log) + LinesOwed(CommandInHand(s'.health))
            && s'.running == LastStarted(s'.log)
    decreases |ms|
  {
    if ms == [] {
    } else {
      var m, s' := ms[0], Next(s, ms[0]);
      StepOwesLines(b, s, m);
      StepKeepsLock(b, s, m);
      CommandsObeyedFrom(b, s', ms[1..]);
      LinesShift(StateLines(s.log), CommandInHand(s.health), NewCommand(s, m), SocketReads(D.HealthWrites, s', ms[1..]),
                 StateLines(s'.log), CommandInHand(s'.health));
    }
  }

  /** Over every run the "started" and "stopped" lines are exactly those its commands call for, in
      order, but for the command health has in hand; and checking is on exactly when the last of them
      says "started". */
  lemma CommandsAreObeyed(b: Build, ms: seq<Move>)
    requires Legal(Init(b), ms)
    ensures var s := Exec(Init(b), ms);
            && LinesOwed(SocketReads(D.HealthWrites, Init(b), ms)) ==
               StateLines(s.log) + LinesOwed(CommandInHand(s.health))
            && s.running == LastStarted(s.log)
  {
    InitKeeps(b);
    CommandsObeyedFrom(b, Init(b), ms);
    var cmds := SocketReads(D.HealthWrites, Init(b), ms);
    assert CommandInHand(Init(b).health) + cmds == cmds;
    NothingBefore(LinesOwed(cmds));
  }
}
