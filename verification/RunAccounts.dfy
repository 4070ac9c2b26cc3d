/** Accounts that balance over every run of the testbed: bytes through the log FIFO, timer
    expirations against checks, payment messages against busy slices. */
module RunAccounts {
  import opened Prelude
  import opened LockProtocol
  import opened Testbed
  import opened TestbedInvariant
  import opened Inversion
  import B = BusyWait
  import D = Dispatcher

  // ---- From the FIFO into the log ----

  /** What a step writes into the FIFO. */
  function Inflow(s: State, m: Move): string
    requires Enabled(s, m)
  {
    match m
    case FifoWrite(data) => data
    case ServerMove => if s.todo != [] && s.todo[0].ToLogger? && s.writers > 0 then s.todo[0].text else ""
    case _ => ""
  }

  /** What a step reads out of it. */
  function Outflow(s: State, m: Move): string
    requires Enabled(s, m)
  {
    if m.LoggerMove? && s.logger.LRead? then s.fifo[..m.k] else ""
  }

  function Written(s: State, ms: seq<Move>): string
    requires Legal(s, ms)
    decreases |ms|
  {
    if ms == [] then "" else Inflow(s, ms[0]) + Written(Next(s, ms[0]), ms[1..])
  }

  /** The chunks the logger's reads returned. */
  function Chunks(s: State, ms: seq<Move>): seq<string>
    requires Legal(s, ms)
    decreases |ms|
  {
    if ms == [] then []
    else
      (if Outflow(s, ms[0]) != "" then [Outflow(s, ms[0])] else []) + Chunks(Next(s, ms[0]), ms[1..])
  }

  function Concat(chunks: seq<string>): string {
    if chunks == [] then "" else chunks[0] + Concat(chunks[1..])
  }

  function RecordTexts(chunks: seq<string>): seq<string> {
    if chunks == [] then [] else [RecordText(chunks[0])] + RecordTexts(chunks[1..])
  }

  /** The texts of the log's numbered records, in order. */
  function LogTexts(log: seq<Record>): seq<string> {
    if log == [] then []
    else
      LogTexts(log[..|log| - 1]) + if log[|log| - 1].LogRecord? then [log[|log| - 1].text] else []
  }

  /** The record the logger has read but not yet appended. */
  function InHand(pc: LoggerPc): seq<string> {
    match pc
    case LFormat(chunk) => [RecordText(chunk)]
    case LAppend(text) => [text]
    case _ => []
  }

  lemma StepMovesBytes(s: State, m: Move)
    requires Enabled(s, m) && s.lock.waiters <= {Health}
    ensures s.fifo + Inflow(s, m) == Outflow(s, m) + Next(s, m).fifo
  {
    match m
    case HealthMove(evs, k, late, w) => HealthFrame(s, evs, k, late, w);
    case LoggerMove(k, w) => LoggerMovesBytes(s, k, w);
    case _ =>
  }

  lemma LoggerMovesBytes(s: State, k: nat, w: Proc)
    requires Enabled(s, LoggerMove(k, w))
    ensures s.fifo + "" == Outflow(s, LoggerMove(k, w)) + LoggerStep(s, k, w).fifo
  {
    if s.logger.LRead? {
      assert s.fifo == s.fifo[..k] + s.fifo[k..];
    }
  }

  lemma {:induction false} FifoBytesConservedFrom(b: Build, s: State, ms: seq<Move>)
    requires LockInv(b, s) && Legal(s, ms)
    ensures s.fifo + Written(s, ms) == Concat(Chunks(s, ms)) + Exec(s, ms).fifo
    decreases |ms|
  {
    if ms == [] {
    } else {
      var m, s' := ms[0], Next(s, ms[0]);
      StepMovesBytes(s, m);
      StepKeepsLock(b, s, m);
      FifoBytesConservedFrom(b, s', ms[1..]);
      var rest := Chunks(s', ms[1..]);
      ConcatPrepend(Outflow(s, m), rest);
      Splice(s.fifo, Inflow(s, m), Written(s', ms[1..]), Outflow(s, m), s'.fifo, Concat(rest), Exec(s, ms).fifo);
    }
  }

  /** No byte of the FIFO is lost, repeated or reordered in any run: what was written is what the
      logger read, chunk after chunk, followed by what is there now. */
  lemma FifoBytesConserved(b: Build, ms: seq<Move>)
    requires Legal(Init(b), ms)
    ensures Written(Init(b), ms) == Concat(Chunks(Init(b), ms)) + Exec(Init(b), ms).fifo
  {
    var s := Init(b);
    InitKeeps(b);
    FifoBytesConservedFrom(b, s, ms);
    NothingBefore(Written(s, ms));
  }

  lemma ConcatPrepend(first: string, rest: seq<string>)
    ensures Concat((if first != "" then [first] else []) + rest) == first + Concat(rest)
  {
    if first != "" {
      assert ([first] + rest)[1..] == rest;
    } else {
      assert [] + rest == rest;
    }
  }

  function TextsOf(out: string): seq<string> { if out != "" then [RecordText(out)] else [] }

  lemma StepMovesRecords(b: Build, s: State, m: Move)
    requires LockInv(b, s) && Enabled(s, m)
    ensures var s' := Next(s, m);
            LogTexts(s'.log) + InHand(s'.logger) == LogTexts(s.log) + InHand(s.logger) + TextsOf(Outflow(s, m))
  {
    match m
    case LoggerMove(k, w) => LoggerMovesRecords(b, s, k, w);
    case HealthMove(evs, k, late, w) => HealthMovesNoRecords(b, s, evs, k, late, w);
    case _ => OutsideFrame(s, m);
  }

  lemma LoggerMovesRecords(b: Build, s: State, k: nat, w: Proc)
    requires LockInv(b, s) && Enabled(s, LoggerMove(k, w))
    ensures var s' := LoggerStep(s, k, w);
            LogTexts(s'.log) + InHand(s'.logger) ==
            LogTexts(s.log) + InHand(s.logger) + TextsOf(Outflow(s, LoggerMove(k, w)))
  {
    if s.logger.LAppend? {
      AppendedRecord(s.log, s.cnt + 1, s.logger.text);
      AppendsInHand(s, k, w);
    } else {
      LoggerFrame(b, s, k, w);
      LoggerKeepsInHand(b, s, k, w);
      Reassociate(LogTexts(s.log), InHand(s.logger), TextsOf(Outflow(s, LoggerMove(k, w))));
    }
  }

  lemma AppendsInHand(s: State, k: nat, w: Proc)
    requires Enabled(s, LoggerMove(k, w)) && s.logger.LAppend?
    ensures var s' := LoggerStep(s, k, w);
            && s'.log == s.log + [LogRecord(s.cnt + 1, s.logger.text)] && InHand(s'.logger) == []
            && InHand(s.logger) == [s.logger.text] && TextsOf(Outflow(s, LoggerMove(k, w))) == []
  {
  }

  lemma LoggerKeepsInHand(b: Build, s: State, k: nat, w: Proc)
    requires LockInv(b, s) && Enabled(s, LoggerMove(k, w)) && !s.logger.LAppend?
    ensures InHand(LoggerStep(s, k, w).logger) == InHand(s.logger) + TextsOf(Outflow(s, LoggerMove(k, w)))
  {
    if s.logger.LPost? {
      LoggerReleases(b, s, k, w);
    } else if s.logger.LRead? && k > 0 {
      assert s.fifo[..k] != "";
    }
  }

  lemma AppendedRecord(log: seq<Record>, n: nat, text: string)
    ensures var more := log + [LogRecord(n, text)];
            LogTexts(more) == LogTexts(log) + [text] && Checks(more) == Checks(log)
  {
    assert (log + [LogRecord(n, text)])[..|log|] == log;
  }

  lemma HealthMovesNoRecords(b: Build, s: State, evs: seq<Ev>, k: nat, late: bool, w: Proc)
    requires LockInv(b, s) && Enabled(s, HealthMove(evs, k, late, w))
    ensures var s' := HealthStep(s, evs, k, late, w);
            s'.logger == s.logger && LogTexts(s'.log) == LogTexts(s.log)
  {
    HealthFrame(s, evs, k, late, w);
    HealthAppends(s, evs, k, late, w);
    var s' := HealthStep(s, evs, k, late, w);
    if s'.log != s.log {
      assert s'.log[..|s.log|] == s.log;
    }
  }

  /** Health appends at most one line, never a numbered record, and a check line only as HCheck. */
  lemma HealthAppends(s: State, evs: seq<Ev>, k: nat, late: bool, w: Proc)
    requires Enabled(s, HealthMove(evs, k, late, w)) && s.lock.waiters <= {Health}
    ensures var s' := HealthStep(s, evs, k, late, w);
            s'.log == s.log
            || exists r :: s'.log == s.log + [r] && !r.LogRecord? && (r.HealthCheck? <==> s.health.HCheck?)
  {
    var s' := HealthStep(s, evs, k, late, w);
    match s.health
    case HCheck(_) => assert s'.log == s.log + [HealthCheck];
    case HDelay(_) => assert s'.log == s.log || s'.log == s.log + [HealthDelay];
    case HCmd(cmd, _) =>
      if Verdict(cmd).Some? {
        assert s'.log == s.log + [Line(Verdict(cmd).value)];
      }
    case _ =>
  }

  lemma {:induction false} RecordsAreTheChunksFrom(b: Build, s: State, ms: seq<Move>)
    requires LockInv(b, s) && Legal(s, ms)
    ensures LogTexts(s.log) + InHand(s.logger) + RecordTexts(Chunks(s, ms)) ==
            LogTexts(Exec(s, ms).log) + InHand(Exec(s, ms).logger)
    decreases |ms|
  {
    if ms == [] {
    } else {
      var m, s' := ms[0], Next(s, ms[0]);
      StepMovesRecords(b, s, m);
      StepKeepsLock(b, s, m);
      RecordsAreTheChunksFrom(b, s', ms[1..]);
      var rest := Chunks(s', ms[1..]);
      RecordTextsPrepend(Outflow(s, m), rest);
      Reassociate(LogTexts(s.log) + InHand(s.logger), TextsOf(Outflow(s, m)), RecordTexts(rest));
    }
  }

  /** Every chunk the logger reads becomes exactly one numbered record, in order, holding its text,
      but for the one it has in hand. */
  lemma RecordsAreTheChunks(b: Build, ms: seq<Move>)
    requires Legal(Init(b), ms)
    ensures RecordTexts(Chunks(Init(b), ms)) == LogTexts(Exec(Init(b), ms).log) + InHand(Exec(Init(b), ms).logger)
  {
    var s := Init(b);
    InitKeeps(b);
    RecordsAreTheChunksFrom(b, s, ms);
    assert LogTexts(s.log) + InHand(s.logger) == [];
    NothingBefore(RecordTexts(Chunks(s, ms)));
  }

  lemma RecordTextsPrepend(first: string, rest: seq<string>)
    ensures RecordTexts((if first != "" then [first] else []) + rest) == TextsOf(first) + RecordTexts(rest)
  {
    if first != "" {
      assert ([first] + rest)[1..] == rest;
    } else {
      assert [] + rest == rest;
    }
  }

  // ---- Expirations and checks ----

  function Ticks(ms: seq<Move>): nat {
    if ms == [] then 0 else (if ms[0].Tick? then 1 else 0) + Ticks(ms[1..])
  }

  function Checks(log: seq<Record>): nat {
    if log == [] then 0 else Checks(log[..|log| - 1]) + if log[|log| - 1].HealthCheck? then 1 else 0
  }

  /** Checks that can still come from expirations so far. */
  function Due(s: State): nat { s.ticks + if s.health.HWaitCheck? || s.health.HCheck? then 1 else 0 }

  lemma StepSpendsTicks(b: Build, s: State, m: Move)
    requires LockInv(b, s) && Enabled(s, m)
    ensures var s' := Next(s, m);
            Checks(s'.log) + Due(s') <= Checks(s.log) + Due(s) + if m.Tick? then 1 else 0
  {
    match m
    case LoggerMove(k, w) => LoggerSpendsNoTicks(b, s, k, w);
    case HealthMove(evs, k, late, w) => HealthSpendsTicks(s, evs, k, late, w);
    case _ => OutsideFrame(s, m);
  }

  lemma LoggerSpendsNoTicks(b: Build, s: State, k: nat, w: Proc)
    requires LockInv(b, s) && Enabled(s, LoggerMove(k, w))
    ensures var s' := LoggerStep(s, k, w); Checks(s'.log) + Due(s') == Checks(s.log) + Due(s)
  {
    if s.logger.LAppend? {
      AppendedRecord(s.log, s.cnt + 1, s.logger.text);
    } else {
      LoggerFrame(b, s, k, w);
    }
  }

  lemma HealthSpendsTicks(s: State, evs: seq<Ev>, k: nat, late: bool, w: Proc)
    requires Enabled(s, HealthMove(evs, k, late, w)) && s.lock.waiters <= {Health}
    ensures var s' := HealthStep(s, evs, k, late, w); Checks(s'.log) + Due(s') <= Checks(s.log) + Due(s)
  {
    var s' := HealthStep(s, evs, k, late, w);
    HealthAppends(s, evs, k, late, w);
    if s'.log != s.log {
      assert s'.log[..|s.log|] == s.log;
    }
    HealthDue(s, evs, k, late, w);
  }

  lemma HealthDue(s: State, evs: seq<Ev>, k: nat, late: bool, w: Proc)
    requires Enabled(s, HealthMove(evs, k, late, w)) && s.lock.waiters <= {Health}
    ensures var s' := HealthStep(s, evs, k, late, w);
            && Due(s') <= Due(s) - (if s.health.HCheck? then 1 else 0)
            && (s.health.HCheck? ==> s'.log == s.log + [HealthCheck])
  {
    match s.health
    case HCmd(cmd, es) => assert Commanded(s, cmd).ticks == s.ticks;
    case _ =>
  }

  lemma {:induction false} ChecksAreDueFrom(b: Build, s: State, ms: seq<Move>)
    requires LockInv(b, s) && Legal(s, ms)
    ensures Checks(Exec(s, ms).log) + Due(Exec(s, ms)) <= Checks(s.log) + Due(s) + Ticks(ms)
    decreases |ms|
  {
    if ms == [] {
    } else {
      StepSpendsTicks(b, s, ms[0]);
      StepKeepsLock(b, s, ms[0]);
      ChecksAreDueFrom(b, Next(s, ms[0]), ms[1..]);
    }
  }

  /** In no run are there more check lines, written or still due, than timer expirations. */
  lemma ChecksAreDue(b: Build, ms: seq<Move>)
    requires Legal(Init(b), ms)
    ensures Checks(Exec(Init(b), ms).log) + Due(Exec(Init(b), ms)) <= Ticks(ms)
  {
    InitKeeps(b);
    ChecksAreDueFrom(b, Init(b), ms);
  }

  // ---- Messages and slices ----

  predicate StartsJob(s: State, m: Move) { m.PaymentMove? && s.payment.PRead? && m.k > 0 }

  function Jobs(s: State, ms: seq<Move>): nat
    requires Legal(s, ms)
    decreases |ms|
  {
    if ms == [] then 0 else (if StartsJob(s, ms[0]) then 1 else 0) + Jobs(Next(s, ms[0]), ms[1..])
  }

  lemma StepCountsSlices(s: State, m: Move)
    requires SliceInRange(s) && Enabled(s, m) && s.lock.waiters <= {Health}
    ensures var s' := Next(s, m);
            && SliceInRange(s')
            && (if CompletesSlice(s, m) then 1 else 0) + SlicesLeft(s') ==
               SlicesLeft(s) + if StartsJob(s, m) then B.SLICES else 0
  {
    if m.HealthMove? {
      HealthFrame(s, m.evs, m.k, m.late, m.wake);
    }
  }

  lemma {:induction false} MessagesCostSlicesFrom(b: Build, s: State, ms: seq<Move>)
    requires LockInv(b, s) && SliceInRange(s) && Legal(s, ms)
    ensures SlicesDone(s, ms) + SlicesLeft(Exec(s, ms)) == SlicesLeft(s) + Jobs(s, ms) * B.SLICES
    decreases |ms|
  {
    if ms == [] {
    } else {
      StepCountsSlices(s, ms[0]);
      StepKeepsLock(b, s, ms[0]);
      MessagesCostSlicesFrom(b, Next(s, ms[0]), ms[1..]);
    }
  }

  /** Every message payment reads costs exactly 20 busy slices, in every run. */
  lemma EveryMessageCostsItsSlices(b: Build, ms: seq<Move>)
    requires Legal(Init(b), ms)
    ensures SlicesDone(Init(b), ms) + SlicesLeft(Exec(Init(b), ms)) == Jobs(Init(b), ms) * B.SLICES
  {
    InitKeeps(b);
    MessagesCostSlicesFrom(b, Init(b), ms);
  }
}
