/** What the shared log looks like after any run of the testbed, with either lock. */
module LogShape {
  import opened Prelude
  import opened LockProtocol
  import opened Testbed
  import opened TestbedInvariant

  function LogRecords(log: seq<Record>): nat {
    if log == [] then 0 else LogRecords(log[..|log| - 1]) + if log[|log| - 1].LogRecord? then 1 else 0
  }

  /** The logger's records are numbered 1, 2, 3, ... in log order. */
  ghost predicate Numbered(log: seq<Record>) {
    forall i | 0 <= i < |log| && log[i].LogRecord? :: log[i].n == 1 + LogRecords(log[..i])
  }

  /** A delay line comes directly after the check line it belongs to. */
  predicate DelaysFollowChecks(log: seq<Record>) {
    forall i | 0 <= i < |log| && log[i].HealthDelay? :: i > 0 && log[i - 1].HealthCheck?
  }

  /** Before position i there is a "started" line with no "stopped" line after it. */
  ghost predicate StartedBefore(log: seq<Record>, i: nat)
    requires i <= |log|
  {
    exists j | 0 <= j < i :: log[j].HealthStarted? && NoStopBetween(log, j, i)
  }

  predicate NoStopBetween(log: seq<Record>, j: nat, i: nat)
    requires i <= |log|
  {
    forall l | j < l < i :: !log[l].HealthStopped?
  }

  ghost predicate ChecksOnlyWhileStarted(log: seq<Record>) {
    forall i | 0 <= i < |log| && log[i].HealthCheck? :: StartedBefore(log, i)
  }

  ghost predicate WellShaped(log: seq<Record>) {
    Numbered(log) && DelaysFollowChecks(log) && ChecksOnlyWhileStarted(log)
  }

  /** What ties the processes' variables to the log. */
  ghost predicate LogInv(s: State) {
    && WellShaped(s.log)
    && s.cnt == LogRecords(s.log)
    && s.running == StartedBefore(s.log, |s.log|)
    && (s.health.HWaitCheck? || s.health.HCheck? ==> s.running)
    && (s.health.HDelay? ==> s.log != [] && s.log[|s.log| - 1].HealthCheck?)
  }

  lemma StartedAfterAppend(log: seq<Record>, r: Record)
    ensures StartedBefore(log + [r], |log| + 1) <==>
            r.HealthStarted? || (!r.HealthStopped? && StartedBefore(log, |log|))
    ensures forall i | 0 <= i <= |log| :: StartedBefore(log + [r], i) <==> StartedBefore(log, i)
  {
    var more, n := log + [r], |log|;
    assert forall l | 0 <= l < n :: log[l] == more[l];
    forall i | 0 <= i <= n ensures StartedBefore(more, i) <==> StartedBefore(log, i) {
      if StartedBefore(log, i) {
        var j :| 0 <= j < i && log[j].HealthStarted? && NoStopBetween(log, j, i);
        assert NoStopBetween(more, j, i);
      }
      if StartedBefore(more, i) {
        var j :| 0 <= j < i && more[j].HealthStarted? && NoStopBetween(more, j, i);
        assert NoStopBetween(log, j, i);
      }
    }
    if r.HealthStarted? {
      assert more[n].HealthStarted? && NoStopBetween(more, n, n + 1);
    } else if !r.HealthStopped? && StartedBefore(log, n) {
      var j :| 0 <= j < n && log[j].HealthStarted? && NoStopBetween(log, j, n);
      assert NoStopBetween(more, j, n + 1);
    }
    if StartedBefore(more, n + 1) && !r.HealthStarted? {
      var j :| 0 <= j < n + 1 && more[j].HealthStarted? && NoStopBetween(more, j, n + 1);
      assert j < n && more[n] == r;
      assert NoStopBetween(log, j, n);
    }
  }

  /** The lines that keep the log in shape when appended. */
  ghost predicate Fits(log: seq<Record>, r: Record) {
    && (r.LogRecord? ==> r.n == 1 + LogRecords(log))
    && (r.HealthDelay? ==> log != [] && log[|log| - 1].HealthCheck?)
    && (r.HealthCheck? ==> StartedBefore(log, |log|))
  }

  lemma AppendNumbered(log: seq<Record>, r: Record)
    requires Numbered(log) && (r.LogRecord? ==> r.n == 1 + LogRecords(log))
    ensures Numbered(log + [r])
    ensures LogRecords(log + [r]) == LogRecords(log) + if r.LogRecord? then 1 else 0
  {
    var more := log + [r];
    assert more[..|log|] == log;
    forall i | 0 <= i < |more| && more[i].LogRecord? ensures more[i].n == 1 + LogRecords(more[..i]) {
      assert more[..i] == log[..i];
      assert i < |log| ==> log[i] == more[i];
    }
  }

  lemma AppendCheck(log: seq<Record>, r: Record)
    requires ChecksOnlyWhileStarted(log) && (r.HealthCheck? ==> StartedBefore(log, |log|))
    ensures ChecksOnlyWhileStarted(log + [r])
  {
    var more := log + [r];
    StartedAfterAppend(log, r);
    forall i | 0 <= i < |more| && more[i].HealthCheck? ensures StartedBefore(more, i) {
      assert i < |log| ==> log[i] == more[i];
      assert StartedBefore(log, i);
    }
  }

  lemma AppendFitting(log: seq<Record>, r: Record)
    requires WellShaped(log) && Fits(log, r)
    ensures WellShaped(log + [r])
    ensures LogRecords(log + [r]) == LogRecords(log) + if r.LogRecord? then 1 else 0
  {
    AppendNumbered(log, r);
    AppendCheck(log, r);
  }

  lemma InitLogInv(b: Build)
    ensures LogInv(Init(b))
  {
  }

  lemma RecordKeepsLog(s: State, text: string)
    requires LogInv(s) && !s.health.HDelay?
    ensures LogInv(s.(cnt := s.cnt + 1, log := s.log + [LogRecord(s.cnt + 1, text)], logger := LPost))
  {
    var r := LogRecord(s.cnt + 1, text);
    AppendFitting(s.log, r);
    StartedAfterAppend(s.log, r);
  }

  /** Steps that leave the log alone and send health neither into a check nor past one. */
  predicate LogUntouched(s: State, s': State) {
    && s'.log == s.log && s'.running == s.running && s'.cnt == s.cnt
    && (s'.health == s.health || (s'.health.HCheck? && s.health.HWaitCheck?) || s'.health.HCmd?)
  }

  lemma UntouchedKeepsLog(s: State, s': State)
    requires LogInv(s) && LogUntouched(s, s')
    ensures LogInv(s')
  {
  }

  lemma LoggerElsewhere(b: Build, s: State, k: nat, w: Proc)
    requires LockInv(b, s) && Enabled(s, LoggerMove(k, w)) && !s.logger.LAppend?
    ensures LogUntouched(s, LoggerStep(s, k, w))
  {
    LoggerFrame(b, s, k, w);
  }

  /** The logger does not append while health is between its check and its delay line. */
  lemma NoDelayDue(b: Build, s: State, k: nat, w: Proc)
    requires LockInv(b, s) && Enabled(s, LoggerMove(k, w))
    ensures !s.health.HDelay?
  {
    if HealthHolds(s) {
      HealthRunsAlone(b, s, Logger);
    }
  }

  lemma AppendStep(s: State, k: nat, w: Proc)
    requires Enabled(s, LoggerMove(k, w)) && s.logger.LAppend?
    ensures LoggerStep(s, k, w) ==
            s.(cnt := s.cnt + 1, log := s.log + [LogRecord(s.cnt + 1, s.logger.text)], logger := LPost)
  {
  }

  lemma LoggerKeepsLog(b: Build, s: State, k: nat, w: Proc)
    requires LockInv(b, s) && LogInv(s) && Enabled(s, LoggerMove(k, w))
    ensures LogInv(LoggerStep(s, k, w))
  {
    if s.logger.LAppend? {
      NoDelayDue(b, s, k, w);
      AppendStep(s, k, w);
      RecordKeepsLog(s, s.logger.text);
    } else {
      LoggerElsewhere(b, s, k, w);
      UntouchedKeepsLog(s, LoggerStep(s, k, w));
    }
  }

  lemma HealthElsewhere(s: State, evs: seq<Ev>, k: nat, late: bool, w: Proc)
    requires Enabled(s, HealthMove(evs, k, late, w))
    requires !s.health.HCheck? && !s.health.HDelay? && !s.health.HCmd?
    requires s.health.HPost? ==> s.lock.waiters == {}
    ensures var s' := HealthStep(s, evs, k, late, w);
            && s'.log == s.log && s'.running == s.running && s'.cnt == s.cnt && !s'.health.HDelay?
            && (s'.health.HWaitCheck? || s'.health.HCheck? ==> s.running || s.health.HWaitCheck?)
  {
    if s.health.HPost? {
      assert HealthStep(s, evs, k, late, w).health == HNext(s.health.evs);
    }
  }

  lemma CheckKeepsLog(s: State, evs: seq<Ev>, k: nat, late: bool, w: Proc)
    requires LogInv(s) && Enabled(s, HealthMove(evs, k, late, w))
    requires s.health.HCheck? || s.health.HDelay?
    ensures LogInv(HealthStep(s, evs, k, late, w))
  {
    var r := if s.health.HCheck? then HealthCheck else HealthDelay;
    AppendFitting(s.log, r);
    StartedAfterAppend(s.log, r);
  }

  lemma LineKeepsLog(s: State, on: bool, es: seq<Ev>)
    requires LogInv(s)
    ensures LogInv(s.(running := on, log := s.log + [Line(on)], health := HPost(es)))
  {
    AppendFitting(s.log, Line(on));
    StartedAfterAppend(s.log, Line(on));
  }

  lemma CommandKeepsLog(s: State, cmd: string, es: seq<Ev>)
    requires LogInv(s) && s.health == HCmd(cmd, es)
    ensures LogInv(Commanded(s, cmd).(health := HPost(es)))
  {
    match Verdict(cmd)
    case None =>
    case Some(on) => LineKeepsLog(s, on, es);
  }

  lemma HealthKeepsLog(s: State, evs: seq<Ev>, k: nat, late: bool, w: Proc)
    requires LogInv(s) && Enabled(s, HealthMove(evs, k, late, w))
    requires s.health.HPost? ==> s.lock.waiters == {}
    ensures LogInv(HealthStep(s, evs, k, late, w))
  {
    if s.health.HCheck? || s.health.HDelay? {
      CheckKeepsLog(s, evs, k, late, w);
    } else if s.health.HCmd? {
      CommandKeepsLog(s, s.health.cmd, s.health.evs);
    } else {
      HealthElsewhere(s, evs, k, late, w);
    }
  }

  lemma StepKeepsLog(b: Build, s: State, m: Move)
    requires LockInv(b, s) && LogInv(s) && Enabled(s, m)
    ensures LogInv(Next(s, m))
  {
    match m
    case LoggerMove(k, w) => LoggerKeepsLog(b, s, k, w);
    case HealthMove(evs, k, late, w) => HealthKeepsLog(s, evs, k, late, w);
    case _ => OutsideFrame(s, m);
  }

  lemma {:induction false} RunKeepsLog(b: Build, s: State, ms: seq<Move>)
    requires LockInv(b, s) && LogInv(s) && Legal(s, ms)
    ensures LogInv(Exec(s, ms))
    decreases |ms|
  {
    if ms == [] {
    } else {
      StepKeepsLock(b, s, ms[0]);
      StepKeepsLog(b, s, ms[0]);
      RunKeepsLog(b, Next(s, ms[0]), ms[1..]);
    }
  }

  /** After every run, whatever the events, commands and interleaving: gapless record numbers,
      delay lines glued to their checks, and checks only between a start and the next stop. */
  lemma LogAlwaysWellShaped(b: Build, ms: seq<Move>)
    requires Legal(Init(b), ms)
    ensures WellShaped(Exec(Init(b), ms).log)
  {
    InitKeeps(b);
    InitLogInv(b);
    RunKeepsLog(b, Init(b), ms);
  }
}
