/** The POSIX shared buffer: one initialisation, then any number of workers taking turns. */
module PosixShm {
  import opened Prelude

  /** size_t has 32 bits on the target. */
  const SIZE_MOD: nat := TWO32

  /** The text a worker formats: its pid and the count it saw. */
  datatype Text = Empty | Hello(pid: nat, count: nat)

  /** struct mybuf, changed in place by the programs. */
  class MyBuf {
    var count: nat
    var text: Text

    constructor ()
      ensures count == 0 && text == Empty
    {
      count := 0;
      text := Empty;
    }

    /** The body of the worker's critical section. */
    method Work(pid: nat)
      requires count < SIZE_MOD
      modifies this
      ensures text == Hello(pid, old(count))
      ensures count == (old(count) + 1) % SIZE_MOD
    {
      text := Hello(pid, count);
      var loaded := count;
      count := (loaded + 1) % SIZE_MOD;
    }
  }

  /** A worker's place in main; Dead remembers where it died. */
  datatype Pc = Waiting | Formatting | Loading | Storing(loaded: nat) | Posting | Finished | Dead(at: Pc)

  /** texts records everything ever formatted into the buffer, in order. */
  datatype State = State(sem: nat, count: nat, text: Text, pcs: seq<Pc>, texts: seq<Text>)

  datatype Move = Spawn | Step(p: nat) | Die(p: nat)

  function Place(pc: Pc): Pc { if pc.Dead? then pc.at else pc }

  /** Between sem_wait and sem_post, or dead there. */
  predicate Inside(pc: Pc) {
    var at := Place(pc);
    at.Formatting? || at.Loading? || at.Storing? || at.Posting?
  }

  predicate Enabled(s: State, m: Move) {
    match m
    case Spawn => true
    case Step(p) => p < |s.pcs| && !s.pcs[p].Dead? && !s.pcs[p].Finished? && (s.pcs[p].Waiting? ==> s.sem > 0)
    case Die(p) => p < |s.pcs| && !s.pcs[p].Dead? && !s.pcs[p].Finished?
  }

  function WorkerStep(s: State, p: nat): State
    requires Enabled(s, Step(p))
  {
    match s.pcs[p]
    case Waiting => s.(sem := s.sem - 1, pcs := s.pcs[p := Formatting])
    case Formatting =>
      var t := Hello(p, s.count);
      s.(text := t, texts := s.texts + [t], pcs := s.pcs[p := Loading])
    case Loading => s.(pcs := s.pcs[p := Storing(s.count)])
    case Storing(loaded) => s.(count := (loaded + 1) % SIZE_MOD, pcs := s.pcs[p := Posting])
    case Posting => s.(sem := s.sem + 1, pcs := s.pcs[p := Finished])
    case _ => s
  }

  function Next(s: State, m: Move): State
    requires Enabled(s, m)
  {
    match m
    case Spawn => s.(pcs := s.pcs + [Waiting])
    case Step(p) => WorkerStep(s, p)
    case Die(p) => s.(pcs := s.pcs[p := Dead(s.pcs[p])])
  }

  /** What posix_shm_init leaves behind. */
  const INIT := State(1, 0, Empty, [], [])

  predicate Legal(s: State, ms: seq<Move>)
    decreases |ms|
  {
    ms == [] || (Enabled(s, ms[0]) && Legal(Next(s, ms[0]), ms[1..]))
  }

  function Exec(s: State, ms: seq<Move>): State
    requires Legal(s, ms)
    decreases |ms|
  {
    if ms == [] then s else Exec(Next(s, ms[0]), ms[1..])
  }

  /** Past the snprintf, and past the increment. */
  predicate HasWritten(pc: Pc) { var at := Place(pc); !at.Waiting? && !at.Formatting? && !at.Dead? }

  predicate BeforeStore(pc: Pc) { Place(pc).Loading? || Place(pc).Storing? }

  function Writers(pcs: seq<Pc>): nat {
    if pcs == [] then 0 else Writers(pcs[..|pcs| - 1]) + if HasWritten(pcs[|pcs| - 1]) then 1 else 0
  }

  lemma {:induction false} WritersUpdate(pcs: seq<Pc>, p: nat, pc: Pc)
    requires p < |pcs|
    ensures Writers(pcs[p := pc]) ==
            Writers(pcs) - (if HasWritten(pcs[p]) then 1 else 0) + (if HasWritten(pc) then 1 else 0)
  {
    var n := |pcs| - 1;
    if p == n {
      assert pcs[p := pc][..n] == pcs[..n];
    } else {
      assert pcs[p := pc][..n] == pcs[..n][p := pc];
      WritersUpdate(pcs[..n], p, pc);
    }
  }

  /** The count the next store or the resting buffer owes: texts written, less a pending store. */
  predicate CountMatches(s: State) {
    && (forall p | 0 <= p < |s.pcs| && BeforeStore(s.pcs[p]) :: |s.texts| > 0 && s.count == (|s.texts| - 1) % SIZE_MOD)
    && ((forall p | 0 <= p < |s.pcs| :: !BeforeStore(s.pcs[p])) ==> s.count == |s.texts| % SIZE_MOD)
    && forall p | 0 <= p < |s.pcs| && Place(s.pcs[p]).Storing? :: Place(s.pcs[p]).loaded == s.count
  }

  predicate SomebodyInside(s: State) { exists p | 0 <= p < |s.pcs| :: Inside(s.pcs[p]) }

  /** The semaphore admits one worker at a time, and is taken only while one is inside. */
  predicate OneInside(s: State) {
    && s.sem <= 1
    && (s.sem == 0 ==> SomebodyInside(s))
    && (forall p | 0 <= p < |s.pcs| :: Inside(s.pcs[p]) ==> s.sem == 0)
    && (forall p, q | 0 <= p < |s.pcs| && 0 <= q < |s.pcs| && Inside(s.pcs[p]) && Inside(s.pcs[q]) :: p == q)
    && (forall p | 0 <= p < |s.pcs| && s.pcs[p].Dead? :: !s.pcs[p].at.Dead? && !s.pcs[p].at.Finished?)
  }

  predicate TextsCounted(s: State) {
    && |s.texts| == Writers(s.pcs)
    && (forall i | 0 <= i < |s.texts| :: s.texts[i].Hello? && s.texts[i].count == i % SIZE_MOD)
  }

  predicate Inv(s: State) { OneInside(s) && TextsCounted(s) && CountMatches(s) }

  lemma SpawnKeepsInv(s: State)
    requires Inv(s)
    ensures Inv(Next(s, Spawn))
  {
    var s' := Next(s, Spawn);
    assert s'.pcs[..|s.pcs|] == s.pcs;
    assert forall p | 0 <= p < |s.pcs| :: s'.pcs[p] == s.pcs[p];
  }

  lemma StepKeepsInv(s: State, m: Move)
    requires Inv(s) && Enabled(s, m)
    ensures Inv(Next(s, m))
  {
    match m
    case Spawn => SpawnKeepsInv(s);
    case Die(p) => WritersUpdate(s.pcs, p, Dead(s.pcs[p])); DeathKeepsInv(s, p);
    case Step(p) => WorkerKeepsInv(s, p);
  }

  lemma DeathKeepsInv(s: State, p: nat)
    requires Inv(s) && Enabled(s, Die(p))
    requires Writers(s.pcs[p := Dead(s.pcs[p])]) == Writers(s.pcs)
    ensures Inv(Next(s, Die(p)))
  {
    var s' := Next(s, Die(p));
    assert forall q | 0 <= q < |s.pcs| :: Place(s'.pcs[q]) == Place(s.pcs[q]);
  }

  lemma WorkerKeepsOneInside(s: State, p: nat)
    requires OneInside(s) && Enabled(s, Step(p))
    ensures OneInside(WorkerStep(s, p))
  {
    var s' := WorkerStep(s, p);
    assert forall q | 0 <= q < |s.pcs| && q != p :: s'.pcs[q] == s.pcs[q];
    if !s.pcs[p].Posting? {
      assert Inside(s'.pcs[p]);
    }
  }

  lemma WorkerKeepsTexts(s: State, p: nat)
    requires Inv(s) && Enabled(s, Step(p))
    ensures TextsCounted(WorkerStep(s, p))
  {
    WritersUpdate(s.pcs, p, WorkerStep(s, p).pcs[p]);
    if s.pcs[p].Formatting? {
      forall q | 0 <= q < |s.pcs| ensures !BeforeStore(s.pcs[q]) {
        assert BeforeStore(s.pcs[q]) ==> Inside(s.pcs[q]);
      }
    }
  }

  lemma WorkerKeepsCount(s: State, p: nat)
    requires Inv(s) && Enabled(s, Step(p))
    ensures CountMatches(WorkerStep(s, p))
  {
    var s' := WorkerStep(s, p);
    assert forall q | 0 <= q < |s.pcs| && q != p :: s'.pcs[q] == s.pcs[q];
    forall q | 0 <= q < |s.pcs| && q != p ensures !BeforeStore(s.pcs[q]) {
      assert BeforeStore(s.pcs[q]) ==> Inside(s.pcs[q]);
    }
    match s.pcs[p]
    case Formatting => assert !BeforeStore(s.pcs[p]) && BeforeStore(s'.pcs[p]);
    case Loading => assert BeforeStore(s.pcs[p]) && BeforeStore(s'.pcs[p]);
    case Storing(_) => assert BeforeStore(s.pcs[p]) && !BeforeStore(s'.pcs[p]);
    case Waiting => assert !BeforeStore(s'.pcs[p]);
    case Posting => assert !BeforeStore(s'.pcs[p]);
    case _ =>
  }

  lemma WorkerKeepsInv(s: State, p: nat)
    requires Inv(s) && Enabled(s, Step(p))
    ensures Inv(WorkerStep(s, p))
  {
    WorkerKeepsOneInside(s, p);
    WorkerKeepsTexts(s, p);
    WorkerKeepsCount(s, p);
  }

  lemma {:induction false} RunKeepsInv(s: State, ms: seq<Move>)
    requires Inv(s) && Legal(s, ms)
    ensures Inv(Exec(s, ms))
    decreases |ms|
  {
    if ms == [] {
    } else {
      StepKeepsInv(s, ms[0]);
      RunKeepsInv(Next(s, ms[0]), ms[1..]);
    }
  }

  lemma {:induction false} AllWritten(pcs: seq<Pc>)
    requires forall p | 0 <= p < |pcs| :: pcs[p].Finished?
    ensures Writers(pcs) == |pcs|
  {
    if pcs != [] {
      AllWritten(pcs[..|pcs| - 1]);
    }
  }

  /** No update is lost, in any interleaving: the i-th text carries the count i (from 0), and when
      every worker has run to completion the count is the number of workers, as a size_t. */
  lemma NoLostUpdates(ms: seq<Move>)
    requires Legal(INIT, ms)
    ensures var s := Exec(INIT, ms);
            && (forall i | 0 <= i < |s.texts| :: s.texts[i].Hello? && s.texts[i].count == i % SIZE_MOD)
            && ((forall p | 0 <= p < |s.pcs| :: s.pcs[p].Finished?) ==>
                  |s.texts| == |s.pcs| && s.count == |s.pcs| % SIZE_MOD)
  {
    RunKeepsInv(INIT, ms);
    var s := Exec(INIT, ms);
    if forall p | 0 <= p < |s.pcs| :: s.pcs[p].Finished? {
      AllWritten(s.pcs);
    }
  }

  // ---- Whose text it is ----

  /** The buffer shows the last text written. Each text carries the number of a worker that has got past
      its snprintf, every such worker wrote one, and no two carry the same number. */
  predicate TextsSigned(s: State) {
    && s.text == (if s.texts == [] then Empty else s.texts[|s.texts| - 1])
    && (forall i | 0 <= i < |s.texts| ::
          s.texts[i].Hello? && s.texts[i].pid < |s.pcs| && HasWritten(s.pcs[s.texts[i].pid]))
    && (forall i, j | 0 <= i < j < |s.texts| && s.texts[i].Hello? && s.texts[j].Hello? ::
          s.texts[i].pid != s.texts[j].pid)
    && forall p | 0 <= p < |s.pcs| && HasWritten(s.pcs[p]) :: Signed(s.texts, p)
  }

  predicate Signed(texts: seq<Text>, p: nat) { exists i | 0 <= i < |texts| :: texts[i].Hello? && texts[i].pid == p }

  lemma FormattingSigns(s: State, p: nat)
    requires TextsSigned(s) && Enabled(s, Step(p)) && s.pcs[p].Formatting?
    ensures TextsSigned(WorkerStep(s, p))
  {
    var s' := WorkerStep(s, p);
    assert forall i | 0 <= i < |s.texts| :: s'.texts[i] == s.texts[i];
    assert s'.texts[|s.texts|] == Hello(p, s.count);
    forall q | 0 <= q < |s'.pcs| && HasWritten(s'.pcs[q]) ensures Signed(s'.texts, q) {
      if q != p {
        assert Signed(s.texts, q);
        var i :| 0 <= i < |s.texts| && s.texts[i].Hello? && s.texts[i].pid == q;
        assert s'.texts[i].Hello? && s'.texts[i].pid == q;
      }
    }
  }

  lemma StepKeepsSigned(s: State, m: Move)
    requires OneInside(s) && TextsSigned(s) && Enabled(s, m)
    ensures TextsSigned(Next(s, m))
  {
    if m.Step? && s.pcs[m.p].Formatting? {
      FormattingSigns(s, m.p);
    } else {
      var s' := Next(s, m);
      assert s'.texts == s.texts && s'.text == s.text;
      assert forall q | 0 <= q < |s.pcs| :: HasWritten(s'.pcs[q]) == HasWritten(s.pcs[q]);
    }
  }

  lemma {:induction false} RunKeepsSigned(s: State, ms: seq<Move>)
    requires Inv(s) && TextsSigned(s) && Legal(s, ms)
    ensures TextsSigned(Exec(s, ms))
    decreases |ms|
  {
    if ms == [] {
    } else {
      StepKeepsSigned(s, ms[0]);
      StepKeepsInv(s, ms[0]);
      RunKeepsSigned(Next(s, ms[0]), ms[1..]);
    }
  }

  /** In every interleaving. */
  lemma EveryTextSigned(ms: seq<Move>)
    requires Legal(INIT, ms)
    ensures TextsSigned(Exec(INIT, ms))
  {
    RunKeepsSigned(INIT, ms);
  }

  // ---- Who can be locked out ----

  /** This semaphore has no undo: a worker that dies inside keeps everybody out for good. */
  lemma {:induction false} DeadHolderLocksOut(s: State, p: nat, ms: seq<Move>)
    requires Inv(s) && p < |s.pcs| && s.pcs[p].Dead? && Inside(s.pcs[p]) && Legal(s, ms)
    ensures var s' := Exec(s, ms);
            && s'.texts == s.texts && s'.count == s.count && |s'.pcs| >= |s.pcs|
            && (forall q | 0 <= q < |s'.pcs| && s'.pcs[q].Waiting? :: !Enabled(s', Step(q)))
            && forall q | 0 <= q < |s'.pcs| && q != p :: !Inside(s'.pcs[q])
    decreases |ms|
  {
    if ms == [] {
    } else {
      StepKeepsInv(s, ms[0]);
      DeadHolderLocksOut(Next(s, ms[0]), p, ms[1..]);
    }
  }

  /** Steps a worker inside still takes, its post included. */
  function StepsLeft(pc: Pc): nat {
    match pc
    case Formatting => 4
    case Loading => 3
    case Storing(_) => 2
    case Posting => 1
    case _ => 0
  }

  /** A living holder gets through its critical section, whoever else exists: nothing in it waits. */
  lemma {:induction false} HolderFinishes(s: State, q: nat) returns (ms: seq<Move>)
    requires Inv(s) && q < |s.pcs| && Inside(s.pcs[q]) && !s.pcs[q].Dead?
    ensures |ms| == StepsLeft(s.pcs[q]) <= 4 && Legal(s, ms)
    ensures Exec(s, ms).sem == 1 && Exec(s, ms).pcs == s.pcs[q := Finished]
    decreases StepsLeft(s.pcs[q])
  {
    var s' := Next(s, Step(q));
    StepKeepsInv(s, Step(q));
    var rest := [];
    if s.pcs[q].Posting? {
      assert s.sem == 0;
    } else {
      rest := HolderFinishes(s', q);
      assert s'.pcs[q := Finished] == s.pcs[q := Finished];
    }
    ms := [Step(q)] + rest;
    assert ms[1..] == rest;
  }

  predicate DeadInside(s: State) { exists p | 0 <= p < |s.pcs| :: s.pcs[p].Dead? && Inside(s.pcs[p]) }

  /** The run lets worker p into its critical section. */
  predicate LetsIn(s: State, ms: seq<Move>, p: nat) {
    Legal(s, ms) && p < |Exec(s, ms).pcs| && Inside(Exec(s, ms).pcs[p])
  }

  /** Without a dead holder a waiting worker can get in: at once, or after the holder's own steps. */
  lemma WaiterGetsIn(s: State, p: nat) returns (ms: seq<Move>)
    requires Inv(s) && p < |s.pcs| && s.pcs[p].Waiting? && !DeadInside(s)
    ensures LetsIn(s, ms, p) && |ms| <= 5
  {
    var before := [];
    if s.sem == 0 {
      var q :| 0 <= q < |s.pcs| && Inside(s.pcs[q]);
      before := HolderFinishes(s, q);
    }
    var s1 := Exec(s, before);
    assert s1.pcs[p].Waiting? && s1.sem > 0;
    assert Legal(s1, [Step(p)]) by {
      assert [Step(p)][1..] == [] && Legal(Next(s1, Step(p)), []);
    }
    RunsCompose(s, before, [Step(p)]);
    ms := before + [Step(p)];
    assert Exec(s1, [Step(p)]) == Next(s1, Step(p));
  }

  lemma {:induction false} RunsCompose(s: State, a: seq<Move>, b: seq<Move>)
    requires Legal(s, a) && Legal(Exec(s, a), b)
    ensures Legal(s, a + b) && Exec(s, a + b) == Exec(Exec(s, a), b)
    decreases |a|
  {
    if a == [] {
      assert a + b == b;
    } else {
      assert (a + b)[1..] == a[1..] + b;
      RunsCompose(Next(s, a[0]), a[1..], b);
    }
  }

  /** The exact condition, in every reachable state: a waiting worker is locked out for good if and
      only if some worker has died inside. */
  lemma LockedOutIff(before: seq<Move>, p: nat)
    requires Legal(INIT, before)
    requires p < |Exec(INIT, before).pcs| && Exec(INIT, before).pcs[p].Waiting?
    ensures var s := Exec(INIT, before); (forall ms :: !LetsIn(s, ms, p)) <==> DeadInside(s)
  {
    RunKeepsInv(INIT, before);
    var s := Exec(INIT, before);
    if DeadInside(s) {
      var d :| 0 <= d < |s.pcs| && s.pcs[d].Dead? && Inside(s.pcs[d]);
      forall ms ensures !LetsIn(s, ms, p) {
        if Legal(s, ms) {
          DeadHolderLocksOut(s, d, ms);
        }
      }
    } else {
      var ms := WaiterGetsIn(s, p);
    }
  }
}
