/** The System V semaphore of shm.c, with SEM_UNDO, and any number of processes running main. */
module SysVLock {
  import opened Prelude

  /** One semaphore: its value and the adjustment each process has pending for its exit. */
  datatype Sem = Sem(value: int, adj: seq<int>)

  /** SETVAL sets the value and clears every process's adjustment. */
  function SetTo(s: Sem, v: int): Sem { Sem(v, seq(|s.adj|, _ => 0)) }

  /** A semop by delta with SEM_UNDO; it is possible only while the value stays non-negative. */
  function Operate(s: Sem, p: nat, delta: int): Sem
    requires p < |s.adj|
  {
    Sem(s.value + delta, s.adj[p := s.adj[p] - delta])
  }

  /** Process exit applies the pending adjustment; a negative result would be cut to zero. */
  function Undo(s: Sem, p: nat): Sem
    requires p < |s.adj|
  {
    Sem(Max(0, s.value + s.adj[p]), s.adj[p := 0])
  }

  /** create_semaphore, lock_semaphore and unlock_semaphore on a semaphore changed in place. */
  class SemaphoreSet {
    var value: int
    var adj: seq<int>

    ghost function Contents(): Sem
      reads this
    {
      Sem(value, adj)
    }

    constructor (processes: nat)
      ensures Contents() == Sem(0, seq(processes, _ => 0))
    {
      value := 0;
      adj := seq(processes, _ => 0);
    }

    /** create_semaphore sets the value whether or not the set existed before. */
    method CreateSemaphore()
      modifies this
      ensures Contents() == SetTo(old(Contents()), 1)
      ensures value == 1 && |adj| == |old(adj)| && forall p | 0 <= p < |adj| :: adj[p] == 0
    {
      value := 1;
      adj := seq(|adj|, _ => 0);
    }

    /** lock_semaphore, at the moment the operation can proceed. */
    method LockSemaphore(p: nat)
      requires p < |adj| && value >= 1
      modifies this
      ensures Contents() == Operate(old(Contents()), p, -1)
      ensures value == old(value) - 1 && adj == old(adj)[p := old(adj)[p] + 1]
    {
      value := value - 1;
      adj := adj[p := adj[p] + 1];
    }

    method UnlockSemaphore(p: nat)
      requires p < |adj|
      modifies this
      ensures Contents() == Operate(old(Contents()), p, 1)
      ensures value == old(value) + 1 && adj == old(adj)[p := old(adj)[p] - 1]
    {
      value := value + 1;
      adj := adj[p := adj[p] - 1];
    }

    method ExitProcess(p: nat)
      requires p < |adj|
      modifies this
      ensures Contents() == Undo(old(Contents()), p)
      ensures value == Max(0, old(value) + old(adj)[p]) && adj == old(adj)[p := 0]
    {
      value := value + adj[p];
      if value < 0 {
        value := 0;
      }
      adj := adj[p := 0];
    }
  }

  // ---- Processes ----

  datatype Pc = Start | Locking | Entered | Wrote | Released | Gone

  /** text is the process whose message the shared memory holds. */
  datatype State = State(sem: Sem, made: bool, pcs: seq<Pc>, text: Option<nat>)

  datatype Move = Spawn | Create(p: nat) | Lock(p: nat) | Write(p: nat) | Unlock(p: nat) | Exit(p: nat)

  predicate Holds(pc: Pc) { pc.Entered? || pc.Wrote? }

  predicate Consistent(s: State) { |s.sem.adj| == |s.pcs| }

  /** Exit stands for the normal return as well as for death at any point. */
  predicate Enabled(s: State, m: Move) {
    && Consistent(s)
    && match m
       case Spawn => true
       case Create(p) => p < |s.pcs| && s.pcs[p].Start?
       case Lock(p) => p < |s.pcs| && s.pcs[p].Locking? && s.sem.value >= 1
       case Write(p) => p < |s.pcs| && s.pcs[p].Entered?
       case Unlock(p) => p < |s.pcs| && s.pcs[p].Wrote?
       case Exit(p) => p < |s.pcs| && !s.pcs[p].Gone?
  }

  function Next(s: State, m: Move): State
    requires Enabled(s, m)
  {
    match m
    case Spawn => s.(sem := s.sem.(adj := s.sem.adj + [0]), pcs := s.pcs + [Start])
    case Create(p) => s.(sem := SetTo(s.sem, 1), made := true, pcs := s.pcs[p := Locking])
    case Lock(p) => s.(sem := Operate(s.sem, p, -1), pcs := s.pcs[p := Entered])
    case Write(p) => s.(text := Some(p), pcs := s.pcs[p := Wrote])
    case Unlock(p) => s.(sem := Operate(s.sem, p, 1), pcs := s.pcs[p := Released])
    case Exit(p) => s.(sem := Undo(s.sem, p), pcs := s.pcs[p := Gone])
  }

  const INIT := State(Sem(0, []), false, [], None)

  predicate Legal(s: State, ms: seq<Move>)
    decreases |ms|
  {
    ms == [] || (Enabled(s, ms[0]) && Legal(Next(s, ms[0]), ms[1..]))
  }

  function Exec(s: State, ms: seq<Move>): State
    requires Legal(s, ms)
    decreases |ms|
  {
    if ms == [] then s else Exec(Next(s, ms[0]), ms[1..])
  }

  predicate NobodyHolds(s: State) { forall p | 0 <= p < |s.pcs| :: !Holds(s.pcs[p]) }

  /** No process of the run initialises the semaphore while another is in its critical section. */
  predicate NoLateCreate(s: State, ms: seq<Move>)
    requires Legal(s, ms)
    decreases |ms|
  {
    ms == [] || ((ms[0].Create? ==> NobodyHolds(s)) && NoLateCreate(Next(s, ms[0]), ms[1..]))
  }

  function Total(adj: seq<int>): int {
    if adj == [] then 0 else Total(adj[..|adj| - 1]) + adj[|adj| - 1]
  }

  lemma {:induction false} TotalUpdate(adj: seq<int>, p: nat, v: int)
    requires p < |adj|
    ensures Total(adj[p := v]) == Total(adj) - adj[p] + v
  {
    var n := |adj| - 1;
    if p == n {
      assert adj[p := v][..n] == adj[..n];
    } else {
      assert adj[p := v][..n] == adj[..n][p := v];
      TotalUpdate(adj[..n], p, v);
    }
  }

  lemma {:induction false} TotalOfZeros(adj: seq<int>)
    requires forall p | 0 <= p < |adj| :: adj[p] == 0
    ensures Total(adj) == 0
  {
    if adj != [] {
      TotalOfZeros(adj[..|adj| - 1]);
    }
  }

  lemma {:induction false} TotalCoversEach(adj: seq<int>, p: nat)
    requires forall q | 0 <= q < |adj| :: adj[q] >= 0
    requires p < |adj|
    ensures Total(adj) >= adj[p]
    decreases |adj|
  {
    var n := |adj| - 1;
    if p < n {
      TotalCoversEach(adj[..n], p);
    } else if n > 0 {
      TotalCoversEach(adj[..n], 0);
    }
  }

  /** The value plus everything the live processes would give back is 1; a process would give
      back one exactly when it is in its critical section; and what it wrote there stays. */
  predicate Inv(s: State) {
    && Consistent(s)
    && (s.made ==> s.sem.value >= 0 && s.sem.value + Total(s.sem.adj) == 1)
    && (!s.made ==> forall p | 0 <= p < |s.pcs| :: s.pcs[p].Start? || s.pcs[p].Gone?)
    && (!s.made ==> s.sem.value == 0)
    && (forall p | 0 <= p < |s.pcs| :: s.sem.adj[p] == if Holds(s.pcs[p]) then 1 else 0)
    && (forall p | 0 <= p < |s.pcs| && s.pcs[p].Wrote? :: s.text == Some(p))
  }

  lemma AtMostOneHolder(s: State, p: nat, q: nat)
    requires Inv(s) && p < |s.pcs| && q < |s.pcs| && Holds(s.pcs[p]) && Holds(s.pcs[q])
    ensures p == q && s.sem.value == 0
  {
    TotalCoversEach(s.sem.adj, p);
    if p != q {
      var without := s.sem.adj[q := 0];
      TotalUpdate(s.sem.adj, q, 0);
      TotalCoversEach(without, p);
    }
  }

  lemma StepKeepsInv(s: State, m: Move)
    requires Inv(s) && Enabled(s, m)
    requires m.Create? ==> NobodyHolds(s)
    ensures Inv(Next(s, m))
  {
    var adj := s.sem.adj;
    match m
    case Spawn => assert (adj + [0])[..|adj|] == adj;
    case Create(p) => CreateKeepsInv(s, p);
    case Lock(p) => LockKeepsInv(s, p);
    case Write(p) => WriteKeepsInv(s, p);
    case Unlock(p) => UnlockKeepsInv(s, p);
    case Exit(p) => TotalUpdate(adj, p, 0);
  }

  lemma LockKeepsInv(s: State, p: nat)
    requires Inv(s) && Enabled(s, Lock(p))
    ensures Inv(Next(s, Lock(p)))
  {
    TotalUpdate(s.sem.adj, p, s.sem.adj[p] + 1);
  }

  lemma UnlockKeepsInv(s: State, p: nat)
    requires Inv(s) && Enabled(s, Unlock(p))
    ensures Inv(Next(s, Unlock(p)))
  {
    TotalUpdate(s.sem.adj, p, s.sem.adj[p] - 1);
  }

  lemma CreateKeepsInv(s: State, p: nat)
    requires Inv(s) && Enabled(s, Create(p)) && NobodyHolds(s)
    ensures Inv(Next(s, Create(p)))
  {
    TotalOfZeros(SetTo(s.sem, 1).adj);
  }

  lemma WriteKeepsInv(s: State, p: nat)
    requires Inv(s) && Enabled(s, Write(p))
    ensures Inv(Next(s, Write(p)))
  {
    forall q | 0 <= q < |s.pcs| && s.pcs[q].Wrote? ensures false {
      AtMostOneHolder(s, p, q);
    }
  }

  /** Conservation over every run, for any number of processes dying at any point. */
  lemma {:induction false} Conservation(s: State, ms: seq<Move>)
    requires Inv(s) && Legal(s, ms) && NoLateCreate(s, ms)
    ensures Inv(Exec(s, ms))
    decreases |ms|
  {
    if ms == [] {
    } else {
      StepKeepsInv(s, ms[0]);
      Conservation(Next(s, ms[0]), ms[1..]);
    }
  }

  /** Hence mutual exclusion, and the message a process wrote is there until it unlocks. */
  lemma MutualExclusion(ms: seq<Move>, p: nat, q: nat)
    requires Legal(INIT, ms) && NoLateCreate(INIT, ms)
    requires var s := Exec(INIT, ms); p < |s.pcs| && q < |s.pcs| && Holds(s.pcs[p]) && Holds(s.pcs[q])
    ensures p == q
    ensures Exec(INIT, ms).pcs[p].Wrote? ==> Exec(INIT, ms).text == Some(p)
  {
    Conservation(INIT, ms);
    AtMostOneHolder(Exec(INIT, ms), p, q);
  }

  /** Death in the critical section releases the lock: whoever is waiting can enter. */
  lemma DeathReleases(s: State, p: nat, q: nat)
    requires Inv(s) && p < |s.pcs| && q < |s.pcs| && Holds(s.pcs[p]) && s.pcs[q].Locking?
    ensures !Enabled(s, Lock(q))
    ensures Next(s, Exit(p)).sem.value == 1 && Enabled(Next(s, Exit(p)), Lock(q))
  {
    AtMostOneHolder(s, p, p);
  }

  predicate TwoHold(s: State) {
    exists p, q | 0 <= p < |s.pcs| && 0 <= q < |s.pcs| && p != q :: Holds(s.pcs[p]) && Holds(s.pcs[q])
  }

  /** The hypothesis is exact: a process that starts main and takes the lock next to the others
      breaks mutual exclusion if and only if somebody is in the critical section when it starts. */
  lemma CreateBreaksExclusionIff(s: State, p: nat)
    requires Inv(s) && Enabled(s, Create(p))
    ensures Enabled(Next(s, Create(p)), Lock(p))
    ensures TwoHold(Next(Next(s, Create(p)), Lock(p))) <==> !NobodyHolds(s)
  {
    var s1 := Next(s, Create(p));
    var s2 := Next(s1, Lock(p));
    if !NobodyHolds(s) {
      var q :| 0 <= q < |s.pcs| && Holds(s.pcs[q]);
      assert Holds(s2.pcs[p]) && Holds(s2.pcs[q]) && p != q;
    }
    if NobodyHolds(s) {
      forall q | 0 <= q < |s2.pcs| && q != p ensures !Holds(s2.pcs[q]) {
        assert s2.pcs[q] == s.pcs[q];
      }
    }
  }

  lemma {:induction false} Then(s: State, ms: seq<Move>, m: Move) returns (more: seq<Move>)
    requires Legal(s, ms) && Enabled(Exec(s, ms), m)
    ensures Legal(s, more) && Exec(s, more) == Next(Exec(s, ms), m)
    decreases |ms|
  {
    if ms == [] {
      more := [m];
      assert more[1..] == [] && Exec(Next(s, m), []) == Next(s, m);
    } else {
      var rest := Then(Next(s, ms[0]), ms[1..], m);
      more := [ms[0]] + rest;
      assert more[1..] == rest;
    }
  }

  /** Two instances of the program, the second started during the first one's sleep, end up in
      the critical section together. */
  lemma TwoInstancesCollide() returns (ms: seq<Move>)
    ensures Legal(INIT, ms) && TwoHold(Exec(INIT, ms))
  {
    ms := Then(INIT, [], Spawn);
    ms := Then(INIT, ms, Spawn);
    ms := Then(INIT, ms, Create(0));
    ms := Then(INIT, ms, Lock(0));
    ms := Then(INIT, ms, Write(0));
    ms := Then(INIT, ms, Create(1));
    ms := Then(INIT, ms, Lock(1));
    var s := Exec(INIT, ms);
    assert Holds(s.pcs[0]) && Holds(s.pcs[1]);
  }
}
