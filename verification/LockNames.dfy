/** How processes find the inheriting mutex by name: shm_open races, unlink, initialisation. */
module LockNames {
  import opened Prelude

  /** A shared memory object holding the mutex: who created it, in which epoch of the name,
      how often it was initialised, and whether its mutex memory says locked. */
  datatype Obj = Obj(creator: nat, epoch: nat, inits: nat, locked: bool)

  /** The name, and every object it ever stood for; an epoch ends with each unlink. */
  datatype Names = Names(table: Option<nat>, objs: seq<Obj>, epoch: nat)

  /** shm_open(O_CREAT | O_EXCL) when the name is free. The memory is still all zero. */
  function Created(n: Names, pid: nat): Names {
    n.(table := Some(|n.objs|), objs := n.objs + [Obj(pid, n.epoch, 0, false)])
  }

  /** pi_sem_init overwrites the mutex: afterwards it is unlocked. */
  function Initialised(n: Names, o: nat): Names
    requires o < |n.objs|
  {
    n.(objs := n.objs[o := n.objs[o].(inits := n.objs[o].inits + 1, locked := false)])
  }

  function SetLocked(n: Names, o: nat, v: bool): Names
    requires o < |n.objs|
  {
    n.(objs := n.objs[o := n.objs[o].(locked := v)])
  }

  function Unlinked(n: Names): Names { n.(table := None, epoch := n.epoch + 1) }

  /** _pi_sem_open_or_create and the unlink macro, run by one process without interference. */
  class NameSpace {
    var table: Option<nat>
    var objs: seq<Obj>
    var epoch: nat

    ghost function Contents(): Names
      reads this
    {
      Names(table, objs, epoch)
    }

    constructor ()
      ensures Contents() == Names(None, [], 0)
    {
      table, objs, epoch := None, [], 0;
    }

    method ShmOpenExclusive(pid: nat) returns (fd: Option<nat>)
      modifies this
      ensures old(table).Some? ==> fd == None && Contents() == old(Contents())
      ensures old(table).None? ==> fd == Some(|old(objs)|) && Contents() == Created(old(Contents()), pid)
      ensures old(table).None? ==>
                table == fd && objs == old(objs) + [Obj(pid, epoch, 0, false)] && epoch == old(epoch)
    {
      if table.Some? {
        return None;
      }
      fd := Some(|objs|);
      table := fd;
      objs := objs + [Obj(pid, epoch, 0, false)];
    }

    /** Creates and initialises the object when the name is free, otherwise binds the existing one. */
    method OpenOrCreate(pid: nat) returns (bound: nat)
      requires table.Some? ==> table.value < |objs|
      modifies this
      ensures table == Some(bound) && bound < |objs| && epoch == old(epoch)
      ensures old(table).Some? ==> Contents() == old(Contents())
      ensures old(table).None? ==> Contents() == Initialised(Created(old(Contents()), pid), |old(objs)|)
      ensures old(table).None? ==> bound == |old(objs)| && objs == old(objs) + [Obj(pid, epoch, 1, false)]
    {
      var fd := ShmOpenExclusive(pid);
      var created := fd.Some?;
      if created {
        bound := fd.value;
      } else {
        bound := table.value;
      }
      if created {
        objs := objs[bound := objs[bound].(inits := objs[bound].inits + 1, locked := false)];
      }
    }

    method Unlink()
      modifies this
      ensures Contents() == Unlinked(old(Contents()))
      ensures table == None && objs == old(objs) && epoch == old(epoch) + 1
    {
      table := None;
      epoch := epoch + 1;
    }
  }

  // ---- Interleaved processes ----

  /** Second: the exclusive create failed, the plain open comes next. Bound and Inside remember
      the epoch of the successful shm_open. */
  datatype Pc =
    | Fresh
    | Second
    | Initing(o: nat, e: nat)
    | Bound(o: nat, e: nat)
    | Inside(o: nat, e: nat)
    | NoLock

  datatype State = State(names: Names, pcs: seq<Pc>)

  datatype Move =
    | Spawn
    | Unlink
    | Create(p: nat)
    | Open(p: nat)
    | Retry(p: nat)
    | Init(p: nat)
    | Lock(p: nat)
    | Unlock(p: nat)

  predicate HasObject(pc: Pc) { pc.Initing? || pc.Bound? || pc.Inside? }

  predicate Sound(s: State) {
    && (s.names.table.Some? ==> s.names.table.value < |s.names.objs|)
    && forall p | 0 <= p < |s.pcs| && HasObject(s.pcs[p]) :: s.pcs[p].o < |s.names.objs|
  }

  predicate Enabled(s: State, m: Move) {
    && Sound(s)
    && match m
       case Spawn => true
       case Unlink => true
       case Create(p) => p < |s.pcs| && s.pcs[p].Fresh?
       case Open(p) => p < |s.pcs| && s.pcs[p].Second?
       case Retry(p) => p < |s.pcs| && s.pcs[p].NoLock?
       case Init(p) => p < |s.pcs| && s.pcs[p].Initing?
       case Lock(p) => p < |s.pcs| && s.pcs[p].Bound? && !s.names.objs[s.pcs[p].o].locked
       case Unlock(p) => p < |s.pcs| && s.pcs[p].Inside?
  }

  function Next(s: State, m: Move): State
    requires Enabled(s, m)
  {
    match m
    case Spawn => s.(pcs := s.pcs + [Fresh])
    case Unlink => s.(names := Unlinked(s.names))
    case Create(p) =>
      if s.names.table.None? then
        State(Created(s.names, p), s.pcs[p := Initing(|s.names.objs|, s.names.epoch)])
      else s.(pcs := s.pcs[p := Second])
    case Open(p) =>
      (match s.names.table
       case None => s.(pcs := s.pcs[p := NoLock])
       case Some(o) => s.(pcs := s.pcs[p := Bound(o, s.names.epoch)]))
    case Retry(p) => s.(pcs := s.pcs[p := Fresh])
    case Init(p) => State(Initialised(s.names, s.pcs[p].o), s.pcs[p := Bound(s.pcs[p].o, s.pcs[p].e)])
    case Lock(p) => State(SetLocked(s.names, s.pcs[p].o, true), s.pcs[p := Inside(s.pcs[p].o, s.pcs[p].e)])
    case Unlock(p) => State(SetLocked(s.names, s.pcs[p].o, false), s.pcs[p := Bound(s.pcs[p].o, s.pcs[p].e)])
  }

  const START := State(Names(None, [], 0), [])

  predicate Legal(s: State, ms: seq<Move>)
    decreases |ms|
  {
    ms == [] || (Enabled(s, ms[0]) && Legal(Next(s, ms[0]), ms[1..]))
  }

  function Exec(s: State, ms: seq<Move>): State
    requires Legal(s, ms)
    decreases |ms|
  {
    if ms == [] then s else Exec(Next(s, ms[0]), ms[1..])
  }

  // ---- Identity ----

  /** Within an epoch there is one object, the one its name stands for, initialised at most once. */
  predicate OneObjectPerEpoch(n: Names) {
    && (n.table.Some? ==> n.table.value < |n.objs| && n.objs[n.table.value].epoch == n.epoch)
    && (forall i, j | 0 <= i < |n.objs| && 0 <= j < |n.objs| && n.objs[i].epoch == n.objs[j].epoch :: i == j)
    && (forall i | 0 <= i < |n.objs| :: n.objs[i].epoch <= n.epoch && n.objs[i].inits <= 1)
    && (n.table.None? ==> forall i | 0 <= i < |n.objs| :: n.objs[i].epoch < n.epoch)
  }

  /** A process holds the object of the epoch it opened in; only the creator initialises it. */
  predicate Holdings(s: State) {
    && Sound(s)
    && (forall p | 0 <= p < |s.pcs| && HasObject(s.pcs[p]) :: s.names.objs[s.pcs[p].o].epoch == s.pcs[p].e)
    && (forall p | 0 <= p < |s.pcs| && s.pcs[p].Initing? ::
          s.names.objs[s.pcs[p].o].creator == p && s.names.objs[s.pcs[p].o].inits == 0)
  }

  predicate Identity(s: State) { OneObjectPerEpoch(s.names) && Holdings(s) }

  lemma StepKeepsObjects(s: State, m: Move)
    requires Identity(s) && Enabled(s, m)
    ensures OneObjectPerEpoch(Next(s, m).names)
  {
    if m.Create? && s.names.table.None? {
      var n' := Created(s.names, m.p);
      assert forall i | 0 <= i < |s.names.objs| :: n'.objs[i] == s.names.objs[i];
    }
  }

  /** Every object keeps its epoch and its creator. */
  lemma ObjectsKeepOrigin(s: State, m: Move)
    requires Enabled(s, m)
    ensures var n, n' := s.names, Next(s, m).names;
            |n'.objs| >= |n.objs| && forall i | 0 <= i < |n.objs| ::
              n'.objs[i].epoch == n.objs[i].epoch && n'.objs[i].creator == n.objs[i].creator
  {
  }

  lemma LockingKeepsHoldings(s: State, m: Move)
    requires Identity(s) && Enabled(s, m) && (m.Lock? || m.Unlock?)
    ensures Holdings(Next(s, m))
  {
    ObjectsKeepOrigin(s, m);
  }

  lemma OpeningKeepsHoldings(s: State, m: Move)
    requires Identity(s) && Enabled(s, m) && (m.Create? || m.Open? || m.Retry?)
    ensures Holdings(Next(s, m))
  {
    ObjectsKeepOrigin(s, m);
  }

  lemma StepKeepsHoldings(s: State, m: Move)
    requires Identity(s) && Enabled(s, m)
    ensures Holdings(Next(s, m))
  {
    match m
    case Init(p) => InitLeavesOthers(s, p);
    case Spawn =>
    case Unlink =>
    case Lock(_) => LockingKeepsHoldings(s, m);
    case Unlock(_) => LockingKeepsHoldings(s, m);
    case _ => OpeningKeepsHoldings(s, m);
  }

  lemma InitLeavesOthers(s: State, p: nat)
    requires Identity(s) && Enabled(s, Init(p))
    ensures Holdings(Next(s, Init(p)))
  {
  }

  lemma StepKeepsIdentity(s: State, m: Move)
    requires Identity(s) && Enabled(s, m)
    ensures Identity(Next(s, m))
  {
    StepKeepsObjects(s, m);
    StepKeepsHoldings(s, m);
  }

  lemma {:induction false} RunKeepsIdentity(s: State, ms: seq<Move>)
    requires Identity(s) && Legal(s, ms)
    ensures Identity(Exec(s, ms))
    decreases |ms|
  {
    if ms == [] {
    } else {
      StepKeepsIdentity(s, ms[0]);
      RunKeepsIdentity(Next(s, ms[0]), ms[1..]);
    }
  }

  /** Any two opens between consecutive unlinks bind the same object, whoever created it, and an
      object is being set up by at most one process and initialised at most once. */
  lemma SameEpochSameObject(ms: seq<Move>, p: nat, q: nat)
    requires Legal(START, ms)
    requires var s := Exec(START, ms); p < |s.pcs| && q < |s.pcs| && HasObject(s.pcs[p]) && HasObject(s.pcs[q])
    ensures var s := Exec(START, ms);
            && s.pcs[p].o < |s.names.objs| && s.names.objs[s.pcs[p].o].inits <= 1
            && (s.pcs[p].o == s.pcs[q].o <==> s.pcs[p].e == s.pcs[q].e)
            && (s.pcs[p].Initing? && s.pcs[q].Initing? && s.pcs[p].o == s.pcs[q].o ==> p == q)
  {
    RunKeepsIdentity(START, ms);
  }

  // ---- Entering and leaving ----

  /** A process that opens the lock undisturbed binds the object the name stands for, or creates and
      initialises the one it will stand for from then on. */
  lemma OpensAlone(s: State, p: nat) returns (ms: seq<Move>)
    requires Sound(s) && p < |s.pcs| && s.pcs[p].Fresh?
    ensures ms == [Create(p), if s.names.table.Some? then Open(p) else Init(p)] && Legal(s, ms)
    ensures var s', n := Exec(s, ms), s.names;
            match n.table
            case Some(o) => s' == s.(pcs := s.pcs[p := Bound(o, n.epoch)])
            case None =>
              && s'.pcs == s.pcs[p := Bound(|n.objs|, n.epoch)]
              && s'.names == Names(Some(|n.objs|), n.objs + [Obj(p, n.epoch, 1, false)], n.epoch)
  {
    var second := if s.names.table.Some? then Open(p) else Init(p);
    var s1 := Next(s, Create(p));
    assert Enabled(s1, second);
    ms := [Create(p), second];
    assert ms[1..] == [second] && [second][1..] == [];
    assert Legal(s1, [second]) && Exec(s1, [second]) == Next(s1, second);
  }

  /** A process bound to an object can lock it if and only if it is not locked. After the lock nobody
      else can, and after the unlock everybody bound to it can again; other objects are not affected. */
  lemma LockAndUnlock(s: State, p: nat, q: nat)
    requires Sound(s) && p < |s.pcs| && q < |s.pcs| && p != q && s.pcs[q].Bound?
    ensures Enabled(s, Lock(q)) <==> !s.names.objs[s.pcs[q].o].locked
    ensures Enabled(s, Lock(p)) ==>
              var s' := Next(s, Lock(p));
              Enabled(s', Lock(q)) <==> Enabled(s, Lock(q)) && s.pcs[q].o != s.pcs[p].o
    ensures Enabled(s, Unlock(p)) ==>
              var s' := Next(s, Unlock(p));
              Enabled(s', Lock(q)) <==> Enabled(s, Lock(q)) || s.pcs[q].o == s.pcs[p].o
  {
  }

  // ---- Mutual exclusion ----

  predicate NobodyInside(s: State, o: nat) {
    forall p | 0 <= p < |s.pcs| :: !(s.pcs[p].Inside? && s.pcs[p].o == o)
  }

  /** No initialisation of the run hits a mutex somebody already holds. */
  predicate InitsUndisturbed(s: State, ms: seq<Move>)
    requires Legal(s, ms)
    decreases |ms|
  {
    ms == [] || ((ms[0].Init? ==> NobodyInside(s, s.pcs[ms[0].p].o)) && InitsUndisturbed(Next(s, ms[0]), ms[1..]))
  }

  /** Every plain open of the run finds the object already initialised. */
  predicate OpensAfterInit(s: State, ms: seq<Move>)
    requires Legal(s, ms)
    decreases |ms|
  {
    ms == [] || ((ms[0].Open? && s.names.table.Some? ==> s.names.objs[s.names.table.value].inits > 0)
                 && OpensAfterInit(Next(s, ms[0]), ms[1..]))
  }

  predicate Exclusive(s: State) {
    && Sound(s)
    && (forall p | 0 <= p < |s.pcs| && s.pcs[p].Inside? :: s.names.objs[s.pcs[p].o].locked)
    && (forall p, q | 0 <= p < |s.pcs| && 0 <= q < |s.pcs| && s.pcs[p].Inside? && s.pcs[q].Inside? ::
          s.pcs[p].o == s.pcs[q].o ==> p == q)
  }

  lemma StepKeepsExclusive(s: State, m: Move)
    requires Exclusive(s) && Enabled(s, m)
    requires m.Init? ==> NobodyInside(s, s.pcs[m.p].o)
    ensures Exclusive(Next(s, m))
  {
  }

  /** With undisturbed initialisations, processes of one epoch exclude each other. */
  lemma {:induction false} ExclusionInRun(s: State, ms: seq<Move>)
    requires Exclusive(s) && Legal(s, ms) && InitsUndisturbed(s, ms)
    ensures Exclusive(Exec(s, ms))
    decreases |ms|
  {
    if ms == [] {
    } else {
      StepKeepsExclusive(s, ms[0]);
      ExclusionInRun(Next(s, ms[0]), ms[1..]);
    }
  }

  lemma MutualExclusionInEpoch(ms: seq<Move>, p: nat, q: nat)
    requires Legal(START, ms) && InitsUndisturbed(START, ms)
    requires var s := Exec(START, ms);
             p < |s.pcs| && q < |s.pcs| && s.pcs[p].Inside? && s.pcs[q].Inside? && s.pcs[p].e == s.pcs[q].e
    ensures p == q
  {
    ExclusionInRun(START, ms);
    SameEpochSameObject(ms, p, q);
  }

  /** An object nobody has initialised is known to nobody but its creator. */
  predicate UninitialisedUnknown(s: State) {
    && Sound(s)
    && forall p | 0 <= p < |s.pcs| && (s.pcs[p].Bound? || s.pcs[p].Inside?) :: s.names.objs[s.pcs[p].o].inits > 0
  }

  lemma StepKeepsUnknown(s: State, m: Move)
    requires UninitialisedUnknown(s) && Enabled(s, m)
    requires m.Open? && s.names.table.Some? ==> s.names.objs[s.names.table.value].inits > 0
    ensures UninitialisedUnknown(Next(s, m))
  {
  }

  /** Opening only after the creator's initialisation is enough. */
  lemma {:induction false} OpensAfterInitSuffice(s: State, ms: seq<Move>)
    requires Identity(s) && UninitialisedUnknown(s) && Legal(s, ms) && OpensAfterInit(s, ms)
    ensures InitsUndisturbed(s, ms)
    decreases |ms|
  {
    if ms == [] {
    } else {
      StepKeepsIdentity(s, ms[0]);
      StepKeepsUnknown(s, ms[0]);
      OpensAfterInitSuffice(Next(s, ms[0]), ms[1..]);
    }
  }

  lemma ExclusionWhenOpenedAfterInit(ms: seq<Move>, p: nat, q: nat)
    requires Legal(START, ms) && OpensAfterInit(START, ms)
    requires var s := Exec(START, ms);
             p < |s.pcs| && q < |s.pcs| && s.pcs[p].Inside? && s.pcs[q].Inside? && s.pcs[p].e == s.pcs[q].e
    ensures p == q
  {
    OpensAfterInitSuffice(START, ms);
    MutualExclusionInEpoch(ms, p, q);
  }

  predicate TwoInside(s: State, o: nat) {
    exists p, q | 0 <= p < |s.pcs| && 0 <= q < |s.pcs| && p != q ::
      s.pcs[p].Inside? && s.pcs[q].Inside? && s.pcs[p].o == o && s.pcs[q].o == o
  }

  /** The hypothesis is exact: the creator, initialising and then locking, joins another process
      inside if and only if one was inside when it initialised. */
  lemma InitBreaksExclusionIff(s: State, p: nat)
    requires Exclusive(s) && Enabled(s, Init(p))
    ensures Enabled(Next(s, Init(p)), Lock(p))
    ensures TwoInside(Next(Next(s, Init(p)), Lock(p)), s.pcs[p].o) <==> !NobodyInside(s, s.pcs[p].o)
  {
    var o := s.pcs[p].o;
    var s2 := Next(Next(s, Init(p)), Lock(p));
    assert forall q | 0 <= q < |s.pcs| && q != p :: s2.pcs[q] == s.pcs[q];
    if !NobodyInside(s, o) {
      var q :| 0 <= q < |s.pcs| && s.pcs[q].Inside? && s.pcs[q].o == o;
      assert s2.pcs[p].Inside? && s2.pcs[q].Inside? && p != q;
    }
  }

  lemma {:induction false} Then(s: State, ms: seq<Move>, m: Move) returns (more: seq<Move>)
    requires Legal(s, ms) && Enabled(Exec(s, ms), m)
    ensures Legal(s, more) && Exec(s, more) == Next(Exec(s, ms), m)
    ensures InitsUndisturbed(s, ms) && (m.Init? ==> NobodyInside(Exec(s, ms), Exec(s, ms).pcs[m.p].o)) ==>
              InitsUndisturbed(s, more)
    decreases |ms|
  {
    if ms == [] {
      more := [m];
      assert more[1..] == [] && Exec(Next(s, m), []) == Next(s, m);
    } else {
      var rest := Then(Next(s, ms[0]), ms[1..], m);
      more := [ms[0]] + rest;
      assert more[1..] == rest;
    }
  }

  lemma TwoProcessesCreate() returns (ms: seq<Move>)
    ensures Legal(START, ms) && InitsUndisturbed(START, ms)
    ensures Exec(START, ms) == State(Created(START.names, 0), [Initing(0, 0), Fresh])
  {
    ms := Then(START, [], Spawn);
    ms := Then(START, ms, Spawn);
    assert Exec(START, ms) == State(START.names, [Fresh, Fresh]);
    ms := Then(START, ms, Create(0));
  }

  /** The start-up race: the second process opens and locks before the creator has initialised,
      and the two meet inside one mutex. */
  lemma EarlyOpenCollides() returns (ms: seq<Move>)
    ensures Legal(START, ms) && TwoInside(Exec(START, ms), 0)
  {
    ms := EarlyOpen();
    ms := Then(START, ms, Lock(1));
    ms := Then(START, ms, Init(0));
    assert Exec(START, ms) == State(Names(Some(0), [Obj(0, 0, 1, false)], 0), [Bound(0, 0), Inside(0, 0)]);
    ms := Then(START, ms, Lock(0));
    var s := Exec(START, ms);
    assert s.pcs[0] == Inside(0, 0) && s.pcs[1] == Inside(0, 0);
  }

  lemma EarlyOpen() returns (ms: seq<Move>)
    ensures Legal(START, ms)
    ensures Exec(START, ms) == State(Created(START.names, 0), [Initing(0, 0), Bound(0, 0)])
  {
    ms := TwoProcessesCreate();
    ms := Then(START, ms, Create(1));
    ms := Then(START, ms, Open(1));
  }

  lemma TwoEpochs() returns (ms: seq<Move>)
    ensures Legal(START, ms) && InitsUndisturbed(START, ms)
    ensures Exec(START, ms) == State(Names(None, [Obj(0, 0, 1, false)], 1), [Bound(0, 0), Fresh])
  {
    ms := TwoProcessesCreate();
    ms := Then(START, ms, Init(0));
    ms := Then(START, ms, Unlink);
  }

  /** Health started before the logger creates the object itself; the logger's unlink then starts
      a new epoch with a second object, and both are in their critical sections at once. */
  lemma EarlyHealthGetsAnotherLock() returns (ms: seq<Move>)
    ensures Legal(START, ms) && InitsUndisturbed(START, ms)
    ensures Exec(START, ms).pcs == [Inside(0, 0), Inside(1, 1)]
  {
    ms := TwoEpochs();
    ms := Then(START, ms, Create(1));
    ms := Then(START, ms, Init(1));
    assert Exec(START, ms) ==
      State(Names(Some(1), [Obj(0, 0, 1, false), Obj(1, 1, 1, false)], 1), [Bound(0, 0), Bound(1, 1)]);
    ms := Then(START, ms, Lock(0));
    ms := Then(START, ms, Lock(1));
  }
}
