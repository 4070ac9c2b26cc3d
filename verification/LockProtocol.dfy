/** The two builds of the shared lock and the scheduler's priorities. */
module LockProtocol {
  import opened Prelude

  datatype Proc = Logger | Health | Payment | Server

  /** Which lock pi_sem.h compiles to. */
  datatype Build = PlainSemaphore | InheritMutex

  /** Static priorities of the run script; 0 stands for the classes below SCHED_FIFO. */
  function Base(p: Proc): nat {
    match p
    case Logger => 0
    case Health => 90
    case Payment => 50
    case Server => 0
  }

  /** Effective priorities, one per process. */
  datatype Prios = Prios(logger: nat, health: nat, payment: nat, server: nat) {
    function Of(p: Proc): nat {
      match p
      case Logger => logger
      case Health => health
      case Payment => payment
      case Server => server
    }

    function With(p: Proc, v: nat): Prios {
      match p
      case Logger => this.(logger := v)
      case Health => this.(health := v)
      case Payment => this.(payment := v)
      case Server => this.(server := v)
    }
  }

  const BASE_PRIOS := Prios(Base(Logger), Base(Health), Base(Payment), Base(Server))

  datatype Lock =
    | Sem(value: nat, waiters: set<Proc>)
    | Mutex(owner: Option<Proc>, waiters: set<Proc>)

  function NewLock(b: Build): Lock {
    match b
    case PlainSemaphore => Sem(1, {})
    case InheritMutex => Mutex(None, {})
  }

  predicate Free(l: Lock) {
    match l
    case Sem(value, _) => value > 0
    case Mutex(owner, _) => owner.None?
  }

  function Take(l: Lock, p: Proc): Lock
    requires Free(l)
  {
    match l
    case Sem(value, ws) => Sem(value - 1, ws)
    case Mutex(_, ws) => Mutex(Some(p), ws)
  }

  /** p goes to sleep on the lock; an inheriting owner is raised to p's priority. */
  function Enqueue(l: Lock, eff: Prios, p: Proc): (Lock, Prios) {
    match l
    case Sem(value, ws) => (Sem(value, ws + {p}), eff)
    case Mutex(owner, ws) =>
      (Mutex(owner, ws + {p}),
       if owner.Some? then eff.With(owner.value, Max(eff.Of(owner.value), eff.Of(p))) else eff)
  }

  /** The priority a new owner inherits from the waiters it leaves behind. */
  function Inherited(eff: Prios, ws: set<Proc>): nat {
    Max(Max(if Logger in ws then eff.logger else 0, if Health in ws then eff.health else 0),
        Max(if Payment in ws then eff.payment else 0, if Server in ws then eff.server else 0))
  }

  /** The waiter a release may wake: one of highest effective priority. */
  predicate MayWake(eff: Prios, ws: set<Proc>, w: Proc) {
    w in ws && forall v | v in ws :: eff.Of(v) <= eff.Of(w)
  }

  /** p releases; with waiters the lock passes straight to w, otherwise it becomes free. */
  function Release(l: Lock, eff: Prios, p: Proc, w: Proc): (Lock, Prios) {
    match l
    case Sem(value, ws) => (if ws == {} then Sem(value + 1, ws) else Sem(value, ws - {w}), eff)
    case Mutex(_, ws) =>
      var dropped := eff.With(p, Base(p));
      if ws == {} then (Mutex(None, ws), dropped)
      else (Mutex(Some(w), ws - {w}), dropped.With(w, Max(dropped.Of(w), Inherited(dropped, ws - {w}))))
  }

  /** The owner of an inheriting mutex runs at least as urgently as everyone it keeps waiting. */
  predicate OwnerOutranksWaiters(l: Lock, eff: Prios) {
    l.Mutex? && l.owner.Some? ==> forall w | w in l.waiters :: eff.Of(w) <= eff.Of(l.owner.value)
  }

  // ---- Inheritance over every run of the mutex ----

  /** Exactly what inheritance makes of the priorities: the owner runs at the highest of its own and
      its waiters' priorities, everybody else at its own. A free mutex keeps nobody waiting. */
  predicate Inherits(l: Lock, eff: Prios) {
    && l.Mutex?
    && match l.owner
       case None => l.waiters == {} && eff == BASE_PRIOS
       case Some(o) => o !in l.waiters && eff == BASE_PRIOS.With(o, Max(Base(o), Inherited(BASE_PRIOS, l.waiters)))
  }

  lemma InheritingOwnerOutranks(l: Lock, eff: Prios)
    requires Inherits(l, eff)
    ensures OwnerOutranksWaiters(l, eff)
  {
    if l.owner.Some? {
      forall w | w in l.waiters ensures eff.Of(w) <= eff.Of(l.owner.value) {
        assert w != l.owner.value && eff.Of(w) == Base(w);
      }
    }
  }

  lemma BlockingInherits(l: Lock, eff: Prios, p: Proc)
    requires Inherits(l, eff) && !Free(l) && l.owner != Some(p) && p !in l.waiters
    ensures var (l', eff') := Enqueue(l, eff, p); Inherits(l', eff')
  {
    assert eff.Of(p) == Base(p);
    InheritedGrows(BASE_PRIOS, l.waiters, p);
  }

  lemma InheritedGrows(eff: Prios, ws: set<Proc>, p: Proc)
    ensures Inherited(eff, ws + {p}) == Max(Inherited(eff, ws), eff.Of(p))
  {
  }

  lemma HandoverInherits(l: Lock, eff: Prios, w: Proc)
    requires Inherits(l, eff) && l.owner.Some? && (l.waiters != {} ==> w in l.waiters)
    ensures var (l', eff') := Release(l, eff, l.owner.value, w); Inherits(l', eff')
  {
    assert eff.With(l.owner.value, Base(l.owner.value)) == BASE_PRIOS;
  }

  /** Any process may wait that neither owns the mutex nor waits for it; only the owner posts. */
  datatype LockOp = WaitOp(p: Proc) | PostOp(wake: Proc)

  predicate OpPossible(l: Lock, eff: Prios, op: LockOp) {
    && l.Mutex?
    && match op
       case WaitOp(p) => l.owner != Some(p) && p !in l.waiters
       case PostOp(w) => l.owner.Some? && (l.waiters != {} ==> MayWake(eff, l.waiters, w))
  }

  function OpStep(l: Lock, eff: Prios, op: LockOp): (Lock, Prios)
    requires OpPossible(l, eff, op)
  {
    match op
    case WaitOp(p) => if Free(l) then (Take(l, p), eff) else Enqueue(l, eff, p)
    case PostOp(w) => Release(l, eff, l.owner.value, w)
  }

  predicate OpsPossible(l: Lock, eff: Prios, ops: seq<LockOp>)
    decreases |ops|
  {
    ops == []
    || (OpPossible(l, eff, ops[0]) && var (l', eff') := OpStep(l, eff, ops[0]); OpsPossible(l', eff', ops[1..]))
  }

  function AfterOps(l: Lock, eff: Prios, ops: seq<LockOp>): (Lock, Prios)
    requires OpsPossible(l, eff, ops)
    decreases |ops|
  {
    if ops == [] then (l, eff) else var (l', eff') := OpStep(l, eff, ops[0]); AfterOps(l', eff', ops[1..])
  }

  lemma {:induction false} OpsInherit(l: Lock, eff: Prios, ops: seq<LockOp>)
    requires Inherits(l, eff) && OpsPossible(l, eff, ops)
    ensures var (l', eff') := AfterOps(l, eff, ops); Inherits(l', eff')
    decreases |ops|
  {
    if ops == [] {
    } else {
      OpInherits(l, eff, ops[0]);
      var (l', eff') := OpStep(l, eff, ops[0]);
      OpsInherit(l', eff', ops[1..]);
    }
  }

  /** After every run of waits and posts on a new mutex, by whatever processes in whatever order, the
      priorities are exactly the inherited ones, and so the owner is at least as urgent as everyone
      it keeps waiting. */
  lemma PriorityIsInherited(ops: seq<LockOp>)
    requires OpsPossible(NewLock(InheritMutex), BASE_PRIOS, ops)
    ensures var (l, eff) := AfterOps(NewLock(InheritMutex), BASE_PRIOS, ops);
            Inherits(l, eff) && OwnerOutranksWaiters(l, eff)
  {
    OpsInherit(NewLock(InheritMutex), BASE_PRIOS, ops);
    var (l, eff) := AfterOps(NewLock(InheritMutex), BASE_PRIOS, ops);
    InheritingOwnerOutranks(l, eff);
  }

  lemma OpInherits(l: Lock, eff: Prios, op: LockOp)
    requires Inherits(l, eff) && OpPossible(l, eff, op)
    ensures var (l', eff') := OpStep(l, eff, op); Inherits(l', eff')
  {
    match op
    case WaitOp(p) =>
      if !Free(l) {
        BlockingInherits(l, eff, p);
      }
    case PostOp(w) => HandoverInherits(l, eff, w);
  }

  // ---- The two builds' lock objects ----

  /** pi_sem_wait and pi_sem_post of the plain build, on a semaphore changed in place. */
  class PlainSem {
    var value: nat
    var waiters: set<Proc>

    ghost function Contents(): Lock
      reads this
    {
      Sem(value, waiters)
    }

    constructor ()
      ensures Contents() == NewLock(PlainSemaphore)
    {
      value, waiters := 1, {};
    }

    method Wait(ghost eff: Prios, p: Proc) returns (entered: bool)
      modifies this
      ensures entered == Free(old(Contents()))
      ensures Contents() == if entered then Take(old(Contents()), p) else Enqueue(old(Contents()), eff, p).0
      ensures entered <==> old(value) > 0
      ensures value == (if entered then old(value) - 1 else old(value))
      ensures waiters == if entered then old(waiters) else old(waiters) + {p}
    {
      entered := value > 0;
      if entered {
        value := value - 1;
      } else {
        waiters := waiters + {p};
      }
    }

    method Post(ghost eff: Prios, p: Proc, wake: Proc)
      requires waiters != {} ==> wake in waiters
      modifies this
      ensures Contents() == Release(old(Contents()), eff, p, wake).0
      ensures if old(waiters) == {} then value == old(value) + 1 && waiters == {}
              else value == old(value) && waiters == old(waiters) - {wake}
    {
      if waiters == {} {
        value := value + 1;
      } else {
        waiters := waiters - {wake};
      }
    }
  }

  /** The same macros on the priority-inheritance mutex, with the priorities it manages. */
  class PiMutex {
    var owner: Option<Proc>
    var waiters: set<Proc>
    var eff: Prios

    ghost function Contents(): (Lock, Prios)
      reads this
    {
      (Mutex(owner, waiters), eff)
    }

    constructor ()
      ensures Contents() == (NewLock(InheritMutex), BASE_PRIOS)
    {
      owner, waiters, eff := None, {}, BASE_PRIOS;
    }

    /** The priorities are the inherited ones. */
    ghost predicate Ranked()
      reads this
    {
      Inherits(Contents().0, Contents().1)
    }

    method Wait(p: Proc) returns (entered: bool)
      modifies this
      ensures entered == Free(old(Contents()).0)
      ensures Contents() ==
        if entered then (Take(old(Contents()).0, p), old(eff)) else Enqueue(old(Contents()).0, old(eff), p)
      ensures entered <==> old(owner) == None
      ensures if entered then owner == Some(p) && waiters == old(waiters)
              else owner == old(owner) && waiters == old(waiters) + {p}
      ensures old(Ranked() && owner != Some(p) && p !in waiters) ==> Ranked()
    {
      ghost var l, e := Contents().0, eff;
      entered := owner.None?;
      if entered {
        owner := Some(p);
      } else {
        waiters := waiters + {p};
        var o := owner.value;
        if eff.Of(o) < eff.Of(p) {
          eff := eff.With(o, eff.Of(p));
        }
        if Inherits(l, e) && l.owner != Some(p) && p !in l.waiters {
          BlockingInherits(l, e, p);
        }
      }
    }

    method Post(wake: Proc)
      requires owner.Some? && (waiters != {} ==> wake in waiters)
      modifies this
      ensures Contents() == Release(old(Contents()).0, old(eff), old(owner).value, wake)
      ensures owner == (if old(waiters) == {} then None else Some(wake)) && waiters == old(waiters) - {wake}
      ensures old(Ranked()) ==> Ranked()
    {
      ghost var l, e := Contents().0, eff;
      var p := owner.value;
      eff := eff.With(p, Base(p));
      if waiters == {} {
        owner := None;
      } else {
        owner := Some(wake);
        waiters := waiters - {wake};
        var inherited := Inherited(eff, waiters);
        if eff.Of(wake) < inherited {
          eff := eff.With(wake, inherited);
        }
      }
      if Inherits(l, e) {
        HandoverInherits(l, e, wake);
      }
    }
  }
}
