/** Loading and unloading the driver module: what is acquired is released, in reverse order. */
module ModuleLoad {
  import opened Prelude

  datatype Resource = BufferPage | DeviceRegion | CharDev | DeviceClass | DeviceNode

  datatype Event = Got(r: Resource) | Freed(r: Resource)

  /** The order in which each resource builds on the ones before it. */
  const ORDER := [BufferPage, DeviceRegion, CharDev, DeviceClass, DeviceNode]

  const ENOMEM: int := 12

  /** What is held after a trace, oldest first; None if some release did not match the newest
      resource held. */
  function Held(trace: seq<Event>): Option<seq<Resource>> {
    if trace == [] then Some([])
    else
      match Held(trace[..|trace| - 1])
      case None => None
      case Some(held) =>
        match trace[|trace| - 1]
        case Got(r) => if r in held then None else Some(held + [r])
        case Freed(r) => if held != [] && held[|held| - 1] == r then Some(held[..|held| - 1]) else None
  }

  function Acquire(rs: seq<Resource>): seq<Event> {
    if rs == [] then [] else Acquire(rs[..|rs| - 1]) + [Got(rs[|rs| - 1])]
  }

  function ReleaseAll(rs: seq<Resource>): seq<Event> {
    if rs == [] then [] else [Freed(rs[|rs| - 1])] + ReleaseAll(rs[..|rs| - 1])
  }

  /** The load whose step number `fails` fails (none if it is past the last): everything before it
      is acquired and, on failure, released again. */
  function LoadTrace(fails: nat): seq<Event> {
    if fails < |ORDER| then Acquire(ORDER[..fails]) + ReleaseAll(ORDER[..fails]) else Acquire(ORDER)
  }

  /** mychar_init and mychar_exit, recording every acquisition and release. */
  class DriverModule {
    var trace: seq<Event>

    constructor ()
      ensures trace == []
    {
      trace := [];
    }

    method Get(r: Resource)
      modifies this
      ensures trace == old(trace) + [Got(r)]
    {
      trace := trace + [Got(r)];
    }

    method Put(r: Resource)
      modifies this
      ensures trace == old(trace) + [Freed(r)]
    {
      trace := trace + [Freed(r)];
    }

    /** The labels at the end of mychar_init, entered at the one for `held` resources. */
    method Unwind(held: nat)
      requires 2 <= held <= 4
      modifies this
      ensures trace == old(trace) + ReleaseAll(ORDER[..held])
    {
      ReleaseTwo();
      if held >= 4 {
        UnfoldPrefix(4);
        Put(DeviceClass);
      }
      if held >= 3 {
        UnfoldPrefix(3);
        Put(CharDev);
      }
      Put(DeviceRegion);
      Put(BufferPage);
    }

    /** code is what the failing call returns. */
    method MycharInit(fails: nat, code: int) returns (ret: int)
      requires code < 0
      modifies this
      ensures trace == old(trace) + LoadTrace(fails)
      ensures ret == if fails >= |ORDER| then 0 else if fails == 0 then -ENOMEM else code
    {
      ghost var before := trace;
      assert ORDER[..0] == [] && ORDER[..|ORDER|] == ORDER;
      if fails == 0 {
        return -ENOMEM;
      }
      UnfoldPrefix(1);
      Get(BufferPage);
      if fails == 1 {
        Put(BufferPage);
        return code;
      }
      assert trace == before + Acquire(ORDER[..1]);
      UnfoldPrefix(2);
      Get(DeviceRegion);
      assert trace == before + Acquire(ORDER[..2]);
      if fails == 2 {
        Unwind(2);
        Reassociate(before, Acquire(ORDER[..2]), ReleaseAll(ORDER[..2]));
        return code;
      }
      UnfoldPrefix(3);
      Get(CharDev);
      assert trace == before + Acquire(ORDER[..3]);
      if fails == 3 {
        Unwind(3);
        Reassociate(before, Acquire(ORDER[..3]), ReleaseAll(ORDER[..3]));
        return code;
      }
      UnfoldPrefix(4);
      Get(DeviceClass);
      assert trace == before + Acquire(ORDER[..4]);
      if fails == 4 {
        Unwind(4);
        Reassociate(before, Acquire(ORDER[..4]), ReleaseAll(ORDER[..4]));
        return code;
      }
      UnfoldPrefix(5);
      Get(DeviceNode);
      return 0;
    }

    method MycharExit()
      modifies this
      ensures trace == old(trace) + ReleaseAll(ORDER)
    {
      UnfoldPrefix(5);
      assert ORDER[..5] == ORDER;
      Put(DeviceNode);
      UnfoldPrefix(4);
      Put(DeviceClass);
      UnfoldPrefix(3);
      Put(CharDev);
      ReleaseTwo();
      Put(DeviceRegion);
      Put(BufferPage);
    }
  }

  lemma ReleaseTwo()
    ensures ReleaseAll(ORDER[..2]) == [Freed(DeviceRegion), Freed(BufferPage)]
  {
    UnfoldPrefix(1);
    UnfoldPrefix(2);
    assert ORDER[..0] == [];
  }

  lemma UnfoldPrefix(n: nat)
    requires 0 < n <= |ORDER|
    ensures Acquire(ORDER[..n]) == Acquire(ORDER[..n - 1]) + [Got(ORDER[n - 1])]
    ensures ReleaseAll(ORDER[..n]) == [Freed(ORDER[n - 1])] + ReleaseAll(ORDER[..n - 1])
  {
    assert ORDER[..n][..n - 1] == ORDER[..n - 1];
  }

  // ---- Sessions ----

  lemma OneMore(trace: seq<Event>, held: seq<Resource>, r: Resource)
    requires Held(trace) == Some(held) && r !in held
    ensures Held(trace + [Got(r)]) == Some(held + [r])
  {
    var more := trace + [Got(r)];
    assert more[..|more| - 1] == trace && more[|more| - 1] == Got(r);
  }

  lemma OneLess(trace: seq<Event>, held: seq<Resource>, r: Resource)
    requires Held(trace) == Some(held + [r])
    ensures Held(trace + [Freed(r)]) == Some(held)
  {
    var more, all := trace + [Freed(r)], held + [r];
    assert more[..|more| - 1] == trace && more[|more| - 1] == Freed(r);
    assert all[..|all| - 1] == held;
  }

  lemma {:induction false} AcquireHolds(trace: seq<Event>, rs: seq<Resource>)
    requires Held(trace) == Some([])
    requires forall i, j | 0 <= i < j < |rs| :: rs[i] != rs[j]
    ensures Held(trace + Acquire(rs)) == Some(rs)
  {
    if rs == [] {
      assert trace + Acquire(rs) == trace;
    } else {
      var n := |rs| - 1;
      var before := trace + Acquire(rs[..n]);
      AcquireHolds(trace, rs[..n]);
      OneMore(before, rs[..n], rs[n]);
      Reassociate(trace, Acquire(rs[..n]), [Got(rs[n])]);
      assert rs[..n] + [rs[n]] == rs;
    }
  }

  lemma {:induction false} ReleaseEmpties(trace: seq<Event>, rs: seq<Resource>)
    requires Held(trace) == Some(rs)
    ensures Held(trace + ReleaseAll(rs)) == Some([])
    decreases |rs|
  {
    if rs == [] {
      assert trace + ReleaseAll(rs) == trace;
    } else {
      var n := |rs| - 1;
      var first, rest := [Freed(rs[n])], ReleaseAll(rs[..n]);
      assert rs[..n] + [rs[n]] == rs;
      OneLess(trace, rs[..n], rs[n]);
      ReleaseEmpties(trace + first, rs[..n]);
      assert ReleaseAll(rs) == first + rest;
      Reassociate(trace, first, rest);
    }
  }

  datatype Request = Load(fails: nat) | Unload

  /** The kernel loads a module only while it is not loaded, and unloads it only while it is. */
  function Session(rs: seq<Request>): (bool, seq<Event>) {
    if rs == [] then (false, [])
    else
      var (loaded, trace) := Session(rs[..|rs| - 1]);
      match rs[|rs| - 1]
      case Load(fails) => if loaded then (loaded, trace) else (fails >= |ORDER|, trace + LoadTrace(fails))
      case Unload => if loaded then (false, trace + ReleaseAll(ORDER)) else (loaded, trace)
  }

  lemma LoadBalances(trace: seq<Event>, fails: nat)
    requires Held(trace) == Some([])
    ensures Held(trace + LoadTrace(fails)) == Some(if fails < |ORDER| then [] else ORDER)
  {
    var got := if fails < |ORDER| then ORDER[..fails] else ORDER;
    AcquireHolds(trace, got);
    if fails < |ORDER| {
      ReleaseEmpties(trace + Acquire(got), got);
      Reassociate(trace, Acquire(got), ReleaseAll(got));
    }
  }

  /** Over every series of loads, failing wherever they like, and unloads: each release matches the
      newest acquisition, a failed load or an unload leaves nothing, a loaded module holds all. */
  lemma {:induction false} NothingLeaks(rs: seq<Request>)
    ensures var (loaded, trace) := Session(rs); Held(trace) == Some(if loaded then ORDER else [])
  {
    if rs == [] {
    } else {
      NothingLeaks(rs[..|rs| - 1]);
      var (loaded, trace) := Session(rs[..|rs| - 1]);
      match rs[|rs| - 1]
      case Unload =>
        if loaded {
          ReleaseEmpties(trace, ORDER);
        }
      case Load(fails) =>
        if !loaded {
          LoadBalances(trace, fails);
        }
    }
  }

  // ---- The order of the resources ----

  /** Whatever is held is held in this order: the page at the bottom, then the device region, the char
      device on it, the class, and the device node on top. */
  predicate InOrder(held: seq<Resource>) { held <= [BufferPage, DeviceRegion, CharDev, DeviceClass, DeviceNode] }

  predicate OrderedAt(trace: seq<Event>, i: nat)
    requires i <= |trace|
  {
    Held(trace[..i]).Some? && InOrder(Held(trace[..i]).value)
  }

  predicate AlwaysOrdered(trace: seq<Event>) { forall i | 0 <= i <= |trace| :: OrderedAt(trace, i) }

  lemma OneMoreOrdered(trace: seq<Event>, e: Event)
    requires AlwaysOrdered(trace) && Held(trace + [e]).Some? && InOrder(Held(trace + [e]).value)
    ensures AlwaysOrdered(trace + [e])
  {
    var more := trace + [e];
    forall i | 0 <= i <= |more| ensures OrderedAt(more, i) {
      if i <= |trace| {
        assert more[..i] == trace[..i];
        assert OrderedAt(trace, i);
      } else {
        assert more[..i] == more;
      }
    }
  }

  lemma {:induction false} AcquiringStaysOrdered(trace: seq<Event>, n: nat)
    requires AlwaysOrdered(trace) && Held(trace) == Some([]) && n <= |ORDER|
    ensures AlwaysOrdered(trace + Acquire(ORDER[..n]))
  {
    if n == 0 {
      assert trace + [] == trace;
    } else {
      AcquiringStaysOrdered(trace, n - 1);
      UnfoldPrefix(n);
      AcquireHolds(trace, ORDER[..n]);
      Reassociate(trace, Acquire(ORDER[..n - 1]), [Got(ORDER[n - 1])]);
      OneMoreOrdered(trace + Acquire(ORDER[..n - 1]), Got(ORDER[n - 1]));
    }
  }

  lemma {:induction false} ReleasingStaysOrdered(trace: seq<Event>, n: nat)
    requires AlwaysOrdered(trace) && n <= |ORDER| && Held(trace) == Some(ORDER[..n])
    ensures AlwaysOrdered(trace + ReleaseAll(ORDER[..n]))
    decreases n
  {
    if n == 0 {
      assert trace + [] == trace;
    } else {
      var first := Freed(ORDER[n - 1]);
      UnfoldPrefix(n);
      assert ORDER[..n] == ORDER[..n - 1] + [ORDER[n - 1]];
      OneLess(trace, ORDER[..n - 1], ORDER[n - 1]);
      OneMoreOrdered(trace, first);
      ReleasingStaysOrdered(trace + [first], n - 1);
      Reassociate(trace, [first], ReleaseAll(ORDER[..n - 1]));
    }
  }

  lemma LoadStaysOrdered(trace: seq<Event>, fails: nat)
    requires AlwaysOrdered(trace) && Held(trace) == Some([])
    ensures AlwaysOrdered(trace + LoadTrace(fails))
  {
    var n := if fails < |ORDER| then fails else |ORDER|;
    assert ORDER[..|ORDER|] == ORDER;
    AcquiringStaysOrdered(trace, n);
    if fails < |ORDER| {
      AcquireHolds(trace, ORDER[..n]);
      ReleasingStaysOrdered(trace + Acquire(ORDER[..n]), n);
      Reassociate(trace, Acquire(ORDER[..n]), ReleaseAll(ORDER[..n]));
    }
  }

  /** At every moment of every series of loads and unloads the resources held are the first ones of
      that order: nothing is ever held without everything it builds on. */
  lemma {:induction false} HeldInOrder(rs: seq<Request>)
    ensures AlwaysOrdered(Session(rs).1)
  {
    if rs == [] {
    } else {
      HeldInOrder(rs[..|rs| - 1]);
      NothingLeaks(rs[..|rs| - 1]);
      var (loaded, trace) := Session(rs[..|rs| - 1]);
      match rs[|rs| - 1]
      case Unload =>
        if loaded {
          assert ORDER[..|ORDER|] == ORDER;
          ReleasingStaysOrdered(trace, |ORDER|);
        }
      case Load(fails) =>
        if !loaded {
          LoadStaysOrdered(trace, fails);
        }
    }
  }
}
