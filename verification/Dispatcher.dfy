/** The event loop of epoll_server: clients in, logger/payment/health channels and replies out. */
module Dispatcher {
  import opened Prelude

  type Fd = nat

  datatype Out =
    | ToLogger(text: string)
    | ToPayment(data: string)
    | ToHealth(data: string)
    | Reply(fd: Fd, data: string)

  /** One entry of the epoll result: a connection on the listener (accept may fail), or a
      readable client with the bytes its read returned; "" stands for n <= 0. */
  datatype Event = Connect(conn: Option<Fd>) | Readable(fd: Fd, data: string)

  datatype State = State(registered: set<Fd>, out: seq<Out>)

  /** The reply of each command. The payment acknowledgement is written with its NUL byte. */
  function ReplyText(cmd: char): string {
    if cmd == 'P' then "ACK payment\n\0"
    else if cmd == 'L' then "ACK: logger\n"
    else if cmd == 'H' then "ACK: health\n"
    else "ERR: unknown\n"
  }

  /** The writes one non-empty read gives rise to, in program order. */
  function Outputs(fd: Fd, data: string): seq<Out>
    requires data != ""
  {
    var cmd, body := data[0], data[1..];
    (if cmd == 'P' then [ToLogger("PAYING " + CStr(body)), ToPayment(body)]
     else if cmd == 'L' then [ToLogger("LOGGING " + CStr(body))]
     else if cmd == 'H' then [ToHealth(body)]
     else [])
    + [Reply(fd, ReplyText(cmd))]
  }

  function Init(listener: Fd): State { State({listener}, []) }

  function Handle(s: State, e: Event): State {
    match e
    case Connect(c) =>
      State(if c.Some? then s.registered + {c.value} else s.registered, s.out + [ToLogger("New client connected\n")])
    case Readable(fd, data) =>
      if data == "" then State(s.registered - {fd}, s.out + [ToLogger("Client disconnected\n")])
      else State(s.registered, s.out + Outputs(fd, data))
  }

  function Run(s: State, evs: seq<Event>): State {
    if evs == [] then s else Handle(Run(s, evs[..|evs| - 1]), evs[|evs| - 1])
  }

  /** The kernel's side: accept returns a descriptor not in use, and only registered
      descriptors other than the listener are reported readable. */
  predicate Possible(listener: Fd, s: State, e: Event) {
    match e
    case Connect(c) => c.Some? ==> c.value !in s.registered
    case Readable(fd, _) => fd in s.registered && fd != listener
  }

  ghost predicate PossibleRun(listener: Fd, evs: seq<Event>) {
    forall i | 0 <= i < |evs| :: Possible(listener, Run(Init(listener), evs[..i]), evs[i])
  }

  /** The server's main loop over batches of events, changing the epoll set in place. */
  class Server {
    var registered: set<Fd>
    var out: seq<Out>
    const listener: Fd

    ghost function Contents(): State
      reads this
    {
      State(registered, out)
    }

    constructor (listener: Fd)
      ensures Contents() == Init(listener) && this.listener == listener
    {
      this.listener := listener;
      registered := {listener};
      out := [];
    }

    method HandleBatch(events: seq<Event>)
      modifies this
      ensures Contents() == Run(old(Contents()), events)
      ensures forall v :: Seen(v, out) == Seen(v, old(out)) + AllOwed(v, events)
    {
      for i := 0 to |events|
        invariant Contents() == Run(old(Contents()), events[..i])
      {
        assert events[..i + 1][..i] == events[..i];
        match events[i]
        case Connect(conn) =>
          if conn.Some? {
            registered := registered + {conn.value};
          }
          out := out + [ToLogger("New client connected\n")];
        case Readable(fd, data) =>
          if data == "" {
            registered := registered - {fd};
            out := out + [ToLogger("Client disconnected\n")];
          } else {
            HandleCommand(fd, data);
          }
      }
      assert events[..|events|] == events;
      forall v ensures Seen(v, out) == Seen(v, old(out)) + AllOwed(v, events) {
        EveryEventServed(old(Contents()), events, v);
      }
    }

    method HandleCommand(fd: Fd, data: string)
      requires data != ""
      modifies this`out
      ensures out == old(out) + Outputs(fd, data)
      ensures data[0] == 'P' ==>
                out == old(out) + [ToLogger("PAYING " + CStr(data[1..])), ToPayment(data[1..]),
                                   Reply(fd, "ACK payment\n\0")]
      ensures data[0] == 'L' ==> out == old(out) + [ToLogger("LOGGING " + CStr(data[1..])), Reply(fd, "ACK: logger\n")]
      ensures data[0] == 'H' ==> out == old(out) + [ToHealth(data[1..]), Reply(fd, "ACK: health\n")]
      ensures data[0] !in "PLH" ==> out == old(out) + [Reply(fd, "ERR: unknown\n")]
    {
      match data[0]
      case 'P' =>
        out := out + [ToLogger("PAYING " + CStr(data[1..]))];
        out := out + [ToPayment(data[1..])];
        out := out + [Reply(fd, "ACK payment\n\0")];
      case 'L' =>
        out := out + [ToLogger("LOGGING " + CStr(data[1..]))];
        out := out + [Reply(fd, "ACK: logger\n")];
      case 'H' =>
        out := out + [ToHealth(data[1..])];
        out := out + [Reply(fd, "ACK: health\n")];
      case _ =>
        out := out + [Reply(fd, "ERR: unknown\n")];
    }
  }

  // ---- Conservation over whole event runs ----

  /** A client is open when some accept returned it and it has not been closed since. */
  ghost predicate OpenedAt(evs: seq<Event>, fd: Fd, i: int) {
    && 0 <= i < |evs| && evs[i] == Connect(Some(fd))
    && forall j | i < j < |evs| :: evs[j] != Readable(fd, "")
  }

  ghost predicate IsOpen(evs: seq<Event>, fd: Fd) {
    exists i :: OpenedAt(evs, fd, i)
  }

  lemma OpenAfterEvent(evs: seq<Event>, e: Event, fd: Fd)
    ensures IsOpen(evs + [e], fd) <==> e == Connect(Some(fd)) || (IsOpen(evs, fd) && e != Readable(fd, ""))
  {
    var n := |evs|;
    if e == Connect(Some(fd)) {
      assert OpenedAt(evs + [e], fd, n);
    } else {
      if IsOpen(evs, fd) && e != Readable(fd, "") {
        var i :| OpenedAt(evs, fd, i);
        assert OpenedAt(evs + [e], fd, i);
      }
      if IsOpen(evs + [e], fd) {
        var i :| OpenedAt(evs + [e], fd, i);
        assert (evs + [e])[n] == e;
        assert OpenedAt(evs, fd, i) by {
          assert forall j | i <= j < n :: evs[j] == (evs + [e])[j];
        }
      }
    }
  }

  /** The descriptors watched by epoll are exactly the listener and the open clients. */
  lemma {:induction false} RegisteredAreOpenClients(listener: Fd, evs: seq<Event>, fd: Fd)
    requires PossibleRun(listener, evs)
    ensures fd in Run(Init(listener), evs).registered <==> fd == listener || IsOpen(evs, fd)
  {
    if evs == [] {
    } else {
      var n := |evs| - 1;
      var s := Run(Init(listener), evs[..n]);
      PrefixPossible(listener, evs, n);
      RegisteredAreOpenClients(listener, evs[..n], fd);
      assert Possible(listener, s, evs[n]) && Run(Init(listener), evs) == Handle(s, evs[n]);
      RegisteredAfterEvent(listener, s, evs[..n], evs[n], fd);
      assert evs[..n] + [evs[n]] == evs;
    }
  }

  lemma RegisteredAfterEvent(listener: Fd, s: State, evs: seq<Event>, e: Event, fd: Fd)
    requires Possible(listener, s, e) && (fd in s.registered <==> fd == listener || IsOpen(evs, fd))
    ensures fd in Handle(s, e).registered <==> fd == listener || IsOpen(evs + [e], fd)
  {
    OpenAfterEvent(evs, e, fd);
  }

  lemma PrefixPossible(listener: Fd, evs: seq<Event>, n: nat)
    requires n <= |evs| && PossibleRun(listener, evs)
    ensures PossibleRun(listener, evs[..n])
  {
    forall i | 0 <= i < n ensures Possible(listener, Run(Init(listener), evs[..n][..i]), evs[..n][i]) {
      assert evs[..n][..i] == evs[..i];
    }
  }

  // ---- What each reader is owed ----

  /** One reader's part of the output: a client's replies, what payment or health is sent, what the
      logger is told. */
  datatype View = RepliesTo(fd: Fd) | PaymentWrites | HealthWrites | LoggerLines

  function SeenIn(v: View, o: Out): seq<string> {
    match v
    case RepliesTo(fd) => if o.Reply? && o.fd == fd then [o.data] else []
    case PaymentWrites => if o.ToPayment? then [o.data] else []
    case HealthWrites => if o.ToHealth? then [o.data] else []
    case LoggerLines => if o.ToLogger? then [o.text] else []
  }

  function Seen(v: View, out: seq<Out>): seq<string> {
    if out == [] then [] else Seen(v, out[..|out| - 1]) + SeenIn(v, out[|out| - 1])
  }

  /** What one event obliges the server to write to that reader. */
  function Owed(v: View, e: Event): seq<string> {
    match e
    case Connect(_) => if v.LoggerLines? then ["New client connected\n"] else []
    case Readable(fd, data) =>
      if data == "" then (if v.LoggerLines? then ["Client disconnected\n"] else [])
      else
        match v
        case RepliesTo(client) =>
          if client != fd then []
          else if data[0] == 'P' then ["ACK payment\n\0"]
          else if data[0] == 'L' then ["ACK: logger\n"]
          else if data[0] == 'H' then ["ACK: health\n"]
          else ["ERR: unknown\n"]
        case PaymentWrites => if data[0] == 'P' then [data[1..]] else []
        case HealthWrites => if data[0] == 'H' then [data[1..]] else []
        case LoggerLines =>
          if data[0] == 'P' then ["PAYING " + CStr(data[1..])]
          else if data[0] == 'L' then ["LOGGING " + CStr(data[1..])]
          else []
  }

  function AllOwed(v: View, evs: seq<Event>): seq<string> {
    if evs == [] then [] else AllOwed(v, evs[..|evs| - 1]) + Owed(v, evs[|evs| - 1])
  }

  lemma LastOfConcat<T>(a: seq<T>, b: seq<T>)
    requires b != []
    ensures var all := a + b; all[..|all| - 1] == a + b[..|b| - 1] && all[|all| - 1] == b[|b| - 1]
  {
  }

  lemma {:induction false} SeenConcat(v: View, a: seq<Out>, b: seq<Out>)
    ensures Seen(v, a + b) == Seen(v, a) + Seen(v, b)
  {
    if b == [] {
      assert a + b == a;
    } else {
      LastOfConcat(a, b);
      SeenConcat(v, a, b[..|b| - 1]);
    }
  }

  lemma SeenOne(v: View, o: Out)
    ensures Seen(v, [o]) == SeenIn(v, o)
  {
    assert [o][..0] == [];
  }

  lemma SeenTwo(v: View, a: Out, b: Out)
    ensures Seen(v, [a, b]) == SeenIn(v, a) + SeenIn(v, b)
  {
    SeenOne(v, a);
    assert [a, b][..1] == [a];
  }

  lemma SeenThree(v: View, a: Out, b: Out, c: Out)
    ensures Seen(v, [a, b, c]) == SeenIn(v, a) + SeenIn(v, b) + SeenIn(v, c)
  {
    SeenTwo(v, a, b);
    assert [a, b, c][..2] == [a, b];
  }

  lemma OutputsOwed(v: View, fd: Fd, data: string)
    requires data != ""
    ensures Seen(v, Outputs(fd, data)) == Owed(v, Readable(fd, data))
  {
    var out := Outputs(fd, data);
    if data[0] == 'P' {
      assert out == [out[0], out[1], out[2]];
      SeenThree(v, out[0], out[1], out[2]);
    } else if data[0] == 'L' || data[0] == 'H' {
      assert out == [out[0], out[1]];
      SeenTwo(v, out[0], out[1]);
    } else {
      assert out == [out[0]];
      SeenOne(v, out[0]);
    }
  }

  lemma EventServed(s: State, e: Event, v: View)
    ensures Seen(v, Handle(s, e).out) == Seen(v, s.out) + Owed(v, e)
  {
    if e.Readable? && e.data != "" {
      SeenConcat(v, s.out, Outputs(e.fd, e.data));
      OutputsOwed(v, e.fd, e.data);
    } else {
      var note := if e.Connect? then ToLogger("New client connected\n") else ToLogger("Client disconnected\n");
      SeenConcat(v, s.out, [note]);
      SeenOne(v, note);
    }
  }

  /** Over every event run each reader is written exactly what the events owe it, in their order: one
      right reply per non-empty read to its client, the P payloads to payment, the H payloads to
      health, one line per connect, close, P and L to the logger. */
  lemma {:induction false} EveryEventServed(s: State, evs: seq<Event>, v: View)
    ensures Seen(v, Run(s, evs).out) == Seen(v, s.out) + AllOwed(v, evs)
  {
    if evs == [] {
    } else {
      var n := |evs| - 1;
      EveryEventServed(s, evs[..n], v);
      EventServed(Run(s, evs[..n]), evs[n], v);
    }
  }

  /** In the output order every payload sent to payment directly follows its own logger line. */
  ghost predicate LoggedBeforePaid(out: seq<Out>) {
    forall i | 0 <= i < |out| && out[i].ToPayment? ::
      i > 0 && out[i - 1] == ToLogger("PAYING " + CStr(out[i].data))
  }

  lemma {:induction false} PaymentLoggedFirst(s: State, evs: seq<Event>)
    requires LoggedBeforePaid(s.out)
    ensures LoggedBeforePaid(Run(s, evs).out)
  {
    if evs == [] {
    } else {
      PaymentLoggedFirst(s, evs[..|evs| - 1]);
      EventKeepsLogged(Run(s, evs[..|evs| - 1]), evs[|evs| - 1]);
    }
  }

  lemma EventKeepsLogged(s: State, e: Event)
    requires LoggedBeforePaid(s.out)
    ensures LoggedBeforePaid(Handle(s, e).out)
  {
  }
}
