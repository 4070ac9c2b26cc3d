/** Any number of open files using the driver at once, step by step under its mutex, while
    mappings of the page store bytes whenever they like. */
module CharDeviceThreads {
  import opened Prelude
  import opened ByteFile

  /** Where the operation in progress on an open file stands. At most one is in progress on each
      open file; operations on different files interleave. */
  datatype Pc =
    | Idle
    | AskRead(count: nat)
    | AskWrite(src: seq<byte>)
    | AskSeek(offset: int, whence: Whence)
    | InRead(count: nat)
    | ReadCopied(data: seq<byte>)
    | InWrite(src: seq<byte>)
    | WriteCopied(n: nat)
    | WriteMoved(n: nat)
    | InSeek(offset: int, whence: Whence)
    | Leaving(result: Result)

  datatype Result = GotData(data: seq<byte>) | WroteBytes(n: nat) | NoSpace | Sought(to: nat) | BadSeek

  /** An open file with its position; explicit ones stand for the position argument of a
      pread or pwrite, which may be anything. */
  datatype File = File(pos: nat, explicit: bool, pc: Pc)

  datatype State = State(dev: Dev, owner: Option<nat>, files: seq<File>)

  datatype Move =
    | Open(explicit: bool, at: nat)
    | Ask(f: nat, request: Pc)
    | Lock(f: nat)
    | Work(f: nat, copied: nat, tail: seq<byte>)
    | Unlock(f: nat)
    | MappedStore(i: nat, b: byte)

  predicate Request(pc: Pc) { pc.AskRead? || pc.AskWrite? || pc.AskSeek? }

  predicate Holding(pc: Pc) { !pc.Idle? && !Request(pc) }

  predicate Sound(s: State) { s.dev.Valid() }

  predicate Enabled(s: State, m: Move) {
    && Sound(s)
    && match m
       case Open(_, _) => true
       case Ask(f, request) => f < |s.files| && s.files[f].pc.Idle? && Request(request)
       case Lock(f) => f < |s.files| && Request(s.files[f].pc) && s.owner.None?
       case Work(f, copied, tail) =>
         && f < |s.files|
         && (match s.files[f].pc
             case InRead(count) => copied <= ReadLimit(s.dev, s.files[f].pos, count)
             case InWrite(src) => copied + |tail| == WriteLimit(s.files[f].pos, |src|)
             case ReadCopied(_) => true
             case WriteCopied(_) => true
             case WriteMoved(_) => true
             case InSeek(_, _) => true
             case _ => false)
       case Unlock(f) => f < |s.files| && s.files[f].pc.Leaving?
       case MappedStore(i, _) => i < PAGE
  }

  function SetPc(s: State, f: nat, pc: Pc): State
    requires f < |s.files|
  {
    s.(files := s.files[f := s.files[f].(pc := pc)])
  }

  /** One step of the driver code between taking and releasing the mutex. */
  function WorkStep(s: State, f: nat, copied: nat, tail: seq<byte>): State
    requires Enabled(s, Work(f, copied, tail))
  {
    var file := s.files[f];
    match file.pc
    case InRead(count) =>
      if file.pos >= s.dev.len then SetPc(s, f, Leaving(GotData([])))
      else SetPc(s, f, ReadCopied(ReadData(s.dev, file.pos, copied)))
    case ReadCopied(data) =>
      s.(files := s.files[f := file.(pos := file.pos + |data|, pc := Leaving(GotData(data)))])
    case InWrite(src) =>
      if WriteLimit(file.pos, |src|) == 0 then SetPc(s, f, Leaving(NoSpace))
      else SetPc(s.(dev := s.dev.(page := Store(s.dev.page, file.pos, src[..copied], tail))), f, WriteCopied(copied))
    case WriteCopied(n) => s.(files := s.files[f := file.(pos := file.pos + n, pc := WriteMoved(n))])
    case WriteMoved(n) => SetPc(s.(dev := Grown(s.dev, file.pos)), f, Leaving(WroteBytes(n)))
    case InSeek(offset, whence) =>
      (match Seek(s.dev, file.pos, offset, whence)
       case None => SetPc(s, f, Leaving(BadSeek))
       case Some(p) => s.(files := s.files[f := file.(pos := p, pc := Leaving(Sought(p)))]))
    case _ => s
  }

  function Grown(d: Dev, pos: nat): Dev { d.(len := if pos > d.len then Min(pos, PAGE) else d.len) }

  function Next(s: State, m: Move): State
    requires Enabled(s, m)
  {
    match m
    case Open(explicit, at) => s.(files := s.files + [File(if explicit then at else 0, explicit, Idle)])
    case Ask(f, request) => SetPc(s, f, request)
    case Lock(f) =>
      var pc := match s.files[f].pc
                case AskRead(count) => InRead(count)
                case AskWrite(src) => InWrite(src)
                case AskSeek(offset, whence) => InSeek(offset, whence)
                case other => other;
      SetPc(s, f, pc).(owner := Some(f))
    case Work(f, copied, tail) => WorkStep(s, f, copied, tail)
    case Unlock(f) => SetPc(s, f, Idle).(owner := None)
    case MappedStore(i, b) => s.(dev := s.dev.(page := s.dev.page[i := b]))
  }

  const INIT := State(FRESH, None, [])

  predicate Legal(s: State, ms: seq<Move>)
    decreases |ms|
  {
    ms == [] || (Enabled(s, ms[0]) && Legal(Next(s, ms[0]), ms[1..]))
  }

  function Exec(s: State, ms: seq<Move>): State
    requires Legal(s, ms)
    decreases |ms|
  {
    if ms == [] then s else Exec(Next(s, ms[0]), ms[1..])
  }

  // ---- The sequential byte file ----

  datatype Spec = Spec(dev: Dev, pos: seq<nat>)

  datatype Op =
    | OpOpen(at: nat)
    | OpRead(f: nat, count: nat, copied: nat)
    | OpWrite(f: nat, src: seq<byte>, copied: nat, tail: seq<byte>)
    | OpSeek(f: nat, offset: int, whence: Whence)
    | OpStore(i: nat, b: byte)

  predicate OpPossible(a: Spec, op: Op) {
    && a.dev.Valid()
    && match op
       case OpOpen(_) => true
       case OpRead(f, count, copied) => f < |a.pos| && copied <= ReadLimit(a.dev, a.pos[f], count)
       case OpWrite(f, src, copied, tail) => f < |a.pos| && copied + |tail| == WriteLimit(a.pos[f], |src|)
       case OpSeek(f, _, _) => f < |a.pos|
       case OpStore(i, _) => i < PAGE
  }

  /** Each operation as one indivisible step, with its result. */
  function OpStep(a: Spec, op: Op): (Spec, Option<Result>)
    requires OpPossible(a, op)
  {
    match op
    case OpOpen(at) => (a.(pos := a.pos + [at]), None)
    case OpRead(f, _, copied) =>
      (a.(pos := a.pos[f := a.pos[f] + copied]), Some(GotData(ReadData(a.dev, a.pos[f], copied))))
    case OpWrite(f, src, copied, tail) =>
      if WriteLimit(a.pos[f], |src|) == 0 then (a, Some(NoSpace))
      else
        (Spec(WriteDev(a.dev, a.pos[f], src, copied, tail), a.pos[f := a.pos[f] + copied]), Some(WroteBytes(copied)))
    case OpSeek(f, offset, whence) =>
      (match Seek(a.dev, a.pos[f], offset, whence)
       case None => (a, Some(BadSeek))
       case Some(p) => (a.(pos := a.pos[f := p]), Some(Sought(p))))
    case OpStore(i, b) => (a.(dev := a.dev.(page := a.dev.page[i := b])), None)
  }

  predicate OpsPossible(a: Spec, ops: seq<Op>)
    decreases |ops|
  {
    ops == [] || (OpPossible(a, ops[0]) && OpsPossible(OpStep(a, ops[0]).0, ops[1..]))
  }

  function RunOps(a: Spec, ops: seq<Op>): Spec
    requires OpsPossible(a, ops)
    decreases |ops|
  {
    if ops == [] then a else RunOps(OpStep(a, ops[0]).0, ops[1..])
  }

  /** What a read, write or llseek of file f does in terms of the page, the length and the position,
      and what it returns. Other files and mappings' bytes stay as they are. */
  lemma OperationsMean(a: Spec, op: Op)
    requires OpPossible(a, op)
    ensures var (b, r) := OpStep(a, op);
            var page, len := a.dev.page, a.dev.len;
            match op
            case OpRead(f, count, copied) =>
              var pos := a.pos[f];
              && b == a.(pos := a.pos[f := pos + copied])
              && copied <= count && (copied > 0 ==> pos + copied <= len)
              && r == Some(GotData(if copied == 0 then [] else page[pos..pos + copied]))
            case OpWrite(f, src, copied, tail) =>
              var pos := a.pos[f];
              if pos >= 4096 || src == [] then b == a && r == Some(NoSpace)
              else
                && copied + |tail| == Min(|src|, 4096 - pos)
                && b.dev.page == page[..pos] + src[..copied] + tail + page[pos + copied + |tail|..]
                && b.dev.len == Max(len, pos + copied)
                && b.pos == a.pos[f := pos + copied] && r == Some(WroteBytes(copied))
            case OpSeek(f, offset, whence) =>
              var target := match whence
                            case SeekSet => offset
                            case SeekCur => a.pos[f] + offset
                            case SeekEnd => len + offset
                            case SeekOther => -1;
              if (whence.SeekCur? && offset == 0) || 0 <= target <= len
              then b == a.(pos := a.pos[f := target]) && r == Some(Sought(target))
              else b == a && r == Some(BadSeek)
            case OpOpen(at) => b == a.(pos := a.pos + [at]) && r == None
            case OpStore(i, x) => b == a.(dev := a.dev.(page := page[i := x])) && r == None
  {
    match op
    case OpSeek(f, offset, whence) =>
      if whence.SeekCur? && offset == 0 {
        assert a.pos[f := a.pos[f]] == a.pos;
      }
    case _ =>
  }

  // ---- Refinement ----

  /** A file's position once the update in progress is done. */
  function SettledPos(file: File): nat {
    match file.pc
    case ReadCopied(data) => file.pos + |data|
    case WriteCopied(n) => file.pos + n
    case _ => file.pos
  }

  function Positions(files: seq<File>): (r: seq<nat>)
    ensures |r| == |files| && forall i | 0 <= i < |r| :: r[i] == SettledPos(files[i])
  {
    if files == [] then [] else Positions(files[..|files| - 1]) + [SettledPos(files[|files| - 1])]
  }

  predicate Writing(pc: Pc) { pc.WriteCopied? || pc.WriteMoved? }

  /** The device once the mutex holder's write has also set the length. */
  function SettledDev(s: State): Dev {
    if s.owner.Some? && s.owner.value < |s.files| && Writing(s.files[s.owner.value].pc)
    then Grown(s.dev, SettledPos(s.files[s.owner.value]))
    else s.dev
  }

  function Abs(s: State): Spec { Spec(SettledDev(s), Positions(s.files)) }

  /** The mutex is held exactly by the file whose operation is between lock and unlock; a write
      in progress fits the page. */
  predicate Inv(s: State) {
    && Sound(s)
    && (forall f | 0 <= f < |s.files| :: Holding(s.files[f].pc) <==> s.owner == Some(f))
    && (s.owner.Some? ==> s.owner.value < |s.files|)
    && (forall f | 0 <= f < |s.files| && Writing(s.files[f].pc) :: SettledPos(s.files[f]) <= PAGE)
  }

  /** The operation a step completes, seen from outside: the copy under the mutex is the point
      at which a read or write happens. */
  function Completes(s: State, m: Move): Option<Op>
    requires Enabled(s, m)
  {
    match m
    case Open(explicit, at) => Some(OpOpen(if explicit then at else 0))
    case MappedStore(i, b) => Some(OpStore(i, b))
    case Work(f, copied, tail) =>
      (match s.files[f].pc
       case InRead(count) => Some(OpRead(f, count, copied))
       case InWrite(src) => Some(OpWrite(f, src, copied, tail))
       case InSeek(offset, whence) => Some(OpSeek(f, offset, whence))
       case _ => None)
    case _ => None
  }

  /** The result an operation in its final phase will return. */
  function Outcome(pc: Pc): Option<Result> {
    match pc
    case ReadCopied(data) => Some(GotData(data))
    case WriteCopied(n) => Some(WroteBytes(n))
    case WriteMoved(n) => Some(WroteBytes(n))
    case Leaving(r) => Some(r)
    case _ => None
  }

  lemma OthersKeepPositions(files: seq<File>, f: nat, file: File)
    requires f < |files|
    ensures Positions(files[f := file]) == Positions(files)[f := SettledPos(file)]
  {
  }

  lemma WorkKeepsInv(s: State, m: Move)
    requires Inv(s) && Enabled(s, m) && m.Work?
    ensures Inv(Next(s, m))
  {
    assert s.owner == Some(m.f);
  }

  lemma StepKeepsInv(s: State, m: Move)
    requires Inv(s) && Enabled(s, m)
    ensures Inv(Next(s, m))
  {
    if m.Work? {
      WorkKeepsInv(s, m);
    }
  }

  /** s' is s after the operation m completes, if any, on the sequential file. */
  predicate Refines(s: State, m: Move, s': State)
    requires Enabled(s, m)
  {
    match Completes(s, m)
    case None => Abs(s') == Abs(s)
    case Some(op) => OpPossible(Abs(s), op) && Abs(s') == OpStep(Abs(s), op).0
  }

  /** The result on its way out of file f agrees with the sequential result. */
  predicate ResultAgrees(s: State, f: nat, copied: nat, tail: seq<byte>, s': State)
    requires Enabled(s, Work(f, copied, tail)) && |s'.files| == |s.files|
  {
    match Completes(s, Work(f, copied, tail))
    case None => Outcome(s'.files[f].pc) == Outcome(s.files[f].pc)
    case Some(op) => OpPossible(Abs(s), op) && Outcome(s'.files[f].pc) == OpStep(Abs(s), op).1
  }

  /** The device as the operation of the mutex holder's file settles it. */
  function SettledBy(dev: Dev, file: File): Dev { if Writing(file.pc) then Grown(dev, SettledPos(file)) else dev }

  /** What a step of the mutex holder means for the abstract file. */
  lemma HolderStep(s: State, f: nat, dev': Dev, file': File)
    requires Inv(s) && s.owner == Some(f)
    ensures Abs(s) == Spec(SettledBy(s.dev, s.files[f]), Positions(s.files))
    ensures Positions(s.files)[f] == SettledPos(s.files[f])
    ensures Abs(s.(dev := dev', files := s.files[f := file'])) ==
            Spec(SettledBy(dev', file'), Positions(s.files)[f := SettledPos(file')])
  {
    OthersKeepPositions(s.files, f, file');
  }

  lemma ReadAtEnd(s: State, f: nat, copied: nat, tail: seq<byte>)
    requires Inv(s) && Enabled(s, Work(f, copied, tail)) && s.files[f].pc.InRead? && s.files[f].pos >= s.dev.len
    ensures var s' := WorkStep(s, f, copied, tail);
            Refines(s, Work(f, copied, tail), s') && ResultAgrees(s, f, copied, tail, s')
  {
    var pos := Positions(s.files);
    var file' := s.files[f].(pc := Leaving(GotData([])));
    var s' := s.(files := s.files[f := file']);
    assert WorkStep(s, f, copied, tail) == s';
    OthersKeepPositions(s.files, f, file');
    assert pos[f] == s.files[f].pos && pos[f := pos[f] + 0] == pos;
    assert copied == 0 && SettledDev(s) == s.dev && SettledDev(s') == s.dev;
  }

  lemma ReadSomeData(s: State, f: nat, copied: nat, tail: seq<byte>)
    requires Inv(s) && Enabled(s, Work(f, copied, tail)) && s.files[f].pc.InRead? && s.files[f].pos < s.dev.len
    ensures var s' := WorkStep(s, f, copied, tail);
            Refines(s, Work(f, copied, tail), s') && ResultAgrees(s, f, copied, tail, s')
  {
    var file := s.files[f];
    var file' := file.(pc := ReadCopied(ReadData(s.dev, file.pos, copied)));
    assert s.owner == Some(f) && |file'.pc.data| == copied;
    HolderStep(s, f, s.dev, file');
    assert WorkStep(s, f, copied, tail) == s.(dev := s.dev, files := s.files[f := file']);
  }

  lemma ReadRefines(s: State, f: nat, copied: nat, tail: seq<byte>)
    requires Inv(s) && Enabled(s, Work(f, copied, tail)) && s.files[f].pc.InRead?
    ensures var s' := WorkStep(s, f, copied, tail);
            Refines(s, Work(f, copied, tail), s') && ResultAgrees(s, f, copied, tail, s')
  {
    if s.files[f].pos >= s.dev.len {
      ReadAtEnd(s, f, copied, tail);
    } else {
      ReadSomeData(s, f, copied, tail);
    }
  }

  lemma ReadFinishes(s: State, f: nat, copied: nat, tail: seq<byte>)
    requires Inv(s) && Enabled(s, Work(f, copied, tail)) && s.files[f].pc.ReadCopied?
    ensures var s' := WorkStep(s, f, copied, tail);
            Refines(s, Work(f, copied, tail), s') && ResultAgrees(s, f, copied, tail, s')
  {
    var s' := WorkStep(s, f, copied, tail);
    OthersKeepPositions(s.files, f, s'.files[f]);
    assert s.owner == Some(f) && SettledDev(s) == s.dev && SettledDev(s') == s.dev;
    assert s'.files == s.files[f := s'.files[f]];
    assert SettledPos(s'.files[f]) == SettledPos(s.files[f]) == Positions(s.files)[f];
  }

  lemma SeekRefines(s: State, f: nat, copied: nat, tail: seq<byte>)
    requires Inv(s) && Enabled(s, Work(f, copied, tail)) && s.files[f].pc.InSeek?
    ensures var s' := WorkStep(s, f, copied, tail);
            Refines(s, Work(f, copied, tail), s') && ResultAgrees(s, f, copied, tail, s')
  {
    var s' := WorkStep(s, f, copied, tail);
    OthersKeepPositions(s.files, f, s'.files[f]);
    assert s.owner == Some(f) && SettledDev(s) == s.dev && SettledDev(s') == s.dev;
    assert s'.files == s.files[f := s'.files[f]];
    assert Positions(s.files)[f] == SettledPos(s.files[f]);
  }

  lemma FullDevice(s: State, f: nat, copied: nat, tail: seq<byte>)
    requires Inv(s) && Enabled(s, Work(f, copied, tail)) && s.files[f].pc.InWrite?
    requires WriteLimit(s.files[f].pos, |s.files[f].pc.src|) == 0
    ensures var s' := WorkStep(s, f, copied, tail);
            Refines(s, Work(f, copied, tail), s') && ResultAgrees(s, f, copied, tail, s')
  {
    var s' := WorkStep(s, f, copied, tail);
    OthersKeepPositions(s.files, f, s'.files[f]);
    assert s.owner == Some(f) && SettledDev(s) == s.dev == SettledDev(s');
    assert Positions(s.files)[f] == s.files[f].pos;
    assert s'.files == s.files[f := s'.files[f]];
  }

  lemma WriteRefines(s: State, f: nat, copied: nat, tail: seq<byte>)
    requires Inv(s) && Enabled(s, Work(f, copied, tail)) && s.files[f].pc.InWrite?
    requires WriteLimit(s.files[f].pos, |s.files[f].pc.src|) > 0
    ensures var s' := WorkStep(s, f, copied, tail);
            Refines(s, Work(f, copied, tail), s') && ResultAgrees(s, f, copied, tail, s')
  {
    var file, src := s.files[f], s.files[f].pc.src;
    var file' := file.(pc := WriteCopied(copied));
    var dev' := s.dev.(page := Store(s.dev.page, file.pos, src[..copied], tail));
    assert s.owner == Some(f);
    HolderStep(s, f, dev', file');
    assert WorkStep(s, f, copied, tail) == s.(dev := dev', files := s.files[f := file']);
    assert Grown(dev', file.pos + copied) == WriteDev(s.dev, file.pos, src, copied, tail);
  }

  /** Moving the position, then setting the length, changes nothing that is not settled already. */
  lemma WriteMovesPosition(s: State, f: nat, copied: nat, tail: seq<byte>)
    requires Inv(s) && Enabled(s, Work(f, copied, tail)) && s.files[f].pc.WriteCopied?
    ensures var s' := WorkStep(s, f, copied, tail);
            Refines(s, Work(f, copied, tail), s') && ResultAgrees(s, f, copied, tail, s')
  {
    var file := s.files[f];
    var file' := file.(pos := file.pos + file.pc.n, pc := WriteMoved(file.pc.n));
    assert s.owner == Some(f);
    HolderStep(s, f, s.dev, file');
    assert WorkStep(s, f, copied, tail) == s.(dev := s.dev, files := s.files[f := file']);
  }

  lemma WriteSetsLength(s: State, f: nat, copied: nat, tail: seq<byte>)
    requires Inv(s) && Enabled(s, Work(f, copied, tail)) && s.files[f].pc.WriteMoved?
    ensures var s' := WorkStep(s, f, copied, tail);
            Refines(s, Work(f, copied, tail), s') && ResultAgrees(s, f, copied, tail, s')
  {
    var file := s.files[f];
    var file' := file.(pc := Leaving(WroteBytes(file.pc.n)));
    assert s.owner == Some(f);
    HolderStep(s, f, Grown(s.dev, file.pos), file');
    assert WorkStep(s, f, copied, tail) == s.(dev := Grown(s.dev, file.pos), files := s.files[f := file']);
  }

  lemma AskRefines(s: State, m: Move)
    requires Inv(s) && Enabled(s, m) && m.Ask?
    ensures Refines(s, m, Next(s, m))
  {
    var s' := SetPc(s, m.f, m.request);
    OthersKeepPositions(s.files, m.f, s'.files[m.f]);
    assert Positions(s.files)[m.f] == SettledPos(s.files[m.f]) == SettledPos(s'.files[m.f]);
    assert s.owner != Some(m.f) && SettledDev(s') == SettledDev(s);
  }

  lemma LockRefines(s: State, m: Move)
    requires Inv(s) && Enabled(s, m) && (m.Lock? || m.Unlock?)
    ensures Refines(s, m, Next(s, m))
  {
    var s' := Next(s, m);
    var file' := s'.files[m.f];
    assert s'.files == s.files[m.f := file'];
    OthersKeepPositions(s.files, m.f, file');
    assert Positions(s.files)[m.f] == SettledPos(s.files[m.f]) == SettledPos(file');
    assert SettledDev(s) == s.dev == SettledDev(s') by {
      assert m.Unlock? ==> s.owner == Some(m.f);
    }
  }

  lemma OutsideRefines(s: State, m: Move)
    requires Inv(s) && Enabled(s, m) && (m.Open? || m.MappedStore?)
    ensures Refines(s, m, Next(s, m))
  {
    if m.Open? {
      var s' := Next(s, m);
      assert s'.files[..|s.files|] == s.files;
      assert SettledDev(s') == SettledDev(s);
    }
  }

  /** Every step either leaves the abstract file alone or is exactly one sequential operation, with
      the result the caller will be handed. */
  lemma StepRefines(s: State, m: Move)
    requires Inv(s) && Enabled(s, m)
    ensures Refines(s, m, Next(s, m))
    ensures m.Work? ==> ResultAgrees(s, m.f, m.copied, m.tail, Next(s, m))
  {
    match m
    case Work(f, copied, tail) =>
      match s.files[f].pc {
        case InRead(_) => ReadRefines(s, f, copied, tail);
        case ReadCopied(_) => ReadFinishes(s, f, copied, tail);
        case InWrite(src) =>
          if WriteLimit(s.files[f].pos, |src|) == 0 {
            FullDevice(s, f, copied, tail);
          } else {
            WriteRefines(s, f, copied, tail);
          }
        case InSeek(_, _) => SeekRefines(s, f, copied, tail);
        case WriteCopied(_) => WriteMovesPosition(s, f, copied, tail);
        case _ => WriteSetsLength(s, f, copied, tail);
      }
    case Open(_, _) => OutsideRefines(s, m);
    case MappedStore(_, _) => OutsideRefines(s, m);
    case Ask(_, _) => AskRefines(s, m);
    case _ => LockRefines(s, m);
  }

  /** The sequential operations of a run, in the order of their copies under the mutex. */
  function Operations(s: State, ms: seq<Move>): seq<Op>
    requires Legal(s, ms)
    decreases |ms|
  {
    if ms == [] then []
    else
      (match Completes(s, ms[0])
       case None => []
       case Some(op) => [op])
      + Operations(Next(s, ms[0]), ms[1..])
  }

  // ---- What the calls return ----

  /** What a step hands back to a caller: the mutex is released and the operation returns. */
  function Handed(s: State, m: Move): seq<(nat, Result)>
    requires Enabled(s, m)
  {
    if m.Unlock? then [(m.f, s.files[m.f].pc.result)] else []
  }

  /** The results a run hands back, each with its file, in the order of the returns. */
  function Returned(s: State, ms: seq<Move>): seq<(nat, Result)>
    requires Legal(s, ms)
    decreases |ms|
  {
    if ms == [] then [] else Handed(s, ms[0]) + Returned(Next(s, ms[0]), ms[1..])
  }

  function OpResult(a: Spec, op: Op): seq<(nat, Result)>
    requires OpPossible(a, op)
  {
    match op
    case OpRead(f, _, _) => [(f, OpStep(a, op).1.value)]
    case OpWrite(f, _, _, _) => [(f, OpStep(a, op).1.value)]
    case OpSeek(f, _, _) => [(f, OpStep(a, op).1.value)]
    case _ => []
  }

  /** The results of the operations one after the other. */
  function Results(a: Spec, ops: seq<Op>): seq<(nat, Result)>
    requires OpsPossible(a, ops)
    decreases |ops|
  {
    if ops == [] then [] else OpResult(a, ops[0]) + Results(OpStep(a, ops[0]).0, ops[1..])
  }

  /** The result the mutex holder has obtained and not yet returned. */
  function Pending(s: State): seq<(nat, Result)> {
    if s.owner.Some? && s.owner.value < |s.files| && Outcome(s.files[s.owner.value].pc).Some?
    then [(s.owner.value, Outcome(s.files[s.owner.value].pc).value)]
    else []
  }

  function CompletedResult(s: State, m: Move): seq<(nat, Result)>
    requires Inv(s) && Enabled(s, m) && Refines(s, m, Next(s, m))
  {
    match Completes(s, m)
    case None => []
    case Some(op) => OpResult(Abs(s), op)
  }

  lemma WorkKeepsResults(s: State, m: Move)
    requires Inv(s) && Enabled(s, m) && m.Work?
    ensures Refines(s, m, Next(s, m)) && Pending(s) + CompletedResult(s, m) == Pending(Next(s, m))
  {
    StepRefines(s, m);
    assert s.owner == Some(m.f);
  }

  lemma BoundaryKeepsResults(s: State, m: Move)
    requires Inv(s) && Enabled(s, m) && (m.Ask? || m.Lock? || m.Unlock?)
    ensures Pending(s) == Handed(s, m) + Pending(Next(s, m))
  {
    assert m.Ask? ==> s.owner != Some(m.f);
    assert m.Unlock? ==> s.owner == Some(m.f);
  }

  /** No step loses, changes or repeats a result on its way from the copy to the caller. */
  lemma StepKeepsResults(s: State, m: Move)
    requires Inv(s) && Enabled(s, m)
    ensures Refines(s, m, Next(s, m))
    ensures Pending(s) + CompletedResult(s, m) == Handed(s, m) + Pending(Next(s, m))
  {
    StepRefines(s, m);
    if m.Work? {
      WorkKeepsResults(s, m);
    } else if m.Ask? || m.Lock? || m.Unlock? {
      BoundaryKeepsResults(s, m);
    }
  }

  lemma {:induction false} RunRefinesFrom(s: State, ms: seq<Move>)
    requires Inv(s) && Legal(s, ms)
    ensures Inv(Exec(s, ms))
    ensures OpsPossible(Abs(s), Operations(s, ms)) && RunOps(Abs(s), Operations(s, ms)) == Abs(Exec(s, ms))
    ensures Pending(s) + Results(Abs(s), Operations(s, ms)) == Returned(s, ms) + Pending(Exec(s, ms))
    decreases |ms|
  {
    if ms == [] {
    } else {
      var m, s' := ms[0], Next(s, ms[0]);
      StepKeepsInv(s, m);
      StepKeepsResults(s, m);
      RunRefinesFrom(s', ms[1..]);
      FirstOperation(s, ms);
      Splice(Pending(s), CompletedResult(s, m), Results(Abs(s'), Operations(s', ms[1..])),
             Handed(s, m), Pending(s'), Returned(s', ms[1..]), Pending(Exec(s', ms[1..])));
    }
  }

  /** The first step's operation, if any, comes before those of the rest of the run. */
  lemma FirstOperation(s: State, ms: seq<Move>)
    requires Inv(s) && ms != [] && Legal(s, ms) && Refines(s, ms[0], Next(s, ms[0]))
    requires OpsPossible(Abs(Next(s, ms[0])), Operations(Next(s, ms[0]), ms[1..]))
    ensures var rest := Operations(Next(s, ms[0]), ms[1..]);
            && OpsPossible(Abs(s), Operations(s, ms))
            && RunOps(Abs(s), Operations(s, ms)) == RunOps(Abs(Next(s, ms[0])), rest)
            && Results(Abs(s), Operations(s, ms)) ==
               CompletedResult(s, ms[0]) + Results(Abs(Next(s, ms[0])), rest)
  {
    var rest := Operations(Next(s, ms[0]), ms[1..]);
    match Completes(s, ms[0])
    case None => assert Operations(s, ms) == rest;
    case Some(op) =>
      assert Operations(s, ms) == [op] + rest;
      assert ([op] + rest)[1..] == rest;
  }

  lemma InitHolds()
    ensures Inv(INIT) && PositionsWithinData(INIT) && Pending(INIT) == [] && Abs(INIT) == Spec(FRESH, [])
  {
  }

  /** From loading on, every interleaving is equivalent to running its operations one after the other:
      it leaves the same device and positions, and its calls return exactly the results of those
      operations, in the same order, but for the one the mutex holder has not returned yet. */
  lemma RunsRefine(ms: seq<Move>)
    requires Legal(INIT, ms)
    ensures var a, ops := Spec(FRESH, []), Operations(INIT, ms);
            && OpsPossible(a, ops) && RunOps(a, ops) == Abs(Exec(INIT, ms))
            && Results(a, ops) == Returned(INIT, ms) + Pending(Exec(INIT, ms))
  {
    InitHolds();
    RunRefinesFrom(INIT, ms);
  }

  // ---- What the sequential file guarantees ----

  lemma OpKeepsBounds(a: Spec, op: Op)
    requires OpPossible(a, op)
    ensures var (b, _) := OpStep(a, op); b.dev.Valid() && b.dev.len >= a.dev.len
  {
  }

  lemma StepGrowsLength(s: State, m: Move)
    requires Inv(s) && Enabled(s, m)
    ensures s.dev.len <= Next(s, m).dev.len <= PAGE
  {
    StepKeepsInv(s, m);
  }

  lemma {:induction false} LengthGrowsFrom(s: State, ms: seq<Move>)
    requires Inv(s) && Legal(s, ms)
    ensures s.dev.len <= Exec(s, ms).dev.len <= PAGE
    decreases |ms|
  {
    if ms == [] {
    } else {
      StepGrowsLength(s, ms[0]);
      StepKeepsInv(s, ms[0]);
      LengthGrowsFrom(Next(s, ms[0]), ms[1..]);
    }
  }

  /** The data length never shrinks and never exceeds the page, whatever runs concurrently. */
  lemma LengthGrowsWithinPage(before: seq<Move>, after: seq<Move>)
    requires Legal(INIT, before) && Legal(Exec(INIT, before), after)
    ensures var s := Exec(INIT, before); s.dev.len <= Exec(s, after).dev.len <= PAGE
  {
    InitHolds();
    RunRefinesFrom(INIT, before);
    LengthGrowsFrom(Exec(INIT, before), after);
  }

  /** Positions reached by open, read, write and llseek stay within the data. */
  predicate PositionsWithinData(s: State) {
    forall f | 0 <= f < |s.files| && !s.files[f].explicit :: SettledPos(s.files[f]) <= SettledDev(s).len
  }

  predicate AbsWithinData(s: State, a: Spec) {
    && |a.pos| == |s.files|
    && forall f | 0 <= f < |s.files| && !s.files[f].explicit :: a.pos[f] <= a.dev.len
  }

  lemma OpKeepsWithinData(s: State, op: Op, s': State)
    requires AbsWithinData(s, Abs(s)) && OpPossible(Abs(s), op) && Abs(s') == OpStep(Abs(s), op).0
    requires forall f | 0 <= f < |s.files| && f < |s'.files| :: s'.files[f].explicit == s.files[f].explicit
    requires op.OpOpen? ==> |s'.files| == |s.files| + 1 && (s'.files[|s.files|].explicit || op.at == 0)
    ensures AbsWithinData(s', Abs(s'))
  {
    OpKeepsBounds(Abs(s), op);
    assert |Abs(s').pos| == |s'.files|;
  }

  lemma StepKeepsPositions(s: State, m: Move)
    requires Inv(s) && PositionsWithinData(s) && Enabled(s, m)
    ensures PositionsWithinData(Next(s, m))
  {
    var s' := Next(s, m);
    StepRefines(s, m);
    StepKeepsKinds(s, m);
    if Completes(s, m).Some? {
      OpKeepsWithinData(s, Completes(s, m).value, s');
    }
    assert AbsWithinData(s', Abs(s'));
    forall f | 0 <= f < |s'.files| && !s'.files[f].explicit ensures SettledPos(s'.files[f]) <= SettledDev(s').len {
      assert SettledPos(s'.files[f]) == Abs(s').pos[f];
    }
  }

  lemma StepKeepsKinds(s: State, m: Move)
    requires Enabled(s, m)
    ensures |Next(s, m).files| == |s.files| + if m.Open? then 1 else 0
    ensures forall f | 0 <= f < |s.files| :: Next(s, m).files[f].explicit == s.files[f].explicit
  {
  }

  lemma {:induction false} PositionsStayFrom(s: State, ms: seq<Move>)
    requires Inv(s) && PositionsWithinData(s) && Legal(s, ms)
    ensures PositionsWithinData(Exec(s, ms))
    decreases |ms|
  {
    if ms == [] {
    } else {
      StepKeepsInv(s, ms[0]);
      StepKeepsPositions(s, ms[0]);
      PositionsStayFrom(Next(s, ms[0]), ms[1..]);
    }
  }

  lemma PositionsStayWithinData(ms: seq<Move>)
    requires Legal(INIT, ms)
    ensures PositionsWithinData(Exec(INIT, ms))
  {
    InitHolds();
    PositionsStayFrom(INIT, ms);
  }

  /** The byte an operation puts at index i of the page, if it touches it. */
  function Puts(a: Spec, op: Op, i: nat): Option<byte>
    requires OpPossible(a, op)
  {
    match op
    case OpStore(j, b) => if i == j then Some(b) else None
    case OpWrite(f, src, copied, tail) =>
      var k := i - a.pos[f];
      if 0 <= k < copied then Some(src[k])
      else if copied <= k < copied + |tail| then Some(tail[k - copied])
      else None
    case _ => None
  }

  /** The latest byte put at index i, starting from before. */
  function Latest(a: Spec, ops: seq<Op>, i: nat, before: byte): byte
    requires OpsPossible(a, ops)
    decreases |ops|
  {
    if ops == [] then before
    else
      Latest(OpStep(a, ops[0]).0, ops[1..], i, match Puts(a, ops[0], i) case None => before case Some(b) => b)
  }

  lemma OpPutsByte(a: Spec, op: Op, i: nat)
    requires OpPossible(a, op) && i < PAGE
    ensures OpStep(a, op).0.dev.Valid()
    ensures OpStep(a, op).0.dev.page[i] == match Puts(a, op, i) case None => a.dev.page[i] case Some(b) => b
  {
    OpKeepsBounds(a, op);
  }

  /** Whichever path the bytes took, write or mapping, the page shows the latest store to each. */
  lemma {:induction false} LatestStoreVisible(a: Spec, ops: seq<Op>, i: nat)
    requires a.dev.Valid() && OpsPossible(a, ops) && i < PAGE
    ensures RunOps(a, ops).dev.Valid() && RunOps(a, ops).dev.page[i] == Latest(a, ops, i, a.dev.page[i])
    decreases |ops|
  {
    if ops == [] {
    } else {
      OpPutsByte(a, ops[0], i);
      LatestStoreVisible(OpStep(a, ops[0]).0, ops[1..], i);
    }
  }

  /** And a read returns exactly those for the positions it covers. */
  lemma ReadSeesLatestStores(a: Spec, ops: seq<Op>, f: nat, count: nat, copied: nat, j: nat)
    requires a.dev.Valid() && OpsPossible(a, ops) && OpPossible(RunOps(a, ops), OpRead(f, count, copied)) && j < copied
    ensures var s := RunOps(a, ops);
            var got := OpStep(s, OpRead(f, count, copied)).1;
            && s.pos[f] + j < s.dev.len && got.Some? && got.value.GotData? && |got.value.data| == copied
            && got.value.data[j] == Latest(a, ops, s.pos[f] + j, a.dev.page[s.pos[f] + j])
  {
    LatestStoreVisible(a, ops, RunOps(a, ops).pos[f] + j);
  }
}
