/** The bounded byte file behind mychardev: one page, how much of it holds data, and what read,
    write and llseek do to it and to a file position. */
module ByteFile {
  import opened Prelude

  const PAGE: nat := 4096

  datatype Dev = Dev(page: seq<byte>, len: nat) {
    predicate Valid() { |page| == PAGE && len <= PAGE }
  }

  /** What a freshly loaded module offers. */
  const FRESH: Dev := Dev(seq(PAGE, _ => 0), 0)

  /** How many bytes a read may copy. */
  function ReadLimit(d: Dev, pos: nat, count: nat): nat {
    if pos >= d.len then 0 else Min(count, d.len - pos)
  }

  /** How many bytes a write tries to copy; none is the ENOSPC case. */
  function WriteLimit(pos: nat, count: nat): nat {
    if pos >= PAGE then 0 else Min(count, PAGE - pos)
  }

  /** copy_to_user managed to copy the first `copied` bytes. */
  function ReadData(d: Dev, pos: nat, copied: nat): seq<byte>
    requires d.Valid() && (copied > 0 ==> pos + copied <= d.len)
  {
    if copied == 0 then [] else d.page[pos..pos + copied]
  }

  /** copy_from_user stored the bytes src and left the arbitrary bytes tail behind them. */
  function Store(page: seq<byte>, pos: nat, src: seq<byte>, tail: seq<byte>): (r: seq<byte>)
    requires pos + |src| + |tail| <= |page|
    ensures |r| == |page|
  {
    page[..pos] + src + tail + page[pos + |src| + |tail|..]
  }

  /** A write of src at pos of which `copied` bytes arrived. */
  function WriteDev(d: Dev, pos: nat, src: seq<byte>, copied: nat, tail: seq<byte>): (r: Dev)
    requires d.Valid() && copied + |tail| == WriteLimit(pos, |src|)
    ensures r.Valid() && r.len >= d.len
  {
    if WriteLimit(pos, |src|) == 0 then d
    else Dev(Store(d.page, pos, src[..copied], tail), if pos + copied > d.len then Min(pos + copied, PAGE) else d.len)
  }

  datatype Whence = SeekSet | SeekCur | SeekEnd | SeekOther

  /** fixed_size_llseek with the data length as size: None is -EINVAL. */
  function Seek(d: Dev, pos: nat, offset: int, whence: Whence): Option<nat> {
    if whence.SeekOther? then None
    else if whence.SeekCur? && offset == 0 then Some(pos)
    else
      var target := if whence.SeekSet? then offset else if whence.SeekCur? then pos + offset else d.len + offset;
      if 0 <= target <= d.len then Some(target) else None
  }

  // ---- Writing a string in pieces and reading it back ----

  /** One write call of a client: it offers `count` more bytes, `copied` arrive, `tail` is what
      is left in the rest of the destination. */
  datatype WriteTry = WriteTry(count: nat, copied: nat, tail: seq<byte>)

  datatype ReadTry = ReadTry(count: nat, copied: nat)

  /** The calls are possible one after the other: done bytes of s are already written. */
  predicate WritesPossible(d: Dev, pos: nat, s: seq<byte>, done: nat, tries: seq<WriteTry>)
    requires d.Valid()
    decreases |tries|
  {
    tries == []
    || (var t := tries[0];
        && done + t.count <= |s|
        && t.copied + |t.tail| == WriteLimit(pos, t.count)
        && var d' := WriteDev(d, pos, s[done..done + t.count], t.copied, t.tail);
           WritesPossible(d', pos + t.copied, s, done + t.copied, tries[1..]))
  }

  /** Device and position after the calls. */
  function AfterWrites(d: Dev, pos: nat, s: seq<byte>, done: nat, tries: seq<WriteTry>): (r: (Dev, nat))
    requires d.Valid() && WritesPossible(d, pos, s, done, tries)
    ensures r.0.Valid() && r.0.len >= d.len
    decreases |tries|
  {
    if tries == [] then (d, pos)
    else
      var t := tries[0];
      var d' := WriteDev(d, pos, s[done..done + t.count], t.copied, t.tail);
      AfterWrites(d', pos + t.copied, s, done + t.copied, tries[1..])
  }

  predicate ReadsPossible(d: Dev, pos: nat, tries: seq<ReadTry>)
    decreases |tries|
  {
    tries == []
    || (tries[0].copied <= ReadLimit(d, pos, tries[0].count) && ReadsPossible(d, pos + tries[0].copied, tries[1..]))
  }

  function ReadBack(d: Dev, pos: nat, tries: seq<ReadTry>): seq<byte>
    requires d.Valid() && ReadsPossible(d, pos, tries)
    decreases |tries|
  {
    if tries == [] then []
    else ReadData(d, pos, tries[0].copied) + ReadBack(d, pos + tries[0].copied, tries[1..])
  }

  /** The bytes already written stand at the front of the page and count as data. */
  predicate Written(d: Dev, s: seq<byte>, done: nat) {
    d.Valid() && done <= |s| && done <= d.len && d.page[..done] == s[..done]
  }

  lemma OneWrite(d: Dev, s: seq<byte>, done: nat, t: WriteTry)
    requires Written(d, s, done) && done + t.count <= |s| && t.copied + |t.tail| == WriteLimit(done, t.count)
    ensures Written(WriteDev(d, done, s[done..done + t.count], t.copied, t.tail), s, done + t.copied)
  {
    if WriteLimit(done, t.count) != 0 {
      var d' := WriteDev(d, done, s[done..done + t.count], t.copied, t.tail);
      assert d'.page[..done + t.copied] == d.page[..done] + s[done..done + t.count][..t.copied];
      assert s[..done + t.copied] == s[..done] + s[done..done + t.count][..t.copied];
    }
  }

  lemma {:induction false} WritesAdvance(d: Dev, s: seq<byte>, done: nat, tries: seq<WriteTry>)
    requires Written(d, s, done) && WritesPossible(d, done, s, done, tries)
    ensures var (d', pos') := AfterWrites(d, done, s, done, tries); Written(d', s, pos')
    decreases |tries|
  {
    if tries == [] {
    } else {
      var t := tries[0];
      var d' := WriteDev(d, done, s[done..done + t.count], t.copied, t.tail);
      OneWrite(d, s, done, t);
      assert AfterWrites(d, done, s, done, tries) == AfterWrites(d', done + t.copied, s, done + t.copied, tries[1..]);
      WritesAdvance(d', s, done + t.copied, tries[1..]);
    }
  }

  lemma {:induction false} ReadsCollect(d: Dev, pos: nat, tries: seq<ReadTry>)
    requires d.Valid() && ReadsPossible(d, pos, tries) && pos <= d.len
    ensures var out := ReadBack(d, pos, tries); pos + |out| <= d.len && out == d.page[pos..pos + |out|]
    decreases |tries|
  {
    if tries == [] {
    } else {
      ReadsCollect(d, pos + tries[0].copied, tries[1..]);
    }
  }

  /** Whatever the device held before, and whatever short copies leave lying in the page: if the
      pieces written from position 0 add up to s, then reading from position 0 in any pieces gives
      back s, as far as the reads go. */
  lemma RoundTrip(d: Dev, s: seq<byte>, puts: seq<WriteTry>, gets: seq<ReadTry>)
    requires d.Valid() && WritesPossible(d, 0, s, 0, puts) && AfterWrites(d, 0, s, 0, puts).1 == |s|
    requires ReadsPossible(AfterWrites(d, 0, s, 0, puts).0, 0, gets)
    ensures var out := ReadBack(AfterWrites(d, 0, s, 0, puts).0, 0, gets);
            (|out| <= |s| ==> out == s[..|out|]) && (|out| >= |s| ==> out[..|s|] == s)
  {
    WritesAdvance(d, s, 0, puts);
    var (d', pos') := AfterWrites(d, 0, s, 0, puts);
    ReadsCollect(d', 0, gets);
    var out := ReadBack(d', 0, gets);
    assert s[..|s|] == s;
    if |out| <= |s| {
      assert out == d'.page[..|s|][..|out|];
    } else {
      assert out[..|s|] == d'.page[..|s|];
    }
  }

  /** Nothing stands in the way of writing any string that fits: one call of full length does. */
  lemma StringsThatFitCanBeWritten(d: Dev, s: seq<byte>)
    requires d.Valid() && |s| <= PAGE
    ensures var t := [WriteTry(|s|, |s|, [])];
            WritesPossible(d, 0, s, 0, t) && AfterWrites(d, 0, s, 0, t).1 == |s|
  {
    var t := [WriteTry(|s|, |s|, [])];
    assert t[1..] == [];
    assert WritesPossible(WriteDev(d, 0, s[0..|s|], |s|, []), |s|, s, |s|, []);
  }

  // ---- Any cutting of a string will do ----

  function Concat(pieces: seq<seq<byte>>): seq<byte> {
    if pieces == [] then [] else pieces[0] + Concat(pieces[1..])
  }

  /** One complete write per piece. */
  function WholeWrites(pieces: seq<seq<byte>>): seq<WriteTry> {
    if pieces == [] then [] else [WriteTry(|pieces[0]|, |pieces[0]|, [])] + WholeWrites(pieces[1..])
  }

  /** The device with s standing at pos, which counts as data as far as it reaches. */
  function Put(d: Dev, pos: nat, s: seq<byte>): Dev
    requires pos + |s| <= |d.page|
  {
    Dev(d.page[..pos] + s + d.page[pos + |s|..], if s == [] then d.len else Max(d.len, pos + |s|))
  }

  lemma PutTwice(d: Dev, pos: nat, a: seq<byte>, b: seq<byte>)
    requires pos + |a| + |b| <= |d.page|
    ensures |Put(d, pos, a).page| == |d.page|
    ensures Put(Put(d, pos, a), pos + |a|, b) == Put(d, pos, a + b)
  {
    assert d.page[..pos] + a + b == d.page[..pos] + (a + b);
  }

  lemma WholeWrite(d: Dev, pos: nat, piece: seq<byte>)
    requires d.Valid() && pos + |piece| <= 4096
    ensures |piece| == WriteLimit(pos, |piece|)
    ensures WriteDev(d, pos, piece, |piece|, []) == Put(d, pos, piece)
  {
    if piece == [] {
      assert d.page == d.page[..pos] + [] + d.page[pos..];
    } else {
      assert piece[..|piece|] == piece;
    }
  }

  lemma NextPiece(s: seq<byte>, done: nat, first: seq<byte>, rest: seq<byte>)
    requires done <= |s| && s[done..] == first + rest
    ensures done + |first| <= |s| && s[done..done + |first|] == first && s[done + |first|..] == rest
  {
    assert s[done..done + |first|] == s[done..][..|first|];
    assert s[done + |first|..] == s[done..][|first|..];
  }

  /** The rest of s from `done` on can be written at pos, if its first piece can, and then the rest. */
  lemma OneMoreWrite(d: Dev, pos: nat, s: seq<byte>, done: nat, piece: seq<byte>, rest: seq<WriteTry>)
    requires d.Valid() && pos + |piece| <= 4096 && done + |piece| <= |s| && s[done..done + |piece|] == piece
    requires var d', n := WriteDev(d, pos, piece, |piece|, []), |piece|;
             WritesPossible(d', pos + n, s, done + n, rest)
    ensures var d', n := WriteDev(d, pos, piece, |piece|, []), |piece|;
            var tries := [WriteTry(n, n, [])] + rest;
            && WritesPossible(d, pos, s, done, tries)
            && AfterWrites(d, pos, s, done, tries) == AfterWrites(d', pos + n, s, done + n, rest)
  {
    var t := WriteTry(|piece|, |piece|, []);
    assert ([t] + rest)[0] == t && ([t] + rest)[1..] == rest;
  }

  lemma {:induction false} RestCanBeWritten(d: Dev, pos: nat, s: seq<byte>, done: nat, pieces: seq<seq<byte>>)
    requires d.Valid() && done <= |s| && s[done..] == Concat(pieces) && pos + |Concat(pieces)| <= 4096
    ensures WritesPossible(d, pos, s, done, WholeWrites(pieces))
    ensures AfterWrites(d, pos, s, done, WholeWrites(pieces)) ==
            (Put(d, pos, Concat(pieces)), pos + |Concat(pieces)|)
    decreases |pieces|
  {
    if pieces == [] {
      WholeWrite(d, pos, []);
    } else {
      var first, rest := pieces[0], pieces[1..];
      assert Concat(pieces) == first + Concat(rest);
      NextPiece(s, done, first, Concat(rest));
      WholeWrite(d, pos, first);
      RestCanBeWritten(WriteDev(d, pos, first, |first|, []), pos + |first|, s, done + |first|, rest);
      OneMoreWrite(d, pos, s, done, first, WholeWrites(rest));
      PutTwice(d, pos, first, Concat(rest));
    }
  }

  /** A string that fits behind pos can be written there in any pieces, one complete write after the
      other, and then stands there, the page being otherwise unchanged. */
  lemma AnyCuttingCanBeWritten(d: Dev, pos: nat, pieces: seq<seq<byte>>)
    requires d.Valid() && pos + |Concat(pieces)| <= 4096
    ensures WritesPossible(d, pos, Concat(pieces), 0, WholeWrites(pieces))
    ensures var s := Concat(pieces);
            var (d', end) := AfterWrites(d, pos, s, 0, WholeWrites(pieces));
            && end == pos + |s| && d'.page == d.page[..pos] + s + d.page[end..]
            && d'.len == if s == [] then d.len else Max(d.len, end)
  {
    RestCanBeWritten(d, pos, Concat(pieces), 0, pieces);
  }

  function Sum(counts: seq<nat>): nat { if counts == [] then 0 else counts[0] + Sum(counts[1..]) }

  /** One complete read per count. */
  function WholeReads(counts: seq<nat>): seq<ReadTry> {
    if counts == [] then [] else [ReadTry(counts[0], counts[0])] + WholeReads(counts[1..])
  }

  lemma {:induction false} WholeReadsPossible(d: Dev, pos: nat, counts: seq<nat>)
    requires d.Valid() && pos + Sum(counts) <= d.len
    ensures ReadsPossible(d, pos, WholeReads(counts)) && |ReadBack(d, pos, WholeReads(counts))| == Sum(counts)
    decreases |counts|
  {
    if counts == [] {
    } else {
      WholeReadsPossible(d, pos + counts[0], counts[1..]);
      var all := WholeReads(counts);
      assert all[0] == ReadTry(counts[0], counts[0]) && all[1..] == WholeReads(counts[1..]);
    }
  }

  /** Data can be read in any pieces too: complete reads are possible up to the end of the data and
      deliver exactly what stands there. */
  lemma AnyCuttingCanBeRead(d: Dev, pos: nat, counts: seq<nat>)
    requires d.Valid() && pos + Sum(counts) <= d.len
    ensures ReadsPossible(d, pos, WholeReads(counts))
    ensures ReadBack(d, pos, WholeReads(counts)) == d.page[pos..pos + Sum(counts)]
  {
    WholeReadsPossible(d, pos, counts);
    ReadsCollect(d, pos, WholeReads(counts));
  }

  /** Both together: written in any pieces and read in any others, a string of at most a page is
      delivered whole. */
  lemma WrittenThenReadWhole(d: Dev, pieces: seq<seq<byte>>, counts: seq<nat>)
    requires d.Valid() && |Concat(pieces)| <= 4096 && Sum(counts) == |Concat(pieces)|
    ensures var s := Concat(pieces);
            && WritesPossible(d, 0, s, 0, WholeWrites(pieces))
            && var (d', _) := AfterWrites(d, 0, s, 0, WholeWrites(pieces));
               ReadsPossible(d', 0, WholeReads(counts)) && ReadBack(d', 0, WholeReads(counts)) == s
  {
    AnyCuttingCanBeWritten(d, 0, pieces);
    var (d', end) := AfterWrites(d, 0, Concat(pieces), 0, WholeWrites(pieces));
    AnyCuttingCanBeRead(d', 0, counts);
    assert d.page[..0] + Concat(pieces) == Concat(pieces);
  }

  // ---- What a write leaves alone ----

  /** Everything that counted as data before the write and lies outside the bytes copied is still
      there, and still counts as data. */
  predicate KeepsOldData(d: Dev, pos: nat, src: seq<byte>, copied: nat, tail: seq<byte>)
    requires d.Valid() && copied + |tail| == WriteLimit(pos, |src|)
  {
    var d' := WriteDev(d, pos, src, copied, tail);
    d'.len >= d.len && forall i | 0 <= i < d.len && !(pos <= i < pos + copied) :: d'.page[i] == d.page[i]
  }

  /** Once it is known how many bytes arrive: whatever a short copy leaves behind them, the old data
      is safe if and only if the copy is complete or ends at or past the end of the data. */
  lemma ShortCopySafeIff(d: Dev, pos: nat, src: seq<byte>, copied: nat)
    requires d.Valid() && copied <= WriteLimit(pos, |src|)
    ensures (forall tail: seq<byte> | copied + |tail| == WriteLimit(pos, |src|) ::
               KeepsOldData(d, pos, src, copied, tail))
            <==> copied == WriteLimit(pos, |src|) || pos + copied >= d.len
  {
    var rest := WriteLimit(pos, |src|) - copied;
    if rest > 0 && pos + copied < d.len {
      var junk := if d.page[pos + copied] == 0 then 1 else 0;
      var tail := seq(rest, _ => junk);
      var d' := WriteDev(d, pos, src, copied, tail);
      assert d'.page[pos + copied] == tail[0] != d.page[pos + copied];
      assert !KeepsOldData(d, pos, src, copied, tail);
    }
  }

  /** Before the call, when nothing is known about the copy: exactly the writes that fail with ENOSPC
      or count 0 and those starting at or past the end of the data cannot destroy old data. */
  lemma WriteSafeIff(d: Dev, pos: nat, src: seq<byte>)
    requires d.Valid()
    ensures (forall copied: nat, tail: seq<byte> | copied + |tail| == WriteLimit(pos, |src|) ::
               KeepsOldData(d, pos, src, copied, tail))
            <==> WriteLimit(pos, |src|) == 0 || pos >= d.len
  {
    ShortCopySafeIff(d, pos, src, 0);
    if WriteLimit(pos, |src|) == 0 || pos >= d.len {
      forall copied: nat, tail: seq<byte> | copied + |tail| == WriteLimit(pos, |src|)
        ensures KeepsOldData(d, pos, src, copied, tail)
      {
        ShortCopySafeIff(d, pos, src, copied);
      }
    } else {
      var tail: seq<byte> :| 0 + |tail| == WriteLimit(pos, |src|) && !KeepsOldData(d, pos, src, 0, tail);
    }
  }

  /** An example: one of two bytes arrives, the other position keeps counting as data while holding
      the leftover of the failed copy. */
  lemma ShortWriteLosesData(before: byte, junk: byte)
    requires before != junk
    ensures var d := Dev([before, before] + seq(PAGE - 2, _ => 0), 2);
            var d' := WriteDev(d, 0, [before, before], 1, [junk]);
            d.Valid() && d'.len == 2 && ReadData(d', 0, 2) == [before, junk]
  {
  }
}
