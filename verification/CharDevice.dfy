/** The driver's file operations on its page, changed in place under the mutex, and the user
    program that checks write/read against the mapping of the same page. */
module CharDevice {
  import opened Prelude
  import opened ByteFile

  const ENOSPC: int := 28
  const EINVAL: int := 22
  const EAGAIN: int := 11

  class OpenFile {
    var pos: nat

    constructor ()
      ensures pos == 0
    {
      pos := 0;
    }
  }

  /** Copies n bytes of which only the first k are copied; returns how many were not. */
  method CopyToUser(dst: array<byte>, page: array<byte>, pos: nat, n: nat, k: nat) returns (missing: nat)
    requires dst != page && pos + n <= page.Length && n <= dst.Length && k <= n
    modifies dst
    ensures missing == n - k
    ensures dst[..k] == page[pos..pos + k] && dst[k..] == old(dst[k..])
  {
    for i := 0 to k
      invariant dst[..i] == page[pos..pos + i]
      invariant forall j | i <= j < dst.Length :: dst[j] == old(dst[j])
    {
      dst[i] := page[pos + i];
    }
    missing := n - k;
  }

  /** Copies n bytes into the page of which k arrive; the rest of the n is left holding tail. */
  method CopyFromUser(page: array<byte>, pos: nat, src: array<byte>, n: nat, k: nat, tail: seq<byte>)
    returns (missing: nat)
    requires src != page && pos + n <= page.Length && n <= src.Length && k + |tail| == n
    modifies page
    ensures missing == |tail|
    ensures page[..] == Store(old(page[..]), pos, src[..k], tail)
  {
    ghost var bytes := src[..k] + tail;
    for i := 0 to n
      invariant forall j | 0 <= j < i :: page[pos + j] == bytes[j]
      invariant forall j | 0 <= j < page.Length && !(pos <= j < pos + i) :: page[j] == old(page[j])
    {
      page[pos + i] := if i < k then src[i] else tail[i - k];
    }
    missing := n - k;
    assert page[..] == old(page[..])[..pos] + bytes + old(page[..])[pos + n..];
  }

  class Device {
    const page: array<byte>
    var dataLen: nat
    var locked: bool
    /** How often the mutex has been taken. */
    ghost var sections: nat

    ghost predicate Valid()
      reads this
    {
      page.Length == PAGE && dataLen <= PAGE
    }

    ghost function Contents(): Dev
      reads this, page
    {
      Dev(page[..], dataLen)
    }

    constructor ()
      ensures Valid() && !locked && Contents() == FRESH && fresh(page)
      ensures dataLen == 0 && forall i | 0 <= i < 4096 :: page[i] == 0
    {
      page := new byte[PAGE](_ => 0);
      dataLen := 0;
      locked := false;
      sections := 0;
      new;
      assert page[..] == FRESH.page;
    }

    method MutexLock()
      requires !locked
      modifies this`locked, this`sections
      ensures locked && sections == old(sections) + 1
    {
      sections := sections + 1;
      locked := true;
    }

    method MutexUnlock()
      requires locked
      modifies this`locked
      ensures !locked
    {
      locked := false;
    }

    method Llseek(f: OpenFile, offset: int, whence: Whence) returns (r: int)
      requires Valid() && !locked
      modifies f, this`locked, this`sections
      ensures Valid() && !locked && Contents() == old(Contents()) && sections == old(sections) + 1
      ensures var p := Seek(old(Contents()), old(f.pos), offset, whence);
              if p.Some? then r == p.value && f.pos == p.value else r == -EINVAL && f.pos == old(f.pos)
      ensures whence.SeekSet? ==> Moved(f.pos, r, old(f.pos), offset, dataLen)
      ensures whence.SeekCur? && offset != 0 ==> Moved(f.pos, r, old(f.pos), old(f.pos) + offset, dataLen)
      ensures whence.SeekCur? && offset == 0 ==> r == f.pos == old(f.pos)
      ensures whence.SeekEnd? ==> Moved(f.pos, r, old(f.pos), dataLen + offset, dataLen)
      ensures whence.SeekOther? ==> r == -EINVAL && f.pos == old(f.pos)
    {
      MutexLock();
      r := FixedSizeLlseek(f, offset, whence, dataLen);
      MutexUnlock();
    }

    /** Moved to target if that lies within the data, and refused otherwise. */
    static ghost predicate Moved(pos: nat, r: int, before: nat, target: int, size: nat) {
      if 0 <= target <= size then r == target && pos == target else r == -EINVAL && pos == before
    }

    static method FixedSizeLlseek(f: OpenFile, offset: int, whence: Whence, size: nat) returns (r: int)
      modifies f
      ensures var p := Seek(Dev([], size), old(f.pos), offset, whence);
              if p.Some? then r == p.value && f.pos == p.value else r == -EINVAL && f.pos == old(f.pos)
    {
      if whence.SeekOther? {
        return -EINVAL;
      }
      if whence.SeekCur? && offset == 0 {
        return f.pos;
      }
      var target := offset;
      if whence.SeekCur? {
        target := f.pos + offset;
      } else if whence.SeekEnd? {
        target := size + offset;
      }
      if target < 0 || target > size {
        return -EINVAL;
      }
      f.pos := target;
      r := target;
    }

    /** k is how many bytes copy_to_user manages to copy, of those asked for that are data. */
    method Read(f: OpenFile, buf: array<byte>, count: nat, k: nat) returns (r: int)
      requires Valid() && !locked && buf != page && count <= buf.Length
      requires k <= if f.pos >= dataLen then 0 else Min(count, dataLen - f.pos)
      modifies f, this`locked, this`sections, buf
      ensures Valid() && !locked && Contents() == old(Contents()) && sections == old(sections) + 1
      ensures r == k && f.pos == old(f.pos) + k
      ensures k > 0 ==> old(f.pos) + k <= dataLen && buf[..k] == page[old(f.pos)..old(f.pos) + k]
      ensures buf[k..] == old(buf[k..])
      ensures k <= ReadLimit(old(Contents()), old(f.pos), count)
      ensures buf[..k] == ReadData(old(Contents()), old(f.pos), k)
    {
      MutexLock();
      if f.pos >= dataLen {
        MutexUnlock();
        return 0;
      }
      var available := dataLen - f.pos;
      var toRead := Min(count, available);
      var missing := CopyToUser(buf, page, f.pos, toRead, k);
      var bytesRead := toRead - missing;
      f.pos := f.pos + bytesRead;
      MutexUnlock();
      r := bytesRead;
    }

    /** k of the bytes that fit arrive, tail is what a short copy leaves in place of the rest. */
    method Write(f: OpenFile, buf: array<byte>, count: nat, k: nat, tail: seq<byte>) returns (r: int)
      requires Valid() && !locked && buf != page && count <= buf.Length
      requires k + |tail| == if f.pos >= 4096 then 0 else Min(count, 4096 - f.pos)
      modifies f, this`locked, this`sections, this`dataLen, page
      ensures Valid() && !locked && sections == old(sections) + 1
      ensures r == -ENOSPC <==> old(f.pos) >= 4096 || count == 0
      ensures r == -ENOSPC ==> f.pos == old(f.pos) && dataLen == old(dataLen) && page[..] == old(page[..])
      ensures r != -ENOSPC ==>
                && r == k && k + |tail| == Min(count, 4096 - old(f.pos))
                && page[..] ==
                   old(page[..])[..old(f.pos)] + buf[..k] + tail + old(page[..])[old(f.pos) + k + |tail|..]
                && dataLen == Max(old(dataLen), old(f.pos) + k)
      ensures Contents() == WriteDev(old(Contents()), old(f.pos), buf[..count], k, tail)
      ensures f.pos == old(f.pos) + k
      ensures r == if WriteLimit(old(f.pos), count) == 0 then -ENOSPC else k
    {
      MutexLock();
      if f.pos >= PAGE {
        MutexUnlock();
        return -ENOSPC;
      }
      var toWrite := Min(count, PAGE - f.pos);
      if toWrite == 0 {
        MutexUnlock();
        return -ENOSPC;
      }
      var missing := CopyFromUser(page, f.pos, buf, toWrite, k, tail);
      assert buf[..count][..k] == buf[..k];
      var written := toWrite - missing;
      f.pos := f.pos + written;
      if f.pos > dataLen {
        dataLen := Min(f.pos, PAGE);
      }
      MutexUnlock();
      r := written;
    }

    /** remap_mm: at most one page, from its start; a mapping then aliases `page`. */
    method RemapMm(size: nat, pgoff: nat, remapFails: bool) returns (r: int)
      ensures r == 0 <==> size <= PAGE && pgoff == 0 && !remapFails
      ensures r == -EINVAL <==> size > PAGE || pgoff != 0
    {
      if size > PAGE {
        return -EINVAL;
      }
      if pgoff != 0 {
        return -EINVAL;
      }
      if remapFails {
        return -EAGAIN;
      }
      return 0;
    }
  }

  // ---- chardev_user.c: write() against the mapping, the mapping against read() ----

  const TEST_SIZE: nat := 1024

  method Memcpy(dst: array<byte>, src: array<byte>, n: nat)
    requires dst != src && n <= dst.Length && n <= src.Length
    modifies dst
    ensures dst[..n] == src[..n]
    ensures forall j | n <= j < dst.Length :: dst[j] == old(dst[j])
  {
    for i := 0 to n
      invariant dst[..i] == src[..i]
      invariant forall j | i <= j < dst.Length :: dst[j] == old(dst[j])
    {
      dst[i] := src[i];
    }
  }

  lemma EqualInParts(a: seq<byte>, b: seq<byte>, k: nat)
    requires k <= |a| == |b|
    ensures a == b <==> a[..k] == b[..k] && a[k..] == b[k..]
  {
    assert a == a[..k] + a[k..] && b == b[..k] + b[k..];
  }

  /** Part (1): write the text, look at it through the mapping. The program does not look at how much
      the write stored: k bytes arrive, tail is what the copy leaves in place of the others. */
  method WriteThenLook(dev: Device, f: OpenFile, text: array<byte>, buf: array<byte>, k: nat, tail: seq<byte>)
    returns (seen: bool)
    requires dev.Valid() && !dev.locked
    requires text != dev.page && buf != dev.page && buf != text && text.Length <= TEST_SIZE == buf.Length
    requires k + |tail| == text.Length
    modifies f, dev`locked, dev`sections, dev`dataLen, dev.page, buf
    ensures dev.Valid() && !dev.locked && dev.dataLen == Max(old(dev.dataLen), k)
    ensures seen <==> tail == text[k..]
    ensures buf[..text.Length] == text[..k] + tail
    ensures forall j | text.Length <= j < buf.Length :: buf[j] == old(buf[j])
  {
    var at := dev.Llseek(f, 0, SeekSet);
    var n := dev.Write(f, text, text.Length, k, tail);
    assert text[..text.Length][..k] == text[..k];
    assert dev.page[..text.Length] == text[..k] + tail;
    Memcpy(buf, dev.page, text.Length);
    seen := buf[..text.Length] == text[..];
    assert text[..] == text[..k] + text[k..];
  }

  /** Part (2): store the text through the mapping, read it, of which k bytes arrive. */
  method StoreThenRead(dev: Device, f: OpenFile, text: array<byte>, buf: array<byte>, k: nat) returns (seen: bool)
    requires dev.Valid() && !dev.locked
    requires text != dev.page && buf != dev.page && buf != text && text.Length <= TEST_SIZE == buf.Length
    requires k <= Min(text.Length, dev.dataLen)
    modifies f, dev`locked, dev`sections, dev.page, buf
    ensures dev.Valid() && !dev.locked
    ensures seen <==> old(buf[k..text.Length]) == text[k..]
    ensures dev.page[..text.Length] == text[..]
  {
    Memcpy(dev.page, text, text.Length);
    assert text[..text.Length] == text[..];
    var at := dev.Llseek(f, 0, SeekSet);
    var n := dev.Read(f, buf, text.Length, k);
    ghost var got := buf[..text.Length];
    assert got[..k] == buf[..k] == dev.page[..k] == text[..][..k];
    assert got[k..] == buf[k..][..text.Length - k] == old(buf[k..])[..text.Length - k] == old(buf[k..text.Length]);
    EqualInParts(got, text[..], k);
    seen := buf[..text.Length] == text[..];
  }

  /** run_data_flow_test on any two texts, through a mapping of the device's own page; the texts are
      C strings without inner NULs, so that strncmp over their length decides equality. k1 bytes of the
      write arrive, tail is left in place of the others, and the read delivers k2 bytes.
      The first test succeeds exactly when what is left behind happens to be the rest of the text.
      The second succeeds exactly when what the read did not deliver was already lying in the buffer
      from the first. With complete copies the first always does, and the second if and only if its
      text lies within what the device then counts as data. */
  method RunDataFlowTest(dev: Device, f: OpenFile, first: array<byte>, second: array<byte>,
                         k1: nat, tail: seq<byte>, k2: nat)
    returns (writeSeen: bool, storeSeen: bool)
    requires dev.Valid() && !dev.locked
    requires first != dev.page && second != dev.page && first.Length <= TEST_SIZE && second.Length <= TEST_SIZE
    requires 0 !in second[..]
    requires k1 + |tail| == first.Length && k2 <= Min(second.Length, Max(dev.dataLen, k1))
    modifies f, dev`locked, dev`sections, dev`dataLen, dev.page
    ensures writeSeen <==> tail == first[k1..]
    ensures storeSeen <==>
            k2 == second.Length
            || (second.Length <= first.Length && (first[..k1] + tail)[k2..second.Length] == second[k2..])
    ensures k1 == first.Length && k2 == Min(second.Length, Max(old(dev.dataLen), first.Length)) ==>
              writeSeen && (storeSeen <==> second.Length <= Max(old(dev.dataLen), first.Length))
    ensures dev.page[..second.Length] == second[..]
  {
    var buf := new byte[TEST_SIZE](_ => 0);
    writeSeen := WriteThenLook(dev, f, first, buf, k1, tail);
    ghost var lying := buf[..];
    storeSeen := StoreThenRead(dev, f, second, buf, k2);
    LyingBytes(lying, first[..k1] + tail, second[..], k2);
  }

  /** The buffer holds the bytes put at its front and zeros behind them, which no text contains. */
  lemma LyingBytes(buf: seq<byte>, front: seq<byte>, text: seq<byte>, k: nat)
    requires k <= |text| <= |buf| && |front| <= |buf| && buf[..|front|] == front
    requires (forall j | |front| <= j < |buf| :: buf[j] == 0) && 0 !in text
    ensures buf[k..|text|] == text[k..] <==>
            k == |text| || (|text| <= |front| && front[k..|text|] == text[k..])
  {
    if k < |text| {
      var last := |text| - 1;
      assert text[k..][last - k] == text[last] && text[last] in text;
      if |text| <= |front| {
        forall j | k <= j < |text| ensures buf[j] == front[j] {
          assert buf[..|front|][j] == front[j];
        }
        assert buf[k..|text|] == front[k..|text|];
      } else {
        assert buf[k..|text|][last - k] == buf[last] == 0;
      }
    }
  }
}
