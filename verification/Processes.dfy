/** The sequential parts of the logger and health programs, on their own buffers. */
module Processes {
  import opened Prelude
  import opened Testbed

  lemma {:induction false} CStrIgnoresAfterNul(s: string, rest: string)
    ensures CStr(s + ['\0'] + rest) == CStr(s)
  {
    var whole := s + ['\0'] + rest;
    if s == "" || s[0] == '\0' {
    } else {
      assert whole[1..] == s[1..] + ['\0'] + rest;
      CStrIgnoresAfterNul(s[1..], rest);
    }
  }

  /** The logger's loop body: its line buffer, its static counter and the log it appends to. */
  class LoggerProcess {
    const buf: array<char>
    var cnt: nat
    var log: seq<Record>

    constructor ()
      ensures buf.Length == 256 && cnt == 0 && log == []
      ensures fresh(buf)
    {
      buf := new char[256](_ => '\0');
      cnt := 0;
      log := [];
    }

    /** Terminates the n bytes just read, cuts one trailing newline and appends the record. */
    method RecordChunk(n: nat)
      requires buf.Length == 256 && n <= 255
      modifies this`cnt, this`log, buf
      ensures n == 0 ==> cnt == old(cnt) && log == old(log)
      ensures n > 0 ==> cnt == old(cnt) + 1
                        && log == old(log) + [LogRecord(cnt, RecordText(old(buf[..n])))]
    {
      if n > 0 {
        ghost var chunk := buf[..n];
        buf[n] := '\0';
        if buf[n - 1] == '\n' {
          buf[n - 1] := '\0';
        }
        EditedLine(chunk, buf[..]);
        cnt := cnt + 1;
        log := log + [LogRecord(cnt, CStr(buf[..]))];
      }
    }
  }

  /** What the two edits leave at the front of the buffer is the record text. */
  lemma EditedLine(chunk: string, b: string)
    requires 0 < |chunk| < |b|
    requires var cut := if chunk[|chunk| - 1] == '\n' then |chunk| - 1 else |chunk|;
             b[..cut] == chunk[..cut] && b[cut] == '\0'
    ensures CStr(b) == RecordText(chunk)
  {
    var cut := if chunk[|chunk| - 1] == '\n' then |chunk| - 1 else |chunk|;
    CutAtNul(b, cut);
    CStrIgnoresAfterNul(b[..cut], b[cut + 1..]);
    assert chunk[..|chunk|] == chunk;
  }

  lemma CutAtNul(b: string, cut: nat)
    requires cut < |b| && b[cut] == '\0'
    ensures b == b[..cut] + ['\0'] + b[cut + 1..]
  {
  }

  method StrStr(hay: string, needle: string) returns (found: bool)
    ensures found == Contains(hay, needle)
  {
    var i := 0;
    while i + |needle| <= |hay|
      invariant forall j | 0 <= j < i :: !OccursAt(hay, needle, j)
    {
      var k := 0;
      while k < |needle| && hay[i + k] == needle[k]
        invariant 0 <= k <= |needle|
        invariant hay[i..i + k] == needle[..k]
      {
        assert hay[i..i + k + 1] == hay[i..i + k] + [hay[i + k]];
        assert needle[..k + 1] == needle[..k] + [needle[k]];
        k := k + 1;
      }
      if k == |needle| {
        assert OccursAt(hay, needle, i);
        return true;
      }
      assert hay[i..i + |needle|][k] != needle[k];
      i := i + 1;
    }
    return false;
  }

  /** Health's reaction to a command, inside its critical section. */
  class HealthProcess {
    var running: bool
    var log: seq<Record>

    constructor ()
      ensures !running && log == []
    {
      running := false;
      log := [];
    }

    method Command(buf: array<char>, rn: nat)
      requires rn < buf.Length
      requires buf as object != this
      modifies this, buf
      ensures var cmd := old(buf[..rn]);
              match Verdict(cmd)
              case None => running == old(running) && log == old(log)
              case Some(on) => running == on && log == old(log) + [Line(on)]
      ensures var text := CStr(old(buf[..rn]));
              && (Contains(text, "STOP") ==> !running && log == old(log) + [HealthStopped])
              && (!Contains(text, "STOP") && Contains(text, "START") ==> running && log == old(log) + [HealthStarted])
              && (!Contains(text, "STOP") && !Contains(text, "START") ==> running == old(running) && log == old(log))
    {
      ghost var cmd := buf[..rn];
      buf[rn] := '\0';
      assert buf[..] == cmd + ['\0'] + buf[rn + 1..];
      CStrIgnoresAfterNul(cmd, buf[rn + 1..]);
      assert CStr(buf[..]) == CStr(cmd);
      var text := CStr(buf[..]);
      var stop := StrStr(text, "STOP");
      if stop {
        running := false;
        log := log + [HealthStopped];
      } else {
        var start := StrStr(text, "START");
        if start {
          running := true;
          log := log + [HealthStarted];
        }
      }
    }
  }
}
