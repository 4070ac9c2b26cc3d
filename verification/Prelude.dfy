/** Definitions shared by the models: optional values, bounds, machine words, C strings. */
module Prelude {
  datatype Option<+T> = None | Some(value: T)

  newtype byte = x: int | 0 <= x < 256

  const TWO32: nat := 0x1_0000_0000
  const TWO64: nat := 0x1_0000_0000_0000_0000

  function Min(a: int, b: int): int { if a <= b then a else b }

  function Max(a: int, b: int): int { if a >= b then a else b }

  lemma NothingBefore<T>(a: seq<T>)
    ensures [] + a == a
  {
  }

  lemma Reassociate<T>(a: seq<T>, b: seq<T>, c: seq<T>)
    ensures a + (b + c) == (a + b) + c
  {
  }

  /** One step of an account that balances: what the step and what the rest of the run move add up. */
  lemma Splice<T>(before: seq<T>, inflow: seq<T>, later: seq<T>, outflow: seq<T>, mid: seq<T>, rest: seq<T>,
                  end: seq<T>)
    requires before + inflow == outflow + mid && mid + later == rest + end
    ensures before + (inflow + later) == (outflow + rest) + end
  {
    Reassociate(before, inflow, later);
    Reassociate(outflow, mid, later);
    Reassociate(outflow, rest, end);
  }

  /** The C string stored at the front of s: everything before the first NUL. */
  function CStr(s: string): (r: string)
    ensures r <= s
    ensures '\0' !in r
    ensures |r| < |s| ==> s[|r|] == '\0'
  {
    if s == "" || s[0] == '\0' then "" else [s[0]] + CStr(s[1..])
  }

  predicate OccursAt(hay: string, needle: string, i: int) {
    0 <= i && i + |needle| <= |hay| && hay[i..i + |needle|] == needle
  }

  /** What strstr decides. */
  predicate Contains(hay: string, needle: string) {
    exists i | 0 <= i <= |hay| :: OccursAt(hay, needle, i)
  }
}
