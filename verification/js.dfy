/** The two JavaScript built-ins the core relies on: `String.prototype.trim`
    and `Array.prototype.slice` (for non-negative arguments). */
module Js {

  /** The characters `trim` removes: the WhiteSpace and LineTerminator code
      points of ECMA-262 (tab, vertical tab, form feed,
      space, no-break space, byte order mark, the other Zs space separators,
      line feed, carriage return, line and paragraph separators). */
  predicate IsSpace(c: char)
  {
    var n := c as int;
    || n == 0x09 || n == 0x0A || n == 0x0B || n == 0x0C || n == 0x0D
    || n == 0x20 || n == 0xA0 || n == 0x1680
    || (0x2000 <= n <= 0x200A)
    || n == 0x2028 || n == 0x2029 || n == 0x202F || n == 0x205F
    || n == 0x3000 || n == 0xFEFF
  }

  predicate AllSpace(s: string)
  {
    forall i :: 0 <= i < |s| ==> IsSpace(s[i])
  }

  /** Number of space characters at the front of `s`. */
  function LeadingSpaces(s: string): (n: nat)
    ensures n <= |s|
    ensures forall i :: 0 <= i < n ==> IsSpace(s[i])
    ensures n < |s| ==> !IsSpace(s[n])
  {
    if s == [] || !IsSpace(s[0]) then 0 else 1 + LeadingSpaces(s[1..])
  }

  /** Number of space characters at the back of `s`. */
  function TrailingSpaces(s: string): (n: nat)
    ensures n <= |s|
    ensures forall i :: |s| - n <= i < |s| ==> IsSpace(s[i])
    ensures n < |s| ==> !IsSpace(s[|s| - n - 1])
  {
    if s == [] || !IsSpace(s[|s| - 1]) then 0 else 1 + TrailingSpaces(s[..|s| - 1])
  }

  /** `s.trim()`: `s` without its leading and trailing space characters. The
      result is the stretch of `s` that starts at the first non-space character
      and ends at the last one; it is empty exactly when `s` is all spaces. */
  function Trim(s: string): (r: string)
    ensures r == [] <==> AllSpace(s)
    ensures r != [] ==> !IsSpace(r[0]) && !IsSpace(r[|r| - 1])
    ensures LeadingSpaces(s) + |r| <= |s|
    ensures r == s[LeadingSpaces(s)..LeadingSpaces(s) + |r|]
    ensures forall i :: LeadingSpaces(s) + |r| <= i < |s| ==> IsSpace(s[i])
  {
    var lo := LeadingSpaces(s);
    if lo == |s| then []
    else
      var hi := |s| - TrailingSpaces(s);
      assert !IsSpace(s[lo]);
      s[lo..hi]
  }

  /** Trimming an already trimmed string changes nothing. */
  lemma TrimIdempotent(s: string)
    ensures Trim(Trim(s)) == Trim(s)
  {
    var r := Trim(s);
    if r != [] {
      assert LeadingSpaces(r) == 0;
      assert TrailingSpaces(r) == 0;
    }
  }

  function Min(a: int, b: int): int
  {
    if a < b then a else b
  }

  /** `s.slice(start, end)` for non-negative `start` and `end`: both are clamped
      to the length, and an empty array results when `end` is not past `start`. */
  function Slice<T>(s: seq<T>, start: nat, end: nat): (r: seq<T>)
    ensures |r| == if Min(end, |s|) <= Min(start, |s|) then 0 else Min(end, |s|) - Min(start, |s|)
    ensures forall i :: 0 <= i < |r| ==> r[i] == s[Min(start, |s|) + i]
  {
    var from := Min(start, |s|);
    var to := Min(end, |s|);
    if to <= from then [] else s[from..to]
  }
}
