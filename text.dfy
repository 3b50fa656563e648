/**
 * The string operations of the .NET library that the handlers rely on:
 * ordinal String.IndexOf for one character, OrdinalIgnoreCase comparison
 * (as an ASCII case fold) and Cassette's byte-to-hex conversion, together
 * with the occurrence count that states IndexOfOccurence's result.
 */
module Text {
  import opened Cassette

  /** The number of occurrences of `c` in `s[lo..hi]`. */
  function CountOf(s: string, c: char, lo: nat, hi: nat): nat
    requires lo <= hi <= |s|
    decreases hi - lo
  {
    if lo == hi then 0 else (if s[lo] == c then 1 else 0) + CountOf(s, c, lo + 1, hi)
  }

  lemma {:induction false} CountSplit(s: string, c: char, lo: nat, mid: nat, hi: nat)
    requires lo <= mid <= hi <= |s|
    ensures CountOf(s, c, lo, hi) == CountOf(s, c, lo, mid) + CountOf(s, c, mid, hi)
    decreases mid - lo
  {
    if lo < mid {
      CountSplit(s, c, lo + 1, mid, hi);
    }
  }

  lemma {:induction false} CountAbsent(s: string, c: char, lo: nat, hi: nat)
    requires lo <= hi <= |s|
    requires forall j :: lo <= j < hi ==> s[j] != c
    ensures CountOf(s, c, lo, hi) == 0
    decreases hi - lo
  {
    if lo < hi {
      CountAbsent(s, c, lo + 1, hi);
    }
  }

  /**
   * When `s[j]` is the first `c` at or after `lo`, the occurrences in
   * `s[lo..hi]` are that one and those after it.
   */
  lemma CountAtFirst(s: string, c: char, lo: nat, j: nat, hi: nat)
    requires lo <= j < hi <= |s| && s[j] == c
    requires forall i :: lo <= i < j ==> s[i] != c
    ensures CountOf(s, c, lo, hi) == 1 + CountOf(s, c, j + 1, hi)
  {
    CountSplit(s, c, lo, j, hi);
    CountAbsent(s, c, lo, j);
  }

  /**
   * Ordinal `s.IndexOf(c, start)`: the first index at or after `start`
   * holding `c`, or -1. (.NET throws when `start > s.Length`; callers
   * check that before calling.)
   */
  function IndexOf(s: string, c: char, start: nat): (r: int)
    requires start <= |s|
    ensures r == -1 || (start <= r < |s| && s[r] == c)
    ensures forall j :: start <= j < |s| && (r == -1 || j < r) ==> s[j] != c
    decreases |s| - start
  {
    if start == |s| then -1
    else if s[start] == c then start
    else IndexOf(s, c, start + 1)
  }

  /** The ASCII part of the ordinal case fold. */
  function ToLower(ch: char): (lower: char)
    ensures 'A' <= ch <= 'Z' ==> lower as int == ch as int + 32
    ensures !('A' <= ch <= 'Z') ==> lower == ch
  {
    if 'A' <= ch <= 'Z' then (ch as int + 32) as char else ch
  }

  /** `a.Equals(b, StringComparison.OrdinalIgnoreCase)`, with an ASCII fold. */
  predicate EqualsIgnoreCase(a: string, b: string)
  {
    |a| == |b| && forall i :: 0 <= i < |a| ==> ToLower(a[i]) == ToLower(b[i])
  }

  /** `s.StartsWith(prefix, StringComparison.OrdinalIgnoreCase)`. */
  predicate StartsWithIgnoreCase(s: string, prefix: string)
  {
    |prefix| <= |s| && EqualsIgnoreCase(s[..|prefix|], prefix)
  }

  predicate IsLowerHexDigit(ch: char)
  {
    '0' <= ch <= '9' || 'a' <= ch <= 'f'
  }

  function HexDigit(n: int): (ch: char)
    requires 0 <= n < 16
    ensures IsLowerHexDigit(ch)
  {
    if n < 10 then ('0' as int + n) as char else ('a' as int + n - 10) as char
  }

  /**
   * Cassette's `ToHexString`: two lower-case hexadecimal digits per byte,
   * high nibble first.
   */
  function ToHexString(bytes: seq<byte>): (hex: string)
    ensures |hex| == 2 * |bytes|
    ensures forall i :: 0 <= i < |hex| ==> IsLowerHexDigit(hex[i])
  {
    if bytes == [] then []
    else [HexDigit(bytes[0] as int / 16), HexDigit(bytes[0] as int % 16)] + ToHexString(bytes[1..])
  }

  lemma HexDigitInjective(m: int, n: int)
    requires 0 <= m < 16 && 0 <= n < 16
    ensures HexDigit(m) == HexDigit(n) ==> m == n
  {
  }

  /** Distinct byte strings have distinct hex strings. */
  lemma {:induction false} ToHexStringInjective(a: seq<byte>, b: seq<byte>)
    ensures ToHexString(a) == ToHexString(b) <==> a == b
  {
    if ToHexString(a) == ToHexString(b) && a != [] {
      var ha, hb := ToHexString(a), ToHexString(b);
      assert |b| == |a|;
      var x, y := a[0] as int, b[0] as int;
      assert ha[0] == HexDigit(x / 16) && hb[0] == HexDigit(y / 16);
      assert ha[1] == HexDigit(x % 16) && hb[1] == HexDigit(y % 16);
      HexDigitInjective(x / 16, y / 16);
      HexDigitInjective(x % 16, y % 16);
      assert a[0] == b[0];
      assert ToHexString(a[1..]) == ha[2..] == hb[2..] == ToHexString(b[1..]);
      ToHexStringInjective(a[1..], b[1..]);
      assert a == [a[0]] + a[1..] && b == [b[0]] + b[1..];
    }
  }
}
