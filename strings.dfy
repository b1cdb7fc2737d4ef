/**
 * The JavaScript string operations the application relies on, stated over
 * Dafny strings (sequences of Unicode scalar values): `trim`, `join`,
 * `startsWith`, `indexOf`/`lastIndexOf`, `substring`, `padStart` and the
 * decimal rendering of integers by `Number.prototype.toString`.
 */
module Strings {

  /** The WhiteSpace and LineTerminator code points of ECMAScript, which `String.prototype.trim` removes. */
  predicate IsWhitespace(c: char) {
    || c == '\t' || c == '\U{000B}' || c == '\U{000C}' || c == ' '
    || c == '\U{00A0}' || c == '\U{FEFF}' || c == '\U{1680}'
    || ('\U{2000}' <= c <= '\U{200A}')
    || c == '\U{202F}' || c == '\U{205F}' || c == '\U{3000}'
    || c == '\n' || c == '\r' || c == '\U{2028}' || c == '\U{2029}'
  }

  predicate AllWhitespace(s: string) {
    forall k | 0 <= k < |s| :: IsWhitespace(s[k])
  }

  /** Drops the leading whitespace: what remains is a suffix of the input. */
  function TrimStart(s: string): (r: string)
    ensures |r| <= |s| && r == s[|s| - |r|..]
  {
    if s != [] && IsWhitespace(s[0]) then TrimStart(s[1..]) else s
  }

  /** What `TrimStart` keeps does not start with whitespace. */
  lemma {:induction false} TrimStartKeepsNoLead(s: string)
    ensures TrimStart(s) == [] || !IsWhitespace(TrimStart(s)[0])
  {
    if s != [] && IsWhitespace(s[0]) {
      var t := s[1..];
      assert TrimStart(s) == TrimStart(t);
      TrimStartKeepsNoLead(t);
    }
  }

  /** What `TrimStart` drops is whitespace. */
  lemma {:induction false} TrimStartDropsWhitespace(s: string)
    ensures AllWhitespace(s[..|s| - |TrimStart(s)|])
  {
    if s != [] && IsWhitespace(s[0]) {
      var t := s[1..];
      var n := |t| - |TrimStart(t)|;
      assert |s| - |TrimStart(s)| == n + 1;
      TrimStartDropsWhitespace(t);
      forall k | 0 <= k < n + 1
        ensures IsWhitespace(s[k])
      {
        if k > 0 {
          assert s[k] == t[..n][k - 1];
        }
      }
    }
  }

  lemma WhitespaceAppend(x: string, y: string)
    requires AllWhitespace(x) && AllWhitespace(y)
    ensures AllWhitespace(x + y)
  {
    forall k | 0 <= k < |x + y|
      ensures IsWhitespace((x + y)[k])
    {
      if k < |x| {
        assert (x + y)[k] == x[k];
      } else {
        assert (x + y)[k] == y[k - |x|];
      }
    }
  }

  /** Drops the trailing whitespace: what remains is a prefix of the input. */
  function TrimEnd(s: string): (r: string)
    ensures |r| <= |s| && r == s[..|r|]
  {
    if s != [] && IsWhitespace(s[|s| - 1]) then TrimEnd(s[..|s| - 1]) else s
  }

  /** What `TrimEnd` keeps does not end with whitespace. */
  lemma {:induction false} TrimEndKeepsNoTrail(s: string)
    ensures TrimEnd(s) == [] || !IsWhitespace(TrimEnd(s)[|TrimEnd(s)| - 1])
  {
    if s != [] && IsWhitespace(s[|s| - 1]) {
      var t := s[..|s| - 1];
      assert TrimEnd(s) == TrimEnd(t);
      TrimEndKeepsNoTrail(t);
    }
  }

  /** What `TrimEnd` drops is whitespace. */
  lemma {:induction false} TrimEndDropsWhitespace(s: string)
    ensures AllWhitespace(s[|TrimEnd(s)|..])
  {
    if s != [] && IsWhitespace(s[|s| - 1]) {
      var t := s[..|s| - 1];
      var r := TrimEnd(t);
      assert TrimEnd(s) == r;
      TrimEndDropsWhitespace(t);
      WhitespaceAppend(t[|r|..], [s[|s| - 1]]);
      assert s[|r|..] == t[|r|..] + [s[|s| - 1]];
    }
  }

  /** `String.prototype.trim`. */
  function Trim(s: string): (r: string)
    ensures |r| <= |s|
  {
    TrimEnd(TrimStart(s))
  }

  /** The trimmed text has no whitespace at either end. */
  lemma TrimEdges(s: string)
    ensures Trim(s) == [] || (!IsWhitespace(Trim(s)[0]) && !IsWhitespace(Trim(s)[|Trim(s)| - 1]))
  {
    var t := TrimStart(s);
    var r := TrimEnd(t);
    assert Trim(s) == r;
    TrimStartKeepsNoLead(s);
    TrimEndKeepsNoTrail(t);
    if r != [] {
      assert r[0] == t[0];
    }
  }

  /** The trimmed text is empty exactly when the input is all whitespace. */
  lemma TrimEmptyIffBlank(s: string)
    ensures Trim(s) == [] <==> AllWhitespace(s)
  {
    if Trim(s) == [] {
      EmptyTrimIsBlank(s);
    } else {
      TrimEdges(s);
      TrimIsSlice(s);
      assert s[TrimOffset(s)] == Trim(s)[0];
    }
  }

  lemma EmptyTrimIsBlank(s: string)
    requires Trim(s) == []
    ensures AllWhitespace(s)
  {
    var t := TrimStart(s);
    assert TrimEnd(t) == [];
    TrimStartDropsWhitespace(s);
    TrimStartKeepsNoLead(s);
    NothingLeftAfterStart(t);
    assert s[..|s| - |t|] == s;
  }

  /** Text that starts with no whitespace and is all dropped by `TrimEnd` is empty. */
  lemma NothingLeftAfterStart(t: string)
    requires t == [] || !IsWhitespace(t[0])
    requires TrimEnd(t) == []
    ensures t == []
  {
    TrimEndDropsWhitespace(t);
    assert t[0..] == t;
  }

  /** The number of whitespace characters `Trim` removes at the front. */
  function TrimOffset(s: string): nat {
    |s| - |TrimStart(s)|
  }

  /** The trimmed string is a contiguous slice of the input. */
  lemma TrimIsSlice(s: string)
    ensures TrimOffset(s) + |Trim(s)| <= |s|
    ensures Trim(s) == s[TrimOffset(s)..TrimOffset(s) + |Trim(s)|]
  {
    var t := TrimStart(s);
    var r := TrimEnd(t);
    var i := TrimOffset(s);
    assert Trim(s) == r;
    assert t == s[i..];
    assert r == t[..|r|];
    SliceOfSuffix(s, i, |r|);
  }

  /** Putting the head back in front of the tail, then appending, is appending to the whole. */
  lemma HeadTailAppend(x: string, a: string)
    requires x != []
    ensures [x[0]] + (x[1..] + a) == x + a
  {
    assert [x[0]] + x[1..] == x;
  }

  /** A slice inside the left operand of a concatenation is a slice of that operand. */
  lemma SliceOfLeft(x: string, y: string, i: nat, j: nat)
    requires i <= j <= |x|
    ensures (x + y)[i..j] == x[i..j]
  {
  }

  /** A slice inside the right operand of a concatenation is a slice of that operand. */
  lemma SliceOfRight(x: string, y: string, i: nat, j: nat)
    requires |x| <= i <= j <= |x| + |y|
    ensures (x + y)[i..j] == y[i - |x|..j - |x|]
  {
  }

  /** A prefix of a suffix is a slice, and what follows it is the rest of the suffix. */
  lemma SliceOfSuffix(s: string, i: nat, n: nat)
    requires i + n <= |s|
    ensures s[i..][..n] == s[i..i + n]
    ensures s[i..][n..] == s[i + n..]
  {
  }

  /** A string without whitespace at either end is its own trimmed form. */
  lemma TrimUnchanged(s: string)
    requires s == [] || (!IsWhitespace(s[0]) && !IsWhitespace(s[|s| - 1]))
    ensures Trim(s) == s
  {
  }

  /** Trimming twice is trimming once. */
  lemma TrimIdempotent(s: string)
    ensures Trim(Trim(s)) == Trim(s)
  {
    TrimEdges(s);
    TrimUnchanged(Trim(s));
  }

  /**
   * `s.trim() === ""`, which is also `!s.trim()`: nothing but whitespace.
   * By `TrimEmptyIffBlank` this is exactly `Trim(s) == []`.
   */
  predicate IsBlank(s: string) {
    AllWhitespace(s)
  }

  predicate StartsWith(s: string, prefix: string) {
    |prefix| <= |s| && s[..|prefix|] == prefix
  }

  predicate EndsWith(s: string, suffix: string) {
    |suffix| <= |s| && s[|s| - |suffix|..] == suffix
  }

  /** `pattern` occurs somewhere in `s`. */
  predicate Occurs(pattern: string, s: string) {
    exists i | 0 <= i <= |s| :: StartsWith(s[i..], pattern)
  }

  /** A pattern that occurs in a slice occurs in the whole string. */
  lemma OccursInSlice(pattern: string, s: string, lo: nat, hi: nat)
    requires lo <= hi <= |s|
    requires Occurs(pattern, s[lo..hi])
    ensures Occurs(pattern, s)
  {
    var i :| 0 <= i <= hi - lo && StartsWith(s[lo..hi][i..], pattern);
    assert s[lo..hi][i..] == s[lo + i..hi];
    assert s[lo + i..][..|pattern|] == s[lo + i..hi][..|pattern|];
    assert StartsWith(s[lo + i..], pattern);
  }

  /** Trimming cannot make a pattern appear. */
  lemma TrimKeepsAbsent(pattern: string, s: string)
    requires !Occurs(pattern, s)
    ensures !Occurs(pattern, Trim(s))
  {
    TrimIsSlice(s);
    if Occurs(pattern, Trim(s)) {
      OccursInSlice(pattern, s, TrimOffset(s), TrimOffset(s) + |Trim(s)|);
    }
  }

  /** `Array.prototype.join(sep)` on an array of strings. */
  function Join(sep: string, xs: seq<string>): string {
    if |xs| == 0 then ""
    else if |xs| == 1 then xs[0]
    else xs[0] + sep + Join(sep, xs[1..])
  }

  /** Joining a concatenation puts one separator between the two joined halves. */
  lemma {:induction false} JoinAppend(sep: string, xs: seq<string>, ys: seq<string>)
    requires xs != [] && ys != []
    ensures Join(sep, xs + ys) == Join(sep, xs) + sep + Join(sep, ys)
  {
    if |xs| == 1 {
      assert (xs + ys)[1..] == ys;
    } else {
      assert (xs + ys)[1..] == xs[1..] + ys;
      JoinAppend(sep, xs[1..], ys);
    }
  }

  /** The sum of the lengths of the strings in `xs`. */
  function TotalLength(xs: seq<string>): nat {
    if xs == [] then 0 else |xs[0]| + TotalLength(xs[1..])
  }

  /** A join of n strings has their total length plus n - 1 separators. */
  lemma {:induction false} JoinLength(sep: string, xs: seq<string>)
    requires xs != []
    ensures |Join(sep, xs)| == TotalLength(xs) + (|xs| - 1) * |sep|
  {
    if |xs| > 1 {
      JoinLength(sep, xs[1..]);
      assert (|xs| - 1) * |sep| == (|xs| - 2) * |sep| + |sep|;
    }
  }

  /** `s` repeated: `n` copies of `c`. */
  function Repeat(c: char, n: nat): (r: string)
    ensures |r| == n && forall k | 0 <= k < n :: r[k] == c
  {
    if n == 0 then "" else [c] + Repeat(c, n - 1)
  }

  /** `String.prototype.padStart(width, c)` with a one-character filler. */
  function PadStart(s: string, width: nat, c: char): (r: string)
    ensures |s| >= width ==> r == s
    ensures |s| < width ==> |r| == width && r[width - |s|..] == s && r[..width - |s|] == Repeat(c, width - |s|)
  {
    if |s| >= width then s else Repeat(c, width - |s|) + s
  }

  predicate IsDigit(c: char) {
    '0' <= c <= '9'
  }

  predicate AllDigits(s: string) {
    forall k | 0 <= k < |s| :: IsDigit(s[k])
  }

  function DigitChar(d: nat): (c: char)
    requires d < 10
    ensures IsDigit(c) && c as int - '0' as int == d
  {
    (d + '0' as int) as char
  }

  function DigitValue(c: char): nat
    requires IsDigit(c)
  {
    c as int - '0' as int
  }

  /** The decimal notation of a natural number, without leading zeros (`Number.prototype.toString()`). */
  function NatToString(n: nat): (r: string)
    ensures r != [] && AllDigits(r)
    ensures n < 10 <==> |r| == 1
  {
    if n < 10 then [DigitChar(n)] else NatToString(n / 10) + [DigitChar(n % 10)]
  }

  /** The value of a string of decimal digits. */
  function DecimalValue(s: string): nat
    requires AllDigits(s)
  {
    if s == [] then 0 else 10 * DecimalValue(s[..|s| - 1]) + DigitValue(s[|s| - 1])
  }

  /** Reading back the decimal notation gives the number. */
  lemma {:induction false} DecimalRoundTrip(n: nat)
    ensures DecimalValue(NatToString(n)) == n
  {
    if n >= 10 {
      var s := NatToString(n);
      assert s[..|s| - 1] == NatToString(n / 10);
      DecimalRoundTrip(n / 10);
    }
  }

  /** Distinct numbers have distinct decimal notations. */
  lemma NatToStringInjective(m: nat, n: nat)
    requires NatToString(m) == NatToString(n)
    ensures m == n
  {
    DecimalRoundTrip(m);
    DecimalRoundTrip(n);
  }

  /** Leading zeros do not change the value of a digit string. */
  lemma {:induction false} LeadingZeros(k: nat, s: string)
    requires AllDigits(s)
    ensures AllDigits(Repeat('0', k) + s)
    ensures DecimalValue(Repeat('0', k) + s) == DecimalValue(s)
  {
    var z := Repeat('0', k) + s;
    if s == [] {
      assert z == Repeat('0', k);
      if k > 0 {
        assert z[..|z| - 1] == Repeat('0', k - 1) + [];
        LeadingZeros(k - 1, []);
      }
    } else {
      assert z[..|z| - 1] == Repeat('0', k) + s[..|s| - 1];
      LeadingZeros(k, s[..|s| - 1]);
    }
  }

  /** `Number.prototype.toString()` on an integer. */
  function IntToString(n: int): string {
    if n < 0 then "-" + NatToString(-n) else NatToString(n)
  }

  /** `String.prototype.indexOf` for a one-character needle: the first position of `c`, or -1. */
  function IndexOf(s: string, c: char): (i: int)
    ensures -1 <= i < |s|
    ensures i == -1 <==> c !in s
    ensures i >= 0 ==> s[i] == c && forall k | 0 <= k < i :: s[k] != c
  {
    if s == [] then -1
    else if s[0] == c then 0
    else
      var j := IndexOf(s[1..], c);
      if j < 0 then -1 else j + 1
  }

  /** `String.prototype.lastIndexOf` for a one-character needle: the last position of `c`, or -1. */
  function LastIndexOf(s: string, c: char): (i: int)
    ensures -1 <= i < |s|
    ensures i == -1 <==> c !in s
    ensures i >= 0 ==> s[i] == c && forall k | i < k < |s| :: s[k] != c
  {
    if s == [] then -1
    else if s[|s| - 1] == c then |s| - 1
    else
      var init := s[..|s| - 1];
      assert s == init + [s[|s| - 1]];
      LastIndexOf(init, c)
  }

  /** An index argument of `substring`, clamped into [0, length]. */
  function ClampIndex(i: int, length: nat): (r: nat)
    ensures r <= length
  {
    if i < 0 then 0 else if i > length then length else i
  }

  /** `String.prototype.substring(start, end)`: both ends clamped, and swapped when start exceeds end. */
  function Substring(s: string, start: int, end: int): string {
    var a := ClampIndex(start, |s|);
    var b := ClampIndex(end, |s|);
    if a <= b then s[a..b] else s[b..a]
  }
}
