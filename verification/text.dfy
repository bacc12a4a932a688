/** The handful of Go string primitives the SDK relies on: `strings.Split`
    on a one-character separator, `strings.TrimSpace`, `strings.ToLower` and
    decimal formatting of integers (`%d`). */
module Text {
  import opened Options

  /** Go's `unicode.IsSpace`: the ASCII white space characters, NEL, NBSP
      and the Unicode space separators. */
  predicate IsSpace(c: char) {
    || c == ' ' || c == '\t' || c == '\n' || c == '\U{B}' || c == '\U{C}' || c == '\r'
    || c == '\U{85}' || c == '\U{A0}' || c == '\U{1680}'
    || ('\U{2000}' <= c <= '\U{200A}')
    || c == '\U{2028}' || c == '\U{2029}' || c == '\U{202F}' || c == '\U{205F}' || c == '\U{3000}'
  }

  predicate AllSpace(s: string) {
    forall i :: 0 <= i < |s| ==> IsSpace(s[i])
  }

  predicate NoSpace(s: string) {
    forall i :: 0 <= i < |s| ==> !IsSpace(s[i])
  }

  // ---------------------------------------------------------------------
  // strings.Split(s, string(sep))
  // ---------------------------------------------------------------------

  /** Number of occurrences of `c` in `s`. */
  function Count(s: string, c: char): nat {
    multiset(s)[c]
  }

  /** An occurrence of `c` splits its count into the counts on either
      side, plus one. */
  lemma CountAround(s: string, c: char, i: nat)
    requires i < |s| && s[i] == c
    ensures Count(s, c) == Count(s[..i], c) + 1 + Count(s[i + 1..], c)
  {
    assert s == s[..i] + [c] + s[i + 1..];
    assert multiset(s) == multiset(s[..i]) + multiset{c} + multiset(s[i + 1..]);
  }

  /** `c` occurs nowhere exactly when its count is zero. */
  lemma CountAbsent(s: string, c: char)
    ensures Count(s, c) == 0 <==> c !in s
  {
    assert c in s <==> c in multiset(s);
  }

  /** Position of the first `c` in `s`. */
  function IndexOf(s: string, c: char): (i: nat)
    requires c in s
    ensures i < |s| && s[i] == c
    ensures c !in s[..i]
  {
    if s[0] == c then 0 else 1 + IndexOf(s[1..], c)
  }

  /** The inverse of `Split`: the parts glued back with `sep`. */
  function Join(parts: seq<string>, sep: char): string {
    if |parts| == 0 then ""
    else if |parts| == 1 then parts[0]
    else parts[0] + [sep] + Join(parts[1..], sep)
  }

  /** `strings.Split` with a one-character separator: the maximal
      separator-free pieces between occurrences of `sep`, so an empty input
      gives one empty part and `n` separators give `n + 1` parts. */
  function Split(s: string, sep: char): (parts: seq<string>)
    ensures |parts| == Count(s, sep) + 1
    ensures forall i :: 0 <= i < |parts| ==> sep !in parts[i]
    ensures Join(parts, sep) == s
    decreases |s|
  {
    if sep !in s then [s]
    else
      var i := IndexOf(s, sep);
      CountAround(s, sep, i);
      CountAbsent(s[..i], sep);
      assert s == s[..i] + [sep] + s[i + 1..];
      [s[..i]] + Split(s[i + 1..], sep)
  }

  /** The first separator of `a + [c] + b` is the one after `a` when `a`
      holds none. */
  lemma {:induction false} IndexOfAfterPrefix(a: string, c: char, b: string)
    requires c !in a
    ensures c in a + [c] + b
    ensures IndexOf(a + [c] + b, c) == |a|
    decreases |a|
  {
    var s := a + [c] + b;
    assert s[|a|] == c;
    if a != [] {
      assert s[0] == a[0];
      assert s[1..] == a[1..] + [c] + b;
      IndexOfAfterPrefix(a[1..], c, b);
    }
  }

  /** Splitting a join of separator-free parts gives the parts back. */
  lemma {:induction false} SplitJoin(parts: seq<string>, sep: char)
    requires |parts| >= 1
    requires forall i :: 0 <= i < |parts| ==> sep !in parts[i]
    ensures Split(Join(parts, sep), sep) == parts
    decreases |parts|
  {
    if |parts| == 1 {
      assert sep !in parts[0];
    } else {
      var rest := Join(parts[1..], sep);
      var s := parts[0] + [sep] + rest;
      IndexOfAfterPrefix(parts[0], sep, rest);
      var i := IndexOf(s, sep);
      assert s[..i] == parts[0];
      assert s[i + 1..] == rest;
      SplitJoin(parts[1..], sep);
    }
  }

  /** `strings.Split(s, sep)` has exactly two parts iff `sep` occurs once;
      the parts are then the text before and after it. */
  lemma SplitInTwo(s: string, sep: char)
    ensures |Split(s, sep)| == 2 <==> Count(s, sep) == 1
    ensures Count(s, sep) == 1 ==> Split(s, sep) == [s[..IndexOf(s, sep)], s[IndexOf(s, sep) + 1..]]
  {
    if Count(s, sep) == 1 {
      var i := IndexOf(s, sep);
      var tail := s[i + 1..];
      CountAround(s, sep, i);
      CountAbsent(s[..i], sep);
      CountAbsent(tail, sep);
      assert Split(tail, sep) == [tail];
    }
  }

  // ---------------------------------------------------------------------
  // strings.TrimSpace
  // ---------------------------------------------------------------------

  function TrimLeft(s: string): (r: string)
    ensures |r| <= |s| && r == s[|s| - |r|..]
    ensures AllSpace(s[..|s| - |r|])
    ensures r == [] || !IsSpace(r[0])
  {
    if |s| > 0 && IsSpace(s[0]) then
      var r := TrimLeft(s[1..]);
      assert s[1..][..|s| - 1 - |r|] == s[1..|s| - |r|];
      r
    else s
  }

  function TrimRight(s: string): (r: string)
    ensures |r| <= |s| && r == s[..|r|]
    ensures AllSpace(s[|r|..])
    ensures r == [] || !IsSpace(r[|r| - 1])
  {
    if |s| > 0 && IsSpace(s[|s| - 1]) then
      var r := TrimRight(s[..|s| - 1]);
      r
    else s
  }

  /** `strings.TrimSpace`: the longest middle slice of `s` that neither
      starts nor ends with white space. */
  function TrimSpace(s: string): (r: string)
    ensures |r| <= |s|
    ensures r == [] || (!IsSpace(r[0]) && !IsSpace(r[|r| - 1]))
  {
    TrimRight(TrimLeft(s))
  }

  /** Only white space is cut off, at either end. */
  lemma TrimSpaceCutsOnlySpace(s: string)
    ensures exists i, j :: 0 <= i <= j <= |s| && TrimSpace(s) == s[i..j] && AllSpace(s[..i]) && AllSpace(s[j..])
  {
    var l := TrimLeft(s);
    var r := TrimRight(l);
    var i := |s| - |l|;
    var j := i + |r|;
    forall k | 0 <= k < |r|
      ensures r[k] == s[i..j][k]
    {
      assert r[k] == l[k];
    }
    forall k | 0 <= k < |s| - j
      ensures IsSpace(s[j..][k])
    {
      assert s[j..][k] == l[|r|..][k];
    }
    assert TrimSpace(s) == s[i..j] && AllSpace(s[..i]) && AllSpace(s[j..]);
  }

  /** Trimming is idempotent, and leaves a string without white space
      alone. */
  lemma TrimSpaceIdempotent(s: string)
    ensures TrimSpace(TrimSpace(s)) == TrimSpace(s)
    ensures NoSpace(s) ==> TrimSpace(s) == s
  {
    var t := TrimSpace(s);
    assert t == [] || (!IsSpace(t[0]) && !IsSpace(t[|t| - 1]));
  }

  // ---------------------------------------------------------------------
  // strings.ToLower (ASCII letters)
  // ---------------------------------------------------------------------

  function LowerChar(c: char): char {
    if 'A' <= c <= 'Z' then (c as int + 32) as char else c
  }

  /** `strings.ToLower` on ASCII letters: each character mapped
      independently, so the length is kept. */
  function ToLower(s: string): (r: string)
    ensures |r| == |s|
    ensures forall i :: 0 <= i < |s| ==> r[i] == LowerChar(s[i])
    ensures forall i :: 0 <= i < |s| ==> !('A' <= r[i] <= 'Z')
  {
    if s == [] then [] else [LowerChar(s[0])] + ToLower(s[1..])
  }

  /** Lower-casing twice is lower-casing once. */
  lemma ToLowerIdempotent(s: string)
    ensures ToLower(ToLower(s)) == ToLower(s)
  {
  }

  // ---------------------------------------------------------------------
  // Decimal formatting (`%d`) and its inverse
  // ---------------------------------------------------------------------

  predicate IsDigit(c: char) {
    '0' <= c <= '9'
  }

  predicate AllDigits(s: string) {
    forall i :: 0 <= i < |s| ==> IsDigit(s[i])
  }

  function DigitChar(d: nat): (c: char)
    requires d < 10
    ensures IsDigit(c) && c as int - '0' as int == d
  {
    (d + '0' as int) as char
  }

  function DigitValue(c: char): (d: nat)
    requires IsDigit(c)
    ensures d < 10
  {
    c as int - '0' as int
  }

  /** `%d` of a natural number: a non-empty run of digits without a
      leading zero (except for zero itself). */
  function NatToString(n: nat): (s: string)
    ensures |s| >= 1 && AllDigits(s)
    ensures s[0] == '0' <==> n == 0
    decreases n
  {
    if n < 10 then [DigitChar(n)] else NatToString(n / 10) + [DigitChar(n % 10)]
  }

  /** `%d` of any integer. */
  function IntToString(n: int): (s: string)
    ensures |s| >= 1
    ensures s[0] == '-' <==> n < 0
  {
    if n < 0 then "-" + NatToString(-n) else NatToString(n)
  }

  /** Value of a run of decimal digits. */
  function DigitsValue(s: string): nat
    requires AllDigits(s)
    decreases |s|
  {
    if s == [] then 0 else 10 * DigitsValue(s[..|s| - 1]) + DigitValue(s[|s| - 1])
  }

  /** Reading back an optional minus sign and digits. */
  function ParseInt(s: string): Option<int> {
    if |s| >= 2 && s[0] == '-' && AllDigits(s[1..]) then Some(-(DigitsValue(s[1..]) as int))
    else if |s| >= 1 && AllDigits(s) then Some(DigitsValue(s))
    else None
  }

  lemma {:induction false} NatToStringValue(n: nat)
    ensures DigitsValue(NatToString(n)) == n
    decreases n
  {
    if n >= 10 {
      NatToStringValue(n / 10);
      var s := NatToString(n);
      assert s[..|s| - 1] == NatToString(n / 10);
    }
  }

  /** Formatting an integer and reading it back is the identity. */
  lemma IntToStringRoundTrip(n: int)
    ensures ParseInt(IntToString(n)) == Some(n)
  {
    if n < 0 {
      NatToStringValue(-n);
      var s := IntToString(n);
      assert s[1..] == NatToString(-n);
    } else {
      NatToStringValue(n);
    }
  }
}
