/** String helpers standing in for the JavaScript string methods the core
    uses: toUpperCase, includes, indexOf, split, trim, slice, join and the
    integer-to-text conversion of template literals. */
module Strings {
  import opened Wrappers

  predicate IsAsciiLower(c: char) { 'a' <= c <= 'z' }
  predicate IsAsciiUpper(c: char) { 'A' <= c <= 'Z' }
  predicate IsDigit(c: char) { '0' <= c <= '9' }

  function UpperChar(c: char): char
  {
    if IsAsciiLower(c) then (c as int - 32) as char else c
  }

  /** String.prototype.toUpperCase, on ASCII letters. */
  function ToUpper(s: string): (r: string)
    ensures |r| == |s|
    ensures forall i :: 0 <= i < |s| ==> r[i] == UpperChar(s[i])
  {
    if s == [] then [] else [UpperChar(s[0])] + ToUpper(s[1..])
  }

  lemma ToUpperIdempotent(s: string)
    ensures ToUpper(ToUpper(s)) == ToUpper(s)
  {
  }

  /** A text is upper-cased when upper-casing leaves it as it is. */
  predicate IsUpperCased(s: string) { ToUpper(s) == s }

  /** Upper-casing yields an upper-cased text with no lower-case ASCII letter. */
  lemma ToUpperIsUpperCased(s: string)
    ensures IsUpperCased(ToUpper(s))
    ensures forall i :: 0 <= i < |s| ==> !IsAsciiLower(ToUpper(s)[i])
  {
    ToUpperIdempotent(s);
  }

  function DigitChar(d: nat): char
    requires d < 10
  {
    ('0' as int + d) as char
  }

  /** The number a text of decimal digits denotes, read left to right. */
  function DigitsValue(s: string): nat
  {
    if s == [] then 0
    else DigitsValue(s[..|s| - 1]) * 10 + (if IsDigit(s[|s| - 1]) then s[|s| - 1] as int - '0' as int else 0)
  }

  /** The number a text denotes with an optional leading '-'. */
  function SignedValue(s: string): int
  {
    if s != [] && s[0] == '-' then -(DigitsValue(s[1..]) as int) else DigitsValue(s)
  }

  /** Decimal rendering of a natural number, as `${n}` prints it. */
  function NatToString(n: nat): (r: string)
    ensures |r| >= 1
    ensures forall i :: 0 <= i < |r| ==> IsDigit(r[i])
    ensures (r[0] == '0') == (n == 0)
    decreases n
  {
    if n < 10 then [DigitChar(n)] else NatToString(n / 10) + [DigitChar(n % 10)]
  }

  /** Decimal rendering of an integer, with a leading '-' when negative. */
  function IntToString(i: int): (r: string)
    ensures |r| >= 1
    ensures (r[0] == '-') == (i < 0)
    ensures forall k :: 1 <= k < |r| ==> IsDigit(r[k])
  {
    if i < 0 then "-" + NatToString(-i) else NatToString(i)
  }

  /** The digits `${n}` prints denote n. */
  lemma {:induction false} NatToStringValue(n: nat)
    ensures DigitsValue(NatToString(n)) == n
    decreases n
  {
    if n >= 10 {
      NatToStringValue(n / 10);
      var r := NatToString(n);
      assert r[..|r| - 1] == NatToString(n / 10);
    }
  }

  /** The text `${i}` prints denotes i. */
  lemma IntToStringValue(i: int)
    ensures SignedValue(IntToString(i)) == i
  {
    if i < 0 {
      NatToStringValue(-i);
      assert IntToString(i)[1..] == NatToString(-i);
    } else {
      NatToStringValue(i);
    }
  }

  /** Different integers render as different texts. */
  lemma IntToStringInjective(i: int, j: int)
    requires IntToString(i) == IntToString(j)
    ensures i == j
  {
    IntToStringValue(i);
    IntToStringValue(j);
  }

  /** `t` occurs in `s` at index `i`. */
  predicate StartsAt(s: string, t: string, i: nat)
  {
    i + |t| <= |s| && s[i..i + |t|] == t
  }

  /** The first index at or after `from` where `t` occurs in `s` (indexOf). */
  function IndexFrom(s: string, t: string, from: nat): (r: Option<nat>)
    ensures r.Some? ==> from <= r.value && StartsAt(s, t, r.value)
    ensures r.Some? ==> forall j :: from <= j < r.value ==> !StartsAt(s, t, j)
    ensures r.None? ==> forall j :: from <= j ==> !StartsAt(s, t, j)
    decreases |s| - from
  {
    if from + |t| > |s| then None
    else if s[from..from + |t|] == t then Some(from)
    else IndexFrom(s, t, from + 1)
  }

  function IndexOf(s: string, t: string): Option<nat>
  {
    IndexFrom(s, t, 0)
  }

  /** String.prototype.includes. */
  predicate Contains(s: string, t: string)
  {
    IndexOf(s, t).Some?
  }

  lemma ContainsAt(s: string, t: string, i: nat)
    requires StartsAt(s, t, i)
    ensures Contains(s, t)
  {
  }

  /** Two adjacent occurrences make one occurrence of the concatenation. */
  lemma StartsAtConcat(s: string, a: string, b: string, i: nat)
    requires StartsAt(s, a, i) && StartsAt(s, b, i + |a|)
    ensures StartsAt(s, a + b, i)
  {
    assert s[i..i + |a| + |b|] == s[i..i + |a|] + s[i + |a|..i + |a| + |b|];
  }

  /** s.split(sep)[0]: the text before the first `sep`, or all of `s`. */
  function BeforeFirst(s: string, sep: string): (r: string)
    ensures |r| <= |s| && r == s[..|r|]
    ensures IndexOf(s, sep).None? ==> r == s
    ensures IndexOf(s, sep).Some? ==> |r| == IndexOf(s, sep).value
  {
    match IndexOf(s, sep)
    case None => s
    case Some(i) => s[..i]
  }

  /** s.split(sep)[1] when `sep` occurs: the text between the first
      occurrence and the next one (or the end). */
  function SecondSegment(s: string, sep: string): (r: string)
    requires Contains(s, sep)
  {
    var i := IndexOf(s, sep).value;
    BeforeFirst(s[i + |sep|..], sep)
  }

  /** s.split(c).pop() for a one-character separator: the text after the
      last `c`, or all of `s`. */
  function AfterLast(s: string, c: char): (r: string)
    ensures c !in r
    ensures c !in s ==> r == s
    ensures |r| <= |s| && r == s[|s| - |r|..]
    ensures |r| < |s| ==> s[|s| - |r| - 1] == c
  {
    if s == [] then []
    else if s[|s| - 1] == c then []
    else AfterLast(s[..|s| - 1], c) + [s[|s| - 1]]
  }

  /** s.slice(-n) for n > 0: the last n characters, or all of `s`. */
  function LastN(s: string, n: nat): (r: string)
    ensures |r| == if |s| < n then |s| else n
    ensures r == s[|s| - |r|..]
  {
    if |s| < n then s else s[|s| - n..]
  }

  /** The characters String.prototype.trim removes: WhiteSpace and
      LineTerminator of ECMAScript. */
  predicate IsJsSpace(c: char)
  {
    c == ' ' || c == '\t' || c == '\n' || c == '\r' || c == '\U{B}' || c == '\U{C}'
    || c == '\U{A0}' || c == '\U{FEFF}' || c == '\U{1680}' || ('\U{2000}' <= c <= '\U{200A}')
    || c == '\U{2028}' || c == '\U{2029}' || c == '\U{202F}' || c == '\U{205F}' || c == '\U{3000}'
  }

  function TrimStart(s: string): (r: string)
    ensures |r| <= |s| && r == s[|s| - |r|..]
    ensures r != [] ==> !IsJsSpace(r[0])
    ensures forall i :: 0 <= i < |s| - |r| ==> IsJsSpace(s[i])
  {
    if s != [] && IsJsSpace(s[0]) then TrimStart(s[1..]) else s
  }

  function TrimEnd(s: string): (r: string)
    ensures |r| <= |s| && r == s[..|r|]
    ensures r != [] ==> !IsJsSpace(r[|r| - 1])
    ensures forall i :: |r| <= i < |s| ==> IsJsSpace(s[i])
  {
    if s != [] && IsJsSpace(s[|s| - 1]) then TrimEnd(s[..|s| - 1]) else s
  }

  lemma TrimStartSkipsSpace(c: char, s: string)
    requires IsJsSpace(c)
    ensures TrimStart([c] + s) == TrimStart(s)
  {
    assert ([c] + s)[1..] == s;
  }

  /** A text that neither starts nor ends with whitespace is left as is. */
  lemma TrimKeepsUnpadded(s: string)
    requires s != [] ==> !IsJsSpace(s[0]) && !IsJsSpace(s[|s| - 1])
    ensures TrimStart(s) == s && TrimEnd(s) == s
  {
  }

  /** String.prototype.trim. */
  function Trim(s: string): string
  {
    TrimEnd(TrimStart(s))
  }

  /** Array.prototype.join. */
  function Join(parts: seq<string>, sep: string): string
  {
    if parts == [] then ""
    else if |parts| == 1 then parts[0]
    else parts[0] + sep + Join(parts[1..], sep)
  }

  /** Concatenation is associative. */
  lemma SeqAssoc<T>(x: seq<T>, y: seq<T>, z: seq<T>)
    ensures x + (y + z) == (x + y) + z
  {
  }
}
