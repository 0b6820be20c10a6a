/**
 * The parts of Python's `str` behaviour the source relies on: `lower()`,
 * `split()`, `' '.join(...)`, `in` on strings, `int()` on a decimal literal and `str()` of
 * a natural number. Case mapping and decimal digits are modelled for ASCII only.
 */
module PyText {
  import opened Wrappers

  /** The characters for which Python's `str.isspace()` holds; `split()` and `int()` use them. */
  predicate IsSpace(c: char) {
    c == ' ' || ('\t' <= c <= '\r') || ('\U{1c}' <= c <= '\U{1f}') || c == '\U{85}' || c == '\U{a0}'
    || c == '\U{1680}' || ('\U{2000}' <= c <= '\U{200a}') || c == '\U{2028}' || c == '\U{2029}'
    || c == '\U{202f}' || c == '\U{205f}' || c == '\U{3000}'
  }

  predicate IsDigit(c: char) {
    '0' <= c <= '9'
  }

  function LowerChar(c: char): (d: char)
    ensures 'A' <= c <= 'Z' ==> 'a' <= d <= 'z' && d as int == c as int + 32
    ensures !('A' <= c <= 'Z') ==> d == c
  {
    if 'A' <= c <= 'Z' then (c as int + 32) as char else c
  }

  /** `s.lower()` */
  function Lower(s: string): (r: string)
    ensures |r| == |s|
    ensures forall i :: 0 <= i < |s| ==> r[i] == LowerChar(s[i])
  {
    seq(|s|, i requires 0 <= i < |s| => LowerChar(s[i]))
  }

  /** `needle` occurs in `hay` starting at position `i`. */
  predicate OccursAt(hay: string, needle: string, i: int) {
    0 <= i <= |hay| - |needle| && hay[i..i + |needle|] == needle
  }

  /** `needle in hay` for strings. */
  predicate Contains(hay: string, needle: string) {
    exists i | 0 <= i <= |hay| - |needle| :: OccursAt(hay, needle, i)
  }

  /** `any(w in hay for w in needles)` */
  predicate ContainsAny(hay: string, needles: seq<string>) {
    exists k :: 0 <= k < |needles| && Contains(hay, needles[k])
  }

  /** `sep.join(parts)` */
  function Join(parts: seq<string>, sep: string): string
  {
    if parts == [] then ""
    else if |parts| == 1 then parts[0]
    else parts[0] + sep + Join(parts[1..], sep)
  }

  /** The length of the run of non-space characters at the start of `s`. */
  function WordLength(s: string): (n: nat)
    ensures n <= |s|
    ensures forall i :: 0 <= i < n ==> !IsSpace(s[i])
    ensures n < |s| ==> IsSpace(s[n])
  {
    if s == [] || IsSpace(s[0]) then 0 else 1 + WordLength(s[1..])
  }

  /** `s.split()`: the maximal runs of non-space characters, in order. */
  function Split(s: string): (words: seq<string>)
    ensures forall k :: 0 <= k < |words| ==> |words[k]| > 0
    ensures forall k, i :: 0 <= k < |words| && 0 <= i < |words[k]| ==> !IsSpace(words[k][i])
    decreases |s|
  {
    if s == [] then []
    else if IsSpace(s[0]) then Split(s[1..])
    else
      var n := WordLength(s);
      [s[..n]] + Split(s[n..])
  }

  /** `s.split(sep)[0]` for a one-character separator: everything before its first occurrence. */
  function BeforeFirst(s: string, sep: char): (r: string)
    ensures r <= s
    ensures sep !in r
    ensures |r| < |s| ==> s[|r|] == sep
  {
    if s == [] || s[0] == sep then [] else [s[0]] + BeforeFirst(s[1..], sep)
  }

  /** `s.strip()` */
  function Strip(s: string): (r: string)
    ensures |r| > 0 ==> !IsSpace(r[0]) && !IsSpace(r[|r| - 1])
    decreases |s|
  {
    if s == [] then []
    else if IsSpace(s[0]) then Strip(s[1..])
    else if IsSpace(s[|s| - 1]) then Strip(s[..|s| - 1])
    else s
  }

  /**
   * A decimal digit string as `int()` accepts it: digits, with single underscores
   * allowed between two digits.
   */
  predicate IsDigitGroup(t: string) {
    |t| > 0 && IsDigit(t[0]) && IsDigit(t[|t| - 1])
    && (forall i :: 0 <= i < |t| ==> IsDigit(t[i]) || t[i] == '_')
    && (forall i :: 0 <= i < |t| - 1 ==> !(t[i] == '_' && t[i + 1] == '_'))
  }

  /** The value of a digit group, underscores ignored. */
  function DigitsValue(t: string): nat
  {
    if t == [] then 0
    else if IsDigit(t[|t| - 1]) then 10 * DigitsValue(t[..|t| - 1]) + (t[|t| - 1] as int - '0' as int)
    else DigitsValue(t[..|t| - 1])
  }

  /** `int(s)` for base 10: `None` where Python raises `ValueError`. */
  function ParseInt(s: string): (r: Option<int>)
    ensures r.Some? ==> |Strip(s)| > 0
  {
    var t := Strip(s);
    if |t| > 0 && (t[0] == '+' || t[0] == '-') then
      if IsDigitGroup(t[1..]) then Some(if t[0] == '-' then -(DigitsValue(t[1..]) as int) else DigitsValue(t[1..]))
      else None
    else if IsDigitGroup(t) then Some(DigitsValue(t))
    else None
  }

  /** The year part of a `YYYY-MM-DD` date: whatever comes before the first separator. */
  lemma {:induction false} BeforeFirstOf(head: string, sep: char, rest: string)
    requires sep !in head
    ensures BeforeFirst(head + [sep] + rest, sep) == head
  {
    if head != [] {
      assert (head + [sep] + rest)[1..] == head[1..] + [sep] + rest;
      BeforeFirstOf(head[1..], sep, rest);
    }
  }

  /** `int()` of four decimal digits. */
  lemma ParseFourDigits(t: string)
    requires |t| == 4 && forall i :: 0 <= i < 4 ==> IsDigit(t[i])
    ensures ParseInt(t) == Some(1000 * (t[0] as int - '0' as int) + 100 * (t[1] as int - '0' as int)
                                + 10 * (t[2] as int - '0' as int) + (t[3] as int - '0' as int))
  {
    assert Strip(t) == t;
    assert t[..3][..2] == t[..2] && t[..2][..1] == t[..1] && t[..1][..0] == [];
    assert DigitsValue(t[..1]) == t[0] as int - '0' as int;
    assert DigitsValue(t[..2]) == 10 * DigitsValue(t[..1]) + (t[1] as int - '0' as int);
    assert DigitsValue(t[..3]) == 10 * DigitsValue(t[..2]) + (t[2] as int - '0' as int);
    assert t[..4] == t;
  }

  function DigitChar(d: nat): (c: char)
    requires d < 10
    ensures IsDigit(c)
  {
    ('0' as int + d) as char
  }

  /** `str(n)` for a natural number. */
  function NatToString(n: nat): (s: string)
    ensures |s| > 0
    ensures forall i :: 0 <= i < |s| ==> IsDigit(s[i])
  {
    if n < 10 then [DigitChar(n)] else NatToString(n / 10) + [DigitChar(n % 10)]
  }

  /** `s[:k]` for a natural bound. */
  function Prefix(s: string, k: nat): (r: string)
    ensures |r| == if |s| <= k then |s| else k
    ensures r <= s
  {
    if |s| <= k then s else s[..k]
  }
}
