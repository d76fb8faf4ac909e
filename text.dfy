/**
 * The Python string operations the bot relies on, restricted to what the
 * model covers (ASCII case folding and digits; the full whitespace set of
 * `str.strip()`): `lower()`, `lstrip(c)`, `strip()`, `split(sep, maxsplit)`,
 * `isdigit()`, `int(text)`, `str(n)` and the substring test `x in s`.
 */
module Text {
  import opened Wrappers

  // ---------------------------------------------------------------------
  // Case folding and name comparison
  // ---------------------------------------------------------------------

  function LowerChar(c: char): char {
    if 'A' <= c <= 'Z' then (c as int + 32) as char else c
  }

  /** `s.lower()` on ASCII letters; every other character is kept. */
  function Lower(s: string): (r: string)
    ensures |r| == |s|
    ensures forall i :: 0 <= i < |s| ==> r[i] == LowerChar(s[i])
  {
    if s == [] then [] else [LowerChar(s[0])] + Lower(s[1..])
  }

  /** `a.lower() == b.lower()`: the bot's case-insensitive name comparison. */
  predicate SameName(a: string, b: string) {
    Lower(a) == Lower(b)
  }

  // ---------------------------------------------------------------------
  // Stripping
  // ---------------------------------------------------------------------

  /** `s.lstrip(c)`: drops every leading `c`. */
  function LStrip(s: string, c: char): (r: string)
    ensures |r| <= |s| && r == s[|s| - |r|..]
    ensures r == [] || r[0] != c
    ensures forall i :: 0 <= i < |s| - |r| ==> s[i] == c
  {
    if s != [] && s[0] == c then LStrip(s[1..], c) else s
  }

  /** The characters Python's `str.isspace()` accepts. */
  predicate IsSpace(c: char) {
    c == ' ' || '\t' <= c <= '\r' || '\U{1C}' <= c <= '\U{1F}' || c == '\U{85}' || c == '\U{A0}'
    || c == '\U{1680}' || '\U{2000}' <= c <= '\U{200A}' || c == '\U{2028}' || c == '\U{2029}'
    || c == '\U{202F}' || c == '\U{205F}' || c == '\U{3000}'
  }

  function StripLeft(s: string): (r: string)
    ensures |r| <= |s| && r == s[|s| - |r|..]
    ensures r == [] || !IsSpace(r[0])
    ensures forall i :: 0 <= i < |s| - |r| ==> IsSpace(s[i])
  {
    if s != [] && IsSpace(s[0]) then StripLeft(s[1..]) else s
  }

  function StripRight(s: string): (r: string)
    ensures |r| <= |s| && r == s[..|r|]
    ensures r == [] || !IsSpace(r[|r| - 1])
    ensures forall i :: |r| <= i < |s| ==> IsSpace(s[i])
  {
    if s != [] && IsSpace(s[|s| - 1]) then StripRight(s[..|s| - 1]) else s
  }

  /** What `lstrip` leaves is a part of the original text. */
  lemma LStripInfix(s: string, c: char)
    ensures IsInfix(LStrip(s, c), s)
  {
    var r := LStrip(s, c);
    var head := s[..|s| - |r|];
    InfixOfConcat(head, r, []);
    assert s == head + r + [];
  }

  /** `s.strip()`: drops leading and trailing whitespace. */
  function Strip(s: string): (r: string)
    ensures r == [] || (!IsSpace(r[0]) && !IsSpace(r[|r| - 1]))
  {
    StripRight(StripLeft(s))
  }

  // ---------------------------------------------------------------------
  // Splitting
  // ---------------------------------------------------------------------

  /** The position of the first `c` in `s`, if any. */
  function IndexOf(s: string, c: char): (r: Option<nat>)
    ensures r.Some? ==> r.value < |s| && s[r.value] == c && c !in s[..r.value]
    ensures r.None? ==> c !in s
  {
    if s == [] then None
    else if s[0] == c then Some(0)
    else match IndexOf(s[1..], c)
      case Some(k) =>
        assert s[..k + 1] == [s[0]] + s[1..][..k];
        Some(k + 1)
      case None => None
  }

  /** The inverse of `SplitMax`: the parts glued back together with `c`. */
  function JoinWith(parts: seq<string>, c: char): string {
    if parts == [] then ""
    else if |parts| == 1 then parts[0]
    else parts[0] + [c] + JoinWith(parts[1..], c)
  }

  /** Three parts joined: the first, a separator, the second, a separator, the third. */
  lemma JoinThree(parts: seq<string>, c: char)
    requires |parts| == 3
    ensures JoinWith(parts, c) == parts[0] + [c] + parts[1] + [c] + parts[2]
  {
    var tail := parts[1..];
    assert tail[1..] == [parts[2]];
    assert JoinWith(tail, c) == parts[1] + [c] + parts[2];
    assert JoinWith(parts, c) == parts[0] + [c] + (parts[1] + [c] + parts[2]);
  }

  /**
   * `s.split(c, maxsplit)`: at most `maxsplit` cuts, at the first
   * occurrences of `c`; the remainder stays whole in the last part.
   */
  function SplitMax(s: string, c: char, maxsplit: nat): (parts: seq<string>)
    ensures 1 <= |parts| <= maxsplit + 1
    ensures JoinWith(parts, c) == s
    ensures forall i :: 0 <= i < |parts| - 1 ==> c !in parts[i]
    ensures |parts| <= maxsplit ==> c !in parts[|parts| - 1]
    decreases maxsplit
  {
    if maxsplit == 0 then [s]
    else match IndexOf(s, c)
      case None => [s]
      case Some(k) =>
        var rest := SplitMax(s[k + 1..], c, maxsplit - 1);
        assert s == s[..k] + [c] + s[k + 1..];
        [s[..k]] + rest
  }

  /** The first `c` of `a + [c] + b` is the one after `a` when `a` has none. */
  lemma {:induction false} IndexOfAfter(a: string, c: char, b: string)
    requires c !in a
    ensures IndexOf(a + [c] + b, c) == Some(|a|)
    decreases |a|
  {
    var s := a + [c] + b;
    if a == [] {
      assert s[0] == c;
    } else {
      IndexOfAfter(a[1..], c, b);
      assert s[1..] == a[1..] + [c] + b;
      assert s[0] == a[0];
    }
  }

  /** Splitting text whose first `c` follows `a` yields `a`, then the split of the rest. */
  lemma SplitAtFirst(a: string, c: char, b: string, maxsplit: nat)
    requires c !in a
    ensures SplitMax(a + [c] + b, c, maxsplit + 1) == [a] + SplitMax(b, c, maxsplit)
  {
    IndexOfAfter(a, c, b);
    var s := a + [c] + b;
    assert s[..|a|] == a && s[|a| + 1..] == b;
  }

  /** The text before the first `c` (all of `s` when there is none). */
  function FirstField(s: string, c: char): (r: string)
    ensures c !in r
    ensures IndexOf(s, c).None? ==> r == s
  {
    match IndexOf(s, c)
    case Some(k) => s[..k]
    case None => s
  }

  // ---------------------------------------------------------------------
  // Decimal numbers
  // ---------------------------------------------------------------------

  predicate IsDigit(c: char) {
    '0' <= c <= '9'
  }

  predicate AllDigits(s: string) {
    forall i :: 0 <= i < |s| ==> IsDigit(s[i])
  }

  /** `s.isdigit()` for ASCII text: non-empty and decimal digits only. */
  predicate IsDigits(s: string) {
    |s| > 0 && AllDigits(s)
  }

  function DigitValue(c: char): nat
    requires IsDigit(c)
  {
    c as int - '0' as int
  }

  function DigitChar(d: nat): (c: char)
    requires d < 10
    ensures IsDigit(c) && DigitValue(c) == d
  {
    ('0' as int + d) as char
  }

  /** The value of a string of decimal digits, most significant first. */
  function DigitsValue(s: string): nat
    requires AllDigits(s)
  {
    if s == [] then 0 else DigitsValue(s[..|s| - 1]) * 10 + DigitValue(s[|s| - 1])
  }

  /** `str(n)` for a natural number: its decimal digits, read back as `n`. */
  function NatToString(n: nat): (s: string)
    ensures IsDigits(s)
    ensures DigitsValue(s) == n
    ensures s[0] != '0' || s == "0"
    decreases n
  {
    if n < 10 then [DigitChar(n)]
    else
      var front := NatToString(n / 10);
      var s := front + [DigitChar(n % 10)];
      assert s[..|s| - 1] == front;
      s
  }

  /** `str(i)` for any integer. */
  function IntToString(i: int): string {
    if i < 0 then "-" + NatToString(-i) else NatToString(i)
  }

  /** Digits are unchanged by `lower()` and `strip()`. */
  lemma DigitsUnchanged(s: string)
    requires AllDigits(s)
    ensures Lower(s) == s
    ensures Strip(s) == s
  {
    assert StripLeft(s) == s;
    assert StripRight(s) == s;
  }

  /** The digit groups of an integer literal: single underscores only between digits. */
  predicate WellGrouped(s: string) {
    && |s| > 0 && IsDigit(s[0]) && IsDigit(s[|s| - 1])
    && (forall i :: 0 <= i < |s| ==> IsDigit(s[i]) || s[i] == '_')
    && (forall i :: 0 <= i < |s| - 1 && s[i] == '_' ==> s[i + 1] != '_')
  }

  function DropUnderscores(s: string): (r: string)
    requires forall i :: 0 <= i < |s| ==> IsDigit(s[i]) || s[i] == '_'
    ensures AllDigits(r)
    ensures AllDigits(s) ==> r == s
  {
    if s == [] then []
    else if s[0] == '_' then DropUnderscores(s[1..])
    else [s[0]] + DropUnderscores(s[1..])
  }

  /**
   * `int(text)` on an already stripped ASCII string: an optional sign, then
   * digit groups; `None` where Python raises `ValueError`.
   */
  function ParsePyInt(s: string): Option<int> {
    if |s| > 0 && (s[0] == '+' || s[0] == '-') then
      var body := s[1..];
      if WellGrouped(body) then
        var n: int := DigitsValue(DropUnderscores(body));
        Some(if s[0] == '-' then -n else n)
      else None
    else if WellGrouped(s) then Some(DigitsValue(DropUnderscores(s)))
    else None
  }

  /** `int(str(n)) == n`. */
  lemma ParseNatToString(n: nat)
    ensures ParsePyInt(NatToString(n)) == Some(n)
  {
    var s := NatToString(n);
    assert IsDigit(s[0]);
    assert WellGrouped(s);
  }

  // ---------------------------------------------------------------------
  // Substrings
  // ---------------------------------------------------------------------

  /** Python's `x in s` for strings. */
  predicate IsInfix(x: string, s: string)
    decreases |s|
  {
    |x| <= |s| && (s[..|x|] == x || (|s| > 0 && IsInfix(x, s[1..])))
  }

  /** A string that is glued into the middle of another occurs in it. */
  lemma {:induction false} InfixOfConcat(a: string, x: string, b: string)
    ensures IsInfix(x, a + x + b)
    decreases |a|
  {
    if a == [] {
      assert (a + x + b)[..|x|] == x;
    } else {
      InfixOfConcat(a[1..], x, b);
      assert (a + x + b)[1..] == a[1..] + x + b;
    }
  }

  /** What occurs in `s` still occurs once text is appended. */
  lemma {:induction false} InfixExtendRight(x: string, s: string, y: string)
    requires IsInfix(x, s)
    ensures IsInfix(x, s + y)
    decreases |s|
  {
    assert (s + y)[..|x|] == s[..|x|];
    if s[..|x|] != x {
      InfixExtendRight(x, s[1..], y);
      assert (s + y)[1..] == s[1..] + y;
    }
  }

  /** What occurs in `s` still occurs once text is prepended. */
  lemma {:induction false} InfixExtendLeft(x: string, p: string, s: string)
    requires IsInfix(x, s)
    ensures IsInfix(x, p + s)
    decreases |p|
  {
    if p == [] {
      assert p + s == s;
    } else {
      InfixExtendLeft(x, p[1..], s);
      assert (p + s)[1..] == p[1..] + s;
    }
  }
}
