/**
 * The JavaScript string and number operations the sprite pipeline leans on:
 * trim(), split(' '), indexOf, the case-insensitive comparisons of `/.../i`
 * regular expressions over ASCII patterns, parseInt without a radix and the
 * decimal rendering of an integer (`n + 'px'`).
 */
module JsText {
  import opened Wrappers

  /** The code points that trim(), parseInt and the regex class \s treat as
      white space (WhiteSpace and LineTerminator of ECMA-262). */
  predicate IsSpace(c: char) {
    c == '\t' || c == '\n' || c == '\U{B}' || c == '\U{C}' || c == '\r' || c == ' '
    || c == '\U{A0}' || c == '\U{1680}' || ('\U{2000}' <= c <= '\U{200A}')
    || c == '\U{2028}' || c == '\U{2029}' || c == '\U{202F}' || c == '\U{205F}'
    || c == '\U{3000}' || c == '\U{FEFF}'
  }

  predicate NoSpace(s: string) {
    forall i :: 0 <= i < |s| ==> !IsSpace(s[i])
  }

  /** Leading white space removed: the longest suffix not starting with a space. */
  function TrimStart(s: string): (r: string)
    ensures |r| <= |s| && r == s[|s| - |r|..]
    ensures r == [] || !IsSpace(r[0])
    ensures forall i :: 0 <= i < |s| - |r| ==> IsSpace(s[i])
  {
    if |s| > 0 && IsSpace(s[0]) then TrimStart(s[1..]) else s
  }

  /** Trailing white space removed: the longest prefix not ending with a space. */
  function TrimEnd(s: string): (r: string)
    ensures |r| <= |s| && r == s[..|r|]
    ensures r == [] || !IsSpace(r[|r| - 1])
    ensures forall i :: |r| <= i < |s| ==> IsSpace(s[i])
  {
    if |s| > 0 && IsSpace(s[|s| - 1]) then TrimEnd(s[..|s| - 1]) else s
  }

  /** String.prototype.trim */
  function Trim(s: string): string {
    TrimEnd(TrimStart(s))
  }

  lemma TrimOfTrimmed(s: string)
    requires s == [] || (!IsSpace(s[0]) && !IsSpace(s[|s| - 1]))
    ensures Trim(s) == s
  {
  }

  /** String.prototype.split with a one-character separator. */
  function SplitOn(s: string, c: char): (parts: seq<string>)
    ensures |parts| >= 1
    ensures forall k :: 0 <= k < |parts| ==> c !in parts[k]
  {
    if |s| == 0 then [""]
    else
      var rest := SplitOn(s[1..], c);
      if s[0] == c then [""] + rest else [[s[0]] + rest[0]] + rest[1..]
  }

  /** Array.prototype.join with a one-character separator. */
  function JoinWith(parts: seq<string>, c: char): string
    requires |parts| >= 1
  {
    if |parts| == 1 then parts[0] else parts[0] + [c] + JoinWith(parts[1..], c)
  }

  /** Splitting and joining again with the same separator gives back the string. */
  lemma {:induction false} SplitOnJoins(s: string, c: char)
    ensures JoinWith(SplitOn(s, c), c) == s
  {
    if |s| > 0 {
      SplitOnJoins(s[1..], c);
      var rest := SplitOn(s[1..], c);
      if s[0] != c && |rest| > 1 {
        assert SplitOn(s, c)[1..] == rest[1..];
        calc {
          JoinWith(SplitOn(s, c), c);
          [s[0]] + rest[0] + [c] + JoinWith(rest[1..], c);
          [s[0]] + JoinWith(rest, c);
          s;
        }
      }
    }
  }

  /** The longest prefix of `s` holding no white space. */
  function Word(s: string): (w: string)
    ensures |w| <= |s| && w == s[..|w|] && NoSpace(w)
    ensures |w| == |s| || IsSpace(s[|w|])
  {
    if |s| == 0 || IsSpace(s[0]) then [] else [s[0]] + Word(s[1..])
  }

  /** The maximal runs of non-space characters of `s`, in order. */
  function Tokens(s: string): seq<string>
    decreases |s|
  {
    var t := TrimStart(s);
    if t == [] then []
    else
      var w := Word(t);
      [w] + Tokens(t[|w|..])
  }

  /** A word followed by a run of white space and a second word splits into those two words. */
  lemma {:induction false} TokensOfTwoWords(x: string, gap: string, y: string)
    requires x != [] && y != [] && NoSpace(x) && NoSpace(y)
    requires gap != [] && forall i :: 0 <= i < |gap| ==> IsSpace(gap[i])
    ensures Tokens(x + gap + y) == [x, y]
  {
    assert x + gap + y == x + (gap + y);
    TokensOfLeadingWord(x, gap + y);
    TokensOfSpacedWord(gap, y);
  }

  /** A string opening with a word, then white space, gives that word and then the tokens of the rest. */
  lemma TokensOfLeadingWord(x: string, rest: string)
    requires x != [] && NoSpace(x) && rest != [] && IsSpace(rest[0])
    ensures Tokens(x + rest) == [x] + Tokens(rest)
  {
    var s := x + rest;
    assert s[0] == x[0];
    assert TrimStart(s) == s;
    WordOf(x, rest);
    assert s[|x|..] == rest;
  }

  lemma {:induction false} TokensOfSpacedWord(gap: string, y: string)
    requires y != [] && NoSpace(y)
    requires forall i :: 0 <= i < |gap| ==> IsSpace(gap[i])
    ensures Tokens(gap + y) == [y]
  {
    TrimStartOfGap(gap, y);
    WordOf(y, []);
    assert y + [] == y;
    assert y[|y|..] == [];
    assert Tokens([]) == [];
  }

  lemma {:induction false} WordOf(x: string, rest: string)
    requires NoSpace(x)
    requires rest == [] || IsSpace(rest[0])
    ensures Word(x + rest) == x
    decreases |x|
  {
    if x != [] {
      assert (x + rest)[1..] == x[1..] + rest;
      WordOf(x[1..], rest);
    }
  }

  lemma {:induction false} TrimStartOfGap(gap: string, y: string)
    requires forall i :: 0 <= i < |gap| ==> IsSpace(gap[i])
    requires y == [] || !IsSpace(y[0])
    ensures TrimStart(gap + y) == y
    decreases |gap|
  {
    if gap != [] {
      assert (gap + y)[1..] == gap[1..] + y;
      TrimStartOfGap(gap[1..], y);
    }
  }

  /** `sub` occurs in `s` starting at index i. */
  predicate OccursAt(s: string, sub: string, i: int) {
    0 <= i && i + |sub| <= |s| && s[i..i + |sub|] == sub
  }

  /** `s.indexOf(sub) > -1` */
  predicate Contains(s: string, sub: string) {
    exists i :: 0 <= i <= |s| - |sub| && OccursAt(s, sub, i)
  }

  /** The case folding of `/.../i` for the ASCII letters of a pattern. */
  function Lower(c: char): (l: char)
    ensures !('A' <= l <= 'Z')
  {
    if 'A' <= c <= 'Z' then (c as int + 32) as char else c
  }

  predicate EqualsCI(a: string, b: string) {
    |a| == |b| && forall i :: 0 <= i < |a| ==> Lower(a[i]) == Lower(b[i])
  }

  predicate OccursAtCI(s: string, sub: string, i: int) {
    0 <= i && i + |sub| <= |s| && EqualsCI(s[i..i + |sub|], sub)
  }

  predicate StartsWithCI(s: string, prefix: string) {
    OccursAtCI(s, prefix, 0)
  }

  predicate ContainsCI(s: string, sub: string) {
    exists i :: 0 <= i <= |s| - |sub| && OccursAtCI(s, sub, i)
  }

  predicate IsDigit(c: char) { '0' <= c <= '9' }

  predicate IsRadixDigit(c: char, hex: bool) {
    IsDigit(c) || (hex && ('a' <= c <= 'f' || 'A' <= c <= 'F'))
  }

  predicate AllRadixDigits(d: string, hex: bool) {
    forall i :: 0 <= i < |d| ==> IsRadixDigit(d[i], hex)
  }

  function DigitValue(c: char): (v: nat)
    requires IsRadixDigit(c, true)
    ensures v < 16 && (IsDigit(c) <==> v < 10)
  {
    if IsDigit(c) then c as int - '0' as int
    else if 'a' <= c <= 'f' then c as int - 'a' as int + 10
    else c as int - 'A' as int + 10
  }

  /** The longest prefix of `s` made of digits of the radix (10, or 16 when `hex`). */
  function DigitPrefix(s: string, hex: bool): (d: string)
    ensures |d| <= |s| && d == s[..|d|] && AllRadixDigits(d, hex)
    ensures |d| == |s| || !IsRadixDigit(s[|d|], hex)
  {
    if |s| == 0 || !IsRadixDigit(s[0], hex) then [] else [s[0]] + DigitPrefix(s[1..], hex)
  }

  /** The number a digit string denotes in radix 10 (or 16 when `hex`). */
  function DigitsValue(d: string, hex: bool): nat
    requires AllRadixDigits(d, hex)
  {
    if d == [] then 0
    else DigitsValue(d[..|d| - 1], hex) * (if hex then 16 else 10) + DigitValue(d[|d| - 1])
  }

  /**
   * parseInt(s) with no radix: leading white space skipped, one optional sign,
   * an optional 0x/0X prefix selecting radix 16, then the longest run of digits;
   * None stands for NaN (no digit at all).
   */
  function ParseInt(s: string): Option<int> {
    var t := TrimStart(s);
    if |t| > 0 && t[0] == '-' then
      match ParseUnsigned(t[1..])
      case None => None
      case Some(v) => Some(-v)
    else if |t| > 0 && t[0] == '+' then ParseUnsigned(t[1..])
    else ParseUnsigned(t)
  }

  /** The part of parseInt after the sign: radix prefix and digits. */
  function ParseUnsigned(u: string): (r: Option<int>)
    ensures r.Some? ==> r.value >= 0
  {
    var hex := |u| >= 2 && u[0] == '0' && (u[1] == 'x' || u[1] == 'X');
    var d := DigitPrefix(if hex then u[2..] else u, hex);
    if d == [] then None else Some(DigitsValue(d, hex))
  }

  function DigitChar(v: nat): (c: char)
    requires v < 10
    ensures IsDigit(c) && DigitValue(c) == v
  {
    ('0' as int + v) as char
  }

  /** The decimal numeral of a natural number, without leading zeros. */
  function NatToString(n: nat): (s: string)
    ensures s != [] && AllRadixDigits(s, false)
  {
    if n < 10 then [DigitChar(n)] else NatToString(n / 10) + [DigitChar(n % 10)]
  }

  /** Number-to-string conversion of an integer (`n + ''`). */
  function IntToString(n: int): string {
    if n < 0 then "-" + NatToString(-n) else NatToString(n)
  }

  lemma {:induction false} NatToStringValue(n: nat)
    ensures DigitsValue(NatToString(n), false) == n
    ensures NatToString(n)[0] == '0' ==> n == 0
  {
    if n >= 10 {
      NatToStringValue(n / 10);
      var s := NatToString(n);
      assert s[..|s| - 1] == NatToString(n / 10);
      assert s[0] == NatToString(n / 10)[0];
    }
  }

  lemma {:induction false} DigitPrefixOfDigits(d: string, rest: string, hex: bool)
    requires AllRadixDigits(d, hex)
    requires rest == [] || !IsRadixDigit(rest[0], hex)
    ensures DigitPrefix(d + rest, hex) == d
    decreases |d|
  {
    var s := d + rest;
    if d == [] {
      assert s == rest;
    } else {
      assert s[0] == d[0] && IsRadixDigit(s[0], hex);
      assert s[1..] == d[1..] + rest;
      DigitPrefixOfDigits(d[1..], rest, hex);
      assert DigitPrefix(s, hex) == [s[0]] + DigitPrefix(s[1..], hex);
      assert [d[0]] + d[1..] == d;
    }
  }

  /**
   * parseInt reads back the integer a number-to-string conversion wrote,
   * whatever follows it, provided that it does not continue the numeral
   * (a digit) or turn a lone "0" into a hexadecimal prefix.
   */
  lemma {:induction false} ParseIntOfIntToString(n: int, rest: string)
    requires rest == [] || !IsDigit(rest[0])
    requires n == 0 && rest != [] ==> rest[0] != 'x' && rest[0] != 'X'
    ensures ParseInt(IntToString(n) + rest) == Some(n)
  {
    if n < 0 {
      ParseIntOfNegative(n, rest);
    } else {
      ParseIntOfNatural(n, rest);
    }
  }

  /** The negative case: a minus sign, then the magnitude's digits. */
  lemma ParseIntOfNegative(n: int, rest: string)
    requires rest == [] || !IsDigit(rest[0])
    requires n < 0
    ensures ParseInt(IntToString(n) + rest) == Some(n)
  {
    var u := NatToString(-n) + rest;
    ParseUnsignedOfNatToString(-n, rest);
    ParseIntOfMinusValue(u, n);
    NegativeText(n, rest);
  }

  /** parseInt of a minus sign followed by an unsigned numeral is its negation. */
  lemma ParseIntOfMinusValue(u: string, n: int)
    requires ParseUnsigned(u) == Some(-n)
    ensures ParseInt("-" + u) == Some(n)
  {
    var s := "-" + u;
    assert s[0] == '-' && TrimStart(s) == s;
    assert s[1..] == u;
  }

  lemma NegativeText(n: int, rest: string)
    requires n < 0
    ensures IntToString(n) + rest == "-" + (NatToString(-n) + rest)
  {
    assert IntToString(n) == "-" + NatToString(-n);
  }

  /** The case of a natural number: its digits straight away. */
  lemma ParseIntOfNatural(n: int, rest: string)
    requires rest == [] || !IsDigit(rest[0])
    requires n == 0 && rest != [] ==> rest[0] != 'x' && rest[0] != 'X'
    requires n >= 0
    ensures ParseInt(IntToString(n) + rest) == Some(n)
  {
    var digits := NatToString(n);
    ParseUnsignedOfNatToString(n, rest);
    assert IntToString(n) + rest == digits + rest;
    ParseIntOfDigit(digits + rest);
  }

  lemma ParseIntOfDigit(u: string)
    requires u != [] && IsDigit(u[0])
    ensures ParseInt(u) == ParseUnsigned(u)
  {
    assert !IsSpace(u[0]) && u[0] != '-' && u[0] != '+';
    assert TrimStart(u) == u;
  }

  /** parseInt of a string that starts with neither white space, a sign nor a digit is NaN. */
  lemma ParseIntOfWord(u: string)
    requires u != [] && !IsSpace(u[0]) && !IsDigit(u[0]) && u[0] != '-' && u[0] != '+'
    ensures ParseInt(u) == None
  {
    assert TrimStart(u) == u;
    assert DigitPrefix(u, false) == [];
  }

  lemma {:induction false} ParseUnsignedOfNatToString(m: nat, rest: string)
    requires rest == [] || !IsDigit(rest[0])
    requires m == 0 && rest != [] ==> rest[0] != 'x' && rest[0] != 'X'
    ensures ParseUnsigned(NatToString(m) + rest) == Some(m)
  {
    var digits := NatToString(m);
    NatToStringValue(m);
    DigitPrefixOfDigits(digits, rest, false);
    var u := digits + rest;
    if m == 0 {
      assert digits == "0";
      assert !(|u| >= 2 && (u[1] == 'x' || u[1] == 'X'));
    } else {
      assert u[0] == digits[0] != '0';
    }
  }

  /** Distinct integers render as distinct strings. */
  lemma IntToStringInjective(a: int, b: int)
    requires IntToString(a) == IntToString(b)
    ensures a == b
  {
    ParseIntOfIntToString(a, []);
    ParseIntOfIntToString(b, []);
    assert IntToString(a) + [] == IntToString(b) + [];
  }
}
