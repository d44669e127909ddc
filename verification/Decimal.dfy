/** Decimal rendering of counters and offsets, and `parseInt` on any string. */
module Decimal {
  import opened Wrappers
  import opened Text

  predicate IsDigit(c: char) {
    '0' <= c <= '9'
  }

  function DigitOf(d: nat): (c: char)
    requires d < 10
    ensures IsDigit(c)
  {
    '0' + d as char
  }

  function Of(n: nat): (s: string)
    ensures s != "" && forall i | 0 <= i < |s| :: IsDigit(s[i])
  {
    if n < 10 then [DigitOf(n)] else Of(n / 10) + [DigitOf(n % 10)]
  }

  /** What a character is worth as a digit; 16 for none. */
  function DigitValue(c: char): (v: nat)
    ensures IsDigit(c) ==> v < 10
  {
    if IsDigit(c) then c as int - '0' as int
    else if 'a' <= c <= 'f' then 10 + c as int - 'a' as int
    else if 'A' <= c <= 'F' then 10 + c as int - 'A' as int
    else 16
  }

  /** The leading digits in the given radix. */
  function DigitPrefix(s: string, radix: nat): (p: string)
    ensures p <= s && forall i | 0 <= i < |p| :: DigitValue(p[i]) < radix
    ensures |p| < |s| ==> DigitValue(s[|p|]) >= radix
  {
    if s != "" && DigitValue(s[0]) < radix then [s[0]] + DigitPrefix(s[1..], radix) else ""
  }

  function Value(s: string, radix: nat): nat {
    if s == "" then 0 else radix * Value(s[..|s| - 1], radix) + DigitValue(s[|s| - 1])
  }

  predicate HexMark(s: string) {
    |s| >= 2 && s[0] == '0' && s[1] in {'x', 'X'}
  }

  /** The number at the start of `u`: `0x` for hexadecimal, then the longest run of digits. */
  function Unsigned(u: string): Option<nat> {
    var radix := if HexMark(u) then 16 else 10;
    var digits := DigitPrefix(if HexMark(u) then u[2..] else u, radix);
    if digits == "" then None else Some(Value(digits, radix))
  }

  /**
   * `parseInt` without a radix: white space, a sign, the number, whatever follows it; `None` stands
   * for NaN.
   */
  function ParseInt(s: string): Option<int> {
    var t := TrimStart(s);
    match Unsigned(if t != "" && t[0] in {'-', '+'} then t[1..] else t)
    case None => None
    case Some(n) =>
      var value: int := n;
      Some(if t != "" && t[0] == '-' then -value else value)
  }

  lemma {:induction false} ValueOf(n: nat)
    ensures Value(Of(n), 10) == n
  {
    if n >= 10 {
      ValueOf(n / 10);
      assert Of(n)[..|Of(n)| - 1] == Of(n / 10);
    } else {
      assert Of(n)[..0] == "";
    }
  }

  lemma {:induction false} DigitPrefixOf(s: string, rest: string, radix: nat)
    requires forall i | 0 <= i < |s| :: DigitValue(s[i]) < radix
    requires rest != "" ==> DigitValue(rest[0]) >= radix
    ensures DigitPrefix(s + rest, radix) == s
  {
    hide DigitValue;
    if s == "" {
      assert s + rest == rest;
    } else {
      assert (s + rest)[1..] == s[1..] + rest;
      DigitPrefixOf(s[1..], rest, radix);
      assert s == [s[0]] + s[1..];
    }
  }

  lemma UnsignedOf(n: nat, rest: string)
    requires rest != "" ==> !IsDigit(rest[0]) && (Of(n) == "0" ==> rest[0] !in {'x', 'X'})
    ensures Unsigned(Of(n) + rest) == Some(n)
  {
    hide Of, Value, DigitPrefix;
    var digits := Of(n);
    var u := digits + rest;
    assert digits[0] == u[0] && IsDigit(digits[0]);
    assert |digits| > 1 ==> IsDigit(digits[1]) && u[1] == digits[1];
    OneDigit(n);
    assert !HexMark(u);
    assert rest != "" ==> DigitValue(rest[0]) >= 10;
    DigitPrefixOf(digits, rest, 10);
    ValueOf(n);
  }

  lemma SkipBlanks(blanks: string, t: string)
    requires Blank(blanks) && t != "" && (IsDigit(t[0]) || t[0] in {'+', '-'})
    ensures TrimStart(blanks + t) == t
  {
    hide IsSpace;
    FirstIsNoSpace(t[0]);
    TrimStartSkips(blanks, t);
  }

  /**
   * A rendered number is read back with white space and a sign before it and anything but a digit
   * after it, `0x` aside.
   */
  lemma ParseIntReads(blanks: string, sign: string, n: nat, rest: string)
    requires Blank(blanks) && sign in {"", "+", "-"}
    requires rest != "" ==> !IsDigit(rest[0]) && (Of(n) == "0" ==> rest[0] !in {'x', 'X'})
    ensures ParseInt(blanks + sign + Of(n) + rest) == Some(if sign == "-" then -(n as int) else n)
  {
    hide Of, Unsigned, ParseInt, IsDigit, Blank;
    var u := Of(n) + rest;
    assert u[0] == Of(n)[0];
    assert blanks + sign + Of(n) + rest == blanks + (sign + u);
    UnsignedOf(n, rest);
    ParseIntOfSigned(blanks, sign, u);
  }

  lemma ParseIntOfSigned(blanks: string, sign: string, u: string)
    requires Blank(blanks) && sign in {"", "+", "-"} && u != "" && IsDigit(u[0]) && Unsigned(u).Some?
    ensures ParseInt(blanks + (sign + u)) ==
            Some(if sign == "-" then -(Unsigned(u).value as int) else Unsigned(u).value)
  {
    hide Unsigned, TrimStart, Blank;
    var t := sign + u;
    assert sign == "" ==> t == u;
    assert sign != "" ==> t[0] == sign[0] && t[1..] == u;
    SkipBlanks(blanks, t);
  }

  lemma OneDigit(n: nat)
    ensures |Of(n)| == 1 && Of(n)[0] == '0' ==> Of(n) == "0"
  {
    hide Of;
  }

  lemma FirstIsNoSpace(c: char)
    requires IsDigit(c) || c in {'+', '-'}
    ensures !IsSpace(c)
  {
  }

  /** Reading a rendered number back gives the number. */
  lemma ParseIntOf(n: nat)
    ensures ParseInt(Of(n)) == Some(n)
  {
    hide Of, ParseInt, IsSpace;
    ParseIntReads("", "", n, "");
    assert "" + "" + Of(n) + "" == Of(n);
  }

  function HexDigit(d: nat): char
    requires d < 16
  {
    if d < 10 then DigitOf(d) else 'a' + (d - 10) as char
  }

  function Hex(n: nat): (s: string)
    ensures s != "" && forall i | 0 <= i < |s| :: DigitValue(s[i]) < 16
  {
    if n < 16 then [HexDigit(n)] else Hex(n / 16) + [HexDigit(n % 16)]
  }

  lemma {:induction false} ValueOfHex(n: nat)
    ensures Value(Hex(n), 16) == n
  {
    if n >= 16 {
      ValueOfHex(n / 16);
      assert Hex(n)[..|Hex(n)| - 1] == Hex(n / 16);
    } else {
      assert Hex(n)[..0] == "";
    }
  }

  /** After `0x` the number is read in base sixteen. */
  lemma ParseIntReadsHex(n: nat)
    ensures ParseInt("0x" + Hex(n)) == Some(n)
  {
    hide Hex, Value, DigitPrefix, TrimStart;
    var u := "0x" + Hex(n);
    assert u[0] == '0' && u[1] == 'x' && u[2..] == Hex(n) && "" + u == u;
    SkipBlanks("", u);
    DigitPrefixOf(Hex(n), "", 16);
    assert Hex(n) + "" == Hex(n);
    ValueOfHex(n);
  }

  /** Different numbers are rendered differently. */
  lemma OfInjective(m: nat, n: nat)
    requires Of(m) == Of(n)
    ensures m == n
  {
    ValueOf(m);
    ValueOf(n);
  }
}
