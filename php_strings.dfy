/** The few PHP string primitives the library relies on: decimal text of an
    integer, `trim`, the `(int)` cast of a string and `explode` with limit 2. */
module PhpStrings {
  import opened Failures

  predicate IsDigit(c: char) { '0' <= c <= '9' }

  predicate AllDigits(s: string) { forall i :: 0 <= i < |s| ==> IsDigit(s[i]) }

  function DigitChar(d: nat): (c: char)
    requires d < 10
    ensures IsDigit(c)
  {
    ('0' as int + d) as char
  }

  function DigitValue(c: char): (d: nat)
    requires IsDigit(c)
    ensures d < 10 && DigitChar(d) == c
  {
    c as int - '0' as int
  }

  /** Decimal text of `n` as PHP prints an int: digits only, no leading zero. */
  function NatToString(n: nat): (s: string)
    ensures |s| >= 1 && AllDigits(s)
    ensures s[0] == '0' <==> n == 0
    ensures n == 0 ==> s == "0"
    decreases n
  {
    if n < 10 then [DigitChar(n)] else NatToString(n / 10) + [DigitChar(n % 10)]
  }

  /** PHP's string conversion of an int. */
  function IntToString(i: int): (s: string)
    ensures |s| >= 1
    ensures i < 0 <==> s[0] == '-'
  {
    if i < 0 then "-" + NatToString(-i) else NatToString(i)
  }

  /** The value of a run of decimal digits (the empty run is 0). */
  function DigitsValue(s: string): nat
    requires AllDigits(s)
  {
    if s == [] then 0 else DigitsValue(s[..|s| - 1]) * 10 + DigitValue(s[|s| - 1])
  }

  /** Reading back the decimal text of `n` gives `n`. */
  lemma {:induction false} DigitsValueOfNatToString(n: nat)
    ensures DigitsValue(NatToString(n)) == n
    decreases n
  {
    if n >= 10 {
      var s := NatToString(n);
      assert s[..|s| - 1] == NatToString(n / 10);
      DigitsValueOfNatToString(n / 10);
    }
  }

  /** A digit run without a leading zero is the decimal text of its value. */
  lemma {:induction false} NatToStringOfDigitsValue(s: string)
    requires |s| >= 1 && AllDigits(s)
    requires s[0] == '0' ==> |s| == 1
    ensures NatToString(DigitsValue(s)) == s
    decreases |s|
  {
    if |s| == 1 {
      assert s[..0] == [];
      assert s == [s[0]];
    } else {
      var p := s[..|s| - 1];
      assert p[0] == s[0];
      NatToStringOfDigitsValue(p);
      var v := DigitsValue(s);
      assert DigitsValue(p) != 0;
      assert v / 10 == DigitsValue(p) && v % 10 == DigitValue(s[|s| - 1]);
      assert s == p + [s[|s| - 1]];
    }
  }

  // ---------------------------------------------------------------------------
  // trim()

  /** The characters PHP's `trim` strips by default: " \t\n\r\0\x0B". */
  predicate IsTrimChar(c: char) {
    c == ' ' || c == '\t' || c == '\n' || c == '\r' || c as int == 0 || c as int == 11
  }

  function TrimLeft(s: string): (r: string)
    ensures |r| <= |s| && r == s[|s| - |r|..]
    ensures forall i :: 0 <= i < |s| - |r| ==> IsTrimChar(s[i])
    ensures r != [] ==> !IsTrimChar(r[0])
  {
    if s != [] && IsTrimChar(s[0]) then TrimLeft(s[1..]) else s
  }

  function TrimRight(s: string): (r: string)
    ensures |r| <= |s| && r == s[..|r|]
    ensures forall i :: |r| <= i < |s| ==> IsTrimChar(s[i])
    ensures r != [] ==> !IsTrimChar(r[|r| - 1])
  {
    if s != [] && IsTrimChar(s[|s| - 1]) then TrimRight(s[..|s| - 1]) else s
  }

  /** Where the result of `Trim(s)` starts in `s`. */
  function TrimStart(s: string): nat {
    |s| - |TrimLeft(s)|
  }

  /** PHP's `trim`: the longest infix of `s` that neither starts nor ends with
      a trim character, obtained by dropping trim characters at both ends. */
  function Trim(s: string): (r: string)
    ensures r != [] ==> !IsTrimChar(r[0]) && !IsTrimChar(r[|r| - 1])
    ensures TrimStart(s) + |r| <= |s| && r == s[TrimStart(s)..TrimStart(s) + |r|]
    ensures forall j :: 0 <= j < TrimStart(s) ==> IsTrimChar(s[j])
    ensures forall j :: TrimStart(s) + |r| <= j < |s| ==> IsTrimChar(s[j])
  {
    var l := TrimLeft(s);
    var i := TrimStart(s);
    assert l == s[i..];
    var r := TrimRight(l);
    assert r == l[..|r|];
    forall j | i + |r| <= j < |s|
      ensures IsTrimChar(s[j])
    {
      assert s[j] == l[j - i];
    }
    r
  }

  /** A string that neither starts nor ends with a trim character is its own trim. */
  lemma TrimUnchanged(s: string)
    requires s != [] && !IsTrimChar(s[0]) && !IsTrimChar(s[|s| - 1])
    ensures Trim(s) == s
  {
    assert TrimLeft(s) == s;
    assert TrimRight(s) == s;
  }

  /** PHP's integers: 64-bit two's complement. */
  const PhpIntMin: int := -0x8000_0000_0000_0000
  const PhpIntMax: int := 0x7FFF_FFFF_FFFF_FFFF

  predicate IsPhpInt(x: int) {
    PhpIntMin <= x <= PhpIntMax
  }

  // ---------------------------------------------------------------------------
  // (int) $string

  /** The white space PHP skips before a numeric string: " \t\n\r\v\f". */
  predicate IsCastSpace(c: char) {
    c == ' ' || c == '\t' || c == '\n' || c == '\r' || c as int == 11 || c as int == 12
  }

  function SkipCastSpace(s: string): (r: string)
    ensures r != [] ==> !IsCastSpace(r[0])
  {
    if s != [] && IsCastSpace(s[0]) then SkipCastSpace(s[1..]) else s
  }

  /** Skipping white space leaves a suffix. */
  lemma {:induction false} SkipCastSpaceSuffix(s: string)
    ensures |SkipCastSpace(s)| <= |s| && SkipCastSpace(s) == s[|s| - |SkipCastSpace(s)|..]
    decreases |s|
  {
    if s != [] && IsCastSpace(s[0]) {
      SkipCastSpaceSuffix(s[1..]);
    }
  }

  /** The longest prefix of `s` made of decimal digits. */
  function DigitPrefix(s: string): (p: string)
    ensures AllDigits(p) && |p| <= |s| && p == s[..|p|]
    ensures |p| < |s| ==> !IsDigit(s[|p|])
  {
    if s != [] && IsDigit(s[0]) then [s[0]] + DigitPrefix(s[1..]) else []
  }

  /** `m` shifted `k` decimal places: times 10 to the power `k`, truncated
      toward zero when `k` is negative. */
  function Shift(m: nat, k: int): nat
    decreases if k >= 0 then k else -k
  {
    if k > 0 then 10 * Shift(m, k - 1)
    else if k < 0 then Shift(m / 10, k + 1)
    else m
  }

  /** The exponent at the start of `s`: `e` or `E`, an optional sign and at
      least one digit. None when `s` does not start with one. */
  function ExponentOf(s: string): Option<int> {
    if s != [] && (s[0] == 'e' || s[0] == 'E') then
      var t := s[1..];
      var signed := t != [] && (t[0] == '-' || t[0] == '+');
      var ds := DigitPrefix(if signed then t[1..] else t);
      if ds == [] then None
      else if signed && t[0] == '-' then Some(0 - DigitsValue(ds))
      else Some(DigitsValue(ds))
    else None
  }

  /** `m` shifted by the exponent at the start of `s`, if there is one, less
      `point` places for the fraction digits `m` ends in. */
  function Exponentiated(m: nat, s: string, point: nat): nat {
    var exponent := ExponentOf(s);
    Shift(m, (if exponent.Some? then exponent.value else 0) - point)
  }

  /** The truncated value of the unsigned decimal number at the start of `u`:
      digits, then either a `.` with fraction digits or nothing, then an
      optional exponent. A number needs a digit before or just after the
      point; text that has none reads as 0. */
  function UnsignedCast(u: string): nat {
    var ds := DigitPrefix(u);
    var rest := u[|ds|..];
    if ds == [] && !(|u| >= 2 && u[0] == '.' && IsDigit(u[1])) then 0
    else if rest != [] && rest[0] == '.' then Fraction(DigitsValue(ds), rest[1..])
    else Exponentiated(DigitsValue(ds), rest, 0)
  }

  /** The integer part `m` joined with the fraction digits at the start of
      `t`, shifted by the exponent after them. */
  function Fraction(m: nat, t: string): nat {
    var fs := DigitPrefix(t);
    Exponentiated(Joined(m, fs), t[|fs|..], |fs|)
  }

  /** The value of the digits `fs` appended to the value `m`. */
  function Joined(m: nat, fs: string): nat
    requires AllDigits(fs)
    decreases |fs|
  {
    if fs == [] then m else Joined(10 * m + DigitValue(fs[0]), fs[1..])
  }

  /** PHP's `(int)` cast of a string: leading white space is skipped, an
      optional sign is read, then the leading decimal number, with an optional
      fraction and exponent, truncated toward zero; text after the number is
      ignored, and a string that does not start with a number is 0. */
  function IntCast(s: string): int {
    var t := SkipCastSpace(s);
    if t != [] && t[0] == '-' then 0 - UnsignedCast(t[1..])
    else if t != [] && t[0] == '+' then UnsignedCast(t[1..])
    else UnsignedCast(t)
  }

  /** Text without any digit casts to 0, and only text with a minus sign
      casts to a negative int. */
  lemma IntCastSign(s: string)
    ensures (forall i :: 0 <= i < |s| ==> !IsDigit(s[i])) ==> IntCast(s) == 0
    ensures IntCast(s) < 0 ==> '-' in s
  {
    var t := SkipCastSpace(s);
    SkipCastSpaceSuffix(s);
    assert forall i :: 0 <= i < |t| ==> t[i] == s[|s| - |t| + i];
  }

  /** Digits, an `e` and exponent digits cast to the digits' value times 10
      to the power of the exponent: `(int)"1e3"` is 1000. */
  lemma IntCastScientific(ds: string, es: string)
    requires ds != [] && AllDigits(ds) && es != [] && AllDigits(es)
    ensures IntCast(ds + "e" + es) == Shift(DigitsValue(ds), DigitsValue(es))
  {
    var s := ds + "e" + es;
    assert s == ds + ("e" + es);
    assert IsDigit(s[0]);
    assert SkipCastSpace(s) == s;
    UnsignedCastScientific(ds, es);
  }

  lemma UnsignedCastScientific(ds: string, es: string)
    requires ds != [] && AllDigits(ds) && es != [] && AllDigits(es)
    ensures UnsignedCast(ds + ("e" + es)) == Shift(DigitsValue(ds), DigitsValue(es))
  {
    DigitPrefixBefore(ds, "e" + es);
    assert (ds + ("e" + es))[|ds|..] == "e" + es;
    ExponentOfDigits(es);
  }

  /** `e` before digits is an exponent of their value. */
  lemma ExponentOfDigits(es: string)
    requires es != [] && AllDigits(es)
    ensures ExponentOf("e" + es) == Some(DigitsValue(es))
  {
    assert ("e" + es)[1..] == es;
    assert IsDigit(es[0]);
    DigitPrefixOfDigits(es);
  }

  /** `(int)"1e3"` is 1000: the exponent is applied. */
  lemma IntCastExponentExample()
    ensures IntCast("1e3") == 1000
  {
    assert "1e3" == "1" + "e" + "3";
    IntCastScientific("1", "3");
    assert DigitsValue("1") == 1 && DigitsValue("3") == 3;
    assert Shift(1, 3) == 1000 by { assert Shift(1, 1) == 10; assert Shift(1, 2) == 100; }
  }

  /** Digits, a point, fraction digits, an `e` and exponent digits cast to
      the truncated value of the decimal number they spell. */
  lemma IntCastDecimalScientific(ds: string, fs: string, es: string)
    requires ds != [] && AllDigits(ds) && AllDigits(fs) && es != [] && AllDigits(es)
    ensures IntCast(ds + ("." + (fs + ("e" + es))))
         == Shift(Joined(DigitsValue(ds), fs), DigitsValue(es) - |fs|)
  {
    var s := ds + ("." + (fs + ("e" + es)));
    assert IsDigit(s[0]);
    assert SkipCastSpace(s) == s;
    UnsignedCastDecimal(ds, fs, es);
  }

  lemma UnsignedCastDecimal(ds: string, fs: string, es: string)
    requires ds != [] && AllDigits(ds) && AllDigits(fs) && es != [] && AllDigits(es)
    ensures UnsignedCast(ds + ("." + (fs + ("e" + es))))
         == Shift(Joined(DigitsValue(ds), fs), DigitsValue(es) - |fs|)
  {
    var rest := "." + (fs + ("e" + es));
    var u := ds + rest;
    DigitPrefixBefore(ds, rest);
    assert u[|ds|..] == rest;
    assert rest[1..] == fs + ("e" + es);
    ExponentOfDigits(es);
    FractionOfDigits(DigitsValue(ds), fs, "e" + es, DigitsValue(es));
  }

  lemma FractionOfDigits(m: nat, fs: string, s: string, e: int)
    requires AllDigits(fs) && s != [] && !IsDigit(s[0]) && ExponentOf(s) == Some(e)
    ensures Fraction(m, fs + s) == Shift(Joined(m, fs), e - |fs|)
  {
    DigitPrefixBefore(fs, s);
    assert (fs + s)[|fs|..] == s;
  }

  /** `(int)"1.5e3"` is 1500: the fraction is shifted by the exponent. */
  lemma IntCastFractionExponentExample()
    ensures IntCast("1.5e3") == 1500
  {
    assert "1.5e3" == "1" + ("." + ("5" + ("e" + "3")));
    IntCastDecimalScientific("1", "5", "3");
    assert DigitsValue("1") == 1 && DigitsValue("5") == 5 && DigitsValue("3") == 3;
    assert Joined(1, "5") == 15;
    assert Shift(15, 2) == 1500 by { assert Shift(15, 1) == 150; }
  }

  /** `(int)" -2.5"` is -2: the fraction is truncated toward zero. */
  lemma IntCastTruncatesExample()
    ensures IntCast(" -2.5") == -2
  {
    var s := " -2.5";
    assert SkipCastSpace(s) == s[1..];
    var u := s[2..];
    DigitPrefixBefore("2", ".5");
    assert u == "2" + ".5";
    assert u[2..] == "5";
    assert Fraction(2, "5") == 2 by {
      DigitPrefixOfDigits("5");
      assert Joined(2, "5") == 25;
      assert Shift(25, -1) == 2;
    }
  }

  /** `(int)"12abc"` is 12 and `(int)"1e"` is 1: text after the number, and an
      `e` without exponent digits, are ignored. */
  lemma IntCastTrailingExample()
    ensures IntCast("12abc") == 12
    ensures IntCast("1e") == 1
  {
    DigitPrefixBefore("12", "abc");
    assert "12abc" == "12" + "abc";
    DigitPrefixBefore("1", "e");
    assert "1e" == "1" + "e";
  }

  /** The digit prefix of digits followed by text that does not start with a
      digit is those digits. */
  lemma {:induction false} DigitPrefixBefore(ds: string, rest: string)
    requires AllDigits(ds) && (rest == [] || !IsDigit(rest[0]))
    ensures DigitPrefix(ds + rest) == ds
    decreases |ds|
  {
    if ds != [] {
      assert (ds + rest)[1..] == ds[1..] + rest;
      DigitPrefixBefore(ds[1..], rest);
    }
  }

  /** Whether `s` holds only the white space PHP allows around a numeric string. */
  predicate AllCastSpace(s: string) { forall i :: 0 <= i < |s| ==> IsCastSpace(s[i]) }

  /** The int of an integer numeric string, as PHP reads one when it coerces a
      string to an int-typed property: the value of `IntegerText`, when it
      lies within PHP's 64-bit ints. None for any other text: a longer
      integer string is read as a double, which the int type rejects. */
  function NumericInt(s: string): (r: Option<int>)
    ensures r.Some? <==> IntegerText(s).Some? && IsPhpInt(IntegerText(s).value)
    ensures r.Some? ==> r.value == IntCast(s) && IsPhpInt(r.value)
  {
    var v := IntegerText(s);
    if v.Some? && IsPhpInt(v.value) then v else None
  }

  /** The value of an integer numeric string: optional leading white space,
      an optional sign, one or more digits, optional trailing white space.
      None for any other text. */
  function IntegerText(s: string): (r: Option<int>)
    ensures r.Some? ==> r.value == IntCast(s)
  {
    var t := SkipCastSpace(s);
    var signed := t != [] && (t[0] == '-' || t[0] == '+');
    var u := if signed then t[1..] else t;
    var ds := DigitPrefix(u);
    if ds != [] && AllCastSpace(u[|ds|..]) then
      assert ExponentOf(u[|ds|..]) == None by {
        assert u[|ds|..] == [] || IsCastSpace(u[|ds|..][0]);
      }
      Some(if signed && t[0] == '-' then 0 - DigitsValue(ds) else DigitsValue(ds))
    else None
  }

  lemma {:induction false} DigitPrefixOfDigits(s: string)
    requires AllDigits(s)
    ensures DigitPrefix(s) == s
    decreases |s|
  {
    if s != [] {
      DigitPrefixOfDigits(s[1..]);
    }
  }

  /** Casting the decimal text of an int back to int gives the int. */
  lemma IntCastOfIntToString(i: int)
    ensures IntCast(IntToString(i)) == i
  {
    IntegerTextOfIntToString(i);
  }

  /** The decimal text of a 64-bit int is an integer numeric string that an
      int-typed property accepts as that int. */
  lemma NumericIntOfIntToString(i: int)
    requires IsPhpInt(i)
    ensures NumericInt(IntToString(i)) == Some(i)
  {
    IntegerTextOfIntToString(i);
  }

  /** The decimal text of an int beyond 64 bits is refused. */
  lemma NumericIntOutOfRange(i: int)
    requires !IsPhpInt(i)
    ensures NumericInt(IntToString(i)) == None
  {
    IntegerTextOfIntToString(i);
  }

  /** The decimal text of an int is an integer numeric string of that int. */
  lemma IntegerTextOfIntToString(i: int)
    ensures IntegerText(IntToString(i)) == Some(i)
  {
    if i < 0 {
      assert IntToString(i) == "-" + NatToString(-i);
      IntegerTextOfNegative(-i);
    } else {
      assert IntToString(i) == NatToString(i);
      IntegerTextOfNat(i);
    }
  }

  lemma IntegerTextOfNat(n: nat)
    ensures IntegerText(NatToString(n)) == Some(n)
  {
    IntegerTextOfDigits(NatToString(n));
    DigitsValueOfNatToString(n);
  }

  lemma IntegerTextOfNegative(n: nat)
    requires n > 0
    ensures IntegerText("-" + NatToString(n)) == Some(0 - n)
  {
    var s := "-" + NatToString(n);
    assert s[1..] == NatToString(n);
    IntegerTextOfNegativeDigits(s);
    DigitsValueOfNatToString(n);
  }

  /** A non-empty run of digits is an integer numeric string of its value. */
  lemma IntegerTextOfDigits(u: string)
    requires |u| >= 1 && AllDigits(u)
    ensures IntegerText(u) == Some(DigitsValue(u))
  {
    assert IsDigit(u[0]);
    assert SkipCastSpace(u) == u;
    DigitPrefixOfDigits(u);
    assert u[|u|..] == [];
  }

  /** A minus sign before a non-empty run of digits negates its value. */
  lemma IntegerTextOfNegativeDigits(s: string)
    requires |s| >= 2 && s[0] == '-' && AllDigits(s[1..])
    ensures IntegerText(s) == Some(0 - DigitsValue(s[1..]))
  {
    assert SkipCastSpace(s) == s;
    DigitPrefixOfDigits(s[1..]);
    assert s[1..][|s[1..]|..] == [];
  }

  // ---------------------------------------------------------------------------
  // explode($sep, $s, 2)

  /** PHP's `explode(sep, s, 2)`: `s` itself when `sep` does not occur, else the
      text before the first `sep` and everything after it. */
  function ExplodeOnce(s: string, sep: char): (parts: seq<string>)
    ensures |parts| == 1 <==> sep !in s
    ensures |parts| == 1 ==> parts[0] == s
    ensures |parts| != 1 ==> |parts| == 2 && sep !in parts[0] && s == parts[0] + [sep] + parts[1]
  {
    if s == [] then [s]
    else if s[0] == sep then ["", s[1..]]
    else
      var rest := ExplodeOnce(s[1..], sep);
      assert s == [s[0]] + s[1..];
      if |rest| == 1 then [s] else [[s[0]] + rest[0], rest[1]]
  }

  /** Exploding `c + sep + p` where `c` has no `sep` gives back `c` and `p`. */
  lemma {:induction false} ExplodeAtFirst(c: string, sep: char, p: string)
    requires sep !in c
    ensures ExplodeOnce(c + [sep] + p, sep) == [c, p]
    decreases |c|
  {
    var s := c + [sep] + p;
    if c == [] {
      assert s == [sep] + p;
    } else {
      assert s[0] == c[0] && s[1..] == c[1..] + [sep] + p;
      ExplodeAtFirst(c[1..], sep, p);
      assert [c[0]] + c[1..] == c;
    }
  }
}
