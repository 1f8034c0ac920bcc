/** `parseBrazilianNumber` of csvParser.ts: dots are thousands separators,
    the first comma is the decimal separator, and the cleaned text is read
    by JavaScript's `parseFloat`, modelled here as the longest decimal
    prefix (sign, digits, optional fraction, optional exponent). */
module BrazilianNumber {
  import opened Wrappers
  import opened JsText

  /** The argument of `parseBrazilianNumber`: a number, a string, or the
      `undefined` a row yields for a header it does not have. */
  datatype NumberArg = Num(n: real) | Text(s: string) | Undefined

  predicate IsDigit(c: char) { '0' <= c <= '9' }

  predicate AllDigits(s: string) {
    forall i :: 0 <= i < |s| ==> IsDigit(s[i])
  }

  function DigitValue(c: char): nat
    requires IsDigit(c)
  {
    c as int - '0' as int
  }

  /** The value of a run of decimal digits, most significant first. */
  function DigitsValue(d: string): nat
    requires AllDigits(d)
  {
    if d == [] then 0 else 10 * DigitsValue(d[..|d| - 1]) + DigitValue(d[|d| - 1])
  }

  function Pow10(n: nat): (r: nat)
    ensures r >= 1
  {
    if n == 0 then 1 else 10 * Pow10(n - 1)
  }

  /** 10 raised to an integer exponent */
  function Scale(e: int): (r: real)
    ensures r > 0.0
  {
    if e >= 0 then Pow10(e) as real else 1.0 / Pow10(-e) as real
  }

  /** The longest prefix of `s` made of digits. */
  function DigitRun(s: string): (r: string)
    ensures |r| <= |s| && r == s[..|r|] && AllDigits(r)
    ensures |r| == |s| || !IsDigit(s[|r|])
  {
    if s == [] || !IsDigit(s[0]) then []
    else
      var r := DigitRun(s[1..]);
      assert [s[0]] + r == s[..|r| + 1];
      [s[0]] + r
  }

  /** `t` without a leading `+` or `-` */
  function Unsigned(t: string): string {
    if |t| > 0 && (t[0] == '+' || t[0] == '-') then t[1..] else t
  }

  /** True when `u` begins with something `parseFloat` reads as a number:
      a digit, or a point followed by a digit. */
  predicate StartsNumeric(u: string) {
    |u| > 0 && (IsDigit(u[0]) || (u[0] == '.' && |u| > 1 && IsDigit(u[1])))
  }

  /** The exponent that an `e`/`E` part at the head of `tail` denotes, or 0
      when there is none (or it has no digits and so is not read). */
  function ExponentOf(tail: string): int {
    if |tail| > 0 && (tail[0] == 'e' || tail[0] == 'E') then
      var digits := DigitRun(Unsigned(tail[1..]));
      if digits == [] then 0
      else if |tail| > 1 && tail[1] == '-' then -(DigitsValue(digits) as int)
      else DigitsValue(digits)
    else 0
  }

  function MantissaValue(intDigits: string, fracDigits: string): real
    requires AllDigits(intDigits) && AllDigits(fracDigits)
  {
    DigitsValue(intDigits) as real + DigitsValue(fracDigits) as real / Pow10(|fracDigits|) as real
  }

  /** The value of a mantissa scaled by its exponent. */
  function Magnitude(intDigits: string, fracDigits: string, e: int): (r: real)
    requires AllDigits(intDigits) && AllDigits(fracDigits)
    ensures e == 0 ==> r == MantissaValue(intDigits, fracDigits)
  {
    MantissaValue(intDigits, fracDigits) * Scale(e)
  }

  /** `parseFloat(s)`, with NaN as None: leading white space is skipped,
      then an optional sign, then the longest numeral. */
  function ParseFloat(s: string): (r: Option<real>)
    ensures r.Some? <==> StartsNumeric(Unsigned(TrimStart(s)))
  {
    var t := TrimStart(s);
    match ParseUnsigned(Unsigned(t))
    case None => None
    case Some(m) => Some(if |t| > 0 && t[0] == '-' then -m else m)
  }

  /** The value of the longest numeral at the head of `u`: digits, an
      optional fraction, an optional exponent. */
  function ParseUnsigned(u: string): (r: Option<real>)
    ensures r.Some? <==> StartsNumeric(u)
  {
    var intDigits := DigitRun(u);
    var rest := u[|intDigits|..];
    var fracDigits := FractionDigits(rest);
    if intDigits == [] && fracDigits == [] then None
    else Some(Magnitude(intDigits, fracDigits, ExponentOf(AfterFraction(rest))))
  }

  /** The digits after a leading `.` of `rest`; none when there is no point. */
  function FractionDigits(rest: string): (r: string)
    ensures AllDigits(r)
    ensures if |rest| > 0 && rest[0] == '.' then 1 + |r| <= |rest| && r == DigitRun(rest[1..]) else r == []
  {
    if |rest| > 0 && rest[0] == '.' then DigitRun(rest[1..]) else []
  }

  /** What follows the fraction, where an exponent may stand. */
  function AfterFraction(rest: string): string {
    if |rest| > 0 && rest[0] == '.' then rest[1 + |FractionDigits(rest)|..] else rest
  }

  /** The text `parseFloat` receives: every `.` removed, then the first `,`
      turned into `.`. */
  function Clean(s: string): string {
    ReplaceFirstComma(RemoveDots(s))
  }

  function ParseBrazilianNumber(v: NumberArg): (r: Option<real>)
    ensures v.Num? ==> r == Some(v.n)
    ensures v.Undefined? || (v.Text? && (v.s == "-" || AllWhitespace(v.s))) ==> r.None?
    ensures v.Text? && r.Some? ==> StartsNumeric(Unsigned(TrimStart(Clean(v.s))))
  {
    match v
    case Num(n) => Some(n)
    case Undefined => None
    case Text(s) =>
      TrimEmptyIff(s);
      if s == [] || s == "-" || Trim(s) == [] then None
      else ParseFloat(Clean(s))
  }

  /** The cleaned text holds at most one `.`: the one standing where the
      first comma was. Later commas stay commas. */
  lemma CleanKeepsOnePoint(s: string)
    ensures forall i, j :: 0 <= i < j < |Clean(s)| ==> !(Clean(s)[i] == '.' && Clean(s)[j] == '.')
    ensures (',' in s) == ('.' in Clean(s))
  {
    var d := RemoveDots(s);
    var c := Clean(s);
    match IndexOf(d, ',')
    case None =>
      assert c == d;
    case Some(k) =>
      assert c == d[..k] + "." + d[k + 1..];
      assert c[k] == '.';
  }

  lemma {:induction false} RemoveDotsOfDigits(d: string)
    requires AllDigits(d)
    ensures RemoveDots(d) == d
  {
    if d != [] {
      RemoveDotsOfDigits(d[1..]);
    }
  }

  lemma {:induction false} RemoveDotsAppend(a: string, b: string)
    ensures RemoveDots(a + b) == RemoveDots(a) + RemoveDots(b)
  {
    if a == [] {
      assert a + b == b;
    } else {
      assert (a + b)[0] == a[0];
      assert (a + b)[1..] == a[1..] + b;
      RemoveDotsAppend(a[1..], b);
    }
  }

  lemma {:induction false} RemoveDotsOfGrouped(g: string)
    requires forall i :: 0 <= i < |g| ==> IsDigit(g[i]) || g[i] == '.'
    ensures AllDigits(RemoveDots(g))
  {
    if g != [] {
      RemoveDotsOfGrouped(g[1..]);
    }
  }

  lemma DigitRunOfDigitsThen(d: string, rest: string)
    requires AllDigits(d)
    requires rest == [] || !IsDigit(rest[0])
    ensures DigitRun(d + rest) == d
  {
    if d != [] {
      assert (d + rest)[1..] == d[1..] + rest;
      DigitRunOfDigitsThen(d[1..], rest);
    }
  }

  /** `parseFloat` reads a plain decimal numeral exactly. */
  lemma ParseFloatOfNumeral(d: string, f: string, withPoint: bool)
    requires AllDigits(d) && d != [] && AllDigits(f)
    requires !withPoint ==> f == []
    ensures ParseFloat(if withPoint then d + "." + f else d) == Some(MantissaValue(d, f))
  {
    if withPoint {
      ParseFloatOfPointed(d, f);
    } else {
      ParseFloatOfInteger(d);
    }
  }

  lemma ParseFloatOfInteger(d: string)
    requires AllDigits(d) && d != []
    ensures ParseFloat(d) == Some(MantissaValue(d, []))
  {
    DigitHeadIsUnpadded(d);
    DigitRunOfDigitsThen(d, []);
    assert d + [] == d;
    assert d[|d|..] == [];
    NoExponent([]);
  }

  lemma ParseFloatOfPointed(d: string, f: string)
    requires AllDigits(d) && d != [] && AllDigits(f)
    ensures ParseFloat(d + "." + f) == Some(MantissaValue(d, f))
  {
    ParseFloatOfDecimal(d, f, []);
    assert d + "." + f + [] == d + "." + f;
  }

  /** Text that starts with a digit has no leading blank and no sign. */
  lemma DigitHeadIsUnpadded(s: string)
    requires s != [] && IsDigit(s[0])
    ensures TrimStart(s) == s && Unsigned(s) == s
  {
    assert !IsJsWhitespace(s[0]);
  }

  lemma NoExponent(tail: string)
    requires tail == [] || (tail[0] != 'e' && tail[0] != 'E')
    ensures ExponentOf(tail) == 0
  {
  }

  /** `parseFloat` stops at the first character after the fraction that
      cannot continue the number. */
  lemma ParseFloatOfDecimal(d: string, f: string, tail: string)
    requires AllDigits(d) && d != [] && AllDigits(f)
    requires tail == [] || (!IsDigit(tail[0]) && tail[0] != 'e' && tail[0] != 'E')
    ensures ParseFloat(d + "." + f + tail) == Some(MantissaValue(d, f))
  {
    var s := d + "." + f + tail;
    assert s == d + ("." + f + tail);
    assert s[0] == d[0];
    DigitHeadIsUnpadded(s);
    ParseUnsignedDecimal(d, f, tail);
  }

  lemma ParseUnsignedDecimal(d: string, f: string, tail: string)
    requires AllDigits(d) && d != [] && AllDigits(f)
    requires tail == [] || (!IsDigit(tail[0]) && tail[0] != 'e' && tail[0] != 'E')
    ensures ParseUnsigned(d + ("." + f + tail)) == Some(MantissaValue(d, f))
  {
    var rest := "." + f + tail;
    DigitRunOfDigitsThen(d, rest);
    assert (d + rest)[|d|..] == rest;
    FractionOfPoint(f, tail);
    NoExponent(tail);
  }

  lemma FractionOfPoint(f: string, tail: string)
    requires AllDigits(f)
    requires tail == [] || !IsDigit(tail[0])
    ensures FractionDigits("." + f + tail) == f
    ensures AfterFraction("." + f + tail) == tail
  {
    var rest := "." + f + tail;
    assert rest[1..] == f + tail;
    DigitRunOfDigitsThen(f, tail);
    assert rest[1 + |f|..] == tail;
  }

  lemma RemoveDotsBeforeComma(g: string, f: string)
    requires AllDigits(f)
    ensures RemoveDots(g + "," + f) == RemoveDots(g) + "," + f
  {
    RemoveDotsAppend(g, "," + f);
    RemoveDotsOfCommaThen(f);
    assert g + "," + f == g + ("," + f);
  }

  lemma RemoveDotsOfCommaThen(f: string)
    requires AllDigits(f)
    ensures RemoveDots("," + f) == "," + f
  {
    RemoveDotsAppend(",", f);
    RemoveDotsOfDigits(f);
    assert RemoveDots(",") == ",";
  }

  lemma CleanOfGrouped(g: string, f: string, withComma: bool)
    requires forall i :: 0 <= i < |g| ==> IsDigit(g[i]) || g[i] == '.'
    requires AllDigits(f)
    ensures Clean(if withComma then g + "," + f else g)
            == if withComma then RemoveDots(g) + "." + f else RemoveDots(g)
  {
    RemoveDotsOfGrouped(g);
    var d := RemoveDots(g);
    assert ',' !in d;
    if withComma {
      RemoveDotsBeforeComma(g, f);
      var t := d + "," + f;
      IndexOfAfterPrefix(d, f);
      assert t[..|d|] == d;
      assert t[|d| + 1..] == f;
      assert ReplaceFirstComma(t) == d + "." + f;
    } else {
      assert IndexOf(d, ',') == None;
    }
  }

  lemma IndexOfAfterPrefix(d: string, f: string)
    requires ',' !in d
    ensures IndexOf(d + "," + f, ',') == Some(|d|)
  {
    var r := IndexOf(d + "," + f, ',');
    assert (d + "," + f)[|d|] == ',';
    assert (d + "," + f)[..|d|] == d;
  }

  /** The documented reading of a Brazilian numeral: an integer part whose
      digits may be grouped by dots, then optionally a comma and decimal
      digits, parses to the value the digits denote. */
  lemma ParseBrazilianGrouped(g: string, f: string, withComma: bool)
    requires forall i :: 0 <= i < |g| ==> IsDigit(g[i]) || g[i] == '.'
    requires exists i :: 0 <= i < |g| && IsDigit(g[i])
    requires AllDigits(f)
    requires !withComma ==> f == []
    ensures AllDigits(RemoveDots(g))
    ensures ParseBrazilianNumber(Text(if withComma then g + "," + f else g))
            == Some(MantissaValue(RemoveDots(g), f))
  {
    var s := if withComma then g + "," + f else g;
    RemoveDotsOfGrouped(g);
    GroupedIsNumeral(g, f, withComma);
    ParseOfNumeral(s);
    CleanOfGrouped(g, f, withComma);
    ParseFloatOfNumeral(RemoveDots(g), f, withComma);
  }

  /** Grouped digits hold a digit that survives the cleaning, so the text
      is neither empty, "-" nor blank. */
  lemma GroupedIsNumeral(g: string, f: string, withComma: bool)
    requires exists i :: 0 <= i < |g| && IsDigit(g[i])
    ensures var s := if withComma then g + "," + f else g;
      s != [] && s != "-" && !AllWhitespace(s) && RemoveDots(g) != []
  {
    var s := if withComma then g + "," + f else g;
    var i :| 0 <= i < |g| && IsDigit(g[i]);
    assert g[i] in RemoveDots(g);
    assert s[i] == g[i];
    assert !IsJsWhitespace(s[i]);
  }

  lemma {:induction false} DigitsValueAppend(a: string, b: string)
    requires AllDigits(a) && AllDigits(b)
    ensures AllDigits(a + b)
    ensures DigitsValue(a + b) == DigitsValue(a) * Pow10(|b|) + DigitsValue(b)
  {
    assert AllDigits(a + b) by {
      forall i | 0 <= i < |a + b| ensures IsDigit((a + b)[i]) {
        if i < |a| { assert (a + b)[i] == a[i]; } else { assert (a + b)[i] == b[i - |a|]; }
      }
    }
    if b == [] {
      assert a + b == a;
    } else {
      var b' := b[..|b| - 1];
      var last := DigitValue(b[|b| - 1]);
      assert (a + b)[..|a + b| - 1] == a + b';
      assert (a + b)[|a + b| - 1] == b[|b| - 1];
      DigitsValueAppend(a, b');
      assert DigitsValue(a + b) == 10 * DigitsValue(a + b') + last;
      assert DigitsValue(b) == 10 * DigitsValue(b') + last;
      ShiftDigit(DigitsValue(a), Pow10(|b'|), DigitsValue(b'), last);
    }
  }

  lemma ShiftDigit(x: int, p: int, y: int, last: int)
    ensures 10 * (x * p + y) + last == x * (10 * p) + (10 * y + last)
  {
  }

  lemma DigitsValueOfThree(c0: char, c1: char, c2: char)
    requires IsDigit(c0) && IsDigit(c1) && IsDigit(c2)
    ensures AllDigits([c0, c1, c2])
    ensures DigitsValue([c0, c1, c2]) == 100 * DigitValue(c0) + 10 * DigitValue(c1) + DigitValue(c2)
  {
    assert [c0, c1, c2][..2] == [c0, c1];
    assert [c0, c1][..1] == [c0];
    assert [c0][..0] == [];
    assert DigitsValue([c0]) == DigitValue(c0);
    assert DigitsValue([c0, c1]) == 10 * DigitValue(c0) + DigitValue(c1);
  }

  /** "1.234.567,89" reads as 1234567.89. */
  lemma ExampleGroupedMillions(s: string)
    requires s == "1.234.567,89"
    ensures ParseBrazilianNumber(Text(s)) == Some(1234567.89)
  {
    var g, f := "1.234.567", "89";
    SplitAtComma(s, g, f);
    GroupedMillionsValue(g, f);
  }

  lemma GroupedMillionsValue(g: string, f: string)
    requires g == "1.234.567" && f == "89"
    ensures ParseBrazilianNumber(Text(g + "," + f)) == Some(1234567.89)
  {
    assert IsDigit(g[0]);
    ParseBrazilianGrouped(g, f, true);
    GroupedMillionsDots(g);
    MillionsMantissa(RemoveDots(g), f);
  }

  lemma MillionsMantissa(d: string, f: string)
    requires d == "1" + "234" + "567" && f == "89"
    ensures AllDigits(d) && AllDigits(f)
    ensures MantissaValue(d, f) == 1234567.89
  {
    MillionsValue("1", "234", "567");
    assert DigitsValue(f) == 89 by { assert f[..1] == "8"; assert "8"[..0] == ""; }
    assert Pow10(|f|) == 100;
  }

  lemma SplitAtComma(s: string, g: string, f: string)
    requires s == "1.234.567,89" && g == "1.234.567" && f == "89"
    ensures s == g + "," + f
  {
    var l := g + "," + f;
    forall i | 0 <= i < |l| ensures l[i] == s[i] {}
  }

  lemma GroupedMillionsDots(g: string)
    requires g == "1.234.567"
    ensures RemoveDots(g) == "1" + "234" + "567"
  {
    assert g == "1" + ".234" + ".567" by {
      forall i | 0 <= i < |g| ensures g[i] == ("1" + ".234" + ".567")[i] {}
    }
    RemoveDotsAppend("1" + ".234", ".567");
    RemoveDotsAppend("1", ".234");
    RemoveDotsOfDigits("1");
    RemoveDotsOfDigits("234");
    RemoveDotsOfDigits("567");
    assert ".234"[1..] == "234";
    assert ".567"[1..] == "567";
  }

  lemma MillionsValue(a: string, b: string, c: string)
    requires a == "1" && b == "234" && c == "567"
    ensures AllDigits(a + b + c) && DigitsValue(a + b + c) == 1234567
  {
    DigitsValueOfThree('2', '3', '4');
    DigitsValueOfThree('5', '6', '7');
    assert b == ['2', '3', '4'];
    assert c == ['5', '6', '7'];
    assert DigitsValue(a) == 1 by { assert a[..0] == ""; }
    assert Pow10(3) == 1000;
    DigitsValueAppend(a, b);
    var ab := DigitsValue(a + b);
    assert ab == 1234;
    DigitsValueAppend(a + b, c);
    assert DigitsValue(a + b + c) == ab * 1000 + 567;
  }

  /** Only the first comma becomes a decimal point: "1,5,3" is cleaned to
      "1.5,3", of which `parseFloat` reads 1.5. */
  lemma ExampleSecondCommaIgnored(s: string)
    requires s == "1,5,3"
    ensures ParseBrazilianNumber(Text(s)) == Some(1.5)
  {
    assert s != "-" by { assert |s| == 5; }
    assert !AllWhitespace(s) by { assert !IsJsWhitespace(s[0]); }
    ParseOfNumeral(s);
    var t := "1.5,3";
    CleanOfTwoCommas(s, t);
    ParseFloatStopsAtComma(t, "1", "5", ",3");
  }

  /** Text that is neither empty, "-" nor blank goes to `parseFloat`
      cleaned. */
  lemma ParseOfNumeral(s: string)
    requires s != [] && s != "-" && !AllWhitespace(s)
    ensures ParseBrazilianNumber(Text(s)) == ParseFloat(Clean(s))
  {
    TrimEmptyIff(s);
  }

  lemma CleanOfTwoCommas(s: string, t: string)
    requires s == "1,5,3" && t == "1.5,3"
    ensures Clean(s) == t
  {
    RemoveDotsOfDigitsAndCommas(s);
    assert IndexOf(s, ',') == Some(1) by { assert s[0] != ',' && s[1] == ','; }
    var l := s[..1] + "." + s[2..];
    forall i | 0 <= i < |l| ensures l[i] == t[i] {}
  }

  lemma ParseFloatStopsAtComma(t: string, d: string, f: string, tail: string)
    requires t == "1.5,3" && d == "1" && f == "5" && tail == ",3"
    ensures ParseFloat(t) == Some(1.5)
  {
    OneFiveParts(t, d, f, tail);
    ParseFloatOfDecimal(d, f, tail);
    OneAndAHalf(d, f);
  }

  lemma OneFiveParts(t: string, d: string, f: string, tail: string)
    requires t == "1.5,3" && d == "1" && f == "5" && tail == ",3"
    ensures AllDigits(d) && d != [] && AllDigits(f) && tail != [] && tail[0] == ','
    ensures t == d + "." + f + tail
  {
    assert IsDigit(d[0]) && IsDigit(f[0]);
  }

  lemma OneAndAHalf(d: string, f: string)
    requires d == "1" && f == "5"
    ensures MantissaValue(d, f) == 1.5
  {
    assert DigitsValue(d) == 1 by { assert d[..0] == ""; }
    assert DigitsValue(f) == 5 by { assert f[..0] == ""; }
  }

  lemma {:induction false} RemoveDotsOfDigitsAndCommas(s: string)
    requires forall i :: 0 <= i < |s| ==> IsDigit(s[i]) || s[i] == ','
    ensures RemoveDots(s) == s
  {
    if s != [] {
      RemoveDotsOfDigitsAndCommas(s[1..]);
    }
  }
}
