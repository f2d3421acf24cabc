/**
 * Character classes, Python-style string cleaning, parsing of decimal text
 * into exact amounts, and the fixed two-decimal rendering used to write
 * amounts back into the form ('%.2f', optionally with thousands grouping).
 * Amounts are exact `real`s: the binary floating point of the original is
 * not modelled.
 */
module Money {
  import opened Wrappers

  // ---------------------------------------------------------------- characters

  predicate IsDigit(c: char) { '0' <= c <= '9' }
  predicate IsUpper(c: char) { 'A' <= c <= 'Z' }
  predicate IsLower(c: char) { 'a' <= c <= 'z' }
  predicate IsAlnum(c: char) { IsDigit(c) || IsUpper(c) || IsLower(c) }
  /** ASCII part of what Python's str.strip() removes. */
  predicate IsSpace(c: char) { c == ' ' || 9 <= c as int <= 13 || 28 <= c as int <= 31 }

  function DigitVal(c: char): (d: nat)
    requires IsDigit(c)
    ensures d < 10
  {
    c as int - '0' as int
  }

  function DigitChar(d: nat): (c: char)
    requires d < 10
    ensures IsDigit(c) && DigitVal(c) == d
  {
    ('0' as int + d) as char
  }

  predicate AllDigits(s: string) { forall i :: 0 <= i < |s| ==> IsDigit(s[i]) }

  // ---------------------------------------------------------------- cleaning

  /** s.replace(c, '') */
  function Remove(s: string, c: char): (r: string)
    ensures c !in r
    ensures |r| <= |s|
  {
    if s == [] then [] else (if s[0] == c then [] else [s[0]]) + Remove(s[1..], c)
  }

  lemma {:induction false} RemoveAppend(a: string, b: string, c: char)
    ensures Remove(a + b, c) == Remove(a, c) + Remove(b, c)
  {
    if a != [] {
      assert (a + b)[1..] == a[1..] + b;
      RemoveAppend(a[1..], b, c);
    } else {
      assert a + b == b;
    }
  }

  lemma {:induction false} RemoveAbsent(s: string, c: char)
    requires c !in s
    ensures Remove(s, c) == s
  {
    if s != [] {
      RemoveAbsent(s[1..], c);
    }
  }

  /** The cleaning every amount field goes through: s.replace('$', '').replace(',', ''). */
  function StripCurrency(s: string): (r: string)
    ensures ',' !in r
  {
    Remove(Remove(s, '$'), ',')
  }

  function StripLeft(s: string): (r: string)
    ensures r == [] || !IsSpace(r[0])
    ensures |r| <= |s|
  {
    if s != [] && IsSpace(s[0]) then StripLeft(s[1..]) else s
  }

  function StripRight(s: string): (r: string)
    ensures r == [] || !IsSpace(r[|r| - 1])
    ensures |r| <= |s|
  {
    if s != [] && IsSpace(s[|s| - 1]) then StripRight(s[..|s| - 1]) else s
  }

  /** str.strip() */
  function Strip(s: string): string { StripRight(StripLeft(s)) }

  lemma StripUnchanged(s: string)
    requires s != [] && !IsSpace(s[0]) && !IsSpace(s[|s| - 1])
    ensures Strip(s) == s
  {
  }

  // ---------------------------------------------------------------- numbers

  function Pow10(n: nat): (p: nat)
    ensures p >= 1
  {
    if n == 0 then 1 else 10 * Pow10(n - 1)
  }

  /** Value of a run of decimal digits, read most significant first. */
  function DigitsValue(s: string): nat
    requires AllDigits(s)
  {
    if s == [] then 0 else 10 * DigitsValue(s[..|s| - 1]) + DigitVal(s[|s| - 1])
  }

  /** Decimal digits of n without leading zeros ("0" for zero): str(n). */
  function NatStr(n: nat): (s: string)
    ensures s != [] && AllDigits(s)
  {
    if n < 10 then [DigitChar(n)] else NatStr(n / 10) + [DigitChar(n % 10)]
  }

  lemma {:induction false} NatStrValue(n: nat)
    ensures DigitsValue(NatStr(n)) == n
  {
    if n >= 10 {
      var s := NatStr(n);
      assert s[..|s| - 1] == NatStr(n / 10);
      NatStrValue(n / 10);
    }
  }

  /** str(n) for any Python int. */
  function IntStr(n: int): (s: string)
    ensures s != []
  {
    if n < 0 then "-" + NatStr(-n) else NatStr(n)
  }

  function IndexOf(s: string, c: char): (i: nat)
    ensures i <= |s|
    ensures i < |s| ==> s[i] == c
  {
    if s == [] then 0 else if s[0] == c then 0 else 1 + IndexOf(s[1..], c)
  }

  /**
   * float() of a stripped, sign-free text: digits, optionally a point and
   * more digits, at least one digit in all ("7", "7.", ".5", "1250.00").
   * Exponents, "inf", "nan" and digit underscores are not accepted here.
   */
  function ParseUnsigned(s: string): Option<real>
  {
    var i := IndexOf(s, '.');
    var whole := s[..i];
    var frac := if i < |s| then s[i + 1..] else "";
    if AllDigits(whole) && AllDigits(frac) && |whole| + |frac| > 0 then
      Some(DigitsValue(whole) as real + DigitsValue(frac) as real / Pow10(|frac|) as real)
    else
      None
  }

  /** float(s): surrounding whitespace, one optional sign, then an unsigned decimal. */
  function ParseFloat(s: string): Option<real>
  {
    var t := Strip(s);
    var body := if t != [] && (t[0] == '-' || t[0] == '+') then t[1..] else t;
    Negated(t != [] && t[0] == '-', ParseUnsigned(body))
  }

  function Negated(negative: bool, v: Option<real>): Option<real>
  {
    if negative && v.Some? then Some(-v.value) else v
  }

  /** int(s): surrounding whitespace, one optional sign, then one or more digits. */
  function ParseInt(s: string): (r: Option<int>)
    ensures r.Some? ==> ParseFloat(s) == Some(r.value as real)
  {
    var t := Strip(s);
    var body := if t != [] && (t[0] == '-' || t[0] == '+') then t[1..] else t;
    if body != [] && AllDigits(body) then
      assert IndexOf(body, '.') == |body| by { IndexOfAbsent(body, '.'); }
      assert body[..|body|] == body;
      Some(if t[0] == '-' then -(DigitsValue(body) as int) else DigitsValue(body) as int)
    else
      None
  }

  lemma {:induction false} IndexOfAbsent(s: string, c: char)
    requires c !in s
    ensures IndexOf(s, c) == |s|
  {
    if s != [] {
      IndexOfAbsent(s[1..], c);
    }
  }

  lemma {:induction false} IndexOfAfter(a: string, c: char, b: string)
    requires c !in a
    ensures IndexOf(a + [c] + b, c) == |a|
  {
    if a != [] {
      assert (a + [c] + b)[1..] == a[1..] + [c] + b;
      IndexOfAfter(a[1..], c, b);
    }
  }

  /**
   * The amount a currency field holds, as every section sum reads it:
   * float(s.replace('$', '').replace(',', '') or 0). The empty text is 0;
   * None stands for the ValueError that float() raises.
   */
  function Amount(s: string): Option<real>
  {
    var t := StripCurrency(s);
    if t == "" then Some(0.0) else ParseFloat(t)
  }

  // ---------------------------------------------------------------- rounding and rendering

  /** Nearest integer, ties to even. */
  function RoundHalfEven(y: real): int
  {
    var f := y.Floor;
    var d := y - f as real;
    if d < 0.5 then f else if d > 0.5 then f + 1 else if f % 2 == 0 then f else f + 1
  }

  /** The magnitude of x in whole cents, as '%.2f' rounds it. */
  function Cents(x: real): nat
  {
    var m := if x < 0.0 then -x else x;
    var n := RoundHalfEven(m * 100.0);
    if n < 0 then 0 else n
  }

  /** The value of c cents, negated when negative. */
  function CentsValue(negative: bool, c: nat): real
  {
    if negative then -(c as real / 100.0) else c as real / 100.0
  }

  /** x rounded to whole cents: the value '%.2f' displays. */
  function Rounded(x: real): real
  {
    CentsValue(x < 0.0, Cents(x))
  }

  predicate NoDollar(s: string) { forall i :: 0 <= i < |s| ==> s[i] != '$' }

  lemma NoDollarAbsent(s: string)
    requires NoDollar(s)
    ensures '$' !in s
  {
  }

  /** "1,250" from "1250": a comma before every group of three digits from the right. */
  function Group(s: string): (r: string)
    decreases |s|
  {
    if |s| <= 3 then s else Group(s[..|s| - 3]) + "," + s[|s| - 3..]
  }

  lemma {:induction false} GroupUngroup(s: string)
    requires ',' !in s
    ensures Remove(Group(s), ',') == s
  {
    if |s| <= 3 {
      RemoveAbsent(s, ',');
    } else {
      var a, b := s[..|s| - 3], s[|s| - 3..];
      assert s == a + b;
      assert ',' !in a && ',' !in b by {
        assert forall i :: 0 <= i < |a| ==> a[i] == s[i];
        assert forall i :: 0 <= i < |b| ==> b[i] == s[|s| - 3 + i];
      }
      GroupUngroup(a);
      var g := Group(a);
      assert Group(s) == g + "," + b;
      RemoveAppend(g + ",", b, ',');
      RemoveAppend(g, ",", ',');
      RemoveAbsent(b, ',');
      assert Remove(",", ',') == [] by {
        assert ","[1..] == [];
      }
      assert Remove(g + ",", ',') == a;
    }
  }

  lemma {:induction false} GroupShape(s: string)
    requires AllDigits(s) && s != []
    ensures Group(s) != [] && IsDigit(Group(s)[0]) && IsDigit(Group(s)[|Group(s)| - 1])
    ensures NoDollar(Group(s))
  {
    if |s| > 3 {
      GroupShape(s[..|s| - 3]);
      var g := Group(s);
      assert g == Group(s[..|s| - 3]) + "," + s[|s| - 3..];
      assert g[0] == Group(s[..|s| - 3])[0];
    }
  }

  /** A magnitude of c cents written out: optional '-', whole units (grouped or not), '.', two digits. */
  function RenderCents(negative: bool, c: nat, grouping: bool): (s: string)
    ensures s != []
  {
    var whole := if grouping then Group(NatStr(c / 100)) else NatStr(c / 100);
    Sign(negative) + whole + "." + CentDigits(c)
  }

  /**
   * '%.2f' % x, and with grouping the form locale.format_string('%.2f', x,
   * grouping=True) takes under a comma-grouping locale. As in Python, a
   * negative x keeps its '-' even when it rounds to zero ("-0.00").
   */
  function Fixed2(x: real, grouping: bool): (s: string)
    ensures s != []
  {
    RenderCents(x < 0.0, Cents(x), grouping)
  }

  /** The rendering of every computed field: locale.format_string('%.2f', x, grouping=True). */
  function Show(x: real): string { Fixed2(x, true) }

  lemma DigitsValueTwo(a: char, b: char)
    requires IsDigit(a) && IsDigit(b)
    ensures DigitsValue([a, b]) == 10 * DigitVal(a) + DigitVal(b)
  {
    var s := [a, b];
    assert s[..|s| - 1] == [a];
    assert [a][..0] == [];
    assert DigitsValue([a]) == 10 * DigitsValue([]) + DigitVal(a);
    assert DigitsValue(s) == 10 * DigitsValue([a]) + DigitVal(b);
  }

  /** The two cent digits of c, as text. */
  function CentDigits(c: nat): (f: string)
    ensures |f| == 2 && AllDigits(f)
  {
    [DigitChar((c % 100) / 10), DigitChar(c % 10)]
  }

  lemma CentDigitsValue(c: nat)
    ensures DigitsValue(CentDigits(c)) == c % 100
  {
    var f := CentDigits(c);
    DigitsValueTwo(f[0], f[1]);
    assert f == [f[0], f[1]];
  }

  lemma CentsSplit(c: nat)
    ensures c as real / 100.0 == (c / 100) as real + (c % 100) as real / 100.0
  {
    assert c == 100 * (c / 100) + c % 100;
  }

  /** Where the point sits in digits + "." + f, and what lies on either side. */
  lemma PointSplit(w: string, f: string)
    requires AllDigits(w)
    ensures IndexOf(w + "." + f, '.') == |w|
    ensures (w + "." + f)[..|w|] == w && (w + "." + f)[|w| + 1..] == f
  {
    assert '.' !in w by {
      assert forall i :: 0 <= i < |w| ==> IsDigit(w[i]);
    }
    IndexOfAfter(w, '.', f);
  }

  lemma ParseTwoDecimals(c: nat)
    ensures ParseUnsigned(NatStr(c / 100) + "." + CentDigits(c)) == Some(c as real / 100.0)
  {
    var w := NatStr(c / 100);
    var f := CentDigits(c);
    PointSplit(w, f);
    NatStrValue(c / 100);
    CentDigitsValue(c);
    assert Pow10(|f|) == 100;
    CentsSplit(c);
  }

  /** Cleaning sign + grouped digits + "." + two digits leaves sign + digits + "." + two digits. */
  lemma {:induction false} CleanParts(sign: string, whole: string, digits: string, f: string)
    requires sign == "" || sign == "-"
    requires NoDollar(whole) && Remove(whole, ',') == digits
    requires AllDigits(f)
    ensures StripCurrency(sign + whole + "." + f) == sign + digits + "." + f
  {
    var s := sign + whole + "." + f;
    NoDollarParts(sign, whole, f);
    NoDollarAbsent(s);
    RemoveAbsent(s, '$');
    assert ',' !in f by { assert forall i :: 0 <= i < |f| ==> IsDigit(f[i]); }
    RemoveAppend(sign + whole + ".", f, ',');
    RemoveAppend(sign + whole, ".", ',');
    RemoveAppend(sign, whole, ',');
    RemoveAbsent(sign, ',');
    RemoveAbsent(".", ',');
    RemoveAbsent(f, ',');
  }

  lemma NoDollarParts(sign: string, whole: string, f: string)
    requires sign == "" || sign == "-"
    requires NoDollar(whole) && AllDigits(f)
    ensures NoDollar(sign + whole + "." + f)
  {
    var s := sign + whole + "." + f;
    forall i | 0 <= i < |s| ensures s[i] != '$' {
      if i < |sign| { assert s[i] == sign[i]; }
      else if i < |sign| + |whole| { assert s[i] == whole[i - |sign|]; }
      else if i == |sign| + |whole| { assert s[i] == '.'; }
      else { assert s[i] == f[i - |sign| - |whole| - 1]; }
    }
  }

  /** A rendering holds no '$', and its commas are only the grouping ones. */
  lemma RenderNoDollar(x: real, grouping: bool)
    ensures NoDollar(Fixed2(x, grouping))
  {
    var c := Cents(x);
    var digits := NatStr(c / 100);
    CleanWhole(digits, grouping);
    NoDollarParts(Sign(x < 0.0), if grouping then Group(digits) else digits, CentDigits(c));
  }

  /** The unsigned rendering str(c / 100) + "." + the two cent digits of c. */
  function CentsText(c: nat): (s: string)
    ensures s != [] && IsDigit(s[0]) && IsDigit(s[|s| - 1])
  {
    NatStr(c / 100) + "." + CentDigits(c)
  }

  function Sign(negative: bool): string { if negative then "-" else "" }

  /** A numeral that starts and ends with a digit parses as its unsigned reading... */
  lemma ParsePlain(u: string, v: real)
    requires u != [] && IsDigit(u[0]) && IsDigit(u[|u| - 1])
    requires ParseUnsigned(u) == Some(v)
    ensures ParseFloat(u) == Some(v)
  {
    StripUnchanged(u);
  }

  /** ...and with a '-' in front, as its negation. */
  lemma ParseMinus(u: string, v: real)
    requires u != [] && IsDigit(u[|u| - 1])
    requires ParseUnsigned(u) == Some(v)
    ensures ParseFloat("-" + u) == Some(-v)
  {
    var n := "-" + u;
    assert n[|n| - 1] == u[|u| - 1];
    StripUnchanged(n);
    assert n[1..] == u;
  }

  lemma ParseSignedText(negative: bool, u: string, v: real)
    requires u != [] && IsDigit(u[0]) && IsDigit(u[|u| - 1])
    requires ParseUnsigned(u) == Some(v)
    ensures ParseFloat(Sign(negative) + u) == Some(if negative then -v else v)
  {
    if negative {
      assert Sign(negative) + u == "-" + u;
      ParseMinus(u, v);
    } else {
      assert Sign(negative) + u == u;
      ParsePlain(u, v);
    }
  }

  lemma ParseUnsignedCentsText(c: nat)
    ensures ParseUnsigned(CentsText(c)) == Some(c as real / 100.0)
  {
    ParseTwoDecimals(c);
  }

  /** The whole units of a rendering, grouped or not, clean back to the plain digits. */
  lemma CleanWhole(digits: string, grouping: bool)
    requires AllDigits(digits) && digits != []
    ensures var whole := if grouping then Group(digits) else digits;
      NoDollar(whole) && Remove(whole, ',') == digits
  {
    assert ',' !in digits && NoDollar(digits) by {
      assert forall i :: 0 <= i < |digits| ==> IsDigit(digits[i]);
    }
    if grouping {
      GroupShape(digits);
      GroupUngroup(digits);
    } else {
      RemoveAbsent(digits, ',');
    }
  }

  /** A rendering with the grouping commas taken out: optional '-', plain digits, '.', two digits. */
  function SignedCentsText(negative: bool, c: nat): (s: string)
    ensures s != [] && !IsSpace(s[0]) && IsDigit(s[|s| - 1])
  {
    var u := CentsText(c);
    var s := Sign(negative) + u;
    assert s[|s| - 1] == u[|u| - 1];
    s
  }

  lemma ParseSignedCents(negative: bool, c: nat)
    ensures ParseFloat(SignedCentsText(negative, c)) == Some(CentsValue(negative, c))
  {
    var u, v := CentsText(c), c as real / 100.0;
    assert SignedCentsText(negative, c) == Sign(negative) + u;
    assert CentsValue(negative, c) == if negative then -v else v;
    ParseUnsignedCentsText(c);
    ParseSignedText(negative, u, v);
  }

  lemma CleanRenderCents(negative: bool, c: nat, grouping: bool)
    ensures StripCurrency(RenderCents(negative, c, grouping)) == SignedCentsText(negative, c)
  {
    var digits := NatStr(c / 100);
    var whole := if grouping then Group(digits) else digits;
    var sign := Sign(negative);
    CleanWhole(digits, grouping);
    CleanParts(sign, whole, digits, CentDigits(c));
    AppendFour(sign, digits, ".", CentDigits(c));
  }

  lemma AppendFour(a: string, b: string, c: string, d: string)
    ensures a + b + c + d == a + (b + c + d)
  {
  }

  lemma AmountOfRenderCents(negative: bool, c: nat, grouping: bool)
    ensures Amount(RenderCents(negative, c, grouping)) == Some(CentsValue(negative, c))
  {
    CleanRenderCents(negative, c, grouping);
    ParseSignedCents(negative, c);
  }

  /** Reading back a rendered amount gives exactly the rounded value. */
  lemma AmountOfFixed2(x: real, grouping: bool)
    ensures Amount(Fixed2(x, grouping)) == Some(Rounded(x))
  {
    AmountOfRenderCents(x < 0.0, Cents(x), grouping);
  }

  /** The stricter cleaning of convert_to_float (also stripping blanks) reads a rendered amount the same way. */
  lemma CleanParseFixed2(x: real, grouping: bool)
    ensures ParseFloat(Strip(StripCurrency(Fixed2(x, grouping)))) == Some(Rounded(x))
  {
    var c := Cents(x);
    CleanRenderCents(x < 0.0, c, grouping);
    StripUnchanged(SignedCentsText(x < 0.0, c));
    ParseSignedCents(x < 0.0, c);
  }

  /** Rendering the rounded value again gives the same text (negative zero aside). */
  lemma Fixed2OfRounded(x: real, grouping: bool)
    requires !(x < 0.0 && Cents(x) == 0)
    ensures Fixed2(Rounded(x), grouping) == Fixed2(x, grouping)
  {
    var c := Cents(x);
    var r := Rounded(x);
    assert (if r < 0.0 then -r else r) * 100.0 == c as real;
    assert Cents(r) == c;
    assert (r < 0.0) == (x < 0.0);
  }

  /** Ceiling of a real, math.ceil. */
  function Ceil(x: real): (n: int)
    ensures x <= n as real < x + 1.0
  {
    -((-x).Floor)
  }

  /** An amount already in whole cents is its own rounding. */
  lemma RoundedWholeCents(c: int)
    ensures Rounded(c as real / 100.0) == c as real / 100.0
  {
    var x := c as real / 100.0;
    var m := if x < 0.0 then -x else x;
    var a := if c < 0 then -c else c;
    assert m * 100.0 == a as real;
    assert RoundHalfEven(a as real) == a;
  }
}
