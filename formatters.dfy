/**
 * The small pure helpers of the form: input masks for phone numbers,
 * postal codes and social insurance numbers, the e-mail check, ordinal
 * suffixes, the dollar-field keystroke filter and convert_to_float.
 * Character classes are ASCII (Python's Unicode-wide isdigit/isalnum/upper
 * and regex \w are not modelled).
 */
module Formatters {
  import opened Wrappers
  import opened Money

  // ---------------------------------------------------------------- filtering

  /** The character classes the masks filter on. */
  datatype CharClass = Digits | Alphanumerics

  predicate InClass(k: CharClass, c: char)
  {
    match k
    case Digits => IsDigit(c)
    case Alphanumerics => IsAlnum(c)
  }

  /** ''.join(filter(str.isdigit, s)), or with str.isalnum. */
  function Keep(s: string, p: CharClass): (r: string)
    ensures |r| <= |s|
  {
    if s == [] then [] else (if InClass(p, s[0]) then [s[0]] else []) + Keep(s[1..], p)
  }

  lemma {:induction false} KeepInClass(s: string, p: CharClass)
    ensures forall i :: 0 <= i < |Keep(s, p)| ==> InClass(p, Keep(s, p)[i])
  {
    if s != [] {
      KeepInClass(s[1..], p);
      var h := if InClass(p, s[0]) then [s[0]] else [];
      assert Keep(s, p) == h + Keep(s[1..], p);
    }
  }

  lemma {:induction false} KeepAppend(a: string, b: string, p: CharClass)
    ensures Keep(a + b, p) == Keep(a, p) + Keep(b, p)
  {
    if a == [] {
      assert a + b == b;
    } else {
      var h := if InClass(p, a[0]) then [a[0]] else [];
      assert (a + b)[0] == a[0];
      assert (a + b)[1..] == a[1..] + b;
      KeepAppend(a[1..], b, p);
      assert Keep(a + b, p) == h + Keep(a[1..] + b, p);
      assert Keep(a, p) == h + Keep(a[1..], p);
    }
  }

  lemma {:induction false} KeepAll(s: string, p: CharClass)
    requires forall i :: 0 <= i < |s| ==> InClass(p, s[i])
    ensures Keep(s, p) == s
  {
    if s != [] {
      KeepAll(s[1..], p);
    }
  }

  lemma {:induction false} KeepNone(s: string, p: CharClass)
    requires forall i :: 0 <= i < |s| ==> !InClass(p, s[i])
    ensures Keep(s, p) == []
  {
    if s != [] {
      KeepNone(s[1..], p);
    }
  }

  function Min(a: int, b: int): int { if a < b then a else b }

  /**
   * The shared mask of phone numbers and SINs: the first three digits, a
   * '-', then either the rest (up to six digits in all) or three more, a
   * '-' and at most `tail` more.
   */
  function Mask(d: string, tail: nat): (r: string)
    requires AllDigits(d)
  {
    if |d| <= 3 then d
    else if |d| <= 6 then d[..3] + "-" + d[3..]
    else d[..3] + "-" + d[3..6] + "-" + d[6..Min(|d|, 6 + tail)]
  }

  /** A separator that is not a digit drops out of the digit filter. */
  lemma KeepSep(x: string, y: string, sep: char)
    requires AllDigits(y) && !IsDigit(sep)
    ensures Keep(x + [sep] + y, Digits) == Keep(x, Digits) + y
  {
    KeepAppend(x + [sep], y, Digits);
    KeepAppend(x, [sep], Digits);
    KeepSepNone(sep);
    KeepAllDigits(y);
  }

  lemma KeepSepNone(sep: char)
    requires !IsDigit(sep)
    ensures Keep([sep], Digits) == []
  {
    assert [sep][1..] == [];
  }

  lemma KeepAllDigits(y: string)
    requires AllDigits(y)
    ensures Keep(y, Digits) == y
  {
    KeepAll(y, Digits);
  }

  lemma DigitsSlice(d: string, i: nat, j: nat)
    requires AllDigits(d) && i <= j <= |d|
    ensures AllDigits(d[i..j])
  {
    assert forall k :: 0 <= k < j - i ==> d[i..j][k] == d[i + k];
  }

  predicate DigitsOrDashes(m: string) { forall i :: 0 <= i < |m| ==> IsDigit(m[i]) || m[i] == '-' }

  lemma DashJoin(x: string, y: string)
    requires DigitsOrDashes(x) && DigitsOrDashes(y)
    ensures DigitsOrDashes(x + "-" + y)
  {
    var m := x + "-" + y;
    forall i | 0 <= i < |m| ensures IsDigit(m[i]) || m[i] == '-' {
      if i < |x| { assert m[i] == x[i]; }
      else if i > |x| { assert m[i] == y[i - |x| - 1]; }
    }
  }

  lemma DigitsOnly(d: string)
    requires AllDigits(d)
    ensures DigitsOrDashes(d)
  {
  }

  /** Up to three digits: the mask is the digits themselves. */
  lemma MaskShort(d: string, tail: nat)
    requires AllDigits(d) && |d| <= 3
    ensures DigitsOrDashes(Mask(d, tail))
    ensures Keep(Mask(d, tail), Digits) == d[..Min(|d|, 6 + tail)]
  {
    KeepAllDigits(d);
    DigitsOnly(d);
    assert d[..Min(|d|, 6 + tail)] == d;
  }

  /** Four to six digits: XXX-rest. */
  lemma MaskMiddle(d: string, tail: nat)
    requires AllDigits(d) && 3 < |d| <= 6
    ensures DigitsOrDashes(Mask(d, tail))
    ensures Keep(Mask(d, tail), Digits) == d[..Min(|d|, 6 + tail)]
  {
    var a, b := d[..3], d[3..];
    DigitsSlice(d, 0, 3);
    DigitsSlice(d, 3, |d|);
    assert a == d[0..3] && b == d[3..|d|];
    KeepSep(a, b, '-');
    KeepAllDigits(a);
    DigitsOnly(a);
    DigitsOnly(b);
    DashJoin(a, b);
    assert a + b == d;
    assert d[..Min(|d|, 6 + tail)] == d;
  }

  /** More than six digits: XXX-XXX-tail. */
  lemma MaskLong(d: string, tail: nat)
    requires AllDigits(d) && 6 < |d|
    ensures DigitsOrDashes(Mask(d, tail))
    ensures Keep(Mask(d, tail), Digits) == d[..Min(|d|, 6 + tail)]
  {
    var e := Min(|d|, 6 + tail);
    var a, b, c := d[..3], d[3..6], d[6..e];
    DigitsSlice(d, 0, 3);
    DigitsSlice(d, 3, 6);
    DigitsSlice(d, 6, e);
    assert a == d[0..3];
    var front := a + "-" + b;
    KeepSep(front, c, '-');
    KeepSep(a, b, '-');
    KeepAllDigits(a);
    DigitsOnly(a);
    DigitsOnly(b);
    DigitsOnly(c);
    DashJoin(a, b);
    DashJoin(front, c);
    assert a + b + c == d[..e];
  }

  lemma MaskDigits(d: string, tail: nat)
    requires AllDigits(d)
    ensures DigitsOrDashes(Mask(d, tail))
    ensures Keep(Mask(d, tail), Digits) == d[..Min(|d|, 6 + tail)]
  {
    if |d| <= 3 {
      MaskShort(d, tail);
    } else if |d| <= 6 {
      MaskMiddle(d, tail);
    } else {
      MaskLong(d, tail);
    }
  }

  // ---------------------------------------------------------------- masks

  /** format_phone / format_phone_number: XXX-XXX-XXXX from whatever digits were typed. */
  function FormatPhone(phone: string): (r: string)
    ensures DigitsOrDashes(r)
    ensures var d := Keep(phone, Digits);
      Keep(r, Digits) == d[..Min(|d|, 10)] &&
      (|d| <= 3 ==> r == d) &&
      (3 < |d| <= 6 ==> r == d[..3] + "-" + d[3..]) &&
      (6 < |d| ==> r == d[..3] + "-" + d[3..6] + "-" + d[6..Min(|d|, 10)])
  {
    var d := Keep(phone, Digits);
    KeepInClass(phone, Digits);
    MaskDigits(d, 4);
    Mask(d, 4)
  }

  /** The form rewrites the field with its own mask on every keystroke: a second pass changes nothing. */
  lemma FormatPhoneIdempotent(phone: string)
    ensures FormatPhone(FormatPhone(phone)) == FormatPhone(phone)
  {
    var d := Keep(phone, Digits);
    var d' := Keep(FormatPhone(phone), Digits);
    assert d' == d[..Min(|d|, 10)];
    assert d'[..Min(|d'|, 10)] == d';
  }

  /** format_sin: XXX-XXX-XXX, at most nine digits kept. */
  function FormatSin(sin: string): (r: string)
    ensures DigitsOrDashes(r)
    ensures var d := Keep(sin, Digits);
      Keep(r, Digits) == d[..Min(|d|, 9)] &&
      (|d| <= 3 ==> r == d) &&
      (3 < |d| <= 6 ==> r == d[..3] + "-" + d[3..]) &&
      (6 < |d| ==> r == d[..3] + "-" + d[3..6] + "-" + d[6..Min(|d|, 9)])
  {
    var d := Keep(sin, Digits);
    KeepInClass(sin, Digits);
    MaskDigits(d, 3);
    Mask(d, 3)
  }

  lemma FormatSinIdempotent(sin: string)
    ensures FormatSin(FormatSin(sin)) == FormatSin(sin)
  {
    var d := Keep(sin, Digits);
    var d' := Keep(FormatSin(sin), Digits);
    assert d' == d[..Min(|d|, 9)];
    assert d'[..Min(|d'|, 9)] == d';
  }

  function ToUpper(c: char): char { if IsLower(c) then (c as int - 32) as char else c }

  function Upper(s: string): (r: string)
    ensures |r| == |s|
    ensures forall i :: 0 <= i < |s| ==> r[i] == ToUpper(s[i])
  {
    if s == [] then [] else [ToUpper(s[0])] + Upper(s[1..])
  }

  predicate IsUpperAlnum(c: char) { IsDigit(c) || IsUpper(c) }

  lemma UpperUnchanged(s: string)
    requires forall i :: 0 <= i < |s| ==> IsUpperAlnum(s[i])
    ensures Upper(s) == s
  {
  }

  /** format_postal_code: alphanumerics only, upper case, as XXX XXX. */
  function FormatPostalCode(postalCode: string): (r: string)
    ensures |r| <= 7
    ensures var a := Upper(Keep(postalCode, Alphanumerics));
      (|a| <= 3 ==> r == a) &&
      (3 < |a| ==> r == a[..3] + " " + a[3..Min(|a|, 6)])
    ensures forall i :: 0 <= i < |r| ==> IsUpperAlnum(r[i]) || (i == 3 && r[i] == ' ')
  {
    var a := Upper(Keep(postalCode, Alphanumerics));
    UpperOfKept(postalCode);
    if |a| <= 3 then a
    else
      SpacedShape(a);
      a[..3] + " " + a[3..Min(|a|, 6)]
  }

  /** Upper-case alphanumerics split after three with a space: only the space is not alphanumeric. */
  lemma SpacedShape(a: string)
    requires UpperAlnums(a) && 3 < |a|
    ensures var r := a[..3] + " " + a[3..Min(|a|, 6)];
      forall i :: 0 <= i < |r| ==> IsUpperAlnum(r[i]) || (i == 3 && r[i] == ' ')
  {
    var r := a[..3] + " " + a[3..Min(|a|, 6)];
    forall i | 0 <= i < |r| ensures IsUpperAlnum(r[i]) || (i == 3 && r[i] == ' ') {
      if i < 3 { assert r[i] == a[i]; }
      else if i > 3 { assert r[i] == a[i - 1]; }
    }
  }

  predicate UpperAlnums(s: string) { forall i :: 0 <= i < |s| ==> IsUpperAlnum(s[i]) }

  lemma UpperOfKept(s: string)
    ensures UpperAlnums(Upper(Keep(s, Alphanumerics)))
  {
    KeepInClass(s, Alphanumerics);
  }

  lemma UpperAlnumsSlice(s: string, i: nat, j: nat)
    requires UpperAlnums(s) && i <= j <= |s|
    ensures UpperAlnums(s[i..j])
  {
    assert forall k :: 0 <= k < j - i ==> s[i..j][k] == s[i + k];
  }

  /** Text already in upper-case alphanumerics passes the postal filter unchanged. */
  lemma UpperKeepAll(x: string)
    requires UpperAlnums(x)
    ensures Keep(x, Alphanumerics) == x && Upper(x) == x
  {
    assert forall i :: 0 <= i < |x| ==> InClass(Alphanumerics, x[i]);
    KeepAll(x, Alphanumerics);
    UpperUnchanged(x);
  }

  /** The filter drops a space. */
  lemma KeepSpace(x: string, y: string)
    ensures Keep(x + " " + y, Alphanumerics) == Keep(x, Alphanumerics) + Keep(y, Alphanumerics)
  {
    KeepAppend(x + " ", y, Alphanumerics);
    KeepAppend(x, " ", Alphanumerics);
    assert Keep(" ", Alphanumerics) == [] by {
      assert " "[1..] == [];
    }
    assert Keep(x, Alphanumerics) + [] == Keep(x, Alphanumerics);
  }

  lemma UpperAlnumsJoin(x: string, y: string)
    requires UpperAlnums(x) && UpperAlnums(y)
    ensures UpperAlnums(x + y)
  {
    forall i | 0 <= i < |x + y| ensures IsUpperAlnum((x + y)[i]) {
      if i < |x| { assert (x + y)[i] == x[i]; } else { assert (x + y)[i] == y[i - |x|]; }
    }
  }

  /** Upper-case alphanumerics with one space in the middle come out of the filter without it. */
  lemma UpperKeepSpace(x: string, y: string)
    requires UpperAlnums(x) && UpperAlnums(y)
    ensures Upper(Keep(x + " " + y, Alphanumerics)) == x + y
  {
    KeepSpace(x, y);
    UpperKeepAll(x);
    UpperKeepAll(y);
    UpperAlnumsJoin(x, y);
    UpperUnchanged(x + y);
  }

  lemma FormatPostalCodeIdempotent(postalCode: string)
    ensures FormatPostalCode(FormatPostalCode(postalCode)) == FormatPostalCode(postalCode)
  {
    var a := Upper(Keep(postalCode, Alphanumerics));
    var r := FormatPostalCode(postalCode);
    UpperOfKept(postalCode);
    if |a| <= 3 {
      UpperKeepAll(a);
      assert Keep(r, Alphanumerics) == r;
    } else {
      var e := Min(|a|, 6);
      UpperAlnumsSlice(a, 0, 3);
      UpperAlnumsSlice(a, 3, e);
      assert a[..3] == a[0..3];
      UpperKeepSpace(a[..3], a[3..e]);
      var b := Upper(Keep(r, Alphanumerics));
      assert b == a[..e];
      assert b[..3] == a[..3] && b[3..Min(|b|, 6)] == a[3..e];
    }
  }

  // ---------------------------------------------------------------- e-mail

  /** Regex \w restricted to ASCII. */
  predicate IsWord(c: char) { IsAlnum(c) || c == '_' }
  /** Regex class [\w.-]. */
  predicate IsEmailChar(c: char) { IsWord(c) || c == '.' || c == '-' }

  predicate AllEmailChars(s: string) { forall k :: 0 <= k < |s| ==> IsEmailChar(s[k]) }
  predicate AllWordChars(s: string) { forall k :: 0 <= k < |s| ==> IsWord(s[k]) }

  /**
   * What re.match(r'^[\w\.-]+@[\w\.-]+\.\w+$', s) accepts, stated as the
   * split the regex looks for: '@' at i and the final '.' at j.
   */
  ghost predicate MatchesEmailPattern(s: string)
  {
    exists i, j :: EmailSplit(s, i, j)
  }

  predicate EmailSplit(s: string, i: int, j: int)
  {
    0 < i && i + 1 < j && j + 1 < |s| &&
    s[i] == '@' && s[j] == '.' &&
    AllEmailChars(s[..i]) && AllEmailChars(s[i + 1..j]) && AllWordChars(s[j + 1..])
  }

  /** Index of the last c in s, or |s| when there is none. */
  function LastIndexOf(s: string, c: char): (k: nat)
    ensures k <= |s|
    ensures k < |s| ==> s[k] == c && c !in s[k + 1..]
    ensures k == |s| ==> c !in s
  {
    if s == [] then 0
    else if s[|s| - 1] == c then |s| - 1
    else
      var k := LastIndexOf(s[..|s| - 1], c);
      if k == |s| - 1 then |s| else k
  }

  /** validate_email: the empty text is allowed; otherwise the pattern must match. */
  function ValidateEmail(email: string): bool
  {
    if email == "" then true
    else
      var i := IndexOf(email, '@');
      var domain := if i < |email| then email[i + 1..] else "";
      var j := LastIndexOf(domain, '.');
      i < |email| && EmailSplit(email, i, i + 1 + j)
  }

  lemma {:induction false} IndexOfIs(s: string, c: char, i: nat)
    requires i < |s| && s[i] == c
    requires forall k :: 0 <= k < i ==> s[k] != c
    ensures IndexOf(s, c) == i
  {
    if i > 0 {
      IndexOfIs(s[1..], c, i - 1);
    }
  }

  lemma {:induction false} LastIndexOfIs(s: string, c: char, l: nat)
    requires l < |s| && s[l] == c
    requires forall k :: l < k < |s| ==> s[k] != c
    ensures LastIndexOf(s, c) == l
  {
    if l < |s| - 1 {
      LastIndexOfIs(s[..|s| - 1], c, l);
    }
  }

  /** '@' is not an e-mail character, so in a split the '@' is the first one. */
  lemma SplitAtIsFirst(email: string, i: int, j: int)
    requires EmailSplit(email, i, j)
    ensures IndexOf(email, '@') == i
  {
    assert forall k :: 0 <= k < i ==> email[..i][k] == email[k];
    IndexOfIs(email, '@', i);
  }

  /** Word characters hold no '.', so in a split the '.' at j is the domain's last one. */
  lemma SplitDotIsLast(email: string, i: int, j: int)
    requires EmailSplit(email, i, j)
    ensures LastIndexOf(email[i + 1..], '.') == j - i - 1
  {
    var domain := email[i + 1..];
    assert forall k :: j - i <= k < |domain| ==> domain[k] == email[j + 1..][k - (j - i)];
    LastIndexOfIs(domain, '.', j - i - 1);
  }

  lemma ValidateEmailCorrect(email: string)
    ensures ValidateEmail(email) <==> email == "" || MatchesEmailPattern(email)
  {
    if email != "" && MatchesEmailPattern(email) {
      var i, j :| EmailSplit(email, i, j);
      SplitAtIsFirst(email, i, j);
      SplitDotIsLast(email, i, j);
    }
  }

  /** An accepted non-empty address has exactly one '@'. */
  lemma ValidateEmailSingleAt(email: string, a: int, b: int)
    requires ValidateEmail(email) && email != ""
    requires 0 <= a < |email| && 0 <= b < |email|
    requires email[a] == '@' && email[b] == '@'
    ensures a == b
  {
    var i := IndexOf(email, '@');
    var domain := email[i + 1..];
    var j := i + 1 + LastIndexOf(domain, '.');
    assert EmailSplit(email, i, j);
    forall k | 0 <= k < |email| && k != i
      ensures email[k] != '@'
    {
      if k < i { assert email[..i][k] == email[k]; }
      else if k < j { assert email[i + 1..j][k - i - 1] == email[k]; }
      else if k > j { assert email[j + 1..][k - j - 1] == email[k]; }
    }
  }

  // ---------------------------------------------------------------- ordinal

  /**
   * The suffix ordinal(n) picks from d = n % 10 and t = n % 100: th for
   * 10 to 20, otherwise st, nd, rd for 1, 2, 3 and th for the rest.
   */
  function Suffix(d: int, t: int): (r: string)
    requires 0 <= t < 100 && t % 10 == d
    ensures r == "st" <==> d == 1 && t != 11
    ensures r == "nd" <==> d == 2 && t != 12
    ensures r == "rd" <==> d == 3 && t != 13
    ensures r == "th" <==> !(d in {1, 2, 3}) || 11 <= t <= 13
  {
    if 10 <= t <= 20 then "th"
    else if d == 1 then "st"
    else if d == 2 then "nd"
    else if d == 3 then "rd"
    else "th"
  }

  lemma LastDigits(n: int)
    ensures 0 <= n % 100 < 100 && (n % 100) % 10 == n % 10
  {
    var q := n / 100;
    assert n == 100 * q + n % 100;
    assert n % 100 == n - 10 * (10 * q);
  }

  /** ordinal(n): str(n) followed by st, nd, rd or th (Python's n % 100 is never negative, as here). */
  function Ordinal(n: int): (r: string)
    ensures |r| == |IntStr(n)| + 2 && r[..|IntStr(n)|] == IntStr(n)
    ensures var suffix := r[|IntStr(n)|..];
      (suffix == "st" <==> n % 10 == 1 && n % 100 != 11) &&
      (suffix == "nd" <==> n % 10 == 2 && n % 100 != 12) &&
      (suffix == "rd" <==> n % 10 == 3 && n % 100 != 13) &&
      (suffix == "th" <==> !(n % 10 in {1, 2, 3}) || 11 <= n % 100 <= 13)
  {
    LastDigits(n);
    var suffix := Suffix(n % 10, n % 100);
    var r := IntStr(n) + suffix;
    assert r[..|IntStr(n)|] == IntStr(n);
    assert r[|IntStr(n)|..] == suffix;
    r
  }

  // ---------------------------------------------------------------- dollar fields

  datatype Verdict = Accept | Reject

  /** The outcome of one keystroke in a dollar field: verdict, text left in the widget, value remembered. */
  datatype Keystroke = Keystroke(verdict: Verdict, widget: string, stored: string)

  function CountChar(s: string, c: char): nat
  {
    if s == [] then 0 else (if s[0] == c then 1 else 0) + CountChar(s[1..], c)
  }

  lemma {:induction false} CountCharAppend(a: string, c: char, x: char)
    ensures CountChar(a + [x], c) == CountChar(a, c) + (if x == c then 1 else 0)
  {
    if a != [] {
      assert (a + [x])[1..] == a[1..] + [x];
      CountCharAppend(a[1..], c, x);
    }
  }

  lemma {:induction false} CountCharZero(a: string, c: char)
    ensures CountChar(a, c) == 0 <==> c !in a
  {
    if a != [] {
      CountCharZero(a[1..], c);
      assert a == [a[0]] + a[1..];
    }
  }

  /**
   * validate_dollar_input: a deletion is always accepted; otherwise only
   * the last character is checked: it must be a digit, '.' or ',', and a
   * '.' may not make a second one. A rejected keystroke restores the
   * remembered text.
   */
  function DollarKeystroke(current: string, last: string): (k: Keystroke)
    ensures k.verdict == Accept ==> k.widget == current && k.stored == current
    ensures k.verdict == Reject ==> k.widget == last && k.stored == last
    ensures |current| < |last| ==> k.verdict == Accept
    ensures k.verdict == Reject ==>
      (current != [] &&
       var c := current[|current| - 1];
       !(IsDigit(c) || c == '.' || c == ',') || (c == '.' && CountChar(current, '.') > 1))
  {
    if |current| < |last| then Keystroke(Accept, current, current)
    else if current == "" then Keystroke(Accept, "", "")
    else
      var c := current[|current| - 1];
      if !(IsDigit(c) || c == '.' || c == ',') then Keystroke(Reject, last, last)
      else if c == '.' && CountChar(current, '.') > 1 then Keystroke(Reject, last, last)
      else Keystroke(Accept, current, current)
  }

  /** Text a dollar field can hold when typed at the end only: digits, commas, at most one point. */
  predicate DollarText(s: string)
  {
    (forall i :: 0 <= i < |s| ==> IsDigit(s[i]) || s[i] == '.' || s[i] == ',') && CountChar(s, '.') <= 1
  }

  /** Typing one character at the end: accepted exactly for a digit, a comma, or a first point; the remembered text stays dollar text. */
  lemma TypingKeepsDollarText(last: string, c: char)
    requires DollarText(last)
    ensures var k := DollarKeystroke(last + [c], last);
      (k.verdict == Accept <==> IsDigit(c) || c == ',' || (c == '.' && '.' !in last)) &&
      DollarText(k.stored)
  {
    var current := last + [c];
    CountCharAppend(last, '.', c);
    CountCharZero(last, '.');
    assert current[|current| - 1] == c;
  }

  /** convert_to_float: '' for empty or unparseable text, otherwise '%.2f' of the cleaned amount. */
  function ConvertToFloat(value: string): (r: string)
    ensures r == "" <==> value == "" || ParseFloat(Strip(StripCurrency(value))).None?
    ensures r != "" ==> Amount(r) == Some(Rounded(ParseFloat(Strip(StripCurrency(value))).value))
  {
    if value == "" then ""
    else
      match ParseFloat(Strip(StripCurrency(value)))
      case None => ""
      case Some(v) =>
        AmountOfFixed2(v, false);
        Fixed2(v, false)
  }

  /** Converting an already converted amount changes nothing (a negative amount that rounds to zero aside). */
  lemma ConvertToFloatIdempotent(value: string)
    requires ParseFloat(Strip(StripCurrency(value))).Some?
    requires var v := ParseFloat(Strip(StripCurrency(value))).value; !(v < 0.0 && Cents(v) == 0)
    ensures ConvertToFloat(ConvertToFloat(value)) == ConvertToFloat(value)
  {
    var v := ParseFloat(Strip(StripCurrency(value))).value;
    assert ConvertToFloat(value) == Fixed2(v, false);
    ConvertRendered(v);
  }

  /** A plain two-decimal rendering converts to itself. */
  lemma ConvertRendered(v: real)
    requires !(v < 0.0 && Cents(v) == 0)
    ensures ConvertToFloat(Fixed2(v, false)) == Fixed2(v, false)
  {
    CleanParseFixed2(v, false);
    Fixed2OfRounded(v, false);
  }

  // ---------------------------------------------------------------- format_dollar_field

  /**
   * The text format_dollar_field leaves in a dollar field (the recalculations it
   * triggers aside): "" when the text holds no digit; the amount re-rendered with
   * grouping and two decimals when the text without its commas parses; otherwise,
   * on the ValueError, the last accepted text when there is one, else the text as it was.
   */
  function FormatDollarText(value: string, last: Option<string>): string
  {
    if forall i :: 0 <= i < |value| ==> !IsDigit(value[i]) then ""
    else
      match ParseFloat(Remove(value, ','))
      case Some(v) => Show(v)
      case None => if last.Some? then last.value else value
  }

  /**
   * Formatting a rendered amount gives it back unchanged, whatever was accepted before:
   * apply_package's formatting of the prices it writes leaves them as written
   * (a negative amount that rounds to zero aside).
   */
  lemma ReformatKeepsAmount(x: real, last: Option<string>)
    requires !(x < 0.0 && Cents(x) == 0)
    ensures FormatDollarText(Show(x), last) == Show(x)
  {
    ShowEndsInDigit(x);
    ShowParses(x);
    Fixed2OfRounded(x, true);
  }

  lemma ShowEndsInDigit(x: real)
    ensures IsDigit(Show(x)[|Show(x)| - 1])
  {
    var c := Cents(x);
    assert Show(x) == (Sign(x < 0.0) + Group(NatStr(c / 100)) + ".") + CentDigits(c);
  }

  /** What format_dollar_field parses, the rendering without its commas, is the rounded amount. */
  lemma ShowParses(x: real)
    ensures ParseFloat(Remove(Show(x), ',')) == Some(Rounded(x))
  {
    var s := Show(x);
    RenderNoDollar(x, true);
    NoDollarAbsent(s);
    RemoveAbsent(s, '$');
    CleanRenderCents(x < 0.0, Cents(x), true);
    ParseSignedCents(x < 0.0, Cents(x));
  }
}
