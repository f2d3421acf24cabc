/**
 * The time-payment quote: the financed principal, the age band that picks a
 * row of amortisation factors, one monthly payment per term, and what
 * choosing a term writes into section 4 of the form.
 */
module Financing {
  import opened Wrappers
  import opened Money
  import opened Pricing

  // ---------------------------------------------------------------- terms

  datatype Term = ThreeYear | FiveYear | TenYear | FifteenYear | TwentyYear

  /** The terms, shortest first, in the order the payments table shows them. */
  const Terms: seq<Term> := [ThreeYear, FiveYear, TenYear, FifteenYear, TwentyYear]

  /** The position of a term in Terms. */
  function Rank(t: Term): (k: nat)
    ensures k < |Terms| && Terms[k] == t
  {
    match t
    case ThreeYear => 0
    case FiveYear => 1
    case TenYear => 2
    case FifteenYear => 3
    case TwentyYear => 4
  }

  /** The key a term has in the factor table and in the "Payment Term" choice. */
  function TermName(t: Term): string
  {
    match t
    case ThreeYear => "3-year"
    case FiveYear => "5-year"
    case TenYear => "10-year"
    case FifteenYear => "15-year"
    case TwentyYear => "20-year"
  }

  /** The term a "Payment Term" text names, if it names one. */
  function TermNamed(s: string): (r: Option<Term>)
    ensures r.Some? ==> TermName(r.value) == s
    ensures r.None? ==> forall t: Term :: TermName(t) != s
  {
    if s == "3-year" then Some(ThreeYear)
    else if s == "5-year" then Some(FiveYear)
    else if s == "10-year" then Some(TenYear)
    else if s == "15-year" then Some(FifteenYear)
    else if s == "20-year" then Some(TwentyYear)
    else None
  }

  // ---------------------------------------------------------------- age bands

  datatype Band =
    | Upto54 | From55To59 | From60To64 | At65 | From66To69 | At70
    | From71To74 | At75 | From76To79 | At80 | From81To82

  /** The condition an age band tests, as the lookup list writes it. */
  datatype Cond = AtMost(hi: int) | Between(lo: int, hi: int) | Exactly(n: int)

  predicate Holds(c: Cond, x: int)
  {
    match c
    case AtMost(hi) => x <= hi
    case Between(lo, hi) => lo <= x <= hi
    case Exactly(n) => x == n
  }

  function Top(c: Cond): int
  {
    match c
    case AtMost(hi) => hi
    case Between(_, hi) => hi
    case Exactly(n) => n
  }

  function Bottom(c: Cond): int
  {
    match c
    case AtMost(hi) => hi
    case Between(lo, _) => lo
    case Exactly(n) => n
  }

  /** The age groups in lookup order; the first whose condition holds is the band. */
  const AgeGroups: seq<(Band, Cond)> := [
    (Upto54, AtMost(54)),
    (From55To59, Between(55, 59)),
    (From60To64, Between(60, 64)),
    (At65, Exactly(65)),
    (From66To69, Between(66, 69)),
    (At70, Exactly(70)),
    (From71To74, Between(71, 74)),
    (At75, Exactly(75)),
    (From76To79, Between(76, 79)),
    (At80, Exactly(80)),
    (From81To82, Between(81, 82))]

  /** The band of the first group whose condition holds, as next(...) finds it. */
  function FirstMatch(groups: seq<(Band, Cond)>, x: int): Option<Band>
  {
    if groups == [] then None
    else if Holds(groups[0].1, x) then Some(groups[0].0)
    else FirstMatch(groups[1..], x)
  }

  function BandOf(age: int): Option<Band>
  {
    FirstMatch(AgeGroups, age)
  }

  /**
   * Groups after the first are closed intervals, each starting one past
   * where the previous one ends.
   */
  predicate Contiguous(g: seq<(Band, Cond)>)
  {
    forall i :: 0 < i < |g| ==>
      !g[i].1.AtMost? && Bottom(g[i].1) <= Top(g[i].1) && Bottom(g[i].1) == Top(g[i - 1].1) + 1
  }

  lemma AgeGroupsShape()
    ensures Contiguous(AgeGroups) && AgeGroups[0].1.AtMost?
    ensures Top(AgeGroups[|AgeGroups| - 1].1) == 82
  {
    var c := seq(|AgeGroups|, i requires 0 <= i < |AgeGroups| => AgeGroups[i].1);
    assert c == [AtMost(54), Between(55, 59), Between(60, 64), Exactly(65), Between(66, 69), Exactly(70),
                 Between(71, 74), Exactly(75), Between(76, 79), Exactly(80), Between(81, 82)];
  }

  lemma {:induction false} ContiguousTail(g: seq<(Band, Cond)>)
    requires Contiguous(g) && g != []
    ensures Contiguous(g[1..])
  {
    forall i | 0 < i < |g[1..]|
      ensures !g[1..][i].1.AtMost? && Bottom(g[1..][i].1) <= Top(g[1..][i].1)
      ensures Bottom(g[1..][i].1) == Top(g[1..][i - 1].1) + 1
    {
      assert g[1..][i] == g[i + 1] && g[1..][i - 1] == g[i];
    }
  }

  /** In a contiguous list, every group ends before any later group starts. */
  lemma {:induction false} Ordered(g: seq<(Band, Cond)>, i: nat, j: nat)
    requires Contiguous(g) && i < j < |g|
    ensures Top(g[i].1) < Bottom(g[j].1)
    decreases j
  {
    if i < j - 1 {
      Ordered(g, i, j - 1);
    }
  }

  /** No age satisfies two different groups of a contiguous list. */
  lemma Disjoint(g: seq<(Band, Cond)>, i: nat, j: nat, x: int)
    requires Contiguous(g) && i < |g| && j < |g| && i != j
    ensures !(Holds(g[i].1, x) && Holds(g[j].1, x))
  {
    if i < j {
      Ordered(g, i, j);
    } else {
      Ordered(g, j, i);
    }
  }

  /** Every age up to the last group's top, and not below the first group, is in some group. */
  lemma {:induction false} Covered(g: seq<(Band, Cond)>, x: int) returns (i: nat)
    requires Contiguous(g) && g != []
    requires g[0].1.AtMost? || Bottom(g[0].1) <= x
    requires x <= Top(g[|g| - 1].1)
    ensures i < |g| && Holds(g[i].1, x)
  {
    if x <= Top(g[0].1) {
      i := 0;
    } else {
      if |g| == 1 {
        assert false;
      }
      ContiguousTail(g);
      assert g[1..][0] == g[1];
      var k := Covered(g[1..], x);
      i := k + 1;
      assert g[1..][k] == g[i];
    }
  }

  /** No age above the last group's top is in any group. */
  lemma Beyond(g: seq<(Band, Cond)>, x: int, i: nat)
    requires Contiguous(g) && i < |g| && x > Top(g[|g| - 1].1)
    ensures !Holds(g[i].1, x)
  {
    if i < |g| - 1 {
      Ordered(g, i, |g| - 1);
    }
  }

  /** The first match is a group whose condition holds, and it exists iff some group holds. */
  lemma {:induction false} FirstMatchFinds(g: seq<(Band, Cond)>, x: int) returns (k: nat)
    requires exists i :: 0 <= i < |g| && Holds(g[i].1, x)
    ensures k < |g| && Holds(g[k].1, x) && FirstMatch(g, x) == Some(g[k].0)
  {
    if Holds(g[0].1, x) {
      k := 0;
    } else {
      var i :| 0 <= i < |g| && Holds(g[i].1, x);
      assert g[1..][i - 1] == g[i];
      var j := FirstMatchFinds(g[1..], x);
      k := j + 1;
      assert g[1..][j] == g[k];
    }
  }

  lemma {:induction false} FirstMatchNone(g: seq<(Band, Cond)>, x: int)
    requires forall i :: 0 <= i < |g| ==> !Holds(g[i].1, x)
    ensures FirstMatch(g, x) == None
  {
    if g != [] {
      assert forall i :: 0 <= i < |g[1..]| ==> g[1..][i] == g[i + 1];
      FirstMatchNone(g[1..], x);
    }
  }

  /** An age has a band exactly when it is at most 82; negative ages fall in the first band. */
  lemma BandOfDefined(age: int)
    ensures BandOf(age).Some? <==> age <= 82
    ensures age <= 54 ==> BandOf(age) == Some(Upto54)
  {
    AgeGroupsShape();
    if age <= 82 {
      var i := Covered(AgeGroups, age);
      var k := FirstMatchFinds(AgeGroups, age);
    } else {
      forall i | 0 <= i < |AgeGroups|
        ensures !Holds(AgeGroups[i].1, age)
      {
        Beyond(AgeGroups, age, i);
      }
      FirstMatchNone(AgeGroups, age);
    }
  }

  /**
   * The band an age gets is the band of the one group whose condition
   * holds: the lookup order does not matter, since the groups are disjoint.
   */
  lemma BandOfUnique(age: int, i: nat)
    requires i < |AgeGroups| && Holds(AgeGroups[i].1, age)
    ensures BandOf(age) == Some(AgeGroups[i].0)
  {
    AgeGroupsShape();
    var k := FirstMatchFinds(AgeGroups, age);
    if k != i {
      Disjoint(AgeGroups, i, k, age);
    }
  }

  // ---------------------------------------------------------------- the factor table

  /** How many of the shortest terms a band is offered. */
  function Offered(b: Band): nat
  {
    match b
    case Upto54 => 5
    case From55To59 => 5
    case From60To64 => 5
    case At65 => 5
    case From66To69 => 4
    case At70 => 4
    case From71To74 => 3
    case At75 => 3
    case From76To79 => 2
    case At80 => 2
    case From81To82 => 1
  }

  /**
   * The monthly amortisation factor per dollar financed, or None where the
   * term is not offered to the band.
   */
  function Factor(b: Band, t: Term): (f: Option<real>)
    ensures f.Some? <==> Rank(t) < Offered(b)
    ensures f.Some? ==> 0.007 < f.value < 0.04
  {
    match b
    case Upto54 => [Some(0.03150), Some(0.01995), Some(0.01155), Some(0.008925), Some(0.00735)][Rank(t)]
    case From55To59 => [Some(0.03255), Some(0.01995), Some(0.01260), Some(0.009975), Some(0.00840)][Rank(t)]
    case From60To64 => [Some(0.03255), Some(0.02100), Some(0.01365), Some(0.01050), Some(0.008925)][Rank(t)]
    case At65 => [Some(0.03360), Some(0.02100), Some(0.01470), Some(0.01155), Some(0.009975)][Rank(t)]
    case From66To69 => [Some(0.03360), Some(0.02100), Some(0.01470), Some(0.01155), None][Rank(t)]
    case At70 => [Some(0.03465), Some(0.02205), Some(0.01575), Some(0.01260), None][Rank(t)]
    case From71To74 => [Some(0.03465), Some(0.02205), Some(0.01575), None, None][Rank(t)]
    case At75 => [Some(0.03675), Some(0.02310), Some(0.01680), None, None][Rank(t)]
    case From76To79 => [Some(0.03675), Some(0.02310), None, None, None][Rank(t)]
    case At80 => [Some(0.03780), Some(0.02625), None, None, None][Rank(t)]
    case From81To82 => [Some(0.03780), None, None, None, None][Rank(t)]
  }

  /** The position of a band in the lookup list: older bands come later. */
  function Position(b: Band): (k: nat)
    ensures k < |AgeGroups| && AgeGroups[k].0 == b
  {
    match b
    case Upto54 => 0
    case From55To59 => 1
    case From60To64 => 2
    case At65 => 3
    case From66To69 => 4
    case At70 => 5
    case From71To74 => 6
    case At75 => 7
    case From76To79 => 8
    case At80 => 9
    case From81To82 => 10
  }

  /** An older band is offered no term a younger band is not. */
  lemma OfferShrinksWithAge(b: Band, c: Band)
    requires Position(b) <= Position(c)
    ensures Offered(c) <= Offered(b)
  {
  }

  /** Within a band, a longer term has a smaller monthly factor. */
  lemma LongerTermSmallerFactor(b: Band, t: Term, u: Term)
    requires Rank(t) < Rank(u) && Factor(b, u).Some?
    ensures Factor(b, t).Some? && Factor(b, u).value < Factor(b, t).value
  {
  }

  // ---------------------------------------------------------------- the quote

  /** What calculate_monthly_payment decides from the values it is given. */
  datatype Quote =
    | NothingToFinance      // the principal is zero or negative
    | Failed                // a missing field, a bad amount, a bad age, or an age beyond the table
    | Quoted(principal: int, band: Band)

  /** The age field, read as int(text.strip()) reads it. */
  function Age(values: Fields): Option<int>
  {
    if "-AGE-" in values then ParseInt(Strip(values["-AGE-"])) else None
  }

  function Assess(values: Fields): Quote
  {
    QuoteOf(Read(values, "Total 3"), Read(values, "4A Single Pay"), Age(values))
  }

  /** The quote from the preplanned total, the single pay and the age as read. */
  function QuoteOf(total: Cell, single: Cell, age: Option<int>): Quote
  {
    if !total.Value? || !single.Value? then Failed
    else
      var principal := Ceil(total.x - single.x);
      if principal <= 0 then NothingToFinance else Financed(principal, age)
  }

  /** The quote depends on Total 3, 4A and the age alone. */
  lemma AssessAgrees(v: Fields, w: Fields)
    requires Read(v, "Total 3") == Read(w, "Total 3") && Read(v, "4A Single Pay") == Read(w, "4A Single Pay")
    requires Age(v) == Age(w)
    ensures Assess(v) == Assess(w)
  {
  }

  /** The quote for a positive principal, once the age has been read. */
  function Financed(principal: int, age: Option<int>): Quote
  {
    if age.None? then Failed
    else
      match BandOf(age.value)
      case None => Failed
      case Some(b) => Quoted(principal, b)
  }

  /** The payment for one term: principal times the factor, or None where the band has none. */
  function PaymentOf(principal: int, b: Band, t: Term): Option<real>
  {
    match Factor(b, t)
    case Some(f) => Some(principal as real * f)
    case None => None
  }

  /** The payment a quote stores for each term. */
  function Payment(q: Quote, t: Term): Option<real>
  {
    match q
    case Quoted(p, b) => PaymentOf(p, b, t)
    case _ => Some(0.0)
  }

  /** The payments a quote stores, by term. */
  function Payments(q: Quote): map<Term, Option<real>>
  {
    map t | t in Terms :: Payment(q, t)
  }

  /** How a stored payment shows in the payments table. */
  function Display(p: Option<real>): string
  {
    match p
    case None => "N/A"
    case Some(v) => Show(v)
  }

  /** The payments table row a quote shows. */
  function TableRow(q: Quote): seq<string>
  {
    match q
    case Quoted(p, b) => seq(|Terms|, i requires 0 <= i < |Terms| => Display(PaymentOf(p, b, Terms[i])))
    case _ => seq(|Terms|, i => "0.00")
  }

  /**
   * The table update_monthly_payments rebuilds from stored payments: a term
   * missing or stored as None shows "N/A", any other the amount.
   */
  function Rendered(payments: map<Term, Option<real>>): (row: seq<string>)
    ensures |row| == |Terms|
  {
    seq(|Terms|, i requires 0 <= i < |Terms| =>
      if Terms[i] in payments then Display(payments[Terms[i]]) else "N/A")
  }

  lemma ShowZero()
    ensures Show(0.0) == "0.00"
  {
    assert Cents(0.0) == 0;
    assert CentDigits(0) == "00" by { CentDigitsValue(0); }
    assert NatStr(0) == "0";
  }

  // ---------------------------------------------------------------- what the quote promises

  /**
   * Nothing is financed exactly when both amounts read and their difference
   * rounds up to zero or less; the age is then never looked at.
   */
  lemma NothingToFinanceIff(values: Fields)
    ensures Assess(values) == NothingToFinance <==>
      exists total, single ::
        Read(values, "Total 3") == Value(total) && Read(values, "4A Single Pay") == Value(single) &&
        total - single <= 0.0
  {
    var total := Read(values, "Total 3");
    var single := Read(values, "4A Single Pay");
    if total.Value? && single.Value? {
      assert Ceil(total.x - single.x) <= 0 <==> total.x - single.x <= 0.0;
    }
  }

  /** A quote finances the difference of the two amounts rounded up to the next whole dollar. */
  lemma QuotedPrincipal(values: Fields, p: int, b: Band)
    requires Assess(values) == Quoted(p, b)
    ensures exists total, single ::
      Read(values, "Total 3") == Value(total) && Read(values, "4A Single Pay") == Value(single) &&
      0.0 < total - single <= p as real < total - single + 1.0
  {
    var total := Read(values, "Total 3").x;
    var single := Read(values, "4A Single Pay").x;
    assert Ceil(total - single) == p;
  }

  /**
   * A quote is for an integer age of at most 82, and its band is that of
   * a group whose condition holds for that age.
   */
  lemma QuotedBand(values: Fields, p: int, b: Band) returns (i: nat)
    requires Assess(values) == Quoted(p, b)
    ensures Age(values).Some? && Age(values).value <= 82
    ensures i < |AgeGroups| && AgeGroups[i].0 == b && Holds(AgeGroups[i].1, Age(values).value)
  {
    assert Financed(p, Age(values)) == Quoted(p, b);
    var age := Age(values).value;
    BandOfDefined(age);
    i := BandHolds(age);
  }

  lemma BandHolds(age: int) returns (i: nat)
    requires age <= 82
    ensures i < |AgeGroups| && Holds(AgeGroups[i].1, age) && BandOf(age) == Some(AgeGroups[i].0)
  {
    AgeGroupsShape();
    var j := Covered(AgeGroups, age);
    i := FirstMatchFinds(AgeGroups, age);
  }

  /** A positive principal with an age above 82, or an age that is not an integer, gives no quote. */
  lemma AgeOutOfRange(values: Fields, total: real, single: real)
    requires Read(values, "Total 3") == Value(total) && Read(values, "4A Single Pay") == Value(single)
    requires total - single > 0.0
    requires Age(values).None? || Age(values).value > 82
    ensures Assess(values) == Failed
  {
    if Age(values).Some? {
      BandOfDefined(Age(values).value);
    }
  }

  /**
   * With something to finance, a term shows "N/A" exactly when the band is
   * not offered it; an offered term's payment is positive, never 0.
   */
  lemma QuotedPayments(p: int, b: Band, t: Term)
    requires p > 0
    ensures Payment(Quoted(p, b), t).None? <==> Offered(b) <= Rank(t)
    ensures Payment(Quoted(p, b), t).Some? ==> Payment(Quoted(p, b), t).value > 0.0
    ensures Payment(Quoted(p, b), t).Some? ==>
      0.007 * p as real < Payment(Quoted(p, b), t).value < 0.04 * p as real
  {
    var f := Factor(b, t);
    if f.Some? {
      assert p as real * f.value > p as real * 0.007;
      assert p as real * f.value < p as real * 0.04;
    }
  }

  /** Without a quote every term stores 0.0 and the table shows "0.00" five times. */
  lemma UnquotedIsZero(q: Quote)
    requires !q.Quoted?
    ensures forall t :: t in Payments(q) && Payments(q)[t] == Some(0.0)
    ensures TableRow(q) == ["0.00", "0.00", "0.00", "0.00", "0.00"]
  {
    forall t ensures t in Payments(q) && Payments(q)[t] == Some(0.0) {
      assert Terms[Rank(t)] == t;
    }
  }

  /**
   * The row calculate_monthly_payment shows is the row update_monthly_payments
   * rebuilds from the payments it stores.
   */
  lemma TableMatchesPayments(q: Quote)
    ensures TableRow(q) == Rendered(Payments(q))
  {
    ShowZero();
    forall i | 0 <= i < |Terms|
      ensures TableRow(q)[i] == Rendered(Payments(q))[i]
    {
      assert Terms[i] in Payments(q);
    }
  }

  // ---------------------------------------------------------------- choosing a term

  /** One more term stored by the payment loop. */
  lemma PaymentsStep(principal: int, b: Band, i: nat)
    requires i < |Terms|
    ensures (map t | t in Terms[..i + 1] :: PaymentOf(principal, b, t)) ==
      (map t | t in Terms[..i] :: PaymentOf(principal, b, t))[Terms[i] := PaymentOf(principal, b, Terms[i])]
  {
    assert Terms[..i + 1] == Terms[..i] + [Terms[i]];
  }

  /** One more term shown by the payment loop. */
  lemma ShownStep(principal: int, b: Band, i: nat)
    requires i < |Terms|
    ensures seq(i + 1, j requires 0 <= j < i + 1 => Display(PaymentOf(principal, b, Terms[j]))) ==
      seq(i, j requires 0 <= j < i => Display(PaymentOf(principal, b, Terms[j]))) + [Display(PaymentOf(principal, b, Terms[i]))]
  {
  }

  const TimePay := "4B Time Pay"
  const Total4 := "Total 4 \\(ABCD\\)"

  /** The form after handle_payment_term_selection, and what it returns. */
  datatype Selection = Selection(window: Fields, ok: bool)

  function SelectTerm(payments: map<Term, Option<real>>, window: Fields, name: string): Selection
  {
    match TermNamed(name)
    case None => Selection(window, false)
    case Some(t) =>
      if t !in payments then Selection(window, false)
      else
        match payments[t]
        case None => Selection(window[TimePay := ""], false)
        case Some(pv) =>
          Settle(window, pv, Read(window, "4A Single Pay"), Read(window, "4C Single Pay Journey Home"), Read(window, "4D LPR"))
  }

  /**
   * An offered payment pv, with 4A, 4C and 4D as read, in this order: the
   * first field missing ends in the outer handler, which empties 4B again;
   * the first that does not parse returns with the payment already written;
   * otherwise Total 4 is written too.
   */
  function Settle(window: Fields, pv: real, a: Cell, c: Cell, d: Cell): Selection
  {
    var shown := window[TimePay := Show(pv)];
    match a
    case Missing => Selection(window[TimePay := ""], false)
    case Unparseable => Selection(shown, false)
    case Value(a) =>
      match c
      case Missing => Selection(window[TimePay := ""], false)
      case Unparseable => Selection(shown, false)
      case Value(c) =>
        match d
        case Missing => Selection(window[TimePay := ""], false)
        case Unparseable => Selection(shown, false)
        case Value(d) => Selection(shown[Total4 := Show(a + pv + c + d)], true)
  }

  /** Only "4B Time Pay" and Total 4 can change, and no field disappears. */
  predicate OnlySection4(w: Fields, w': Fields)
  {
    w.Keys <= w'.Keys &&
    forall k :: k in w' && k != TimePay && k != Total4 ==> k in w && w'[k] == w[k]
  }

  /** A name that is no stored term changes nothing. */
  lemma SelectAbsent(payments: map<Term, Option<real>>, window: Fields, name: string)
    requires TermNamed(name).None? || TermNamed(name).value !in payments
    ensures SelectTerm(payments, window, name) == Selection(window, false)
  {
  }

  /** A term the band is not offered blanks "4B Time Pay" and leaves Total 4 as it was. */
  lemma SelectUnavailable(payments: map<Term, Option<real>>, window: Fields, t: Term)
    requires t in payments && payments[t].None?
    ensures var s := SelectTerm(payments, window, TermName(t));
      !s.ok && s.window[TimePay] == "" && OnlySection4(window, s.window) &&
      (Total4 in window ==> Total4 in s.window && s.window[Total4] == window[Total4])
  {
    NameSelects(t);
  }

  /** Every term's own name selects it. */
  lemma NameSelects(t: Term)
    ensures TermNamed(TermName(t)) == Some(t)
  {
  }

  /**
   * An offered term writes its payment to "4B Time Pay" and, when the other
   * three section-4 amounts read, Total 4 = 4A + payment + 4C + 4D; the
   * payment reads back as the stored one rounded to cents.
   */
  lemma SelectAvailable(payments: map<Term, Option<real>>, window: Fields, t: Term, a: real, c: real, d: real)
    requires t in payments && payments[t].Some?
    requires Read(window, "4A Single Pay") == Value(a)
    requires Read(window, "4C Single Pay Journey Home") == Value(c)
    requires Read(window, "4D LPR") == Value(d)
    ensures var s := SelectTerm(payments, window, TermName(t));
      var pv := payments[t].value;
      s.ok && OnlySection4(window, s.window) &&
      Amount(s.window[TimePay]) == Some(Rounded(pv)) &&
      Amount(s.window[Total4]) == Some(Rounded(a + pv + c + d))
  {
    NameSelects(t);
    var pv := payments[t].value;
    assert SelectTerm(payments, window, TermName(t)) ==
      Selection(window[TimePay := Show(pv)][Total4 := Show(a + pv + c + d)], true);
    BothWritten(window, pv, a + pv + c + d);
  }

  lemma BothWritten(window: Fields, pv: real, total: real)
    ensures var w := window[TimePay := Show(pv)][Total4 := Show(total)];
      OnlySection4(window, w) &&
      Amount(w[TimePay]) == Some(Rounded(pv)) && Amount(w[Total4]) == Some(Rounded(total))
  {
    AmountOfFixed2(pv, true);
    AmountOfFixed2(total, true);
  }

  /**
   * An offered term whose other section-4 amounts do not all read still
   * writes the payment to "4B Time Pay" when the fields exist, and reports
   * failure; Total 4 is not touched.
   */
  lemma SelectUnreadable(payments: map<Term, Option<real>>, window: Fields, t: Term)
    requires t in payments && payments[t].Some?
    requires "4A Single Pay" in window && "4C Single Pay Journey Home" in window && "4D LPR" in window
    requires Amount(window["4A Single Pay"]).None? ||
             Amount(window["4C Single Pay Journey Home"]).None? ||
             Amount(window["4D LPR"]).None?
    ensures var s := SelectTerm(payments, window, TermName(t));
      !s.ok && s.window == window[TimePay := Show(payments[t].value)]
  {
    NameSelects(t);
  }
}
