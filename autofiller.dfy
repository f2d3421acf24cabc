/**
 * The form controller: the text fields of the form, the discount rows,
 * and what the controller remembers between events (the stored monthly
 * payments and the table showing them, the last accepted text of each
 * dollar field, the dollar-field and discount-amount key lists, the
 * selected package and the package catalogue), with the event handlers
 * that update them.
 */
module Autofill {
  import opened Wrappers
  import opened Money
  import opened Pricing
  import opened Ledger
  import opened Financing
  import opened Packages
  import opened Formatters

  /** The key of a dollar field: a named field of the form, or the amount of discount row id. */
  datatype Key = Named(name: string) | DiscountAmt(id: nat)

  /** The named dollar fields, in the order the controller lists them. */
  const DollarFieldNames: seq<string> := [
    "A1", "A2A", "A2B", "A2C", "A2D", "A3", "A4A", "A4B", "A4C",
    "A5A", "A5B", "A5C", "A5D", "A6", "A7", "A8", "A9A", "A9B",
    "A9C", "A9D", "A9E", "A9F", "A9G", "A9H", "Total A",
    "B1", "B2", "B3", "B4", "B5", "B6", "B7", "Total B",
    "C1", "C2", "C3", "C4", "C5", "C6", "C7", "C8", "C9", "C10", "Total C",
    "D1", "D2", "D3", "D4", "D5", "D6", "D7", "D8", "Total D",
    "Total \\(ABC\\)", "Discount", "GST", "PST", "Total D_2", "Grand Total",
    "3A Goods and Services", "3B MonumentMarker", "3C Other Expenses",
    "3D Final Documents Service", "3E Journey Home", "Total 3",
    "4A Single Pay", "4B Time Pay", "4C Single Pay Journey Home", "4D LPR", "Total 4 \\(ABCD\\)"]

  /** dollar_input_keys when the form opens: the named fields, then the first discount row's amount. */
  const InitialDollarKeys: seq<Key> :=
    seq(|DollarFieldNames|, i requires 0 <= i < |DollarFieldNames| => Named(DollarFieldNames[i])) + [DiscountAmt(0)]

  /** The payments table before any calculation. */
  const ZeroRow: seq<string> := ["0.00", "0.00", "0.00", "0.00", "0.00"]

  /** The fields with one quantity-priced amount set: the price in cents times the quantity, or "" when the quantity is no integer. */
  function Priced(w: Fields, field: string, quantity: string, unitCents: nat): Fields
  {
    match ParseInt(quantity)
    case Some(n) => w[field := Fixed2((n * unitCents) as real / 100.0, false)]
    case None => w[field := ""]
  }

  /** list.remove: the first occurrence of x taken out. */
  function RemoveFirst<T(==)>(s: seq<T>, x: T): (r: seq<T>)
    ensures x in s ==> |r| == |s| - 1 && multiset(r) == multiset(s) - multiset{x}
    ensures x !in s ==> r == s
  {
    if s == [] then []
    else
      assert s == [s[0]] + s[1..];
      if s[0] == x then s[1..] else [s[0]] + RemoveFirst(s[1..], x)
  }

  /**
   * What calculate_grand_total writes once the discount total is known: the discount; then,
   * when every GST field is present and the sections add up, the section totals, the taxes,
   * the grand total and Total 3.
   */
  method Recalculate(window: Fields, values: Fields, discount: real) returns (w: Fields)
    ensures w == Recalculated(window, values, discount)
  {
    w := window["Discount" := Show(discount)];
    var missing, gst, pst := TaxLoop(values, GstFields);
    if missing {
      NoInvoiceWithoutTaxes(window, values, discount);
      return;
    }
    InvoiceFromSums(values, discount, Bases(gst, pst));
    var inv := Assemble(Some(Bases(gst, pst)), Sections(values), SectionTotal(values, PreplannedExtras), discount);
    RecalculatedOf(window, values, discount, inv);
    if inv.Some? {
      w := w + InvoiceWrites(inv.value);
    }
  }

  /**
   * The GST loop of calculate_grand_total over the fields fs: the sum of
   * those that parse and the PST on the PST-applicable ones among them,
   * an unparseable field skipped for both; missing reports the KeyError of
   * a field the values lack.
   */
  method TaxLoop(values: Fields, fs: seq<string>) returns (missing: bool, gst: real, pst: real)
    ensures missing <==> !AllPresent(values, fs)
    ensures !missing ==> gst == SumOf(values, fs, Every)
    ensures !missing ==> pst == PstRate * SumOf(values, fs, PstApplicable(Exempt(values)))
    ensures TaxBasesOver(values, fs) == if missing then None else Some(Bases(gst, pst))
  {
    var exempt := Exempt(values);
    gst, pst := 0.0, 0.0;
    for i := 0 to |fs|
      invariant AllPresent(values, fs[..i])
      invariant gst == SumOf(values, fs[..i], Every)
      invariant pst == PstRate * SumOf(values, fs[..i], PstApplicable(exempt))
    {
      var f := fs[i];
      if f !in values {
        MissingField(values, fs, i);
        return true, gst, pst;
      }
      SumOfStep(values, fs, i, Every);
      SumOfStep(values, fs, i, PstApplicable(exempt));
      AllPresentStep(values, fs, i);
      var r := Read(values, f);
      if r.Value? {
        gst := gst + r.x;
        if PstApplies(f, exempt) {
          pst := pst + r.x * PstRate;
        }
      }
    }
    SumsAreBases(values, fs, gst, pst);
    missing := false;
  }

  /** The loop of calculate_total_discount over the rows below n: a shown row's amount added unless it does not parse. */
  method DiscountLoop(rows: Rows, n: nat) returns (total: real)
    ensures total == DiscountTotal(rows, n)
  {
    total := 0.0;
    for i := 0 to n
      invariant total == DiscountTotal(rows, i)
    {
      if Shown(rows, i) {
        match DiscountAmount(rows[i].amt)
        case Some(x) => total := total + x;
        case None =>
      }
    }
  }

  // ---------------------------------------------------------------- the Single Pay Journey Home box

  const JourneyHome := "3E Journey Home"
  const SinglePayJourneyHome := "4C Single Pay Journey Home"
  const Total3 := "Total 3"

  /** The field the box empties: 3E when it is ticked, 4C when it is cleared. */
  function MoveFrom(checked: bool): string { if checked then JourneyHome else SinglePayJourneyHome }

  /** The field the box fills: 4C when it is ticked, 3E when it is cleared. */
  function MoveTo(checked: bool): string { if checked then SinglePayJourneyHome else JourneyHome }

  /** The writes of handle_single_pay_jh_checkbox: a non-empty amount moves to the other field, which it replaces. */
  function MoveWrites(values: Fields, checked: bool): Fields
    requires MoveFrom(checked) in values
  {
    var v := values[MoveFrom(checked)];
    if v == "" then map[] else map[MoveTo(checked) := v, MoveFrom(checked) := ""]
  }

  /** The values the handler passes on to the totals and the quote. */
  function Moved(values: Fields, checked: bool): Fields
    requires MoveFrom(checked) in values
  {
    values + MoveWrites(values, checked)
  }

  /** The payments, the payments table, the fields after calculate_monthly_payment, and what it returns. */
  datatype PaymentState = PaymentState(payments: map<Term, Option<real>>, table: seq<string>, window: Fields, ok: bool)

  /**
   * calculate_monthly_payment: with a quote, every term's payment stored and
   * shown and a chosen payment term applied to the form; without one,
   * every payment 0.00.
   */
  function MonthlyPayment(values: Fields, window: Fields): PaymentState
  {
    var q := Assess(values);
    if !q.Quoted? then PaymentState(Payments(q), ZeroRow, window, false)
    else
      var name := if "Payment Term" in values then values["Payment Term"] else "";
      var w := if name != "" && TermNamed(name).Some? then SelectTerm(Payments(q), window, name).window else window;
      PaymentState(Payments(q), TableRow(q), w, true)
  }

  /** A section total written to its field when every field of the section parses. */
  function Totalled(w: Fields, values: Fields, fs: seq<string>, field: string): Fields
  {
    match Tally(values, fs)
    case Value(x) => w[field := Show(x)]
    case _ => w
  }

  /** The fields, the stored payments and the payments table after a handler. */
  datatype Outcome = Outcome(window: Fields, payments: map<Term, Option<real>>, table: seq<string>)

  /**
   * handle_single_pay_jh_checkbox: the amount moves between 3E and 4C, then
   * Total 3, Total 4 and, when an age is entered, the quote are worked out
   * from the moved values; a missing field ends the handler where it is raised.
   */
  function CheckboxOutcome(values: Fields, checked: bool, o: Outcome): Outcome
  {
    if MoveFrom(checked) !in values then o
    else
      var v := Moved(values, checked);
      var w1 := o.window + MoveWrites(values, checked);
      if Tally(v, Section3Fields).Missing? then o.(window := w1)
      else
        var w2 := Totalled(w1, v, Section3Fields, Total3);
        if Tally(v, Section4Fields).Missing? then o.(window := w2)
        else
          var w3 := Totalled(w2, v, Section4Fields, Total4);
          if !HasAge(v) then o.(window := w3)
          else
            var m := MonthlyPayment(v, w3);
            Outcome(m.window, m.payments, Rendered(m.payments))
  }

  /** Without a quote every term stores 0.00 and the table shows zeros. */
  lemma MonthlyUnquoted(values: Fields, window: Fields)
    requires !Assess(values).Quoted?
    ensures MonthlyPayment(values, window) == PaymentState(map t | t in Terms :: Some(0.0), ZeroRow, window, false)
  {
    UnquotedIsZero(Assess(values));
  }

  lemma CheckboxRaised3(values: Fields, checked: bool, o: Outcome)
    requires MoveFrom(checked) in values && Tally(Moved(values, checked), Section3Fields).Missing?
    ensures CheckboxOutcome(values, checked, o) == o.(window := o.window + MoveWrites(values, checked))
  {
  }

  lemma CheckboxRaised4(values: Fields, checked: bool, o: Outcome)
    requires MoveFrom(checked) in values
    requires var v := Moved(values, checked); !Tally(v, Section3Fields).Missing? && Tally(v, Section4Fields).Missing?
    ensures CheckboxOutcome(values, checked, o) ==
      o.(window := Totalled(o.window + MoveWrites(values, checked), Moved(values, checked), Section3Fields, Total3))
  {
  }

  /** The fields once both section totals have been written. */
  function BothTotals(values: Fields, checked: bool, w: Fields): Fields
    requires MoveFrom(checked) in values
  {
    var v := Moved(values, checked);
    Totalled(Totalled(w + MoveWrites(values, checked), v, Section3Fields, Total3), v, Section4Fields, Total4)
  }

  lemma CheckboxNoAge(values: Fields, checked: bool, o: Outcome)
    requires MoveFrom(checked) in values
    requires var v := Moved(values, checked); !Tally(v, Section3Fields).Missing? && !Tally(v, Section4Fields).Missing? && !HasAge(v)
    ensures CheckboxOutcome(values, checked, o) == o.(window := BothTotals(values, checked, o.window))
  {
  }

  lemma CheckboxQuoted(values: Fields, checked: bool, o: Outcome)
    requires MoveFrom(checked) in values
    requires var v := Moved(values, checked); !Tally(v, Section3Fields).Missing? && !Tally(v, Section4Fields).Missing? && HasAge(v)
    ensures var m := MonthlyPayment(Moved(values, checked), BothTotals(values, checked, o.window));
      CheckboxOutcome(values, checked, o) == Outcome(m.window, m.payments, Rendered(m.payments))
  {
  }

  /** Ticking the box and clearing it again brings the amount back to 3E and leaves 4C empty. */
  lemma ToggleRoundTrip(values: Fields)
    requires JourneyHome in values && values[JourneyHome] != ""
    ensures Moved(Moved(values, true), false) == values[SinglePayJourneyHome := ""]
  {
    var once := Moved(values, true);
    assert once[SinglePayJourneyHome] == values[JourneyHome];
  }

  /** Moving an amount out of a field leaves nothing there; the other fields read as before. */
  lemma MovedReads(values: Fields, checked: bool, k: string)
    requires MoveFrom(checked) in values && k != MoveFrom(checked) && k != MoveTo(checked)
    ensures Read(Moved(values, checked), k) == Read(values, k)
  {
  }

  /** Sections whose fields read the same add up the same. */
  lemma {:induction false} TallyAgrees(v: Fields, w: Fields, fs: seq<string>)
    requires forall i :: 0 <= i < |fs| ==> Read(v, fs[i]) == Read(w, fs[i])
    ensures Tally(v, fs) == Tally(w, fs)
  {
    if fs != [] {
      TallyAgrees(v, w, fs[..|fs| - 1]);
    }
  }

  /** 3A to 3D are neither of the fields the box moves between. */
  lemma HeadNotMoved(i: nat)
    requires i < 4
    ensures Section3Fields[i] != JourneyHome && Section3Fields[i] != SinglePayJourneyHome
  {
    assert Section3Fields[i][0] == '3' && Section3Fields[i][1] != 'E';
  }

  /** Ticking the box leaves 3A to 3D as they read. */
  lemma MovedHead(values: Fields)
    requires JourneyHome in values
    ensures Tally(Moved(values, true), Section3Fields[..4]) == Tally(values, Section3Fields[..4])
  {
    var head := Section3Fields[..4];
    forall i | 0 <= i < |head| ensures Read(values, head[i]) == Read(Moved(values, true), head[i]) {
      HeadNotMoved(i);
      MovedReads(values, true, head[i]);
    }
    TallyAgrees(values, Moved(values, true), head);
  }

  /** Ticking the box takes the Journey Home amount x out of the section 3 sum s. */
  lemma MoveLowersSection3(values: Fields, s: real, x: real)
    requires JourneyHome in values && values[JourneyHome] != ""
    requires Tally(values, Section3Fields) == Value(s) && Read(values, JourneyHome) == Value(x)
    ensures Tally(Moved(values, true), Section3Fields) == Value(s - x)
  {
    var m := Moved(values, true);
    MovedHead(values);
    assert StripCurrency("") == "";
    assert Read(m, JourneyHome) == Value(0.0);
  }

  /**
   * The quote the handler asks for is the one before the move: Total 3 is
   * read from the values the event carried, which still hold 3E.
   */
  lemma StaleQuote(values: Fields, checked: bool)
    requires MoveFrom(checked) in values
    ensures Assess(Moved(values, checked)) == Assess(values)
  {
    var m := Moved(values, checked);
    MovedReads(values, checked, Total3);
    MovedReads(values, checked, "4A Single Pay");
    assert ("-AGE-" in m) == ("-AGE-" in values);
    assert "-AGE-" in m ==> m["-AGE-"] == values["-AGE-"];
    AssessAgrees(m, values);
  }

  /**
   * The values passed on to the quote with Total 3 recomputed from the
   * moved amounts, as the Total 3 field of the form now shows it.
   */
  function Refreshed(values: Fields, checked: bool): (r: Fields)
    requires MoveFrom(checked) in values
  {
    var v := Moved(values, checked);
    Totalled(v, v, Section3Fields, Total3)
  }

  /**
   * With the refresh, the quote finances what section 3 now holds: the
   * principal is the ceiling of the new total less the single pay.
   */
  lemma FreshQuote(values: Fields, s: real, x: real)
    requires JourneyHome in values && values[JourneyHome] != ""
    requires Tally(values, Section3Fields) == Value(s) && Read(values, JourneyHome) == Value(x)
    ensures Read(Refreshed(values, true), Total3) == Value(Rounded(s - x))
    ensures Assess(Refreshed(values, true)) == QuoteOf(Value(Rounded(s - x)), Read(values, "4A Single Pay"), Age(values))
  {
    var r := Refreshed(values, true);
    RefreshedTotal(values, s, x);
    AmountOfFixed2(s - x, true);
    SingleAndAgeKept(values, r);
  }

  /** The refresh writes the lowered section 3 sum to Total 3. */
  lemma RefreshedTotal(values: Fields, s: real, x: real)
    requires JourneyHome in values && values[JourneyHome] != ""
    requires Tally(values, Section3Fields) == Value(s) && Read(values, JourneyHome) == Value(x)
    ensures Refreshed(values, true) == Moved(values, true)[Total3 := Show(s - x)]
  {
    MoveLowersSection3(values, s, x);
  }

  /** Refreshing Total 3 after the move leaves 4A and the age as they were. */
  lemma SingleAndAgeKept(values: Fields, r: Fields)
    requires JourneyHome in values && Total3 in r && r == Moved(values, true)[Total3 := r[Total3]]
    ensures Read(r, "4A Single Pay") == Read(values, "4A Single Pay") && Age(r) == Age(values)
  {
    var single, age := "4A Single Pay", "-AGE-";
    assert single[0] != JourneyHome[0] && single[1] != SinglePayJourneyHome[1] && single[0] != Total3[0];
    Untouched(values, r[Total3], r, single);
    assert age[0] != JourneyHome[0] && age[0] != SinglePayJourneyHome[0] && age[0] != Total3[0];
    Untouched(values, r[Total3], r, age);
  }

  /** A field other than 3E, 4C and Total 3 is as it was after the move and the refresh. */
  lemma Untouched(values: Fields, t: string, r: Fields, k: string)
    requires JourneyHome in values && r == Moved(values, true)[Total3 := t]
    requires k != JourneyHome && k != SinglePayJourneyHome && k != Total3
    ensures (k in r) == (k in values) && (k in r ==> r[k] == values[k])
  {
  }

  /**
   * As written, on a form whose Total 3 is current: ticking the box lowers
   * section 3 to s - x, yet the quote is still taken from s.
   */
  lemma StaleQuoteFinances(values: Fields, s: real, x: real)
    requires JourneyHome in values && values[JourneyHome] != ""
    requires Tally(values, Section3Fields) == Value(s) && Read(values, JourneyHome) == Value(x)
    requires Read(values, Total3) == Value(s)
    ensures Tally(Moved(values, true), Section3Fields) == Value(s - x)
    ensures Assess(Moved(values, true)) == QuoteOf(Value(s), Read(values, "4A Single Pay"), Age(values))
  {
    MoveLowersSection3(values, s, x);
    StaleQuote(values, true);
  }

  /** The 0 to 54 band of an age of 50. */
  lemma FiftyIsYoungest()
    ensures BandOf(50) == Some(Upto54)
  {
    assert Holds(AgeGroups[0].1, 50);
  }

  /** A quote for a whole amount with no single pay, at age 50. */
  lemma QuoteAtFifty(n: nat)
    requires n > 0
    ensures QuoteOf(Value(n as real), Value(0.0), Some(50)) == Quoted(n, Upto54)
  {
    FiftyIsYoungest();
    assert Ceil(n as real - 0.0) == n;
  }

  /**
   * The form of the example: 3A to 3D adding up to 1,000.00, 500.00 in 3E,
   * Total 3 at 1,500.00, no single pay, age 50. Ticking the box shows
   * 1,000.00 in Total 3 but quotes 1,500 in the 0 to 54 band; the
   * corrected values quote 1,000.
   */
  lemma TickedExample(values: Fields)
    requires JourneyHome in values && values[JourneyHome] != ""
    requires Tally(values, Section3Fields) == Value(1500.0) && Read(values, JourneyHome) == Value(500.0)
    requires Read(values, Total3) == Value(1500.0) && Read(values, "4A Single Pay") == Value(0.0)
    requires Age(values) == Some(50)
    ensures Tally(Moved(values, true), Section3Fields) == Value(1000.0)
    ensures Assess(Moved(values, true)) == Quoted(1500, Upto54)
    ensures Assess(Refreshed(values, true)) == Quoted(1000, Upto54)
  {
    StaleQuoteFinances(values, 1500.0, 500.0);
    QuoteAtFifty(1500);
    FreshQuote(values, 1500.0, 500.0);
    RoundedWholeCents(100000);
    assert Rounded(1500.0 - 500.0) == 1000.0;
    QuoteAtFifty(1000);
  }

  /** values.get("-AGE-") is truthy. */
  predicate HasAge(values: Fields) { "-AGE-" in values && values["-AGE-"] != "" }

  /** sum([...]) over fs, the fields read in order: the first that is missing or does not parse raises. */
  method TallyLoop(values: Fields, fs: seq<string>) returns (c: Cell)
    ensures c == Tally(values, fs)
  {
    var total := 0.0;
    for i := 0 to |fs|
      invariant Tally(values, fs[..i]) == Value(total)
    {
      TallyStep(values, fs, i);
      var r := Read(values, fs[i]);
      if !r.Value? {
        TallySticky(values, fs, i + 1);
        return r;
      }
      total := total + r.x;
    }
    assert fs[..|fs|] == fs;
    c := Value(total);
  }

  /** The loop of calculate_monthly_payment over the terms: each payment stored and shown, None and "N/A" where the band has no factor. */
  method PaymentLoop(principal: int, b: Band) returns (ps: map<Term, Option<real>>, row: seq<string>)
    ensures ps == Payments(Quoted(principal, b)) && row == TableRow(Quoted(principal, b))
  {
    ps, row := map[], [];
    for i := 0 to |Terms|
      invariant ps == map t | t in Terms[..i] :: PaymentOf(principal, b, t)
      invariant row == seq(i, j requires 0 <= j < i => Display(PaymentOf(principal, b, Terms[j])))
    {
      var t := Terms[i];
      PaymentsStep(principal, b, i);
      ShownStep(principal, b, i);
      var payment := PaymentOf(principal, b, t);
      if payment.Some? {
        ps := ps[t := payment];
        row := row + [Show(payment.value)];
      } else {
        ps := ps[t := None];
        row := row + ["N/A"];
      }
    }
    assert Terms[..|Terms|] == Terms;
  }

  /** The loop of update_monthly_payments: a term absent or stored as None shows "N/A". */
  method RenderLoop(payments: map<Term, Option<real>>) returns (row: seq<string>)
    ensures row == Rendered(payments)
  {
    row := [];
    for i := 0 to |Terms|
      invariant row == Rendered(payments)[..i]
    {
      var t := Terms[i];
      if t in payments && payments[t].Some? {
        row := row + [Show(payments[t].value)];
      } else {
        row := row + ["N/A"];
      }
    }
  }

  /**
   * The rows and keys after apply_package's Cadence step (rows', metadata', dollarKeys',
   * lastValue') given those before: the rows as WithCadence leaves them; the keys as they
   * were, unless a new row was added, whose amount key add_discount_field records.
   */
  ghost predicate CadenceStep(rows: Rows, metadata: nat, dollarKeys: seq<Key>, lastValue: map<Key, string>,
                              rows': Rows, metadata': nat, dollarKeys': seq<Key>, lastValue': map<Key, string>)
  {
    (rows', metadata') == WithCadence(rows, metadata) &&
    (metadata' == metadata ==> dollarKeys' == dollarKeys && lastValue' == lastValue) &&
    (metadata' != metadata ==>
      var k := DiscountAmt(metadata');
      dollarKeys' == (if k in dollarKeys then dollarKeys else dollarKeys + [k]) &&
      lastValue' == (if k in lastValue then lastValue else lastValue[k := ""]))
  }

  lemma CadenceKept(rows: Rows, metadata: nat, dollarKeys: seq<Key>, lastValue: map<Key, string>)
    requires ScanRows(rows, metadata + 1).cadence
    ensures CadenceStep(rows, metadata, dollarKeys, lastValue, rows, metadata, dollarKeys, lastValue)
  {
  }

  lemma CadenceFilled(rows: Rows, metadata: nat, dollarKeys: seq<Key>, lastValue: map<Key, string>, k: nat)
    requires !ScanRows(rows, metadata + 1).cadence && ScanRows(rows, metadata + 1).empty == Some(k)
    ensures CadenceStep(rows, metadata, dollarKeys, lastValue, rows[k := CadenceRow], metadata, dollarKeys, lastValue)
  {
  }

  lemma CadenceAppended(rows: Rows, metadata: nat, dollarKeys: seq<Key>, lastValue: map<Key, string>,
                        dollarKeys': seq<Key>, lastValue': map<Key, string>)
    requires !ScanRows(rows, metadata + 1).cadence && ScanRows(rows, metadata + 1).empty.None?
    requires var k := DiscountAmt(metadata + 1);
      dollarKeys' == (if k in dollarKeys then dollarKeys else dollarKeys + [k]) &&
      lastValue' == (if k in lastValue then lastValue else lastValue[k := ""])
    ensures CadenceStep(rows, metadata, dollarKeys, lastValue, rows[metadata + 1 := CadenceRow], metadata + 1, dollarKeys', lastValue')
  {
  }

  lemma Overwrite(rows: Rows, k: nat, r: Row, r': Row)
    ensures rows[k := r][k := r'] == rows[k := r']
  {
  }

  /** The union loop of apply_package: the fields of every package of the catalogue. */
  method AllKeysLoop(catalogue: seq<(string, Package)>) returns (ks: set<string>)
    ensures ks == AllKeys(catalogue)
  {
    ks := {};
    for i := 0 to |catalogue|
      invariant ks == AllKeys(catalogue[..i])
    {
      assert catalogue[..i + 1][..i] == catalogue[..i];
      ks := ks + Keys(catalogue[i].1);
    }
    assert catalogue[..|catalogue|] == catalogue;
  }

  /** The clearing loop of apply_package: each field of ks the form has is emptied, in any order. */
  method ClearLoop(w: Fields, ks: set<string>) returns (r: Fields)
    ensures r == Cleared(w, ks)
  {
    r := w;
    var todo, done := ks, {};
    while todo != {}
      invariant done + todo == ks && done !! todo && r == Cleared(w, done)
      decreases |todo|
    {
      var k :| k in todo;
      ClearOne(w, done, k);
      if k in r {
        r := r[k := ""];
      }
      todo, done := todo - {k}, done + {k};
    }
  }

  /** Clearing one more field k is writing "" to it, when the form has it. */
  lemma ClearOne(w: Fields, done: set<string>, k: string)
    ensures Cleared(w, done + {k}) == if k in w then Cleared(w, done)[k := ""] else Cleared(w, done)
  {
    var r := if k in w then Cleared(w, done)[k := ""] else Cleared(w, done);
    assert forall f :: f in r ==> r[f] == Cleared(w, done + {k})[f];
  }

  /**
   * The scan of apply_package: through the shown rows below n, stopping at one that reads
   * "Cadence", and remembering the last shown row whose description and amount are empty.
   */
  method ScanLoop(rows: Rows, n: nat) returns (s: Scan)
    ensures s == ScanRows(rows, n)
  {
    var empty: Option<nat> := None;
    var i := 0;
    while i < n
      invariant i <= n && ScanRows(rows, i) == Scan(false, empty)
    {
      if Shown(rows, i) && rows[i].desc == "Cadence" {
        ScanRowsSticky(rows, i + 1, n);
        return Scan(true, empty);
      } else if EmptyShown(rows, i) {
        empty := Some(i);
      }
      i := i + 1;
    }
    return Scan(false, empty);
  }

  /** The write loop of apply_package: each package field the form has takes the package's value. */
  method WriteLoop(w: Fields, p: Package) returns (r: Fields)
    ensures r == Written(w, p)
  {
    r := w;
    for j := 0 to |p|
      invariant r == Written(w, p[..j])
    {
      assert p[..j + 1][..j] == p[..j];
      var (k, v) := p[j];
      if k in r {
        r := r[k := Render(v)];
      }
    }
    assert p[..|p|] == p;
  }

  /** The loop of get_discount_descriptions: the stripped non-empty descriptions of the shown rows below n. */
  method DescriptionsLoop(rows: Rows, n: nat) returns (parts: seq<string>)
    ensures parts == Descriptions(rows, n)
  {
    parts := [];
    for i := 0 to n
      invariant parts == Descriptions(rows, i)
    {
      if Shown(rows, i) {
        var desc := Strip(rows[i].desc);
        if desc != "" {
          parts := parts + [desc];
        }
      }
    }
  }

  /** The scan of get_cadence_discount_amount over the rows below n, stopping at the first Cadence row. */
  method CadenceLoop(rows: Rows, n: nat) returns (amount: string)
    ensures amount == CadenceAmount(rows, n)
  {
    var i := 0;
    while i < n
      invariant i <= n && FirstCadence(rows, i).None?
    {
      if Shown(rows, i) && Lower(Strip(rows[i].desc)) == "cadence" {
        FirstCadenceSticky(rows, i + 1, n);
        return StripCurrency(rows[i].amt);
      }
      i := i + 1;
    }
    return "";
  }

  /** The count of shown rows in remove_discount_field. */
  method CountShown(rows: Rows, n: nat) returns (count: nat)
    ensures count == VisibleCount(rows, n)
  {
    count := 0;
    for i := 0 to n
      invariant count == VisibleCount(rows, i)
    {
      if Shown(rows, i) {
        count := count + 1;
      }
    }
  }

  // ---------------------------------------------------------------- dollar fields

  /** Whether the form has the widget of a dollar key: a named field, or the amount of an existing discount row. */
  predicate HasWidget(w: Fields, rows: Rows, key: Key)
  {
    match key
    case Named(n) => n in w
    case DiscountAmt(i) => i in rows
  }

  /** The text in the widget of a dollar key. */
  function WidgetText(w: Fields, rows: Rows, key: Key): string
    requires HasWidget(w, rows, key)
  {
    match key
    case Named(n) => w[n]
    case DiscountAmt(i) => rows[i].amt
  }

  /** last_value.get(key, ''). */
  function LastStored(lastValue: map<Key, string>, key: Key): string
  {
    if key in lastValue then lastValue[key] else ""
  }

  /** Writing a widget's own text back changes nothing. */
  lemma SameWidget(w: Fields, rows: Rows, key: Key)
    requires HasWidget(w, rows, key)
    ensures key.Named? ==> w == w[key.name := WidgetText(w, rows, key)]
    ensures key.DiscountAmt? ==> rows == rows[key.id := rows[key.id].(amt := WidgetText(w, rows, key))]
  {
  }

  /** A quantity-priced amount reads back as the quantity times the unit price, and a bad quantity as 0. */
  lemma PricedAmount(w: Fields, field: string, quantity: string, unitCents: nat)
    ensures Read(Priced(w, field, quantity, unitCents), field) ==
      match ParseInt(quantity)
      case Some(n) => Value((n * unitCents) as real / 100.0)
      case None => Value(0.0)
  {
    match ParseInt(quantity)
    case Some(n) =>
      WholeCentsReadBack(w, field, n * unitCents);
    case None =>
      assert StripCurrency("") == "";
  }

  /** A whole number of cents, written without grouping, reads back exactly. */
  lemma WholeCentsReadBack(w: Fields, field: string, c: int)
    ensures Read(w[field := Fixed2(c as real / 100.0, false)], field) == Value(c as real / 100.0)
  {
    AmountOfFixed2(c as real / 100.0, false);
    RoundedWholeCents(c);
  }

  /** The body of handle_payment_term_selection, on the fields it is given. */
  method ChooseTerm(payments: map<Term, Option<real>>, window: Fields, name: string) returns (w: Fields, ok: bool)
    ensures Selection(w, ok) == SelectTerm(payments, window, name)
  {
    w := window;
    var t := TermNamed(name);
    if t.None? || t.value !in payments {
      return w, false;
    }
    var p := payments[t.value];
    if p.None? {
      return w[TimePay := ""], false;
    }
    w, ok := SettleTerm(window, p.value);
  }

  /** The rest of handle_payment_term_selection once the stored payment pv is known. */
  method SettleTerm(window: Fields, pv: real) returns (w: Fields, ok: bool)
    ensures Selection(w, ok) ==
      Settle(window, pv, Read(window, "4A Single Pay"), Read(window, "4C Single Pay Journey Home"), Read(window, "4D LPR"))
  {
    w := window[TimePay := Show(pv)];
    var a := Read(window, "4A Single Pay");
    if !a.Value? {
      // a missing field ends in the outer handler, which empties 4B again
      return if a.Missing? then window[TimePay := ""] else w, false;
    }
    var c := Read(window, "4C Single Pay Journey Home");
    if !c.Value? {
      return if c.Missing? then window[TimePay := ""] else w, false;
    }
    var d := Read(window, "4D LPR");
    if !d.Value? {
      return if d.Missing? then window[TimePay := ""] else w, false;
    }
    w := w[Total4 := Show(a.x + pv + c.x + d.x)];
    ok := true;
  }

  /**
   * The body of calculate_monthly_payment: the payments and the table for
   * the quote, then the chosen payment term applied to the fields.
   */
  method QuotePayments(values: Fields, window: Fields) returns (st: PaymentState)
    ensures st == MonthlyPayment(values, window)
  {
    var q := Assess(values);
    if !q.Quoted? {
      MonthlyUnquoted(values, window);
      return PaymentState(map t | t in Terms :: Some(0.0), ZeroRow, window, false);
    }
    var ps, row := PaymentLoop(q.principal, q.band);
    var w := window;
    var name := if "Payment Term" in values then values["Payment Term"] else "";
    if name != "" && TermNamed(name).Some? {
      var chosen;
      w, chosen := ChooseTerm(ps, window, name);
    }
    st := PaymentState(ps, row, w, true);
  }

  /** One field written as a one-entry update. */
  lemma WriteOne(w: Fields, k: string, v: string)
    ensures w + map[k := v] == w[k := v]
  {
  }

  /**
   * Row item removed, from the rows and keys before (rows, dollarKeys, amountKeys, lastValue)
   * to those after (the primed ones): its text is cleared; it stays shown only when it was
   * the last row shown, and otherwise its amount key is forgotten.
   */
  ghost predicate DiscardStep(item: nat, metadata: nat, rows: Rows, dollarKeys: seq<Key>, amountKeys: seq<Key>,
                              lastValue: map<Key, string>, rows': Rows, dollarKeys': seq<Key>,
                              amountKeys': seq<Key>, lastValue': map<Key, string>)
    requires item in rows
  {
    var keep := VisibleCount(rows, metadata + 1) <= 1;
    rows' == rows[item := Row("", "", keep && rows[item].visible)] &&
    DiscountTotal(rows', metadata + 1) == DiscountTotal(rows, metadata + 1) - Contribution(rows, item) &&
    dollarKeys' == (if keep then dollarKeys else RemoveFirst(dollarKeys, DiscountAmt(item))) &&
    amountKeys' == (if keep then amountKeys else RemoveFirst(amountKeys, DiscountAmt(item))) &&
    lastValue' == (if keep then lastValue else lastValue - {DiscountAmt(item)})
  }

  class Autofiller {
    var window: Fields
    var rows: Rows
    var metadata: nat
    var payments: map<Term, Option<real>>
    var table: seq<string>
    var lastValue: map<Key, string>
    var dollarKeys: seq<Key>
    var discountAmountKeys: seq<Key>
    var selectedPackage: string
    var packages: seq<(string, Package)>

    /** The discount rows are well formed: rows 0..metadata exist and at least one is shown. */
    ghost predicate Valid()
      reads this`rows, this`metadata
    {
      WellFormed(rows, metadata)
    }

    /** Only the fields of the form may have changed. */
    twostate predicate OnlyWindow()
      reads this
    {
      rows == old(rows) && metadata == old(metadata) && QuoteKept() && KeysKept() &&
      selectedPackage == old(selectedPackage) && packages == old(packages)
    }

    /** The stored payments and their table are as they were. */
    twostate predicate QuoteKept()
      reads this
    {
      payments == old(payments) && table == old(table)
    }

    /** The remembered dollar texts and the key lists are as they were. */
    twostate predicate KeysKept()
      reads this
    {
      lastValue == old(lastValue) && dollarKeys == old(dollarKeys) && discountAmountKeys == old(discountAmountKeys)
    }

    /**
     * The controller as the open form has it: the given fields, one empty
     * shown discount row, no stored payments, a table of zeros, every
     * dollar field remembered as empty.
     */
    constructor(fields: Fields)
      ensures Valid()
      ensures window == fields && rows == map[0 := Row("", "", true)] && metadata == 0
      ensures payments == map[] && table == ZeroRow
      ensures dollarKeys == InitialDollarKeys && discountAmountKeys == [DiscountAmt(0)]
      ensures lastValue == map k | k in InitialDollarKeys :: ""
      ensures selectedPackage == "" && packages == Catalogue
    {
      window := fields;
      rows := map[0 := Row("", "", true)];
      metadata := 0;
      payments := map[];
      table := ZeroRow;
      dollarKeys := InitialDollarKeys;
      discountAmountKeys := [DiscountAmt(0)];
      lastValue := map k | k in InitialDollarKeys :: "";
      selectedPackage := "";
      packages := Catalogue;
      new;
      assert VisibleCount(rows, 1) == 1;
    }

    /** Writes the fields of m to the form, the way a run of window[key].update(text) calls does. */
    method Update(m: Fields)
      requires Valid()
      modifies this`window
      ensures window == old(window) + m
      ensures OnlyWindow() && Valid()
    {
      window := window + m;
    }

    /** Replaces the fields of the form by w. */
    method Store(w: Fields)
      requires Valid()
      modifies this`window
      ensures window == w
      ensures OnlyWindow() && Valid()
    {
      window := w;
    }

    // ------------------------------------------------------------ the invoice

    /** calculate_total_discount: the shown rows' readable amounts summed and written to "Discount". */
    method CalculateTotalDiscount() returns (total: real)
      requires Valid()
      modifies this`window
      ensures total == DiscountTotal(rows, metadata + 1)
      ensures window == old(window)["Discount" := Show(total)]
      ensures OnlyWindow() && Valid()
    {
      total := DiscountLoop(rows, metadata + 1);
      WriteOne(window, "Discount", Show(total));
      Update(map["Discount" := Show(total)]);
    }

    /**
     * calculate_grand_total: the discount first; then the GST loop, where a
     * missing field stops everything and an unparseable one is skipped;
     * then the section totals, the taxes, the grand total and Total 3.
     */
    method CalculateGrandTotal(values: Fields)
      requires Valid()
      modifies this`window
      ensures window == Recalculated(old(window), values, DiscountTotal(rows, metadata + 1))
      ensures OnlyWindow() && Valid()
    {
      var discount := DiscountLoop(rows, metadata + 1);
      var w := Recalculate(window, values, discount);
      window := w;
    }

    /** Only the fields, the stored payments and the payments table may have changed. */
    twostate predicate OnlyQuote()
      reads this
    {
      rows == old(rows) && metadata == old(metadata) && KeysKept() &&
      selectedPackage == old(selectedPackage) && packages == old(packages)
    }

    // ------------------------------------------------------------ sections 3 and 4

    /**
     * calculate_section_3_total: Total 3 becomes the sum of 3A to 3E when all
     * of them parse; a field that does not parse leaves the form as it is,
     * and a missing one raises (raised), which this handler does not catch.
     */
    method CalculateSection3Total(values: Fields) returns (raised: bool)
      requires Valid()
      modifies this
      ensures raised <==> Tally(values, Section3Fields).Missing?
      ensures window == Totalled(old(window), values, Section3Fields, Total3)
      ensures OnlyWindow() && Valid()
    {
      var c := TallyLoop(values, Section3Fields);
      raised := c.Missing?;
      if c.Value? {
        WriteOne(window, Total3, Show(c.x));
        Update(map[Total3 := Show(c.x)]);
      }
    }

    /** calculate_section_4_total: the same for 4A to 4D and Total 4. */
    method CalculateSection4Total(values: Fields) returns (raised: bool)
      requires Valid()
      modifies this
      ensures raised <==> Tally(values, Section4Fields).Missing?
      ensures window == Totalled(old(window), values, Section4Fields, Total4)
      ensures OnlyWindow() && Valid()
    {
      var c := TallyLoop(values, Section4Fields);
      raised := c.Missing?;
      if c.Value? {
        WriteOne(window, Total4, Show(c.x));
        Update(map[Total4 := Show(c.x)]);
      }
    }

    /**
     * calculate_preplanned_amount: Total 3 from 3A to 3E as well; any
     * failure is caught and reported, and the form is left as it is.
     */
    method CalculatePreplannedAmount(values: Fields)
      requires Valid()
      modifies this
      ensures window == Totalled(old(window), values, Section3Fields, Total3)
      ensures OnlyWindow() && Valid()
    {
      var c := TallyLoop(values, Section3Fields);
      if c.Value? {
        WriteOne(window, Total3, Show(c.x));
        Update(map[Total3 := Show(c.x)]);
      }
    }

    // ------------------------------------------------------------ monthly payments

    /**
     * handle_payment_term_selection: the stored payment of the chosen term
     * goes to 4B and Total 4 becomes 4A + 4B + 4C + 4D, read from the form.
     */
    method HandlePaymentTermSelection(name: string) returns (ok: bool)
      requires Valid()
      modifies this
      ensures Selection(window, ok) == SelectTerm(payments, old(window), name)
      ensures OnlyWindow() && Valid()
    {
      var w;
      w, ok := ChooseTerm(payments, window, name);
      Store(w);
    }

    /**
     * calculate_monthly_payment: every term's payment stored and shown for a
     * quote, zeros otherwise; a payment term already chosen is applied again.
     */
    method CalculateMonthlyPayment(values: Fields) returns (ok: bool)
      requires Valid()
      modifies this
      ensures MonthlyPayment(values, old(window)) == PaymentState(payments, table, window, ok)
      ensures OnlyQuote() && Valid()
    {
      var st := QuotePayments(values, window);
      payments, table, ok := st.payments, st.table, st.ok;
      Store(st.window);
    }

    /** update_monthly_payments: the table rebuilt from the stored payments. */
    method UpdateMonthlyPayments() returns (ok: bool)
      requires Valid()
      modifies this
      ensures table == Rendered(payments) && ok
      ensures window == old(window) && payments == old(payments) && OnlyQuote() && Valid()
    {
      table := RenderLoop(payments);
      ok := true;
    }

    /** handle_single_pay_jh_checkbox, with the state of the box passed in as checked. */
    method HandleSinglePayJhCheckbox(values: Fields, checked: bool)
      requires Valid()
      modifies this
      ensures Outcome(window, payments, table) == CheckboxOutcome(values, checked, Outcome(old(window), old(payments), old(table)))
      ensures OnlyQuote() && Valid()
    {
      ghost var o := Outcome(window, payments, table);
      if MoveFrom(checked) !in values {
        return;
      }
      Update(MoveWrites(values, checked));
      var v := Moved(values, checked);
      var raised := CalculateSection3Total(v);
      if raised {
        CheckboxRaised3(values, checked, o);
        return;
      }
      raised := CalculateSection4Total(v);
      if raised {
        CheckboxRaised4(values, checked, o);
        return;
      }
      if !HasAge(v) {
        CheckboxNoAge(values, checked, o);
        return;
      }
      var ok := CalculateMonthlyPayment(v);
      ok := UpdateMonthlyPayments();
      CheckboxQuoted(values, checked, o);
    }

    // ------------------------------------------------------------ quantities

    /**
     * A quantity-priced line: the field becomes quantity times the unit
     * price ("" for a quantity int() refuses), then the invoice is worked
     * out again from the fields as they are.
     */
    method PriceQuantity(field: string, quantity: string, unitCents: nat)
      requires Valid()
      modifies this
      ensures var w := Priced(old(window), field, quantity, unitCents);
        window == Recalculated(w, w, DiscountTotal(rows, metadata + 1))
      ensures OnlyWindow() && Valid()
    {
      var n := ParseInt(quantity);
      var text := if n.Some? then Fixed2((n.value * unitCents) as real / 100.0, false) else "";
      WriteOne(window, field, text);
      Update(map[field := text]);
      ghost var w := window;
      assert w == Priced(old(window), field, quantity, unitCents);
      CalculateGrandTotal(window);
    }

    /** calculate_cards: B5 at 2.95 a card. */
    method CalculateCards(quantity: string)
      requires Valid()
      modifies this
      ensures var w := Priced(old(window), "B5", quantity, 295);
        window == Recalculated(w, w, DiscountTotal(rows, metadata + 1))
      ensures OnlyWindow() && Valid()
    {
      PriceQuantity("B5", quantity, 295);
    }

    /** calculate_guest_books: B6 at 75.00 a book. */
    method CalculateGuestBooks(quantity: string)
      requires Valid()
      modifies this
      ensures var w := Priced(old(window), "B6", quantity, 7500);
        window == Recalculated(w, w, DiscountTotal(rows, metadata + 1))
      ensures OnlyWindow() && Valid()
    {
      PriceQuantity("B6", quantity, 7500);
    }

    /** calculate_death_certificates: D7 at 27.00 a certificate. */
    method CalculateDeathCertificates(quantity: string)
      requires Valid()
      modifies this
      ensures var w := Priced(old(window), "D7", quantity, 2700);
        window == Recalculated(w, w, DiscountTotal(rows, metadata + 1))
      ensures OnlyWindow() && Valid()
    {
      PriceQuantity("D7", quantity, 2700);
    }

    // ------------------------------------------------------------ the keystroke filter

    /**
     * validate_dollar_input: the keystroke verdict of DollarKeystroke on the
     * widget's text and the remembered one. An accepted text is remembered;
     * a rejected one is replaced in the widget by the remembered text. A
     * key without a widget raises, which is caught: nothing changes.
     */
    method ValidateDollarInput(key: Key) returns (accepted: bool)
      requires Valid()
      modifies this
      ensures !HasWidget(old(window), old(rows), key) ==>
        accepted && window == old(window) && rows == old(rows) && lastValue == old(lastValue)
      ensures HasWidget(old(window), old(rows), key) ==>
        var k := DollarKeystroke(WidgetText(old(window), old(rows), key), LastStored(old(lastValue), key));
        accepted == (k.verdict == Accept) &&
        lastValue == (if accepted then old(lastValue)[key := k.stored] else old(lastValue)) &&
        HasWidget(window, rows, key) && WidgetText(window, rows, key) == k.widget &&
        (key.Named? ==> rows == old(rows) && window == old(window)[key.name := k.widget]) &&
        (key.DiscountAmt? ==> window == old(window) && rows == old(rows)[key.id := old(rows)[key.id].(amt := k.widget)])
      ensures metadata == old(metadata) && QuoteKept() && dollarKeys == old(dollarKeys) &&
        discountAmountKeys == old(discountAmountKeys) && selectedPackage == old(selectedPackage) && packages == old(packages)
      ensures Valid()
    {
      if !HasWidget(window, rows, key) {
        return true;
      }
      var current := WidgetText(window, rows, key);
      var last := LastStored(lastValue, key);
      if |current| < |last| || current == "" {
        lastValue := lastValue[key := current];
        SameWidget(window, rows, key);
        return true;
      }
      var c := current[|current| - 1];
      if !(IsDigit(c) || c == '.' || c == ',') || (c == '.' && CountChar(current, '.') > 1) {
        RestoreWidget(key, last);
        return false;
      }
      lastValue := lastValue[key := current];
      SameWidget(window, rows, key);
      accepted := true;
    }

    /** widget.delete, then widget.insert of the remembered text. */
    method RestoreWidget(key: Key, last: string)
      requires Valid() && HasWidget(window, rows, key)
      modifies this
      ensures HasWidget(window, rows, key) && WidgetText(window, rows, key) == last
      ensures key.Named? ==> rows == old(rows) && window == old(window)[key.name := last]
      ensures key.DiscountAmt? ==> window == old(window) && rows == old(rows)[key.id := old(rows)[key.id].(amt := last)]
      ensures metadata == old(metadata) && QuoteKept() && KeysKept() && selectedPackage == old(selectedPackage) && packages == old(packages)
      ensures Valid()
    {
      match key
      case Named(n) =>
        WriteOne(window, n, last);
        Update(map[n := last]);
      case DiscountAmt(i) =>
        EditAmount(rows, metadata, i, last);
        rows := rows[i := rows[i].(amt := last)];
    }

    // ------------------------------------------------------------ discount rows

    /**
     * add_discount_field: the next id, one past every existing row, gets a
     * new empty shown row; its amount joins the dollar keys and is
     * remembered as empty unless it already was.
     */
    method AddDiscountField()
      requires Valid()
      modifies this`metadata, this`rows, this`dollarKeys, this`lastValue
      ensures metadata == old(metadata) + 1 && metadata !in old(rows)
      ensures rows == old(rows)[metadata := Row("", "", true)]
      ensures dollarKeys == if DiscountAmt(metadata) in old(dollarKeys) then old(dollarKeys) else old(dollarKeys) + [DiscountAmt(metadata)]
      ensures lastValue == if DiscountAmt(metadata) in old(lastValue) then old(lastValue) else old(lastValue)[DiscountAmt(metadata) := ""]
      ensures DiscountTotal(rows, metadata + 1) == DiscountTotal(old(rows), old(metadata) + 1)
      ensures Descriptions(rows, metadata + 1) == Descriptions(old(rows), old(metadata) + 1)
      ensures Valid()
    {
      AddRow();
      var amountKey := DiscountAmt(metadata);
      if amountKey !in dollarKeys {
        dollarKeys := dollarKeys + [amountKey];
      }
      if amountKey !in lastValue {
        lastValue := lastValue[amountKey := ""];
      }
    }

    /** window.metadata incremented and the new row laid out, empty and shown. */
    method AddRow()
      requires Valid()
      modifies this`metadata, this`rows
      ensures metadata == old(metadata) + 1 && metadata !in old(rows)
      ensures rows == old(rows)[metadata := Row("", "", true)]
      ensures DiscountTotal(rows, metadata + 1) == DiscountTotal(old(rows), old(metadata) + 1)
      ensures Descriptions(rows, metadata + 1) == Descriptions(old(rows), old(metadata) + 1)
      ensures Valid()
    {
      metadata := metadata + 1;
      rows := rows[metadata := Row("", "", true)];
      AddEmptyRow(old(rows), old(metadata), rows, metadata);
    }

    /**
     * remove_discount_field: the row is cleared, and also hidden unless it
     * is the only shown row; a hidden row's amount leaves the key lists and
     * the remembered values. The invoice is then worked out again. An id
     * with no row raises before anything changes.
     */
    method RemoveDiscountField(item: nat)
      requires Valid()
      modifies this`rows, this`dollarKeys, this`discountAmountKeys, this`lastValue, this`window
      ensures item !in old(rows) ==> window == old(window) && rows == old(rows) && KeysKept()
      ensures item in old(rows) ==> Discarded(item)
      ensures item in old(rows) ==> window == Recalculated(old(window), old(window), DiscountTotal(rows, metadata + 1))
      ensures Valid()
    {
      if item !in rows {
        return;
      }
      Discard(item);
      assert window == old(window);
      CalculateGrandTotal(window);
    }

    /** Row item was removed from the rows and the keys, as DiscardStep describes. */
    twostate predicate Discarded(item: nat)
      requires old(item in rows)
      reads this`rows, this`metadata, this`dollarKeys, this`discountAmountKeys, this`lastValue
    {
      DiscardStep(item, metadata, old(rows), old(dollarKeys), old(discountAmountKeys), old(lastValue),
                  rows, dollarKeys, discountAmountKeys, lastValue)
    }

    /** The row and key half of remove_discount_field. */
    method Discard(item: nat)
      requires Valid() && item in rows
      modifies this`rows, this`dollarKeys, this`discountAmountKeys, this`lastValue
      ensures Discarded(item) && Valid()
    {
      ghost var rows0, dollarKeys0, amountKeys0, lastValue0 := rows, dollarKeys, discountAmountKeys, lastValue;
      var shown := CountShown(rows, metadata + 1);
      ClearRow(item, shown <= 1);
      ForgetKey(DiscountAmt(item), shown <= 1);
      assert DiscardStep(item, metadata, rows0, dollarKeys0, amountKeys0, lastValue0,
                         rows, dollarKeys, discountAmountKeys, lastValue);
    }

    /** The row is blanked, and hidden unless it is the only one shown. */
    method ClearRow(item: nat, keep: bool)
      requires Valid() && item in rows
      requires keep == (VisibleCount(rows, metadata + 1) <= 1)
      modifies this`rows
      ensures rows == old(rows)[item := Row("", "", keep && old(rows)[item].visible)]
      ensures DiscountTotal(rows, metadata + 1) == DiscountTotal(old(rows), metadata + 1) - Contribution(old(rows), item)
      ensures Valid()
    {
      RemoveRow(rows, metadata, item);
      rows := rows[item := Row("", "", keep && rows[item].visible)];
    }

    /** Unless the row is kept, its amount key leaves both key lists and the remembered texts. */
    method ForgetKey(amountKey: Key, keep: bool)
      modifies this`dollarKeys, this`discountAmountKeys, this`lastValue
      ensures dollarKeys == if keep then old(dollarKeys) else RemoveFirst(old(dollarKeys), amountKey)
      ensures discountAmountKeys == if keep then old(discountAmountKeys) else RemoveFirst(old(discountAmountKeys), amountKey)
      ensures lastValue == if keep then old(lastValue) else old(lastValue) - {amountKey}
    {
      if !keep {
        dollarKeys := RemoveFirst(dollarKeys, amountKey);
        discountAmountKeys := RemoveFirst(discountAmountKeys, amountKey);
        lastValue := lastValue - {amountKey};
      }
    }

    /** get_discount_descriptions: the shown rows' stripped non-empty descriptions joined by " + ". */
    method GetDiscountDescriptions() returns (combined: string)
      ensures combined == Join(Descriptions(rows, metadata + 1), " + ")
    {
      var parts := DescriptionsLoop(rows, metadata + 1);
      combined := Join(parts, " + ");
    }

    /**
     * apply_package: the fields of every package cleared and the package remembered as
     * selected; then, when the form has a Type of Service field and the catalogue has the
     * package, the service named, a Cadence discount row made sure of, the package's values
     * written and the grand total recalculated. A missing field or package stops it there.
     */
    method ApplyPackage(name: string) returns (applied: bool)
      requires Valid()
      modifies this`window, this`selectedPackage, this`rows, this`metadata, this`dollarKeys, this`lastValue
      ensures selectedPackage == name
      ensures applied <==> TypeOfService in old(window) && Lookup(packages, name).Some?
      ensures !applied ==> rows == old(rows) && metadata == old(metadata) && KeysKept()
      ensures !applied && TypeOfService !in old(window) ==> window == Cleared(old(window), AllKeys(packages))
      ensures !applied && TypeOfService in old(window) ==> window == Cleared(old(window), AllKeys(packages))[TypeOfService := name]
      ensures applied ==> CadenceAdded()
      ensures applied ==>
        var w := PackageWindow(old(window), AllKeys(packages), name, Lookup(packages, name).value);
        window == Recalculated(w, w, DiscountTotal(rows, metadata + 1))
      ensures Valid()
    {
      var named := NameService(name);
      var p := Lookup(packages, name);
      if !named || p.None? {
        return false;
      }
      AddCadence();
      WritePackage(p.value);
      CalculateGrandTotal(window);
      applied := true;
    }

    /** The first half of apply_package: the package fields cleared, the selection remembered, the service named. */
    method NameService(name: string) returns (named: bool)
      modifies this`window, this`selectedPackage
      ensures selectedPackage == name
      ensures named <==> TypeOfService in old(window)
      ensures window == if named then Cleared(old(window), AllKeys(packages))[TypeOfService := name]
        else Cleared(old(window), AllKeys(packages))
    {
      var ks := AllKeysLoop(packages);
      var w := ClearLoop(window, ks);
      window := w;
      selectedPackage := name;
      named := TypeOfService in window;
      if named {
        window := window[TypeOfService := name];
      }
    }

    /**
     * The discount rows and keys after apply_package: the rows as WithCadence leaves them; the
     * keys as they were, unless a new row was added, whose amount key add_discount_field records.
     */
    twostate predicate CadenceAdded()
      reads this`rows, this`metadata, this`dollarKeys, this`lastValue
    {
      CadenceStep(old(rows), old(metadata), old(dollarKeys), old(lastValue), rows, metadata, dollarKeys, lastValue)
    }

    /** The Cadence half of apply_package: an existing Cadence row, else the last empty shown row, else a new one. */
    method AddCadence()
      requires Valid()
      modifies this`rows, this`metadata, this`dollarKeys, this`lastValue
      ensures CadenceAdded() && Valid()
    {
      ghost var rows0, metadata0, dollarKeys0, lastValue0 := rows, metadata, dollarKeys, lastValue;
      var s := ScanLoop(rows, metadata + 1);
      FilledShape(rows, metadata, CadenceRow);
      if s.cadence {
        CadenceKept(rows0, metadata0, dollarKeys0, lastValue0);
      } else if s.empty.Some? {
        CadenceFilled(rows0, metadata0, dollarKeys0, lastValue0, s.empty.value);
        rows := rows[s.empty.value := CadenceRow];
      } else {
        AppendCadence();
        CadenceAppended(rows0, metadata0, dollarKeys0, lastValue0, dollarKeys, lastValue);
      }
    }

    /** A new discount row, added as add_discount_field adds one, that then takes the Cadence discount. */
    method AppendCadence()
      requires Valid()
      modifies this`rows, this`metadata, this`dollarKeys, this`lastValue
      ensures metadata == old(metadata) + 1 && rows == old(rows)[metadata := CadenceRow]
      ensures dollarKeys == if DiscountAmt(metadata) in old(dollarKeys) then old(dollarKeys) else old(dollarKeys) + [DiscountAmt(metadata)]
      ensures lastValue == if DiscountAmt(metadata) in old(lastValue) then old(lastValue) else old(lastValue)[DiscountAmt(metadata) := ""]
    {
      AddDiscountField();
      rows := rows[metadata := CadenceRow];
      assert rows == old(rows)[metadata := CadenceRow] by {
        Overwrite(old(rows), metadata, Row("", "", true), CadenceRow);
      }
    }

    /** The last half of apply_package's field writes: the package's values, in order. */
    method WritePackage(p: Package)
      modifies this`window
      ensures window == Written(old(window), p)
    {
      window := WriteLoop(window, p);
    }

    /** get_cadence_discount_amount: the first shown Cadence row's amount without '$' and ','; "" without one. */
    method GetCadenceDiscountAmount() returns (amount: string)
      ensures amount == CadenceAmount(rows, metadata + 1)
    {
      amount := CadenceLoop(rows, metadata + 1);
    }

  }
}
