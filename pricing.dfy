/**
 * The invoice arithmetic of the pre-arranged service form: which fields
 * each section sums, which fields carry GST and PST, the casket-based PST
 * exemption, and the totals written back into the form.
 */
module Pricing {
  import opened Wrappers
  import opened Money

  /** The fields of the form, by name, as text. */
  type Fields = map<string, string>

  const SectionA: seq<string> := [
    "A1", "A2A", "A2B", "A2C", "A2D", "A3", "A4A", "A4B", "A4C",
    "A5A", "A5B", "A5C", "A5D", "A6", "A7", "A8", "A9A", "A9B",
    "A9C", "A9D", "A9E", "A9F", "A9G", "A9H"]
  const SectionB: seq<string> := ["B1", "B2", "B3", "B4", "B5", "B6", "B7"]
  const SectionC: seq<string> := ["C1", "C2", "C3", "C4", "C5", "C6", "C7", "C8", "C9", "C10"]
  const SectionD: seq<string> := ["D1", "D2", "D3", "D4", "D5", "D6", "D7", "D8"]

  /** gst_fields */
  const GstFields: seq<string> := [
    "A1", "A2A", "A2B", "A2C", "A2D", "A3", "A4A", "A4B",
    "A4C", "A5A", "A5B", "A5C", "A5D", "A6", "A7", "A8",
    "A9A", "A9B", "A9C", "A9D", "A9E", "A9F", "A9G", "A9H",
    "B1", "B2", "B3", "B4", "B5", "B6", "B7", "C1", "C2",
    "C3", "C4", "C5", "C6", "C7", "C8", "C9", "C10"]

  /** pst_fields */
  const PstFields: seq<string> := ["B1", "B2", "B3", "B4", "B5", "B6", "B7", "C4", "C7"]

  /** The preplanned-amount fields added to the grand total to give Total 3. */
  const PreplannedExtras: seq<string> := ["3B MonumentMarker", "3C Other Expenses", "3D Final Documents Service", "3E Journey Home"]

  const BasicContainer := "Basic Cremation Container"

  const GstRate: real := 0.05
  const PstRate: real := 0.07

  /** What reading one amount field can give: a KeyError, a ValueError, or a number. */
  datatype Cell = Missing | Unparseable | Value(x: real)

  function Read(values: Fields, k: string): (c: Cell)
    ensures c.Missing? <==> k !in values
  {
    if k !in values then Missing
    else match Amount(values[k]) case None => Unparseable case Some(x) => Value(x)
  }

  /** The PST exemption: the casket field, stripped, names the basic container. */
  predicate Exempt(values: Fields)
  {
    Strip(if "Casket" in values then values["Casket"] else "") == BasicContainer
  }

  /** Does field f count towards PST? */
  predicate PstApplies(f: string, exempt: bool)
  {
    f in PstFields && !(f == "B1" && exempt)
  }

  /** Which fields a sum takes: all of them, the PST-applicable ones, or all but an exempt B1. */
  datatype Pick = Every | PstApplicable(exempt: bool) | ExceptExemptB1(exempt: bool)

  predicate Picks(p: Pick, f: string)
  {
    match p
    case Every => true
    case PstApplicable(e) => PstApplies(f, e)
    case ExceptExemptB1(e) => !(f == "B1" && e)
  }

  /** The sum, over the fields of fs that p picks, of those whose text parses; the others count 0. */
  function SumOf(values: Fields, fs: seq<string>, p: Pick): real
  {
    if fs == [] then 0.0
    else
      var f := fs[|fs| - 1];
      SumOf(values, fs[..|fs| - 1], p) + (if Picks(p, f) && Read(values, f).Value? then Read(values, f).x else 0.0)
  }

  predicate AllPresent(values: Fields, fs: seq<string>)
  {
    forall i :: 0 <= i < |fs| ==> fs[i] in values
  }

  /**
   * The GST loop of calculate_grand_total: the sum of the GST fields and the
   * PST, 7% of the PST-applicable ones among them, an unparseable field
   * skipped for both; a missing field aborts (None).
   */
  datatype Bases = Bases(gst: real, pst: real)

  function TaxBases(values: Fields): Option<Bases>
  {
    TaxBasesOver(values, GstFields)
  }

  /** The GST loop over the fields fs. */
  function TaxBasesOver(values: Fields, fs: seq<string>): Option<Bases>
  {
    if AllPresent(values, fs) then
      var e := Exempt(values);
      Some(Bases(SumOf(values, fs, Every), PstRate * SumOf(values, fs, PstApplicable(e))))
    else None
  }

  /** sum(float(...) for field in fields): None as soon as one field is missing or unparseable. */
  function SectionTotal(values: Fields, fs: seq<string>): Option<real>
  {
    if fs == [] then Some(0.0)
    else
      match SectionTotal(values, fs[..|fs| - 1])
      case None => None
      case Some(s) =>
        var f := fs[|fs| - 1];
        if Read(values, f).Value? then Some(s + Read(values, f).x) else None
  }

  /** The totals calculate_grand_total derives; total3 is None when a preplanned extra does not parse. */
  datatype Invoice = Invoice(
    totalA: real, totalB: real, totalC: real, totalD: real,
    discount: real, gst: real, pst: real, grand: real, total3: Option<real>)

  function Gst(base: real, discount: real): real { GstRate * (base - discount) }

  function GrandTotal(totalABC: real, discount: real, gst: real, pst: real, totalD: real): real
  {
    totalABC - discount + gst + pst + totalD
  }

  datatype SectionTotals = SectionTotals(a: real, b: real, c: real, d: real)

  /** The section sums; None when any of them meets a field that is missing or does not parse. */
  function Sections(values: Fields): Option<SectionTotals>
  {
    var a := SectionTotal(values, SectionA);
    var b := SectionTotal(values, SectionB);
    var c := SectionTotal(values, SectionC);
    var d := SectionTotal(values, SectionD);
    if a.Some? && b.Some? && c.Some? && d.Some? then Some(SectionTotals(a.value, b.value, c.value, d.value)) else None
  }

  /** calculate_grand_total's arithmetic; None when the GST loop or a section total raised. */
  function ComputeInvoice(values: Fields, discount: real): Option<Invoice>
  {
    Assemble(TaxBases(values), Sections(values), SectionTotal(values, PreplannedExtras), discount)
  }

  function Assemble(bases: Option<Bases>, sections: Option<SectionTotals>, extras: Option<real>, discount: real): Option<Invoice>
  {
    if bases.None? || sections.None? then None
    else
      var s := sections.value;
      var gst := Gst(bases.value.gst, discount);
      var pst := bases.value.pst;
      var grand := GrandTotal(s.a + s.b + s.c, discount, gst, pst, s.d);
      Some(Invoice(s.a, s.b, s.c, s.d, discount, gst, pst, grand,
                   if extras.Some? then Some(grand + extras.value) else None))
  }

  /** The field writes of calculate_grand_total after the discount, in terms of the derived totals. */
  function InvoiceWrites(inv: Invoice): Fields
  {
    WritesOf(Show(inv.totalD), Show(inv.gst), Show(inv.pst), Show(inv.totalA), Show(inv.totalB), Show(inv.totalC),
             Show(inv.totalA + inv.totalB + inv.totalC), Show(inv.grand), Total3Text(inv))
  }

  /** The text written to Total 3, when the preplanned extras parse. */
  function Total3Text(inv: Invoice): Option<string>
  {
    if inv.total3.Some? then Some(Show(inv.total3.value)) else None
  }

  /** The writes of calculate_grand_total as texts, in the order it makes them. */
  function WritesOf(d: string, gst: string, pst: string, a: string, b: string, c: string, abc: string, grand: string,
                    total3: Option<string>): Fields
  {
    var w := map[
      "Total D_2" := d,
      "GST" := gst,
      "PST" := pst,
      "Total A" := a,
      "Total B" := b,
      "Total C" := c,
      "Total D" := d,
      "Total \\(ABC\\)" := abc,
      "Grand Total" := grand,
      "3A Goods and Services" := grand];
    if total3.Some? then w["Total 3" := total3.value] else w
  }

  /** The whole effect of calculate_grand_total on the fields, given the discount total it computed first. */
  function Recalculated(window: Fields, values: Fields, discount: real): Fields
  {
    var w := window["Discount" := Show(discount)];
    match ComputeInvoice(values, discount)
    case None => w
    case Some(inv) => w + InvoiceWrites(inv)
  }

  /** The amounts calculate_section_3_total and calculate_preplanned_amount add, in the order they read them. */
  const Section3Fields: seq<string> := [
    "3A Goods and Services", "3B MonumentMarker", "3C Other Expenses", "3D Final Documents Service", "3E Journey Home"]

  /** The amounts calculate_section_4_total adds. */
  const Section4Fields: seq<string> := ["4A Single Pay", "4B Time Pay", "4C Single Pay Journey Home", "4D LPR"]

  /**
   * Reading the fields of fs in order, as a list display does: the first
   * field that is missing or does not parse decides which error is raised;
   * when all parse, their sum.
   */
  function Tally(values: Fields, fs: seq<string>): Cell
  {
    if fs == [] then Value(0.0)
    else
      var c := Tally(values, fs[..|fs| - 1]);
      var r := Read(values, fs[|fs| - 1]);
      if !c.Value? then c
      else if r.Value? then Value(c.x + r.x)
      else r
  }

  // ---------------------------------------------------------------- lemmas

  predicate AllParse(values: Fields, fs: seq<string>)
  {
    forall i :: 0 <= i < |fs| ==> Read(values, fs[i]).Value?
  }

  /** A section total exists exactly when every field of the section parses, and it is their sum. */
  lemma {:induction false} SectionTotalIsSum(values: Fields, fs: seq<string>)
    ensures SectionTotal(values, fs).Some? <==> AllParse(values, fs)
    ensures SectionTotal(values, fs).Some? ==> SectionTotal(values, fs).value == SumOf(values, fs, Every)
  {
    if fs != [] {
      SectionTotalIsSum(values, fs[..|fs| - 1]);
      assert forall i :: 0 <= i < |fs| - 1 ==> fs[..|fs| - 1][i] == fs[i];
    }
  }

  lemma {:induction false} SumOfAppend(values: Fields, a: seq<string>, b: seq<string>, p: Pick)
    ensures SumOf(values, a + b, p) == SumOf(values, a, p) + SumOf(values, b, p)
  {
    if b == [] {
      assert a + b == a;
    } else {
      assert (a + b)[..|a + b| - 1] == a + b[..|b| - 1];
      SumOfAppend(values, a, b[..|b| - 1], p);
    }
  }

  lemma {:induction false} SumOfSame(values: Fields, fs: seq<string>, p: Pick, q: Pick)
    requires forall i :: 0 <= i < |fs| ==> Picks(p, fs[i]) == Picks(q, fs[i])
    ensures SumOf(values, fs, p) == SumOf(values, fs, q)
  {
    if fs != [] {
      SumOfSame(values, fs[..|fs| - 1], p, q);
    }
  }

  lemma {:induction false} SumOfNone(values: Fields, fs: seq<string>, p: Pick)
    requires forall i :: 0 <= i < |fs| ==> !Picks(p, fs[i])
    ensures SumOf(values, fs, p) == 0.0
  {
    if fs != [] {
      SumOfNone(values, fs[..|fs| - 1], p);
    }
  }

  lemma GstFieldsAreSectionsABC()
    ensures GstFields == SectionA + SectionB + SectionC
  {
  }

  /** Membership in pst_fields by characters: B1 to B7, C4 and C7. */
  lemma PstMember(f: string)
    ensures f in PstFields <==> |f| == 2 && ((f[0] == 'B' && '1' <= f[1] <= '7') || (f[0] == 'C' && (f[1] == '4' || f[1] == '7')))
  {
    if |f| == 2 && f[0] == 'B' && '1' <= f[1] <= '7' {
      assert f == PstFields[f[1] as int - '1' as int];
    } else if |f| == 2 && f[0] == 'C' && f[1] == '4' {
      assert f == PstFields[7];
    } else if |f| == 2 && f[0] == 'C' && f[1] == '7' {
      assert f == PstFields[8];
    }
  }

  lemma SectionANotPst(exempt: bool)
    ensures forall i :: 0 <= i < |SectionA| ==> !PstApplies(SectionA[i], exempt)
  {
    forall i | 0 <= i < |SectionA| ensures !PstApplies(SectionA[i], exempt) {
      PstMember(SectionA[i]);
    }
  }

  lemma SectionBPst(exempt: bool)
    ensures forall i :: 0 <= i < |SectionB| ==> PstApplies(SectionB[i], exempt) == Picks(ExceptExemptB1(exempt), SectionB[i])
  {
    forall i | 0 <= i < |SectionB| ensures PstApplies(SectionB[i], exempt) == Picks(ExceptExemptB1(exempt), SectionB[i]) {
      PstMember(SectionB[i]);
    }
  }

  lemma NoPst(fs: seq<string>, exempt: bool)
    requires forall i :: 0 <= i < |fs| ==> |fs[i]| == 2 && fs[i][0] == 'C' && fs[i][1] != '4' && fs[i][1] != '7'
    ensures forall i :: 0 <= i < |fs| ==> !Picks(PstApplicable(exempt), fs[i])
  {
    forall i | 0 <= i < |fs| ensures !Picks(PstApplicable(exempt), fs[i]) {
      PstMember(fs[i]);
    }
  }

  /** Section C summed in runs: C1-C3, C4, C5-C6, C7, C8-C10. */
  lemma SectionCRuns(values: Fields, p: Pick)
    ensures SumOf(values, SectionC, p) ==
            SumOf(values, ["C1", "C2", "C3"], p) + SumOf(values, ["C4"], p) + SumOf(values, ["C5", "C6"], p) +
            SumOf(values, ["C7"], p) + SumOf(values, ["C8", "C9", "C10"], p)
  {
    var c1, c4, c56, c7, c8 := ["C1", "C2", "C3"], ["C4"], ["C5", "C6"], ["C7"], ["C8", "C9", "C10"];
    assert SectionC == c1 + c4 + c56 + c7 + c8;
    SumOfAppend(values, c1 + c4 + c56 + c7, c8, p);
    SumOfAppend(values, c1 + c4 + c56, c7, p);
    SumOfAppend(values, c1 + c4, c56, p);
    SumOfAppend(values, c1, c4, p);
  }

  /** The PST part of section C is C4 plus C7. */
  lemma SectionCPst(values: Fields, exempt: bool)
    ensures SumOf(values, SectionC, PstApplicable(exempt)) == SumOf(values, ["C4", "C7"], ExceptExemptB1(exempt))
  {
    var p, q := PstApplicable(exempt), ExceptExemptB1(exempt);
    SectionCRuns(values, p);
    NoPst(["C1", "C2", "C3"], exempt);
    NoPst(["C5", "C6"], exempt);
    SumOfNone(values, ["C1", "C2", "C3"], p);
    SumOfNone(values, ["C5", "C6"], p);
    CTail(values, exempt);
    PstMember("C4");
    PstMember("C7");
    SumOfSame(values, ["C4"], p, q);
    SumOfSame(values, ["C7"], p, q);
    SumOfAppend(values, ["C4"], ["C7"], q);
  }

  lemma CTail(values: Fields, exempt: bool)
    ensures SumOf(values, ["C8", "C9", "C10"], PstApplicable(exempt)) == 0.0
  {
    var p := PstApplicable(exempt);
    NoPst(["C8", "C9"], exempt);
    SumOfNone(values, ["C8", "C9"], p);
    PstMember("C10");
    SumOfOne(values, "C10", p);
    SumOfAppend(values, ["C8", "C9"], ["C10"], p);
    assert ["C8", "C9"] + ["C10"] == ["C8", "C9", "C10"];
  }

  /**
   * PST is charged on exactly the pst_fields list, B1 dropped under the
   * exemption: the GST loop's running PST sum over all GST fields equals
   * the sum over pst_fields alone.
   */
  lemma PstBaseIsPstFields(values: Fields, exempt: bool)
    ensures SumOf(values, GstFields, PstApplicable(exempt)) == SumOf(values, PstFields, ExceptExemptB1(exempt))
  {
    var p, q := PstApplicable(exempt), ExceptExemptB1(exempt);
    GstFieldsAreSectionsABC();
    SumOfAppend(values, SectionA + SectionB, SectionC, p);
    SumOfAppend(values, SectionA, SectionB, p);
    SectionANotPst(exempt);
    SumOfNone(values, SectionA, p);
    SectionBPst(exempt);
    SumOfSame(values, SectionB, p, q);
    SectionCPst(values, exempt);
    assert PstFields == SectionB + ["C4", "C7"];
    SumOfAppend(values, SectionB, ["C4", "C7"], q);
  }

  /** Under the exemption flag e, the PST base loses B1's amount and nothing else. */
  lemma PstDropsB1(values: Fields, e: bool, b1: real)
    requires Read(values, "B1") == Value(b1)
    ensures SumOf(values, PstFields, ExceptExemptB1(e)) == SumOf(values, PstFields, Every) - (if e then b1 else 0.0)
  {
    var q := ExceptExemptB1(e);
    var rest := PstFields[1..];
    assert PstFields == ["B1"] + rest;
    SumOfAppend(values, ["B1"], rest, q);
    SumOfAppend(values, ["B1"], rest, Every);
    RestNotB1(e);
    SumOfSame(values, rest, q, Every);
    SumOfOne(values, "B1", q);
    SumOfOne(values, "B1", Every);
  }

  lemma RestNotB1(e: bool)
    ensures forall i :: 0 <= i < |PstFields[1..]| ==> Picks(ExceptExemptB1(e), PstFields[1..][i]) == Picks(Every, PstFields[1..][i])
  {
    assert forall i :: 1 <= i < |PstFields| ==> PstFields[i][1] != '1';
  }

  lemma SumOfOne(values: Fields, f: string, p: Pick)
    ensures SumOf(values, [f], p) == if Picks(p, f) && Read(values, f).Value? then Read(values, f).x else 0.0
  {
    assert [f][..0] == [];
  }

  /** B1 escapes PST exactly when the stripped casket text names the basic container. */
  lemma PstExemption(values: Fields)
    requires Read(values, "B1").Value?
    ensures SumOf(values, PstFields, ExceptExemptB1(Exempt(values))) ==
            SumOf(values, PstFields, Every) - (if Exempt(values) then Read(values, "B1").x else 0.0)
  {
    PstDropsB1(values, Exempt(values), Read(values, "B1").x);
  }

  /**
   * When every section field parses, the GST loop saw every GST field, so
   * GST is 5% of Total (ABC) less the discount, not clamped at zero, and the
   * grand total is Total (ABC) less the discount, plus GST, PST and Total D.
   */
  lemma GstOfTotals(values: Fields, discount: real, inv: Invoice)
    requires ComputeInvoice(values, discount) == Some(inv)
    ensures inv.gst == GstRate * (inv.totalA + inv.totalB + inv.totalC - discount)
    ensures inv.grand == inv.totalA + inv.totalB + inv.totalC - discount + inv.gst + inv.pst + inv.totalD
  {
    var bases, s := InvoiceParts(values, discount, inv);
    BasesAre(values, bases);
    SectionsAre(values, s);
    AbcIsGstBase(values, s.a, s.b, s.c);
  }

  /** PST is 7% of the pst_fields amounts, B1 left out under the casket exemption. */
  lemma PstOfInvoice(values: Fields, discount: real, inv: Invoice)
    requires ComputeInvoice(values, discount) == Some(inv)
    ensures inv.pst == PstRate * SumOf(values, PstFields, ExceptExemptB1(Exempt(values)))
  {
    var bases, s := InvoiceParts(values, discount, inv);
    BasesAre(values, bases);
    PstBaseIsPstFields(values, Exempt(values));
  }

  /** Totals A, B and C add up to the GST base. */
  lemma AbcIsGstBase(values: Fields, x: real, y: real, z: real)
    requires SectionTotal(values, SectionA) == Some(x) && SectionTotal(values, SectionB) == Some(y)
    requires SectionTotal(values, SectionC) == Some(z)
    ensures x + y + z == SumOf(values, GstFields, Every)
  {
    GstFieldsAreSectionsABC();
    ThreeSums(values, SectionA, SectionB, SectionC, x, y, z);
  }

  /** An invoice comes from the tax bases and the section totals. */
  lemma InvoiceParts(values: Fields, discount: real, inv: Invoice) returns (bases: Bases, s: SectionTotals)
    requires ComputeInvoice(values, discount) == Some(inv)
    ensures TaxBases(values) == Some(bases) && Sections(values) == Some(s)
    ensures inv.totalA == s.a && inv.totalB == s.b && inv.totalC == s.c && inv.totalD == s.d
    ensures inv.gst == Gst(bases.gst, discount) && inv.pst == bases.pst
    ensures inv.grand == GrandTotal(s.a + s.b + s.c, discount, inv.gst, inv.pst, s.d)
  {
    bases, s := TaxBases(values).value, Sections(values).value;
  }

  lemma BasesAre(values: Fields, bases: Bases)
    requires TaxBases(values) == Some(bases)
    ensures bases.gst == SumOf(values, GstFields, Every)
    ensures bases.pst == PstRate * SumOf(values, GstFields, PstApplicable(Exempt(values)))
  {
  }

  lemma SectionsAre(values: Fields, s: SectionTotals)
    requires Sections(values) == Some(s)
    ensures SectionTotal(values, SectionA) == Some(s.a) && SectionTotal(values, SectionB) == Some(s.b)
    ensures SectionTotal(values, SectionC) == Some(s.c)
  {
  }

  lemma ThreeSums(values: Fields, a: seq<string>, b: seq<string>, c: seq<string>, x: real, y: real, z: real)
    requires SectionTotal(values, a) == Some(x) && SectionTotal(values, b) == Some(y) && SectionTotal(values, c) == Some(z)
    ensures x + y + z == SumOf(values, a + b + c, Every)
  {
    SectionTotalIsSum(values, a);
    SectionTotalIsSum(values, b);
    SectionTotalIsSum(values, c);
    SumOfAppend(values, a + b, c, Every);
    SumOfAppend(values, a, b, Every);
  }

  /** A discount above the GST base makes GST negative. */
  lemma NegativeGst(values: Fields, discount: real, inv: Invoice)
    requires ComputeInvoice(values, discount) == Some(inv)
    requires discount > inv.totalA + inv.totalB + inv.totalC
    ensures inv.gst < 0.0
  {
    GstOfTotals(values, discount, inv);
  }

  /** The tally is a value exactly when the section total exists, and it is that total. */
  lemma {:induction false} TallyIsSectionTotal(values: Fields, fs: seq<string>)
    ensures Tally(values, fs).Value? <==> SectionTotal(values, fs).Some?
    ensures Tally(values, fs).Value? ==> SectionTotal(values, fs) == Some(Tally(values, fs).x)
  {
    if fs != [] {
      TallyIsSectionTotal(values, fs[..|fs| - 1]);
    }
  }

  /**
   * When some field does not read and all before it do, the list raises
   * that field's error: a KeyError when it is missing, a ValueError when
   * it does not parse.
   */
  lemma {:induction false} TallyFirstFailure(values: Fields, fs: seq<string>, i: nat)
    requires i < |fs| && !Read(values, fs[i]).Value? && AllParse(values, fs[..i])
    ensures Tally(values, fs) == Read(values, fs[i])
  {
    var n := |fs| - 1;
    var front := fs[..n];
    if i < n {
      assert front[i] == fs[i] && front[..i] == fs[..i];
      TallyFirstFailure(values, front, i);
    } else {
      assert front == fs[..i];
      AllValue(values, front);
    }
  }

  /** Every field parses: the tally is a value. */
  lemma {:induction false} AllValue(values: Fields, fs: seq<string>)
    requires AllParse(values, fs)
    ensures Tally(values, fs).Value?
  {
    if fs != [] {
      var front := fs[..|fs| - 1];
      assert forall j :: 0 <= j < |front| ==> front[j] == fs[j];
      AllValue(values, front);
    }
  }

  /** Section 3 is 3A followed by the extras the grand total adds to make Total 3. */
  lemma Section3IsGoodsAndExtras()
    ensures Section3Fields == ["3A Goods and Services"] + PreplannedExtras
  {
  }

  /** One more field in the loop: the sum grows by that field's amount when it is picked and parses. */
  lemma SumOfStep(values: Fields, fs: seq<string>, i: nat, p: Pick)
    requires i < |fs|
    ensures SumOf(values, fs[..i + 1], p) ==
      SumOf(values, fs[..i], p) + (if Picks(p, fs[i]) && Read(values, fs[i]).Value? then Read(values, fs[i]).x else 0.0)
  {
    assert fs[..i + 1][..i] == fs[..i];
  }

  /** One more field of the list read. */
  lemma TallyStep(values: Fields, fs: seq<string>, i: nat)
    requires i < |fs|
    ensures Tally(values, fs[..i + 1]) ==
      var c := Tally(values, fs[..i]);
      var r := Read(values, fs[i]);
      if !c.Value? then c else if r.Value? then Value(c.x + r.x) else r
  {
    assert fs[..i + 1][..i] == fs[..i];
  }

  /** Once a field has raised, the fields after it are never read. */
  lemma {:induction false} TallySticky(values: Fields, fs: seq<string>, i: nat)
    requires i <= |fs| && !Tally(values, fs[..i]).Value?
    ensures Tally(values, fs) == Tally(values, fs[..i])
  {
    if i < |fs| {
      var n := |fs| - 1;
      assert fs[..n][..i] == fs[..i];
      TallySticky(values, fs[..n], i);
    } else {
      assert fs[..i] == fs;
    }
  }

  /** A field the values lack: the GST loop raises. */
  lemma MissingField(values: Fields, fs: seq<string>, i: nat)
    requires i < |fs| && fs[i] !in values
    ensures !AllPresent(values, fs) && TaxBasesOver(values, fs) == None
  {
  }

  /** The GST loop ran to the end. */
  lemma SumsAreBases(values: Fields, fs: seq<string>, gst: real, pst: real)
    requires AllPresent(values, fs[..|fs|])
    requires gst == SumOf(values, fs[..|fs|], Every)
    requires pst == PstRate * SumOf(values, fs[..|fs|], PstApplicable(Exempt(values)))
    ensures AllPresent(values, fs) && TaxBasesOver(values, fs) == Some(Bases(gst, pst))
  {
    assert fs[..|fs|] == fs;
  }

  /** One more field present. */
  lemma AllPresentStep(values: Fields, fs: seq<string>, i: nat)
    requires i < |fs| && AllPresent(values, fs[..i]) && fs[i] in values
    ensures AllPresent(values, fs[..i + 1])
  {
    assert forall j :: 0 <= j < i ==> fs[..i + 1][j] == fs[..i][j];
  }

  /** The GST loop ran to the end with these sums: the invoice is assembled from them. */
  lemma InvoiceFromSums(values: Fields, discount: real, bases: Bases)
    requires TaxBasesOver(values, GstFields) == Some(bases)
    ensures ComputeInvoice(values, discount) ==
      Assemble(Some(bases), Sections(values), SectionTotal(values, PreplannedExtras), discount)
  {
  }

  /** A GST field missing from the values: only the discount is written. */
  lemma NoInvoiceWithoutTaxes(window: Fields, values: Fields, discount: real)
    requires TaxBasesOver(values, GstFields) == None
    ensures Recalculated(window, values, discount) == window["Discount" := Show(discount)]
  {
  }

  /** The fields calculate_grand_total writes when the invoice computes, Total 3 aside. */
  const InvoiceFieldNames: set<string> := {
    "Discount", "Total D_2", "GST", "PST", "Total A", "Total B", "Total C", "Total D",
    "Total \\(ABC\\)", "Grand Total", "3A Goods and Services"}

  /** An invoice's writes are WritesOf its rendered totals. */
  lemma InvoiceWritesAre(inv: Invoice)
    ensures InvoiceWrites(inv) ==
      WritesOf(Show(inv.totalD), Show(inv.gst), Show(inv.pst), Show(inv.totalA), Show(inv.totalB), Show(inv.totalC),
               Show(inv.totalA + inv.totalB + inv.totalC), Show(inv.grand), Total3Text(inv))
  {
  }

  /** Where each text of WritesOf lands. */
  lemma WritesOfAt(d: string, gst: string, pst: string, a: string, b: string, c: string, abc: string, grand: string,
                   total3: Option<string>)
    ensures var w := WritesOf(d, gst, pst, a, b, c, abc, grand, total3);
      w["Total D_2"] == d && w["GST"] == gst && w["PST"] == pst && w["Total A"] == a && w["Total B"] == b &&
      w["Total C"] == c && w["Total D"] == d && w["Total \\(ABC\\)"] == abc && w["Grand Total"] == grand &&
      w["3A Goods and Services"] == grand && (total3.Some? ==> w["Total 3"] == total3.value)
  {
  }

  /** WritesOf writes its own fields and Total 3, never Discount. */
  lemma WritesOfKeys(d: string, gst: string, pst: string, a: string, b: string, c: string, abc: string, grand: string,
                     total3: Option<string>)
    ensures forall k :: k in WritesOf(d, gst, pst, a, b, c, abc, grand, total3) ==> k in InvoiceFieldNames || k == "Total 3"
    ensures "Discount" !in WritesOf(d, gst, pst, a, b, c, abc, grand, total3)
    ensures total3.None? ==> "Total 3" !in WritesOf(d, gst, pst, a, b, c, abc, grand, total3)
  {
  }

  /** The discount text followed by the writes, field by field. */
  lemma MergedAt(window: Fields, dt: string, d: string, gst: string, pst: string, a: string, b: string, c: string,
                 abc: string, grand: string, total3: Option<string>)
    ensures var r := window["Discount" := dt] + WritesOf(d, gst, pst, a, b, c, abc, grand, total3);
      r["Discount"] == dt &&
      r["Total D_2"] == d && r["GST"] == gst && r["PST"] == pst && r["Total A"] == a && r["Total B"] == b &&
      r["Total C"] == c && r["Total D"] == d && r["Total \\(ABC\\)"] == abc && r["Grand Total"] == grand &&
      r["3A Goods and Services"] == grand && (total3.Some? ==> r["Total 3"] == total3.value)
  {
    WritesOfAt(d, gst, pst, a, b, c, abc, grand, total3);
    WritesOfKeys(d, gst, pst, a, b, c, abc, grand, total3);
  }

  /** Field k holds the rendering of x. */
  predicate Shows(fields: Fields, k: string, x: real)
  {
    k in fields && fields[k] == Show(x)
  }

  /** The discount followed by an invoice's writes shows each of its totals. */
  lemma MergedShows(window: Fields, discount: real, inv: Invoice)
    ensures var r := window["Discount" := Show(discount)] + InvoiceWrites(inv);
      Shows(r, "Discount", discount) &&
      Shows(r, "Total A", inv.totalA) && Shows(r, "Total B", inv.totalB) && Shows(r, "Total C", inv.totalC) &&
      Shows(r, "Total D", inv.totalD) && Shows(r, "Total D_2", inv.totalD) &&
      Shows(r, "Total \\(ABC\\)", inv.totalA + inv.totalB + inv.totalC) &&
      Shows(r, "GST", inv.gst) && Shows(r, "PST", inv.pst) &&
      Shows(r, "Grand Total", inv.grand) && Shows(r, "3A Goods and Services", inv.grand) &&
      (inv.total3.Some? ==> Shows(r, "Total 3", inv.total3.value))
  {
    InvoiceWritesAre(inv);
    MergedAt(window, Show(discount), Show(inv.totalD), Show(inv.gst), Show(inv.pst), Show(inv.totalA), Show(inv.totalB),
             Show(inv.totalC), Show(inv.totalA + inv.totalB + inv.totalC), Show(inv.grand), Total3Text(inv));
  }

  /** Total 3 of a computed invoice is the grand total plus 3B to 3E, when those parse. */
  lemma Total3Of(values: Fields, discount: real, inv: Invoice)
    requires ComputeInvoice(values, discount) == Some(inv)
    ensures inv.total3.Some? <==> SectionTotal(values, PreplannedExtras).Some?
    ensures inv.total3.Some? ==> inv.total3.value == inv.grand + SectionTotal(values, PreplannedExtras).value
  {
  }

  /**
   * calculate_grand_total on a form whose invoice computes: each section
   * total shows its section sum, Discount the discount, GST and PST the
   * invoice's taxes (GstOfTotals and PstOfInvoice say what they are),
   * Grand Total and 3A the grand total, and Total 3 the invoice's Total 3
   * when it has one (Total3Of says when and what).
   */
  lemma RecalculatedTotals(window: Fields, values: Fields, discount: real, inv: Invoice)
    requires ComputeInvoice(values, discount) == Some(inv)
    ensures SectionTotal(values, SectionA) == Some(inv.totalA) && SectionTotal(values, SectionB) == Some(inv.totalB)
    ensures SectionTotal(values, SectionC) == Some(inv.totalC) && SectionTotal(values, SectionD) == Some(inv.totalD)
    ensures var r := Recalculated(window, values, discount);
      Shows(r, "Discount", discount) &&
      Shows(r, "Total A", inv.totalA) && Shows(r, "Total B", inv.totalB) && Shows(r, "Total C", inv.totalC) &&
      Shows(r, "Total D", inv.totalD) && Shows(r, "Total D_2", inv.totalD) &&
      Shows(r, "Total \\(ABC\\)", inv.totalA + inv.totalB + inv.totalC) &&
      Shows(r, "GST", inv.gst) && Shows(r, "PST", inv.pst) &&
      Shows(r, "Grand Total", inv.grand) && Shows(r, "3A Goods and Services", inv.grand) &&
      (inv.total3.Some? ==> Shows(r, "Total 3", inv.total3.value))
  {
    var bases, s := InvoiceParts(values, discount, inv);
    SectionsAre(values, s);
    RecalculatedOf(window, values, discount, Some(inv));
    MergedShows(window, discount, inv);
  }

  /**
   * calculate_grand_total writes only its own fields: every other field
   * keeps its text, and no field appears but those it writes. Total 3 is
   * left as it was when the invoice or 3B to 3E do not compute.
   */
  lemma RecalculatedElsewhere(window: Fields, values: Fields, discount: real)
    ensures var r := Recalculated(window, values, discount);
      r.Keys <= window.Keys + InvoiceFieldNames + {"Total 3"} && window.Keys <= r.Keys &&
      (forall k :: k in window && k !in InvoiceFieldNames && k != "Total 3" ==> r[k] == window[k])
    ensures ComputeInvoice(values, discount).None? || SectionTotal(values, PreplannedExtras).None? ==>
      ("Total 3" in window ==> Recalculated(window, values, discount)["Total 3"] == window["Total 3"])
  {
    var inv := ComputeInvoice(values, discount);
    RecalculatedOf(window, values, discount, inv);
    if inv.Some? {
      InvoiceWritesKeys(inv.value);
    }
  }

  /** An invoice writes its own fields and Total 3, never Discount; Total 3 only when it has one. */
  lemma InvoiceWritesKeys(inv: Invoice)
    ensures forall k :: k in InvoiceWrites(inv) ==> k in InvoiceFieldNames || k == "Total 3"
    ensures "Discount" !in InvoiceWrites(inv)
    ensures inv.total3.None? ==> "Total 3" !in InvoiceWrites(inv)
  {
    InvoiceWritesAre(inv);
    WritesOfKeys(Show(inv.totalD), Show(inv.gst), Show(inv.pst), Show(inv.totalA), Show(inv.totalB), Show(inv.totalC),
                 Show(inv.totalA + inv.totalB + inv.totalC), Show(inv.grand), Total3Text(inv));
  }

  /** What calculate_grand_total writes once the invoice is known. */
  lemma RecalculatedOf(window: Fields, values: Fields, discount: real, inv: Option<Invoice>)
    requires ComputeInvoice(values, discount) == inv
    ensures Recalculated(window, values, discount) ==
      if inv.Some? then window["Discount" := Show(discount)] + InvoiceWrites(inv.value)
      else window["Discount" := Show(discount)]
  {
  }
}
