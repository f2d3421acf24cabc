/**
 * The discount ledger: rows of (description, amount) keyed by an id that
 * only grows, each shown or hidden, and what is read off the shown rows —
 * the discount total, the combined description, the Cadence amount, and
 * the scan for a row to put the Cadence discount in.
 *
 * Every function here looks at the ids below a bound n; the form passes
 * metadata + 1, the number of rows ever created.
 */
module Ledger {
  import opened Wrappers
  import opened Money

  datatype Row = Row(desc: string, amt: string, visible: bool)

  type Rows = map<nat, Row>

  /** Rows 0..metadata exist, and at least one of them is shown. */
  predicate WellFormed(rows: Rows, metadata: nat)
  {
    (forall i :: i in rows ==> i <= metadata) && (forall i: nat :: i <= metadata ==> i in rows) &&
    VisibleCount(rows, metadata + 1) >= 1
  }

  predicate Shown(rows: Rows, i: nat) { i in rows && rows[i].visible }

  /** The number of shown rows with id below n. */
  function VisibleCount(rows: Rows, n: nat): (c: nat)
    ensures c <= n
  {
    if n == 0 then 0 else VisibleCount(rows, n - 1) + (if Shown(rows, n - 1) then 1 else 0)
  }

  // ---------------------------------------------------------------- the discount total

  /**
   * A discount amount as calculate_total_discount reads it: '$' and ','
   * removed, then stripped, then float(amount or 0); None is the ValueError
   * that skips the row.
   */
  function DiscountAmount(amt: string): Option<real>
  {
    var t := Strip(StripCurrency(amt));
    if t == "" then Some(0.0) else ParseFloat(t)
  }

  /** What one row adds to the total: its amount when shown and readable, else nothing. */
  function Contribution(rows: Rows, i: nat): real
  {
    if Shown(rows, i) && DiscountAmount(rows[i].amt).Some? then DiscountAmount(rows[i].amt).value else 0.0
  }

  function DiscountTotal(rows: Rows, n: nat): real
  {
    if n == 0 then 0.0 else DiscountTotal(rows, n - 1) + Contribution(rows, n - 1)
  }

  /** Rows that agree on what they contribute below n give the same total. */
  lemma {:induction false} DiscountTotalFrame(rows: Rows, rows': Rows, n: nat)
    requires forall i: nat :: i < n ==> Contribution(rows, i) == Contribution(rows', i)
    ensures DiscountTotal(rows, n) == DiscountTotal(rows', n)
  {
    if n > 0 {
      DiscountTotalFrame(rows, rows', n - 1);
    }
  }

  /** Changing row k changes the total by the change in what k contributes. */
  lemma {:induction false} DiscountTotalUpdate(rows: Rows, k: nat, r: Row, n: nat)
    requires k < n
    ensures DiscountTotal(rows[k := r], n) ==
      DiscountTotal(rows, n) - Contribution(rows, k) + Contribution(rows[k := r], k)
  {
    if n - 1 == k {
      DiscountTotalFrame(rows, rows[k := r], n - 1);
    } else {
      DiscountTotalUpdate(rows, k, r, n - 1);
      assert Contribution(rows[k := r], n - 1) == Contribution(rows, n - 1);
    }
  }

  /** Rows at n or above are not counted. */
  lemma DiscountTotalAbove(rows: Rows, k: nat, r: Row, n: nat)
    requires n <= k
    ensures DiscountTotal(rows[k := r], n) == DiscountTotal(rows, n)
  {
    forall i: nat | i < n
      ensures Contribution(rows, i) == Contribution(rows[k := r], i)
    {
    }
    DiscountTotalFrame(rows, rows[k := r], n);
  }

  /** A hidden row, or a row whose amount is cleared, adds nothing: "" reads as 0. */
  lemma ClearedContributesNothing(rows: Rows, k: nat, desc: string, visible: bool)
    ensures Contribution(rows[k := Row(desc, "", visible)], k) == 0.0
  {
    assert StripCurrency("") == "";
    assert Strip("") == "";
  }

  /** Clearing or hiding row k removes exactly k's contribution from the total. */
  lemma ClearRowTotal(rows: Rows, k: nat, visible: bool, n: nat)
    requires k < n
    ensures DiscountTotal(rows[k := Row("", "", visible)], n) == DiscountTotal(rows, n) - Contribution(rows, k)
  {
    DiscountTotalUpdate(rows, k, Row("", "", visible), n);
    ClearedContributesNothing(rows, k, "", visible);
  }

  // ---------------------------------------------------------------- visibility

  /** Changing row k changes the count only through k's own visibility. */
  lemma {:induction false} VisibleCountUpdate(rows: Rows, k: nat, r: Row, n: nat)
    requires k < n
    ensures VisibleCount(rows[k := r], n) + (if Shown(rows, k) then 1 else 0) ==
            VisibleCount(rows, n) + (if r.visible then 1 else 0)
  {
    if n - 1 == k {
      VisibleCountFrame(rows, rows[k := r], n - 1);
    } else {
      VisibleCountUpdate(rows, k, r, n - 1);
    }
  }

  lemma {:induction false} VisibleCountFrame(rows: Rows, rows': Rows, n: nat)
    requires forall i: nat :: i < n ==> (Shown(rows, i) <==> Shown(rows', i))
    ensures VisibleCount(rows, n) == VisibleCount(rows', n)
  {
    if n > 0 {
      VisibleCountFrame(rows, rows', n - 1);
    }
  }

  /** A count of at least one shown row has a shown row to point at. */
  lemma {:induction false} SomeShown(rows: Rows, n: nat) returns (k: nat)
    requires VisibleCount(rows, n) >= 1
    ensures k < n && Shown(rows, k)
  {
    if Shown(rows, n - 1) {
      k := n - 1;
    } else {
      k := SomeShown(rows, n - 1);
    }
  }

  /** A shown row below n is counted. */
  lemma {:induction false} ShownCounted(rows: Rows, k: nat, n: nat)
    requires k < n && Shown(rows, k)
    ensures VisibleCount(rows, n) >= 1
  {
    if k < n - 1 {
      ShownCounted(rows, k, n - 1);
    }
  }

  // ---------------------------------------------------------------- descriptions

  /** The stripped, non-empty descriptions of the shown rows, in id order. */
  function Descriptions(rows: Rows, n: nat): (ds: seq<string>)
    ensures forall j :: 0 <= j < |ds| ==> Stripped(ds[j])
  {
    if n == 0 then []
    else
      var d := if Shown(rows, n - 1) then Strip(rows[n - 1].desc) else "";
      StripEnds(if Shown(rows, n - 1) then rows[n - 1].desc else "");
      Descriptions(rows, n - 1) + (if d != "" then [d] else [])
  }

  /** Non-empty, with no white space at either end. */
  predicate Stripped(s: string)
  {
    s != "" && !IsSpace(s[0]) && !IsSpace(s[|s| - 1])
  }

  lemma StripEnds(s: string)
    ensures Strip(s) == "" || Stripped(Strip(s))
  {
    StripRightKeepsFirst(StripLeft(s));
  }

  lemma {:induction false} StripRightKeepsFirst(u: string)
    ensures StripRight(u) == [] || StripRight(u)[0] == u[0]
  {
    if u != [] && IsSpace(u[|u| - 1]) {
      StripRightKeepsFirst(u[..|u| - 1]);
    }
  }

  /** sep.join(parts) */
  function Join(parts: seq<string>, sep: string): string
  {
    if parts == [] then ""
    else if |parts| == 1 then parts[0]
    else Join(parts[..|parts| - 1], sep) + sep + parts[|parts| - 1]
  }

  /** Descriptions depend only on the shown rows' descriptions. */
  lemma {:induction false} DescriptionsFrame(rows: Rows, rows': Rows, n: nat)
    requires forall i: nat :: i < n ==> (Shown(rows, i) <==> Shown(rows', i))
    requires forall i: nat :: i < n && Shown(rows, i) && Shown(rows', i) ==> rows[i].desc == rows'[i].desc
    ensures Descriptions(rows, n) == Descriptions(rows', n)
  {
    if n > 0 {
      DescriptionsFrame(rows, rows', n - 1);
    }
  }

  /** With one shown row the combined description is that row's, stripped. */
  lemma OnlyDescription(rows: Rows, k: nat, n: nat)
    requires k < n && Shown(rows, k) && Strip(rows[k].desc) != ""
    requires forall i: nat :: i < n && i != k ==> !Shown(rows, i)
    ensures Join(Descriptions(rows, n), " + ") == Strip(rows[k].desc)
  {
    assert NoneShown(rows, 0, k);
    assert NoneShown(rows, k + 1, n);
    OnlyDescriptionSplit(rows, k, n);
  }

  predicate NoneShown(rows: Rows, m: nat, n: nat)
  {
    forall i: nat :: m <= i < n ==> !Shown(rows, i)
  }

  lemma OnlyDescriptionSplit(rows: Rows, k: nat, n: nat)
    requires k < n && Shown(rows, k) && Strip(rows[k].desc) != ""
    requires NoneShown(rows, 0, k) && NoneShown(rows, k + 1, n)
    ensures Join(Descriptions(rows, n), " + ") == Strip(rows[k].desc)
  {
    NoneBefore(rows, k);
    AddsOne(rows, k);
    NoneAfter(rows, k + 1, n);
  }

  lemma AddsOne(rows: Rows, k: nat)
    requires Shown(rows, k) && Strip(rows[k].desc) != "" && Descriptions(rows, k) == []
    ensures Join(Descriptions(rows, k + 1), " + ") == Strip(rows[k].desc)
  {
    assert Descriptions(rows, k + 1) == [Strip(rows[k].desc)];
  }

  lemma {:induction false} NoneBefore(rows: Rows, n: nat)
    requires NoneShown(rows, 0, n)
    ensures Descriptions(rows, n) == []
  {
    if n > 0 {
      NoneBefore(rows, n - 1);
    }
  }

  lemma {:induction false} NoneAfter(rows: Rows, m: nat, n: nat)
    requires m <= n
    requires NoneShown(rows, m, n)
    ensures Descriptions(rows, n) == Descriptions(rows, m)
    decreases n - m
  {
    if m < n {
      NoneAfter(rows, m, n - 1);
    }
  }

  /** Joining puts the separator between consecutive parts: one more part, one more separator. */
  lemma {:induction false} JoinLength(parts: seq<string>, sep: string)
    ensures |Join(parts, sep)| ==
      Lengths(parts) + (if parts == [] then 0 else (|parts| - 1) * |sep|)
  {
    if |parts| > 1 {
      JoinLength(parts[..|parts| - 1], sep);
      assert parts[..|parts| - 1][..|parts| - 2] == parts[..|parts| - 2];
    }
  }

  function Lengths(parts: seq<string>): nat
  {
    if parts == [] then 0 else Lengths(parts[..|parts| - 1]) + |parts[|parts| - 1]|
  }

  // ---------------------------------------------------------------- the Cadence discount

  function ToLower(c: char): char { if IsUpper(c) then (c as int + 32) as char else c }

  /** str.lower() on ASCII text. */
  function Lower(s: string): (r: string)
    ensures |r| == |s|
    ensures forall i :: 0 <= i < |s| ==> r[i] == ToLower(s[i])
  {
    if s == [] then [] else [ToLower(s[0])] + Lower(s[1..])
  }

  /** A shown row whose description, stripped and lower-cased, is "cadence". */
  predicate IsCadence(rows: Rows, i: nat)
  {
    Shown(rows, i) && Lower(Strip(rows[i].desc)) == "cadence"
  }

  /** The id of the first Cadence row below n. */
  function FirstCadence(rows: Rows, n: nat): (r: Option<nat>)
    ensures r.Some? ==> r.value < n && IsCadence(rows, r.value)
  {
    if n == 0 then None
    else
      var earlier := FirstCadence(rows, n - 1);
      if earlier.Some? then earlier else if IsCadence(rows, n - 1) then Some(n - 1) else None
  }

  /**
   * get_cadence_discount_amount: the first Cadence row's amount with '$'
   * and ',' removed, or "" when there is no Cadence row.
   */
  function CadenceAmount(rows: Rows, n: nat): string
  {
    match FirstCadence(rows, n)
    case None => ""
    case Some(k) => StripCurrency(rows[k].amt)
  }

  /** FirstCadence finds the lowest Cadence id, and nothing when there is none. */
  lemma {:induction false} FirstCadenceCorrect(rows: Rows, n: nat)
    ensures FirstCadence(rows, n).None? <==> forall i: nat :: i < n ==> !IsCadence(rows, i)
    ensures FirstCadence(rows, n).Some? ==>
      var k := FirstCadence(rows, n).value;
      k < n && IsCadence(rows, k) && forall i: nat :: i < k ==> !IsCadence(rows, i)
  {
    if n > 0 {
      FirstCadenceCorrect(rows, n - 1);
    }
  }

  /** Once a Cadence row is found below i, looking further finds the same one. */
  lemma {:induction false} FirstCadenceSticky(rows: Rows, i: nat, n: nat)
    requires i <= n && FirstCadence(rows, i).Some?
    ensures FirstCadence(rows, n) == FirstCadence(rows, i)
  {
    if i < n {
      FirstCadenceSticky(rows, i, n - 1);
    }
  }

  /** The Cadence amount never keeps a '$' or a ','. */
  lemma CadenceAmountClean(rows: Rows, n: nat)
    ensures '$' !in CadenceAmount(rows, n) && ',' !in CadenceAmount(rows, n)
  {
    if FirstCadence(rows, n).Some? {
      var a := rows[FirstCadence(rows, n).value].amt;
      RemoveGone(Remove(a, '$'), ',');
      RemoveGone(a, '$');
      RemoveKeeps(Remove(a, '$'), ',', '$');
    }
  }

  lemma {:induction false} RemoveGone(s: string, c: char)
    ensures c !in Remove(s, c)
  {
    if s != [] {
      RemoveGone(s[1..], c);
    }
  }

  lemma {:induction false} RemoveKeeps(s: string, c: char, d: char)
    requires d !in s
    ensures d !in Remove(s, c)
  {
    if s != [] {
      assert d !in s[1..];
      RemoveKeeps(s[1..], c, d);
    }
  }

  // ---------------------------------------------------------------- the scan before a package adds Cadence

  /**
   * apply_package's scan over the shown rows: whether one reads exactly
   * "Cadence" (the scan stops there), and the last row seen before that
   * whose description and amount are both empty.
   */
  datatype Scan = Scan(cadence: bool, empty: Option<nat>)

  predicate EmptyShown(rows: Rows, i: nat)
  {
    Shown(rows, i) && rows[i].desc == "" && rows[i].amt == ""
  }

  function ScanRows(rows: Rows, n: nat): Scan
  {
    if n == 0 then Scan(false, None)
    else
      var s := ScanRows(rows, n - 1);
      if s.cadence then s
      else if Shown(rows, n - 1) && rows[n - 1].desc == "Cadence" then Scan(true, s.empty)
      else if EmptyShown(rows, n - 1) then Scan(false, Some(n - 1))
      else s
  }

  /**
   * The scan finds Cadence exactly when some shown row reads "Cadence";
   * otherwise the row it offers is the last empty shown row, and there is
   * one whenever any empty shown row exists.
   */
  lemma {:induction false} ScanRowsCorrect(rows: Rows, n: nat)
    ensures ScanRows(rows, n).cadence <==>
      exists i: nat :: i < n && Shown(rows, i) && rows[i].desc == "Cadence"
    ensures !ScanRows(rows, n).cadence ==>
      (ScanRows(rows, n).empty.None? <==> forall i: nat :: i < n ==> !EmptyShown(rows, i))
    ensures !ScanRows(rows, n).cadence && ScanRows(rows, n).empty.Some? ==>
      var k := ScanRows(rows, n).empty.value;
      k < n && EmptyShown(rows, k) && forall i: nat :: k < i < n ==> !EmptyShown(rows, i)
  {
    if n > 0 {
      ScanRowsCorrect(rows, n - 1);
    }
  }

  /** Once the scan has met "Cadence" it stops: looking at more rows changes nothing. */
  lemma {:induction false} ScanRowsSticky(rows: Rows, i: nat, n: nat)
    requires i <= n && ScanRows(rows, i).cadence
    ensures ScanRows(rows, n) == ScanRows(rows, i)
  {
    if i < n {
      ScanRowsSticky(rows, i, n - 1);
    }
  }

  // ---------------------------------------------------------------- adding, removing and editing rows

  /** A new empty shown row after the last keeps the rows well formed and changes no total or description. */
  lemma AddEmptyRow(rows: Rows, metadata: nat, rows': Rows, metadata': nat)
    requires WellFormed(rows, metadata)
    requires metadata' == metadata + 1 && rows' == rows[metadata' := Row("", "", true)]
    ensures metadata' !in rows && WellFormed(rows', metadata')
    ensures DiscountTotal(rows', metadata' + 1) == DiscountTotal(rows, metadata + 1)
    ensures Descriptions(rows', metadata' + 1) == Descriptions(rows, metadata + 1)
  {
    AddEmptyRowShape(rows, metadata);
    AddEmptyRowTotal(rows, metadata);
    AddEmptyRowDescriptions(rows, metadata);
  }

  lemma AddEmptyRowShape(rows: Rows, metadata: nat)
    requires WellFormed(rows, metadata)
    ensures WellFormed(rows[metadata + 1 := Row("", "", true)], metadata + 1)
  {
    VisibleCountFrame(rows, rows[metadata + 1 := Row("", "", true)], metadata + 1);
  }

  lemma AddEmptyRowTotal(rows: Rows, metadata: nat)
    ensures DiscountTotal(rows[metadata + 1 := Row("", "", true)], metadata + 2) == DiscountTotal(rows, metadata + 1)
  {
    DiscountTotalAbove(rows, metadata + 1, Row("", "", true), metadata + 1);
    ClearedContributesNothing(rows, metadata + 1, "", true);
  }

  lemma AddEmptyRowDescriptions(rows: Rows, metadata: nat)
    ensures Descriptions(rows[metadata + 1 := Row("", "", true)], metadata + 2) == Descriptions(rows, metadata + 1)
  {
    var r := rows[metadata + 1 := Row("", "", true)];
    DescriptionsFrame(rows, r, metadata + 1);
    assert Strip("") == "";
  }

  /**
   * remove_discount_field on an existing row: the last shown row is only
   * cleared, any other row is cleared and hidden; either way the rows stay
   * well formed and the total loses exactly that row's amount.
   */
  lemma RemoveRow(rows: Rows, metadata: nat, k: nat)
    requires WellFormed(rows, metadata) && k in rows
    ensures var keep := VisibleCount(rows, metadata + 1) <= 1;
      var r := rows[k := Row("", "", keep && rows[k].visible)];
      WellFormed(r, metadata) &&
      DiscountTotal(r, metadata + 1) == DiscountTotal(rows, metadata + 1) - Contribution(rows, k)
  {
    var keep := VisibleCount(rows, metadata + 1) <= 1;
    var row := Row("", "", keep && rows[k].visible);
    VisibleCountUpdate(rows, k, row, metadata + 1);
    ClearRowTotal(rows, k, row.visible, metadata + 1);
  }

  /** Editing the amount of an existing row keeps the rows well formed. */
  lemma EditAmount(rows: Rows, metadata: nat, k: nat, amt: string)
    requires WellFormed(rows, metadata) && k in rows
    ensures WellFormed(rows[k := rows[k].(amt := amt)], metadata)
  {
    VisibleCountUpdate(rows, k, rows[k].(amt := amt), metadata + 1);
  }
}
