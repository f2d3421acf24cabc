/**
 * The service packages: the catalogue of packages, each a list of field
 * values, and what applying one does to the form's fields and to the
 * discount rows (clear every package field, name the service, make sure a
 * Cadence discount row exists, write the package's values).
 */
module Packages {
  import opened Wrappers
  import opened Money
  import opened Pricing
  import opened Ledger

  /**
   * A package value: a price, written as a dollar amount, or text written
   * as it is. Every price in the catalogue belongs to a dollar field and
   * every text to a field that is not one.
   */
  datatype Value = Dollars(amount: real) | Text(text: string)

  /** A package: its fields and their values, in the order they are written. */
  type Package = seq<(string, Value)>

  const TypeOfService := "Type of Service"

  /** The Cadence discount a package brings with it. */
  const CadenceDesc := "Cadence"
  const CadenceAmt := "400.00"

  /** The packages offered, by name. */
  const Catalogue: seq<(string, Package)> := [
    ("Full Funeral Church - Cremation", [
      ("A1", Dollars(525.0)), ("A2A", Dollars(2755.0)), ("A3", Dollars(895.0)),
      ("A4B", Dollars(365.0)), ("A5A", Dollars(365.0)), ("A5B", Dollars(695.0)),
      ("A9D", Dollars(295.0)), ("A9E", Dollars(525.0)), ("Casket", Text("Mazri")),
      ("B1", Dollars(795.0)), ("Urn", Text("Basic Cardboard Urn")), ("B2", Dollars(35.0)),
      ("Crematorium", Text("West Shore")), ("C2", Dollars(745.0)), ("C5", Dollars(40.0)),
      ("Other_2", Text("Cadence Legacy Planner")), ("C9", Dollars(599.0)),
      ("Death_Certificates_Quantity", Text("1")), ("D7", Dollars(27.0)),
      ("3E Journey Home", Dollars(595.0))]),
    ("Full Funeral Church - Burial", [
      ("A1", Dollars(525.0)), ("A2A", Dollars(2755.0)), ("A3", Dollars(895.0)),
      ("A4B", Dollars(365.0)), ("A5A", Dollars(365.0)), ("A5B", Dollars(695.0)),
      ("A9D", Dollars(295.0)), ("A9E", Dollars(525.0)), ("Casket", Text("Mazri")),
      ("B1", Dollars(795.0)), ("C5", Dollars(40.0)), ("Other_2", Text("Cadence Legacy Planner")),
      ("C9", Dollars(599.0)), ("Death_Certificates_Quantity", Text("1")), ("D7", Dollars(27.0)),
      ("3E Journey Home", Dollars(595.0))]),
    ("Full Funeral Chapel - Cremation", [
      ("A1", Dollars(525.0)), ("A2A", Dollars(2755.0)), ("A3", Dollars(895.0)),
      ("A4A", Dollars(895.0)), ("A4B", Dollars(365.0)), ("A5A", Dollars(365.0)),
      ("A5B", Dollars(695.0)), ("A9D", Dollars(295.0)), ("A9E", Dollars(525.0)),
      ("Casket", Text("Mazri")), ("B1", Dollars(795.0)), ("Urn", Text("Basic Cardboard Urn")),
      ("B2", Dollars(35.0)), ("Crematorium", Text("West Shore")), ("C2", Dollars(745.0)),
      ("C5", Dollars(40.0)), ("Other_2", Text("Cadence Legacy Planner")), ("C9", Dollars(599.0)),
      ("Death_Certificates_Quantity", Text("1")), ("D7", Dollars(27.0)),
      ("3E Journey Home", Dollars(595.0))]),
    ("Full Funeral Chapel - Burial", [
      ("A1", Dollars(525.0)), ("A2A", Dollars(2755.0)), ("A3", Dollars(895.0)),
      ("A4A", Dollars(895.0)), ("A4B", Dollars(365.0)), ("A5A", Dollars(365.0)),
      ("A5B", Dollars(695.0)), ("A9D", Dollars(295.0)), ("A9E", Dollars(525.0)),
      ("Casket", Text("Mazri")), ("B1", Dollars(795.0)), ("C5", Dollars(40.0)),
      ("Other_2", Text("Cadence Legacy Planner")), ("C9", Dollars(599.0)),
      ("Death_Certificates_Quantity", Text("1")), ("D7", Dollars(27.0)),
      ("3E Journey Home", Dollars(595.0))]),
    ("Full Funeral Chapel - Cremation, Reception", [
      ("A1", Dollars(525.0)), ("A2A", Dollars(2755.0)), ("A3", Dollars(895.0)),
      ("A4A", Dollars(895.0)), ("A4B", Dollars(365.0)), ("A5A", Dollars(365.0)),
      ("A5B", Dollars(695.0)),
      ("Reception Facilities", Text("KFS New West Reception Room Rental (Disp Dishes, Coffee, Tea)")),
      ("A8", Dollars(595.0)), ("A9D", Dollars(295.0)), ("A9E", Dollars(525.0)),
      ("Casket", Text("Mazri")), ("B1", Dollars(795.0)), ("Urn", Text("Basic Cardboard Urn")),
      ("B2", Dollars(35.0)), ("Crematorium", Text("West Shore")), ("C2", Dollars(745.0)),
      ("C5", Dollars(40.0)), ("Other_2", Text("Cadence Legacy Planner")), ("C9", Dollars(599.0)),
      ("Death_Certificates_Quantity", Text("1")), ("D7", Dollars(27.0)),
      ("3E Journey Home", Dollars(595.0))]),
    ("Full Funeral Chapel - Burial, Reception", [
      ("A1", Dollars(525.0)), ("A2A", Dollars(2755.0)), ("A3", Dollars(895.0)),
      ("A4A", Dollars(895.0)), ("A4B", Dollars(365.0)), ("A5A", Dollars(365.0)),
      ("A5B", Dollars(695.0)),
      ("Reception Facilities", Text("KFS New West Reception Room Rental (Disp Dishes, Coffee, Tea)")),
      ("A8", Dollars(595.0)), ("A9D", Dollars(295.0)), ("A9E", Dollars(525.0)),
      ("Casket", Text("Mazri")), ("B1", Dollars(795.0)), ("C5", Dollars(40.0)),
      ("Other_2", Text("Cadence Legacy Planner")), ("C9", Dollars(599.0)),
      ("Death_Certificates_Quantity", Text("1")), ("D7", Dollars(27.0)),
      ("3E Journey Home", Dollars(595.0))]),
    ("Minimum Cremation - No Viewing", [
      ("A1", Dollars(525.0)), ("A2A", Dollars(765.0)), ("A3", Dollars(595.0)),
      ("A4B", Dollars(365.0)), ("Casket", Text("Basic Cremation Container")),
      ("B1", Dollars(395.0)), ("Urn", Text("Basic Cardboard Urn")), ("B2", Dollars(35.0)),
      ("Crematorium", Text("West Shore")), ("C2", Dollars(745.0)), ("C5", Dollars(40.0)),
      ("Other_2", Text("Cadence Legacy Planner")), ("C9", Dollars(599.0)),
      ("Death_Certificates_Quantity", Text("1")), ("D7", Dollars(27.0)),
      ("3E Journey Home", Dollars(595.0))]),
    ("Minimum Cremation - With Viewing", [
      ("A1", Dollars(525.0)), ("A2A", Dollars(895.0)), ("A3", Dollars(350.0)),
      ("A4B", Dollars(365.0)), ("A5A", Dollars(365.0)), ("A5B", Dollars(695.0)),
      ("Evening Prayers or Visitation", Text("Viewing at New West")), ("A6", Dollars(500.0)),
      ("Casket", Text("Mazri")), ("B1", Dollars(795.0)), ("Urn", Text("Basic Cardboard Urn")),
      ("B2", Dollars(35.0)), ("Crematorium", Text("West Shore")), ("C2", Dollars(745.0)),
      ("C5", Dollars(40.0)), ("Other_2", Text("Cadence Legacy Planner")), ("C9", Dollars(599.0)),
      ("Death_Certificates_Quantity", Text("1")), ("D7", Dollars(27.0)),
      ("3E Journey Home", Dollars(595.0))]),
    ("Graveside - No Viewing", [
      ("A1", Dollars(525.0)), ("A2A", Dollars(1195.0)), ("A3", Dollars(595.0)),
      ("A4B", Dollars(365.0)), ("A5A", Dollars(365.0)), ("A9E", Dollars(525.0)),
      ("Casket", Text("Mazri")), ("B1", Dollars(795.0)), ("C5", Dollars(40.0)),
      ("Other_2", Text("Cadence Legacy Planner")), ("C9", Dollars(599.0)),
      ("Death_Certificates_Quantity", Text("1")), ("D7", Dollars(27.0)),
      ("3E Journey Home", Dollars(595.0))]),
    ("Graveside - With Viewing", [
      ("A1", Dollars(525.0)), ("A2A", Dollars(1195.0)), ("A3", Dollars(595.0)),
      ("A4B", Dollars(365.0)), ("A5A", Dollars(365.0)), ("A5B", Dollars(695.0)),
      ("Evening Prayers or Visitation", Text("Viewing at New West")), ("A6", Dollars(500.0)),
      ("A9E", Dollars(525.0)), ("Casket", Text("Mazri")), ("B1", Dollars(795.0)),
      ("C5", Dollars(40.0)), ("Other_2", Text("Cadence Legacy Planner")), ("C9", Dollars(599.0)),
      ("Death_Certificates_Quantity", Text("1")), ("D7", Dollars(27.0)),
      ("3E Journey Home", Dollars(595.0))]),
    ("Memorial Service - No Reception, No Viewing", [
      ("A1", Dollars(525.0)), ("A2A", Dollars(1895.0)), ("A3", Dollars(795.0)),
      ("A4A", Dollars(895.0)), ("A4B", Dollars(365.0)),
      ("Casket", Text("Basic Cremation Container")), ("B1", Dollars(395.0)),
      ("Urn", Text("Basic Cardboard Urn")), ("B2", Dollars(35.0)),
      ("Crematorium", Text("West Shore")), ("C2", Dollars(745.0)), ("C5", Dollars(40.0)),
      ("Other_2", Text("Cadence Legacy Planner")), ("C9", Dollars(599.0)),
      ("Death_Certificates_Quantity", Text("1")), ("D7", Dollars(27.0)),
      ("3E Journey Home", Dollars(595.0))]),
    ("Memorial Service - No Reception, With Viewing", [
      ("A1", Dollars(525.0)), ("A2A", Dollars(1895.0)), ("A3", Dollars(795.0)),
      ("A4A", Dollars(895.0)), ("A4B", Dollars(365.0)), ("A5B", Dollars(695.0)),
      ("Evening Prayers or Visitation", Text("Viewing at New West")), ("A6", Dollars(500.0)),
      ("Casket", Text("Basic Cremation Container")), ("B1", Dollars(395.0)),
      ("Urn", Text("Basic Cardboard Urn")), ("B2", Dollars(35.0)),
      ("Crematorium", Text("West Shore")), ("C2", Dollars(745.0)), ("C5", Dollars(40.0)),
      ("Other_2", Text("Cadence Legacy Planner")), ("C9", Dollars(599.0)),
      ("Death_Certificates_Quantity", Text("1")), ("D7", Dollars(27.0)),
      ("3E Journey Home", Dollars(595.0))]),
    ("Memorial Service - With Reception, No Viewing", [
      ("A1", Dollars(525.0)), ("A2A", Dollars(1895.0)), ("A3", Dollars(795.0)),
      ("A4A", Dollars(895.0)), ("A4B", Dollars(365.0)),
      ("Reception Facilities", Text("KFS New West Reception Room Rental (Disp Dishes, Coffee, Tea)")),
      ("A8", Dollars(595.0)), ("Casket", Text("Basic Cremation Container")),
      ("B1", Dollars(395.0)), ("Urn", Text("Basic Cardboard Urn")), ("B2", Dollars(35.0)),
      ("Crematorium", Text("West Shore")), ("C2", Dollars(745.0)), ("C5", Dollars(40.0)),
      ("Other_2", Text("Cadence Legacy Planner")), ("C9", Dollars(599.0)),
      ("Death_Certificates_Quantity", Text("1")), ("D7", Dollars(27.0)),
      ("3E Journey Home", Dollars(595.0))]),
    ("Memorial Service - With Reception, With Viewing", [
      ("A1", Dollars(525.0)), ("A2A", Dollars(1895.0)), ("A3", Dollars(795.0)),
      ("A4A", Dollars(895.0)), ("A4B", Dollars(365.0)), ("A5B", Dollars(695.0)),
      ("Evening Prayers or Visitation", Text("Viewing at New West")), ("A6", Dollars(500.0)),
      ("Reception Facilities", Text("KFS New West Reception Room Rental (Disp Dishes, Coffee, Tea)")),
      ("A8", Dollars(595.0)), ("Casket", Text("Mazri")), ("B1", Dollars(795.0)),
      ("Urn", Text("Basic Cardboard Urn")), ("B2", Dollars(35.0)),
      ("Crematorium", Text("West Shore")), ("C2", Dollars(745.0)), ("C5", Dollars(40.0)),
      ("Other_2", Text("Cadence Legacy Planner")), ("C9", Dollars(599.0)),
      ("Death_Certificates_Quantity", Text("1")), ("D7", Dollars(27.0)),
      ("3E Journey Home", Dollars(595.0))]),
    ("Witness Cremation - No Viewing", [
      ("A1", Dollars(525.0)), ("A2A", Dollars(1295.0)), ("A3", Dollars(595.0)),
      ("A4B", Dollars(365.0)), ("A5A", Dollars(365.0)), ("A9E", Dollars(525.0)),
      ("Casket", Text("Basic Cremation Container")), ("B1", Dollars(395.0)),
      ("Urn", Text("Basic Cardboard Urn")), ("B2", Dollars(35.0)),
      ("Crematorium", Text("Watch Start Cremation (Maple Ridge)")), ("C2", Dollars(1495.0)),
      ("C5", Dollars(40.0)), ("Other_2", Text("Cadence Legacy Planner")), ("C9", Dollars(599.0)),
      ("Death_Certificates_Quantity", Text("1")), ("D7", Dollars(27.0)),
      ("3E Journey Home", Dollars(595.0))]),
    ("Witness Cremation - With Viewing", [
      ("A1", Dollars(525.0)), ("A2A", Dollars(1295.0)), ("A3", Dollars(595.0)),
      ("A4B", Dollars(365.0)), ("A5A", Dollars(365.0)), ("A5B", Dollars(695.0)),
      ("A9E", Dollars(525.0)), ("Evening Prayers or Visitation", Text("Viewing at New West")),
      ("A6", Dollars(500.0)), ("Casket", Text("Mazri")), ("B1", Dollars(795.0)),
      ("Urn", Text("Basic Cardboard Urn")), ("B2", Dollars(35.0)),
      ("Crematorium", Text("Watch Start Cremation (Maple Ridge)")), ("C2", Dollars(1495.0)),
      ("C5", Dollars(40.0)), ("Other_2", Text("Cadence Legacy Planner")), ("C9", Dollars(599.0)),
      ("Death_Certificates_Quantity", Text("1")), ("D7", Dollars(27.0)),
      ("3E Journey Home", Dollars(595.0))]),
    ("Chapel Rental Reception - Cremation or Burial Elsewhere", [
      ("A2A", Dollars(2495.0)), ("A4A", Dollars(895.0)),
      ("Reception Facilities", Text("KFS New West Reception Room Rental (Disp Dishes, Coffee, Tea)")),
      ("A8", Dollars(595.0)), ("Other_2", Text("Cadence Legacy Planner")), ("C9", Dollars(599.0)),
      ("Death_Certificates_Quantity", Text("1")), ("D7", Dollars(27.0)),
      ("3E Journey Home", Dollars(595.0))]),
    ("Ship Out International - Service at Church", [
      ("A1", Dollars(525.0)), ("A2A", Dollars(2755.0)), ("A3", Dollars(895.0)),
      ("A4B", Dollars(695.0)), ("A5A", Dollars(365.0)), ("A5B", Dollars(695.0)),
      ("A9B", Dollars(395.0)), ("Casket", Text("Misty Blue - 18 gauge steel")),
      ("B1", Dollars(3995.0)), ("Other_1", Text("Casket Shipping Outer Container")),
      ("B7", Dollars(750.0)), ("C5", Dollars(40.0)), ("Other_2", Text("Cadence Legacy Planner")),
      ("C9", Dollars(599.0)), ("Death_Certificates_Quantity", Text("1")), ("D7", Dollars(27.0)),
      ("Other_4", Text("Airfare Estimate")), ("D8", Dollars(3500.0)),
      ("3E Journey Home", Dollars(595.0))]),
    ("Ship Out International - Service at Chapel", [
      ("A1", Dollars(525.0)), ("A2A", Dollars(2755.0)), ("A3", Dollars(895.0)),
      ("A4A", Dollars(895.0)), ("A4B", Dollars(695.0)), ("A5A", Dollars(365.0)),
      ("A5B", Dollars(695.0)),
      ("Reception Facilities", Text("KFS New West Reception Room Rental (Disp Dishes, Coffee, Tea)")),
      ("A8", Dollars(595.0)), ("A9B", Dollars(395.0)),
      ("Casket", Text("Misty Blue - 18 gauge steel")), ("B1", Dollars(3995.0)),
      ("Other_1", Text("Casket Shipping Outer Container")), ("B7", Dollars(750.0)),
      ("C5", Dollars(40.0)), ("Other_2", Text("Cadence Legacy Planner")), ("C9", Dollars(599.0)),
      ("Death_Certificates_Quantity", Text("1")), ("D7", Dollars(27.0)),
      ("3E Journey Home", Dollars(595.0)), ("Other_4", Text("Airfare Estimate")),
      ("D8", Dollars(3500.0))]),
    ("Ship Out International - No Service", [
      ("A1", Dollars(525.0)), ("A2A", Dollars(995.0)), ("A3", Dollars(895.0)),
      ("A4B", Dollars(695.0)), ("A5A", Dollars(365.0)), ("A5B", Dollars(695.0)),
      ("A9B", Dollars(395.0)), ("Casket", Text("Misty Blue - 18 gauge steel")),
      ("B1", Dollars(3995.0)), ("Other_1", Text("Casket Shipping Outer Container")),
      ("B7", Dollars(750.0)), ("C5", Dollars(40.0)), ("Other_2", Text("Cadence Legacy Planner")),
      ("C9", Dollars(599.0)), ("Death_Certificates_Quantity", Text("1")), ("D7", Dollars(27.0)),
      ("Other_4", Text("Airfare Estimate")), ("D8", Dollars(3500.0))])]

  /** How a package value lands in its field: a price as a grouped two-decimal amount, text unchanged. */
  function Render(v: Value): string
  {
    match v
    case Dollars(a) => Show(a)
    case Text(t) => t
  }

  function Keys(p: Package): set<string> { set i | 0 <= i < |p| :: p[i].0 }

  /** Every field some package of the catalogue sets: the fields cleared before a package is applied. */
  function AllKeys(catalogue: seq<(string, Package)>): set<string>
  {
    if catalogue == [] then {} else AllKeys(catalogue[..|catalogue| - 1]) + Keys(catalogue[|catalogue| - 1].1)
  }

  /** The package of that name; the catalogue's names are distinct, as in a dict. */
  function Lookup(catalogue: seq<(string, Package)>, name: string): (r: Option<Package>)
    ensures r.None? <==> forall j :: 0 <= j < |catalogue| ==> catalogue[j].0 != name
    ensures r.Some? ==> exists j :: 0 <= j < |catalogue| && catalogue[j] == (name, r.value)
  {
    if catalogue == [] then None
    else if catalogue[0].0 == name then Some(catalogue[0].1)
    else
      var r := Lookup(catalogue[1..], name);
      assert forall j :: 0 < j < |catalogue| ==> catalogue[j] == catalogue[1..][j - 1];
      r
  }

  /** The value a package leaves in field k: the last one it writes there. */
  function ValueOf(p: Package, k: string): (r: Option<Value>)
    ensures r.None? <==> k !in Keys(p)
    ensures r.Some? ==> (k, r.value) in p
  {
    if p == [] then None
    else if p[|p| - 1].0 == k then Some(p[|p| - 1].1)
    else
      var r := ValueOf(p[..|p| - 1], k);
      assert Keys(p) == Keys(p[..|p| - 1]) + {p[|p| - 1].0};
      r
  }

  /** The write loop: each field of the package that the form has takes the package's value, in order. */
  function Written(w: Fields, p: Package): (r: Fields)
    ensures r.Keys == w.Keys
  {
    if p == [] then w
    else
      var r := Written(w, p[..|p| - 1]);
      var (k, v) := p[|p| - 1];
      if k in r then r[k := Render(v)] else r
  }

  /** The clearing loop: every field of ks that the form has becomes empty. */
  function Cleared(w: Fields, ks: set<string>): Fields
  {
    map k | k in w :: if k in ks then "" else w[k]
  }

  /**
   * The fields after apply_package writes them: the package fields of the
   * whole catalogue (ks) cleared, the type of service named, then the
   * package's own values written.
   */
  function PackageWindow(w: Fields, ks: set<string>, name: string, p: Package): Fields
  {
    Written(Cleared(w, ks)[TypeOfService := name], p)
  }

  /** The row a package's Cadence discount takes: shown, described "Cadence", 400.00. */
  const CadenceRow := Row(CadenceDesc, CadenceAmt, true)

  /**
   * The discount rows after apply_package: unchanged when a shown row
   * already reads "Cadence"; otherwise the last empty shown row, or else a
   * new shown row after the last one, takes the Cadence discount. The
   * second component is the new metadata.
   */
  function WithCadence(rows: Rows, metadata: nat): (Rows, nat)
  {
    Filled(rows, metadata, CadenceRow)
  }

  /** The scan-and-fill of WithCadence, for any row c to put in. */
  function Filled(rows: Rows, metadata: nat, c: Row): (Rows, nat)
  {
    var s := ScanRows(rows, metadata + 1);
    if s.cadence then (rows, metadata)
    else if s.empty.Some? then (rows[s.empty.value := c], metadata)
    else (rows[metadata + 1 := c], metadata + 1)
  }

  // ---------------------------------------------------------------- lemmas

  /** A field some package of the catalogue sets is among AllKeys, and nothing else is. */
  lemma {:induction false} AllKeysMeans(catalogue: seq<(string, Package)>, k: string)
    ensures k in AllKeys(catalogue) <==> exists j :: 0 <= j < |catalogue| && k in Keys(catalogue[j].1)
  {
    if catalogue != [] {
      var n := |catalogue| - 1;
      AllKeysMeans(catalogue[..n], k);
      if k in AllKeys(catalogue) && k !in Keys(catalogue[n].1) {
        var j :| 0 <= j < n && k in Keys(catalogue[..n][j].1);
        assert catalogue[..n][j] == catalogue[j];
      }
      if exists j :: 0 <= j < |catalogue| && k in Keys(catalogue[j].1) {
        var j :| 0 <= j < |catalogue| && k in Keys(catalogue[j].1);
        if j < n {
          assert catalogue[..n][j] == catalogue[j];
        }
      }
    }
  }

  /** After the write loop a field holds the package's last value for it, or what it held before. */
  lemma {:induction false} WrittenAt(w: Fields, p: Package, k: string)
    requires k in w
    ensures Written(w, p)[k] == if ValueOf(p, k).Some? then Render(ValueOf(p, k).value) else w[k]
  {
    if p != [] {
      WrittenAt(w, p[..|p| - 1], k);
    }
  }

  /**
   * Each field after apply_package's writes: the package's value, else the
   * service name for Type of Service, else empty for a field some other
   * package sets, else what it was.
   */
  lemma PackageWindowAt(w: Fields, ks: set<string>, name: string, p: Package, k: string)
    requires k in w || k == TypeOfService
    ensures k in PackageWindow(w, ks, name, p)
    ensures PackageWindow(w, ks, name, p)[k] ==
      if ValueOf(p, k).Some? then Render(ValueOf(p, k).value)
      else if k == TypeOfService then name
      else if k in ks then ""
      else w[k]
  {
    WrittenAt(Cleared(w, ks)[TypeOfService := name], p, k);
  }

  /** Applying a package adds no field but Type of Service. */
  lemma PackageWindowKeys(w: Fields, ks: set<string>, name: string, p: Package)
    ensures PackageWindow(w, ks, name, p).Keys == w.Keys + {TypeOfService}
  {
  }

  /** Applying the same package twice leaves the fields as applying it once. */
  lemma PackageWindowIdempotent(w: Fields, ks: set<string>, name: string, p: Package)
    ensures PackageWindow(PackageWindow(w, ks, name, p), ks, name, p) == PackageWindow(w, ks, name, p)
  {
    var once := PackageWindow(w, ks, name, p);
    var twice := PackageWindow(once, ks, name, p);
    PackageWindowKeys(w, ks, name, p);
    PackageWindowKeys(once, ks, name, p);
    forall k | k in once
      ensures twice[k] == once[k]
    {
      PackageWindowAt(w, ks, name, p, k);
      PackageWindowAt(once, ks, name, p, k);
    }
  }

  /** The last package applied decides every package field: the earlier one leaves no trace there. */
  lemma LastPackageWins(w: Fields, ks: set<string>, name: string, p: Package, name': string, p': Package)
    requires Keys(p) <= ks
    ensures PackageWindow(PackageWindow(w, ks, name, p), ks, name', p') == PackageWindow(w, ks, name', p')
  {
    var first := PackageWindow(w, ks, name, p);
    var second := PackageWindow(first, ks, name', p');
    var direct := PackageWindow(w, ks, name', p');
    PackageWindowKeys(w, ks, name, p);
    PackageWindowKeys(first, ks, name', p');
    PackageWindowKeys(w, ks, name', p');
    forall k | k in second
      ensures second[k] == direct[k]
    {
      PackageWindowAt(w, ks, name, p, k);
      PackageWindowAt(first, ks, name', p', k);
      PackageWindowAt(w, ks, name', p', k);
    }
  }

  /**
   * Adding the Cadence discount keeps the rows well formed, leaves a shown
   * "Cadence" row, adds at most one row, and touches no row but the empty
   * shown one it fills.
   */
  lemma WithCadenceEnsures(rows: Rows, metadata: nat)
    requires WellFormed(rows, metadata)
    ensures WellFormed(WithCadence(rows, metadata).0, WithCadence(rows, metadata).1)
    ensures ScanRows(WithCadence(rows, metadata).0, WithCadence(rows, metadata).1 + 1).cadence
    ensures WithCadence(rows, metadata).1 in {metadata, metadata + 1}
    ensures ScanRows(rows, metadata + 1).cadence ==> WithCadence(rows, metadata) == (rows, metadata)
    ensures forall i :: i in rows && i in WithCadence(rows, metadata).0 && WithCadence(rows, metadata).0[i] != rows[i] ==>
      EmptyShown(rows, i) && WithCadence(rows, metadata).0[i] == CadenceRow
  {
    FilledEnsures(rows, metadata, CadenceRow);
  }

  lemma FilledEnsures(rows: Rows, metadata: nat, c: Row)
    requires WellFormed(rows, metadata) && c.desc == "Cadence" && c.visible
    ensures WellFormed(Filled(rows, metadata, c).0, Filled(rows, metadata, c).1)
    ensures ScanRows(Filled(rows, metadata, c).0, Filled(rows, metadata, c).1 + 1).cadence
    ensures Filled(rows, metadata, c).1 in {metadata, metadata + 1}
    ensures ScanRows(rows, metadata + 1).cadence ==> Filled(rows, metadata, c) == (rows, metadata)
    ensures forall i :: i in rows && i in Filled(rows, metadata, c).0 && Filled(rows, metadata, c).0[i] != rows[i] ==>
      EmptyShown(rows, i) && Filled(rows, metadata, c).0[i] == c
  {
    FilledShape(rows, metadata, c);
    FilledHasCadence(rows, metadata, c);
    FilledTouches(rows, metadata, c);
  }

  lemma FilledShape(rows: Rows, metadata: nat, c: Row)
    requires WellFormed(rows, metadata) && c.visible
    ensures WellFormed(Filled(rows, metadata, c).0, Filled(rows, metadata, c).1)
  {
    var s := ScanRows(rows, metadata + 1);
    ScanRowsCorrect(rows, metadata + 1);
    if !s.cadence {
      if s.empty.Some? {
        FillEmptyShape(rows, s.empty.value, metadata, c);
      } else {
        FillNewShape(rows, metadata, c);
      }
    }
  }

  lemma FilledHasCadence(rows: Rows, metadata: nat, c: Row)
    requires WellFormed(rows, metadata) && c.desc == "Cadence" && c.visible
    ensures ScanRows(Filled(rows, metadata, c).0, Filled(rows, metadata, c).1 + 1).cadence
  {
    var s := ScanRows(rows, metadata + 1);
    ScanRowsCorrect(rows, metadata + 1);
    var (r, m) := Filled(rows, metadata, c);
    ScanRowsCorrect(r, m + 1);
    if !s.cadence {
      var k := if s.empty.Some? then s.empty.value else metadata + 1;
      assert k < m + 1 && Shown(r, k) && r[k].desc == "Cadence";
    }
  }

  lemma FilledTouches(rows: Rows, metadata: nat, c: Row)
    requires WellFormed(rows, metadata)
    ensures forall i :: i in rows && i in Filled(rows, metadata, c).0 && Filled(rows, metadata, c).0[i] != rows[i] ==>
      EmptyShown(rows, i) && Filled(rows, metadata, c).0[i] == c
  {
    ScanRowsCorrect(rows, metadata + 1);
  }

  lemma FillEmptyShape(rows: Rows, k: nat, metadata: nat, c: Row)
    requires WellFormed(rows, metadata) && k <= metadata && EmptyShown(rows, k) && c.visible
    ensures WellFormed(rows[k := c], metadata)
  {
    VisibleCountUpdate(rows, k, c, metadata + 1);
  }

  lemma FillNewShape(rows: Rows, metadata: nat, c: Row)
    requires WellFormed(rows, metadata) && c.visible
    ensures WellFormed(rows[metadata + 1 := c], metadata + 1)
  {
    VisibleCountFrame(rows, rows[metadata + 1 := c], metadata + 1);
  }

  /** Without a Cadence row, applying a package raises the discount total by exactly 400.00. */
  lemma CadenceAddsDiscount(rows: Rows, metadata: nat)
    requires WellFormed(rows, metadata) && !ScanRows(rows, metadata + 1).cadence
    ensures DiscountTotal(WithCadence(rows, metadata).0, WithCadence(rows, metadata).1 + 1) ==
      DiscountTotal(rows, metadata + 1) + 400.0
  {
    CadenceAmountValue();
    FilledDiscount(rows, metadata, CadenceRow, 400.0);
  }

  lemma FilledDiscount(rows: Rows, metadata: nat, c: Row, v: real)
    requires WellFormed(rows, metadata) && !ScanRows(rows, metadata + 1).cadence
    requires c.visible && DiscountAmount(c.amt) == Some(v)
    ensures DiscountTotal(Filled(rows, metadata, c).0, Filled(rows, metadata, c).1 + 1) ==
      DiscountTotal(rows, metadata + 1) + v
  {
    var s := ScanRows(rows, metadata + 1);
    ScanRowsCorrect(rows, metadata + 1);
    if s.empty.Some? {
      FillEmpty(rows, s.empty.value, metadata + 1, c, v);
    } else {
      FillNew(rows, metadata + 1, c, v);
    }
  }

  /** Filling an empty shown row below n with c adds c's amount to the total. */
  lemma FillEmpty(rows: Rows, k: nat, n: nat, c: Row, v: real)
    requires k < n && EmptyShown(rows, k) && c.visible && DiscountAmount(c.amt) == Some(v)
    ensures DiscountTotal(rows[k := c], n) == DiscountTotal(rows, n) + v
  {
    EmptyAmountValue();
    assert Contribution(rows, k) == 0.0;
    assert Contribution(rows[k := c], k) == v;
    DiscountTotalUpdate(rows, k, c, n);
  }

  /** A new shown row c at id n adds c's amount to the total. */
  lemma FillNew(rows: Rows, n: nat, c: Row, v: real)
    requires c.visible && DiscountAmount(c.amt) == Some(v)
    ensures DiscountTotal(rows[n := c], n + 1) == DiscountTotal(rows, n) + v
  {
    DiscountTotalFrame(rows, rows[n := c], n);
  }

  lemma CadenceAmountValue()
    ensures DiscountAmount(CadenceAmt) == Some(400.0)
  {
    CadenceClean();
    CadenceParse();
  }

  lemma CadenceClean()
    ensures Strip(StripCurrency(CadenceAmt)) == CadenceAmt
  {
    CadenceNoDollar();
    CadenceNoComma();
    StripUnchanged(CadenceAmt);
  }

  lemma CadenceNoDollar()
    ensures Remove(CadenceAmt, '$') == CadenceAmt
  {
    RemoveAbsent(CadenceAmt, '$');
  }

  lemma CadenceNoComma()
    ensures Remove(CadenceAmt, ',') == CadenceAmt
  {
    RemoveAbsent(CadenceAmt, ',');
  }

  lemma CadenceParse()
    ensures ParseFloat(CadenceAmt) == Some(400.0)
  {
    StripUnchanged(CadenceAmt);
    IndexOfFirst(CadenceAmt, '.', 3);
    CadenceDigits();
  }

  lemma CadenceDigits()
    ensures CadenceAmt[..3] == "400" && CadenceAmt[4..] == "00"
    ensures AllDigits("400") && AllDigits("00")
    ensures DigitsValue("400") == 400 && DigitsValue("00") == 0
  {
    assert "400"[..2] == "40" && "40"[..1] == "4" && "00"[..1] == "0";
  }

  lemma {:induction false} IndexOfFirst(s: string, c: char, i: nat)
    requires i < |s| && s[i] == c && forall j :: 0 <= j < i ==> s[j] != c
    ensures IndexOf(s, c) == i
  {
    if i > 0 {
      IndexOfFirst(s[1..], c, i - 1);
    }
  }

  lemma EmptyAmountValue()
    ensures DiscountAmount("") == Some(0.0)
  {
  }

  /** Once a Cadence row exists, applying another package adds none. */
  lemma WithCadenceIdempotent(rows: Rows, metadata: nat)
    requires WellFormed(rows, metadata)
    ensures WithCadence(WithCadence(rows, metadata).0, WithCadence(rows, metadata).1) == WithCadence(rows, metadata)
  {
    WithCadenceEnsures(rows, metadata);
  }
}
