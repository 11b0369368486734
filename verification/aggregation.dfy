/** Turning the simulated plants into results: the energy-profile table with two
    columns per plant and two fleet columns, the three-row summary table, and the
    result structure read back out of both tables by column label.

    A column is identified by a `ColumnKey`; `Label` gives the text the source
    uses as the column's name. `LabelInjective` shows that different keys have
    different labels, so comparing keys is comparing labels. */
module Aggregation {
  import opened Wrappers
  import opened Text
  import opened Series
  import opened Floats
  import opened PyValue

  /** What the report needs of one simulated plant: its energy profile, its module
      area and the power the summary divides by. */
  datatype PlantOutcome = PlantOutcome(energy: seq<real>, area: real, kwp: real)

  /** The plant's profile per square metre. */
  function AreaProfile(p: PlantOutcome): seq<Num> {
    QuotEach(p.energy, p.area)
  }

  /** The plant's profile per square metre can be formed: dividing a non-empty
      profile by a zero area raises. */
  predicate AreaDivisible(p: PlantOutcome) {
    p.area != 0.0 || |p.energy| == 0
  }

  // ---------------------------------------------------------------------------
  // Column labels
  // ---------------------------------------------------------------------------

  const PlantPrefix := "PV-Anlage "
  /** "Area-specific", the leading word of the area-specific labels. */
  const AreaSpecific := "Flächenspezifisches "
  const ProfileKind := "Energieprofile [kWh]"
  const AreaKind := AreaSpecific + "Energieprofil [kWh/m^2]"
  const AllLabel := "PV-Energieprofil aller Anlagen [kWh]"
  const AllAreaLabel := AreaSpecific + "PV-Energieprofil aller Anlagen [kWh/m^2]"
  const DescriptionLabel := "Beschriebener Wert"
  const ResultLabel := "Ergebnis aller PV-Anlagen"
  const Descriptions := ["Jahressumme Energieertrag [kWh]", "Leistungsspezifischer Jahresertrag [kWh/kWp]",
                         "Flächenspezifischer Jahresertrag [kWh/m^2]"]

  /** The columns of the two tables. */
  datatype ColumnKey =
    | PlantProfile(plant: nat)
    | PlantAreaProfile(plant: nat)
    | FleetProfileColumn
    | FleetAreaProfileColumn
    | Description
    | PlantSummaryColumn(plant: nat)
    | FleetSummaryColumn

  /** `f"PV-Anlage {i}"`. */
  function PlantLabel(i: nat): string {
    PlantPrefix + NatDigits(i)
  }

  /** The column name the source uses for each key. */
  function Label(k: ColumnKey): string {
    match k
    case PlantProfile(i) => PlantLabel(i) + ": " + ProfileKind
    case PlantAreaProfile(i) => PlantLabel(i) + ": " + AreaKind
    case FleetProfileColumn => AllLabel
    case FleetAreaProfileColumn => AllAreaLabel
    case Description => DescriptionLabel
    case PlantSummaryColumn(i) => PlantLabel(i)
    case FleetSummaryColumn => ResultLabel
  }

  /** The text after the plant number of a per-plant label. */
  function Suffix(k: ColumnKey): string
    requires k.PlantProfile? || k.PlantAreaProfile? || k.PlantSummaryColumn?
  {
    match k
    case PlantProfile(_) => ": " + ProfileKind
    case PlantAreaProfile(_) => ": " + AreaKind
    case PlantSummaryColumn(_) => ""
  }

  lemma PlantPrefixFacts()
    ensures NoDigits(PlantPrefix) && PlantPrefix[0] == 'P'
  {
  }

  lemma FixedLabelFacts()
    ensures NoDigits(AllLabel) && AllLabel[0] == 'P' && AllAreaLabel[0] == 'F'
    ensures ResultLabel[0] == 'E' && DescriptionLabel[0] == 'B'
    ensures |ProfileKind| != |AreaKind|
  {
  }

  /** A per-plant label is the plant label followed by its suffix, which does not
      start with a digit. */
  lemma PerPlantLabel(k: ColumnKey)
    requires k.PlantProfile? || k.PlantAreaProfile? || k.PlantSummaryColumn?
    ensures Label(k) == PlantLabel(k.plant) + Suffix(k)
    ensures |Suffix(k)| == 0 || Suffix(k)[0] == ':'
    ensures FirstDigitRun(Label(k)) == Some(k.plant)
    ensures Label(k)[0] == 'P'
  {
    match k {
      case PlantProfile(i) => AppendAssociative(PlantLabel(i), ": ", ProfileKind);
      case PlantAreaProfile(i) => AppendAssociative(PlantLabel(i), ": ", AreaKind);
      case PlantSummaryColumn(i) => assert PlantLabel(i) + "" == PlantLabel(i);
    }
    PlantPrefixFacts();
    FirstDigitRunOf(PlantPrefix, NatDigits(k.plant), Suffix(k));
  }

  /** Two per-plant labels are equal only for the same plant and the same suffix. */
  lemma PerPlantLabelInjective(k1: ColumnKey, k2: ColumnKey)
    requires k1.PlantProfile? || k1.PlantAreaProfile? || k1.PlantSummaryColumn?
    requires k2.PlantProfile? || k2.PlantAreaProfile? || k2.PlantSummaryColumn?
    requires Label(k1) == Label(k2)
    ensures k1 == k2
  {
    PerPlantLabel(k1);
    PerPlantLabel(k2);
    var s := PlantLabel(k1.plant);
    assert (s + Suffix(k1))[|s|..] == Suffix(k1);
    assert (s + Suffix(k2))[|s|..] == Suffix(k2);
    FixedLabelFacts();
  }

  /** Different columns have different names. */
  lemma LabelInjective(k1: ColumnKey, k2: ColumnKey)
    ensures Label(k1) == Label(k2) ==> k1 == k2
  {
    FixedLabelFacts();
    if Label(k1) == Label(k2) {
      if k1.PlantProfile? || k1.PlantAreaProfile? || k1.PlantSummaryColumn? {
        PerPlantLabel(k1);
        if k2.PlantProfile? || k2.PlantAreaProfile? || k2.PlantSummaryColumn? {
          PerPlantLabelInjective(k1, k2);
        }
      } else if k2.PlantProfile? || k2.PlantAreaProfile? || k2.PlantSummaryColumn? {
        PerPlantLabel(k2);
      }
    }
  }

  // ---------------------------------------------------------------------------
  // Tables
  // ---------------------------------------------------------------------------

  /** A named column of a table. */
  datatype Column = Column(key: ColumnKey, values: seq<Num>)

  /** Position of the first column with the given key. */
  function FindColumn(frame: seq<Column>, key: ColumnKey): (r: Option<nat>)
    ensures r.None? <==> forall j :: 0 <= j < |frame| ==> frame[j].key != key
    ensures r.Some? ==> (r.value < |frame| && frame[r.value].key == key
      && forall j :: 0 <= j < r.value ==> frame[j].key != key)
  {
    if |frame| == 0 then None
    else if frame[0].key == key then Some(0)
    else
      var rest := FindColumn(frame[1..], key);
      assert forall j :: 1 <= j < |frame| ==> frame[j] == frame[1..][j - 1];
      if rest.None? then None else Some(rest.value + 1)
  }

  /** `frame[name] = values`: replaces the column of that name, or appends it. */
  function Assign(frame: seq<Column>, c: Column): (r: seq<Column>)
    ensures (forall j :: 0 <= j < |frame| ==> frame[j].key != c.key) ==> r == frame + [c]
    ensures (exists j :: 0 <= j < |frame| && frame[j].key == c.key) ==>
      |r| == |frame| && c in r && forall j :: 0 <= j < |frame| && frame[j].key != c.key ==> r[j] == frame[j]
  {
    match FindColumn(frame, c.key)
    case None => frame + [c]
    case Some(j) =>
      assert frame[j := c][j] == c;
      frame[j := c]
  }

  /** `frame[name]`. */
  function Lookup(frame: seq<Column>, key: ColumnKey): (r: Result<seq<Num>, PyError>)
    ensures r.Failure? <==> forall j :: 0 <= j < |frame| ==> frame[j].key != key
    ensures r.Failure? ==> r.error == KeyError(Label(key))
    ensures forall j :: (0 <= j < |frame| && frame[j].key == key
      && (forall k :: 0 <= k < |frame| && k != j ==> frame[k].key != key)) ==> r == Success(frame[j].values)
  {
    match FindColumn(frame, key)
    case None => Failure(KeyError(Label(key)))
    case Some(j) => Success(frame[j].values)
  }

  /** `xs[i]` on a Python list. */
  function At<T>(xs: seq<T>, i: nat): (r: Result<T, PyError>)
    ensures r.Success? <==> i < |xs|
    ensures r.Success? ==> r.value == xs[i]
    ensures r.Failure? ==> r.error == IndexError
  {
    if i < |xs| then Success(xs[i]) else Failure(IndexError)
  }

  // ---------------------------------------------------------------------------
  // The energy-profile table
  // ---------------------------------------------------------------------------

  /** How the fleet's area-specific profile is formed: the current pipeline divides
      the fleet profile by the total area; the legacy one averages the plants'
      area-specific profiles. */
  datatype FleetAreaRule = ByTotalArea | MeanOfPlants

  function Energies(plants: seq<PlantOutcome>): (t: seq<seq<real>>)
    ensures |t| == |plants| && forall i :: 0 <= i < |plants| ==> t[i] == plants[i].energy
  {
    seq(|plants|, i requires 0 <= i < |plants| => plants[i].energy)
  }

  function Areas(plants: seq<PlantOutcome>): (a: seq<real>)
    ensures |a| == |plants| && forall i :: 0 <= i < |plants| ==> a[i] == plants[i].area
  {
    seq(|plants|, i requires 0 <= i < |plants| => plants[i].area)
  }

  function Powers(plants: seq<PlantOutcome>): (k: seq<real>)
    ensures |k| == |plants| && forall i :: 0 <= i < |plants| ==> k[i] == plants[i].kwp
  {
    seq(|plants|, i requires 0 <= i < |plants| => plants[i].kwp)
  }

  /** Number of rows of the table: the profile length, or none without plants. */
  function Rows(plants: seq<PlantOutcome>): nat {
    if |plants| == 0 then 0 else |plants[0].energy|
  }

  /** All profiles have the same length, as they do when they come from one weather table. */
  predicate Aligned(plants: seq<PlantOutcome>) {
    Rectangular(Energies(plants), Rows(plants))
  }

  /** The fleet profile: the row sums over the plants' profiles. */
  function FleetProfile(plants: seq<PlantOutcome>): (f: seq<real>)
    requires Aligned(plants)
    ensures |f| == Rows(plants)
    ensures forall t :: 0 <= t < Rows(plants) ==> f[t] == Sum(Series.Column(Energies(plants), Rows(plants), t))
  {
    var f := ColumnSums(Energies(plants), Rows(plants));
    forall t | 0 <= t < Rows(plants) ensures f[t] == Sum(Series.Column(Energies(plants), Rows(plants), t)) {
      ColumnSumsAt(Energies(plants), Rows(plants), t);
    }
    f
  }

  /** Row `t` of the plants' area-specific profiles. */
  function AreaRow(plants: seq<PlantOutcome>, t: nat): (r: seq<Num>)
    requires Aligned(plants) && t < Rows(plants)
    ensures |r| == |plants| && forall i :: 0 <= i < |plants| ==> r[i] == Quot(plants[i].energy[t], plants[i].area)
  {
    seq(|plants|, i requires 0 <= i < |plants| => Quot(Energies(plants)[i][t], plants[i].area))
  }

  /** The mean of one row of area-specific profiles: pandas' row sum, which
      skips NaN, divided by the number of plants. A NaN entry counts as 0. */
  function RowMean(row: seq<Num>): (m: Num)
    requires |row| > 0
    ensures m.Some?
    ensures (forall i :: 0 <= i < |row| ==> row[i].Some?) ==> m.value * (|row| as real) == NumSum(row).value
  {
    Some(SkipNaNSum(row) / (|row| as real))
  }

  /** A NaN among the area-specific profiles pulls the fleet mean towards 0
      rather than making it NaN. */
  lemma RowMeanSkipsNaN(row: seq<Num>, i: nat)
    requires i < |row| && row[i].None?
    ensures RowMean(row) == RowMean(row[i := Some(0.0)])
  {
    NaNCountsAsZero(row, i);
  }

  /** The fleet's area-specific profile under either rule. */
  function FleetAreaProfile(plants: seq<PlantOutcome>, rule: FleetAreaRule): (f: seq<Num>)
    requires Aligned(plants)
    ensures |f| == Rows(plants)
    ensures rule == ByTotalArea ==> forall t :: 0 <= t < |f| ==> f[t] == Quot(FleetProfile(plants)[t], Sum(Areas(plants)))
    ensures rule == MeanOfPlants ==> forall t :: 0 <= t < |f| ==> f[t] == RowMean(AreaRow(plants, t))
  {
    match rule
    case ByTotalArea => QuotEach(FleetProfile(plants), Sum(Areas(plants)))
    case MeanOfPlants =>
      seq(Rows(plants), t requires 0 <= t < Rows(plants) => RowMean(AreaRow(plants, t)))
  }

  /** The area-specific profile column of plant `i`. It reads the plant's
      `energyProfileArea`, which divides plain floats and so raises for a zero
      area under a non-empty profile. */
  function AreaColumnOf(plants: seq<PlantOutcome>, i: nat): (r: Result<Column, PyError>)
    requires i < |plants|
    ensures r.Success? <==> AreaDivisible(plants[i])
    ensures r.Failure? ==> r.error == ZeroDivisionError
    ensures r.Success? ==> r.value == Column(PlantAreaProfile(i), AreaProfile(plants[i]))
  {
    if AreaDivisible(plants[i]) then Success(Column(PlantAreaProfile(i), AreaProfile(plants[i])))
    else Failure(ZeroDivisionError)
  }

  /** The column holds exactly what dividing the plain floats gives. */
  lemma AreaColumnIsDivision(plants: seq<PlantOutcome>, i: nat)
    requires i < |plants|
    ensures AreaColumnOf(plants, i).Success? <==> DivEach(plants[i].energy, plants[i].area).Success?
    ensures AreaColumnOf(plants, i).Success? ==>
      AreaColumnOf(plants, i).value.values == Present(DivEach(plants[i].energy, plants[i].area).value)
  {
  }

  /** The column at position `j` of the energy table: the profile of plant `j / 2`
      for even `j`, its area-specific profile for odd `j`. */
  function PlantColumn(plants: seq<PlantOutcome>, j: nat): (r: Result<Column, PyError>)
    requires j / 2 < |plants|
    ensures j % 2 == 0 ==> r == Success(Column(PlantProfile(j / 2), Present(plants[j / 2].energy)))
    ensures j % 2 == 1 ==> (r.Success? <==> AreaDivisible(plants[j / 2]))
    ensures j % 2 == 1 && r.Failure? ==> r.error == ZeroDivisionError
    ensures j % 2 == 1 && r.Success? ==> r.value == Column(PlantAreaProfile(j / 2), AreaProfile(plants[j / 2]))
  {
    if j % 2 == 0 then Success(Column(PlantProfile(j / 2), Present(plants[j / 2].energy)))
    else AreaColumnOf(plants, j / 2)
  }

  /** Assigning the column of position `n` to a table holding the columns of
      positions `0 .. n-1` appends it. */
  lemma AppendFresh(plants: seq<PlantOutcome>, f: seq<Column>, n: nat, c: Column)
    requires n / 2 < |plants| && PlantColumn(plants, n) == Success(c)
    requires |f| == n && forall j :: 0 <= j < n ==> PlantColumn(plants, j) == Success(f[j])
    ensures Assign(f, c) == f + [c]
    ensures forall j :: 0 <= j <= n ==> PlantColumn(plants, j) == Success((f + [c])[j])
  {
    forall j | 0 <= j < n ensures f[j].key != c.key {
      assert PlantColumn(plants, j) == Success(f[j]);
    }
    var g := f + [c];
    forall j | 0 <= j <= n ensures PlantColumn(plants, j) == Success(g[j]) {
      if j < n {
        assert g[j] == f[j];
      }
    }
  }

  /** `f` holds the per-plant columns of the first `k` plants, in order. */
  predicate LaidOut(plants: seq<PlantOutcome>, f: seq<Column>, k: nat)
    requires k <= |plants|
  {
    |f| == 2 * k && forall j :: 0 <= j < 2 * k ==> PlantColumn(plants, j) == Success(f[j])
  }

  /** The first `k` plants' area-specific profiles can all be formed. */
  predicate AllDivisible(plants: seq<PlantOutcome>, k: nat)
    requires k <= |plants|
  {
    forall i :: 0 <= i < k ==> AreaDivisible(plants[i])
  }

  /** The per-plant columns of the first `k` plants, in the source's order; a
      plant whose area-specific profile cannot be formed raises. Each loop
      iteration assigns two new labels, which appends the two columns
      (`PlantAssignsAppend`). */
  function PlantColumns(plants: seq<PlantOutcome>, k: nat): Result<seq<Column>, PyError>
    requires k <= |plants|
  {
    if k == 0 then Success([])
    else
      var f0 :- PlantColumns(plants, k - 1);
      var c1 :- AreaColumnOf(plants, k - 1);
      Success(f0 + [Column(PlantProfile(k - 1), Present(plants[k - 1].energy)), c1])
  }

  /** The plant loop succeeds exactly when every plant's area-specific profile
      can be formed, raises `ZeroDivisionError` otherwise, and lays the columns
      out two per plant in plant order. */
  lemma {:induction false} PlantColumnsLayout(plants: seq<PlantOutcome>, k: nat)
    requires k <= |plants|
    ensures PlantColumns(plants, k).Success? <==> AllDivisible(plants, k)
    ensures PlantColumns(plants, k).Failure? ==> PlantColumns(plants, k).error == ZeroDivisionError
    ensures PlantColumns(plants, k).Success? ==> LaidOut(plants, PlantColumns(plants, k).value, k)
  {
    if k > 0 {
      PlantColumnsLayout(plants, k - 1);
      var prev := PlantColumns(plants, k - 1);
      var area := AreaColumnOf(plants, k - 1);
      var c0 := Column(PlantProfile(k - 1), Present(plants[k - 1].energy));
      assert PlantColumns(plants, k) ==
        if prev.Failure? then Failure(prev.error)
        else if area.Failure? then Failure(area.error)
        else Success(prev.value + [c0, area.value]);
      assert AllDivisible(plants, k) <==> AllDivisible(plants, k - 1) && AreaDivisible(plants[k - 1]);
      if prev.Success? && area.Success? {
        ColumnsGrow(plants, k, prev.value, c0, area.value);
      }
    }
  }

  /** One more plant appends its two columns, in order, to the columns of the
      plants before it. */
  lemma ColumnsGrow(plants: seq<PlantOutcome>, k: nat, f0: seq<Column>, c0: Column, c1: Column)
    requires 0 < k <= |plants|
    requires c0 == Column(PlantProfile(k - 1), Present(plants[k - 1].energy))
    requires AreaColumnOf(plants, k - 1) == Success(c1)
    requires LaidOut(plants, f0, k - 1)
    ensures LaidOut(plants, f0 + [c0, c1], k)
  {
    PlantAssignsAppend(plants, k, f0, c0, c1);
  }

  /** The loop body's two column assignments: both labels are new, so pandas
      appends the two columns. */
  lemma PlantAssignsAppend(plants: seq<PlantOutcome>, k: nat, f0: seq<Column>, c0: Column, c1: Column)
    requires 0 < k <= |plants|
    requires c0 == Column(PlantProfile(k - 1), Present(plants[k - 1].energy))
    requires AreaColumnOf(plants, k - 1) == Success(c1)
    requires LaidOut(plants, f0, k - 1)
    ensures Assign(Assign(f0, c0), c1) == f0 + [c0, c1]
    ensures LaidOut(plants, f0 + [c0, c1], k)
  {
    assert (2 * k - 2) / 2 == k - 1 && (2 * k - 2) % 2 == 0;
    assert (2 * k - 1) / 2 == k - 1 && (2 * k - 1) % 2 == 1;
    AppendFresh(plants, f0, 2 * k - 2, c0);
    var f1 := Assign(f0, c0);
    AppendFresh(plants, f1, 2 * k - 1, c1);
    assert f1 + [c1] == f0 + [c0, c1];
  }

  /** The energy-profile table: two columns per plant, then the fleet profile and
      the fleet's area-specific profile. A plant with a zero area and a
      non-empty profile raises before the fleet columns are formed. */
  function EnergyFrame(plants: seq<PlantOutcome>, rule: FleetAreaRule): (r: Result<seq<Column>, PyError>)
    requires Aligned(plants)
    ensures r.Success? <==> forall i :: 0 <= i < |plants| ==> AreaDivisible(plants[i])
    ensures r.Failure? ==> r.error == ZeroDivisionError
    ensures r.Success? ==> EnergyLayout(plants, r.value)
    ensures r.Success? ==> r.value[2 * |plants|] == Column(FleetProfileColumn, Present(FleetProfile(plants)))
    ensures r.Success? ==> r.value[2 * |plants| + 1] == Column(FleetAreaProfileColumn, FleetAreaProfile(plants, rule))
  {
    PlantColumnsLayout(plants, |plants|);
    var f0 :- PlantColumns(plants, |plants|);
    var c0 := Column(FleetProfileColumn, Present(FleetProfile(plants)));
    var c1 := Column(FleetAreaProfileColumn, FleetAreaProfile(plants, rule));
    FleetColumnsAppend(plants, f0, c0, c1);
    Success(Assign(Assign(f0, c0), c1))
  }

  /** The two fleet columns are appended after the per-plant columns. */
  lemma FleetColumnsAppend(plants: seq<PlantOutcome>, f0: seq<Column>, c0: Column, c1: Column)
    requires LaidOut(plants, f0, |plants|)
    requires c0.key == FleetProfileColumn && c1.key == FleetAreaProfileColumn
    ensures Assign(Assign(f0, c0), c1) == f0 + [c0, c1]
    ensures EnergyLayout(plants, f0 + [c0, c1])
  {
    PlantKeysNotFleet(plants, f0);
    var f1 := Assign(f0, c0);
    assert f1 == f0 + [c0];
    assert forall j :: 0 <= j < |f1| ==> f1[j].key != c1.key;
    assert Assign(f1, c1) == f1 + [c1] == f0 + [c0, c1];
  }

  /** No per-plant column carries one of the fleet's keys. */
  lemma PlantKeysNotFleet(plants: seq<PlantOutcome>, f: seq<Column>)
    requires |f| <= 2 * |plants| && forall j :: 0 <= j < |f| ==> PlantColumn(plants, j) == Success(f[j])
    ensures forall j :: 0 <= j < |f| ==> f[j].key.PlantProfile? || f[j].key.PlantAreaProfile?
  {
    forall j | 0 <= j < |f|
      ensures f[j].key.PlantProfile? || f[j].key.PlantAreaProfile?
    {
      assert PlantColumn(plants, j) == Success(f[j]);
    }
  }

  /** The columns the source lists for the plants' profiles, area-specific profiles
      and summaries. */
  function ProfileKeys(n: nat): (ks: seq<ColumnKey>)
    ensures |ks| == n && forall i :: 0 <= i < n ==> ks[i] == PlantProfile(i)
  {
    seq(n, i requires 0 <= i < n => PlantProfile(i))
  }

  function AreaKeys(n: nat): (ks: seq<ColumnKey>)
    ensures |ks| == n && forall i :: 0 <= i < n ==> ks[i] == PlantAreaProfile(i)
  {
    seq(n, i requires 0 <= i < n => PlantAreaProfile(i))
  }

  function SummaryKeys(n: nat): (ks: seq<ColumnKey>)
    ensures |ks| == n && forall i :: 0 <= i < n ==> ks[i] == PlantSummaryColumn(i)
  {
    seq(n, i requires 0 <= i < n => PlantSummaryColumn(i))
  }

  // ---------------------------------------------------------------------------
  // The summary table
  // ---------------------------------------------------------------------------

  /** The summary table: the description column, then one column per plant and the
      fleet column, each holding yearly energy, energy per kWp and energy per m^2. */
  datatype SummaryFrame = SummaryFrame(description: seq<string>, columns: seq<Column>)

  /** The three summary values of one plant. */
  function PlantSummary(p: PlantOutcome): seq<Num> {
    var total := Sum(p.energy);
    [Some(total), Quot(total, p.kwp), Quot(total, p.area)]
  }

  /** The fleet's yearly energy: the sum of the fleet profile. */
  function FleetTotal(plants: seq<PlantOutcome>): real
    requires Aligned(plants)
  {
    Sum(FleetProfile(plants))
  }

  /** The three summary values of the fleet. */
  function FleetSummary(plants: seq<PlantOutcome>): seq<Num>
    requires Aligned(plants)
  {
    var total := FleetTotal(plants);
    [Some(total), Quot(total, Sum(Powers(plants))), Quot(total, Sum(Areas(plants)))]
  }

  /** The summary table. Without plants the per-plant sums are taken along an
      axis the empty array does not have, which fails. */
  function Summary(plants: seq<PlantOutcome>): (r: Result<SummaryFrame, PyError>)
    requires Aligned(plants)
    ensures r.Failure? <==> |plants| == 0
    ensures r.Failure? ==> r.error == AxisError
    ensures r.Success? ==> (r.value.description == Descriptions
      && |r.value.columns| == |plants| + 1
      && (forall i :: 0 <= i < |plants| ==> r.value.columns[i] == Column(PlantSummaryColumn(i), PlantSummary(plants[i])))
      && r.value.columns[|plants|] == Column(FleetSummaryColumn, FleetSummary(plants)))
  {
    if |plants| == 0 then Failure(AxisError)
    else
      var perPlant := seq(|plants|, i requires 0 <= i < |plants| => Column(PlantSummaryColumn(i), PlantSummary(plants[i])));
      Success(SummaryFrame(Descriptions, perPlant + [Column(FleetSummaryColumn, FleetSummary(plants))]))
  }

  /** The fleet's yearly energy is the sum of the plants' yearly energies. */
  lemma FleetTotalIsSumOfPlants(plants: seq<PlantOutcome>)
    requires Aligned(plants)
    ensures FleetTotal(plants) == Sum(Totals(Energies(plants)))
  {
    SumColumnSums(Energies(plants), Rows(plants));
  }

  // ---------------------------------------------------------------------------
  // The result structure
  // ---------------------------------------------------------------------------

  /** The results of one plant, or of the whole fleet. */
  datatype PvResult = PvResult(
    energyProfile: seq<Num>,
    energyAreaProfile: seq<Num>,
    sumOfEnergyPerYear: Num,
    workSpecificEnergyPerYear: Num,
    areaSpecificEnergyPerYear: Num)

  datatype PhotovoltaicResultsWrapper = PhotovoltaicResultsWrapper(photovoltaicPlants: seq<PvResult>, summaryOfAllPlants: PvResult)

  datatype SodeleResults = SodeleResults(photovoltaicResults: PhotovoltaicResultsWrapper)

  /** A result from a profile, an area-specific profile and a three-value summary list. */
  function ResultOf(energy: seq<Num>, area: seq<Num>, summary: seq<Num>): (r: Result<PvResult, PyError>)
    ensures r.Success? <==> |summary| >= 3
    ensures r.Success? ==> r.value == PvResult(energy, area, summary[0], summary[1], summary[2])
  {
    var total :- At(summary, 0);
    var perKwp :- At(summary, 1);
    var perArea :- At(summary, 2);
    Success(PvResult(energy, area, total, perKwp, perArea))
  }

  /** The result of plant `i`, read from both tables by the listed names. */
  function PlantResult(frame: seq<Column>, profileKeys: seq<ColumnKey>, areaKeys: seq<ColumnKey>,
                       summary: SummaryFrame, summaryKeys: seq<ColumnKey>, i: nat): Result<PvResult, PyError>
  {
    var profileKey :- At(profileKeys, i);
    var energy :- Lookup(frame, profileKey);
    var areaKey :- At(areaKeys, i);
    var area :- Lookup(frame, areaKey);
    var summaryKey :- At(summaryKeys, i);
    var values :- Lookup(summary.columns, summaryKey);
    ResultOf(energy, area, values)
  }

  /** `[f(0), ..., f(k-1)]` for a computation that may raise: the first
      exception wins. */
  function CollectAll<T>(f: nat -> Result<T, PyError>, k: nat): (r: Result<seq<T>, PyError>)
    ensures r.Success? <==> forall i :: 0 <= i < k ==> f(i).Success?
    ensures r.Success? ==> |r.value| == k && forall i :: 0 <= i < k ==> r.value[i] == f(i).value
  {
    if k == 0 then Success([])
    else
      var front :- CollectAll(f, k - 1);
      var last :- f(k - 1);
      Success(front + [last])
  }

  /** A failed collection raises the exception of the first call that raised;
      every call before it succeeded. */
  lemma {:induction false} CollectAllFirstFailure<T>(f: nat -> Result<T, PyError>, k: nat) returns (i: nat)
    requires CollectAll(f, k).Failure?
    ensures i < k && f(i) == Failure(CollectAll(f, k).error)
    ensures forall j :: 0 <= j < i ==> f(j).Success?
  {
    if CollectAll(f, k - 1).Failure? {
      i := CollectAllFirstFailure(f, k - 1);
    } else {
      i := k - 1;
    }
  }

  /** Collecting succeeds with exactly the values when every call succeeds. */
  lemma {:induction false} CollectAllSucceeds<T>(f: nat -> Result<T, PyError>, expected: seq<T>, k: nat)
    requires k <= |expected|
    requires forall i :: 0 <= i < k ==> f(i) == Success(expected[i])
    ensures CollectAll(f, k) == Success(expected[..k])
  {
    if k > 0 {
      CollectAllSucceeds(f, expected, k - 1);
      assert expected[..k] == expected[..k - 1] + [expected[k - 1]];
    }
  }

  /** The results of plants `0 .. k-1`, stopping at the first failure. */
  function PlantResults(frame: seq<Column>, profileKeys: seq<ColumnKey>, areaKeys: seq<ColumnKey>,
                        summary: SummaryFrame, summaryKeys: seq<ColumnKey>, k: nat): (r: Result<seq<PvResult>, PyError>)
    ensures r.Success? ==> |r.value| == k
  {
    CollectAll(i => PlantResult(frame, profileKeys, areaKeys, summary, summaryKeys, i), k)
  }

  /** The result structure: per plant by name, the fleet from the last two
      columns of the energy table and the last column of the summary. */
  function BuildResults(n: nat, frame: seq<Column>, profileKeys: seq<ColumnKey>, areaKeys: seq<ColumnKey>,
                        summary: SummaryFrame, summaryKeys: seq<ColumnKey>): (r: Result<SodeleResults, PyError>)
    ensures r.Success? ==> |r.value.photovoltaicResults.photovoltaicPlants| == n
    ensures r.Success? ==> (|frame| >= 2 && |summary.columns| >= 1
      && r.value.photovoltaicResults.summaryOfAllPlants.energyProfile == frame[|frame| - 2].values
      && r.value.photovoltaicResults.summaryOfAllPlants.energyAreaProfile == frame[|frame| - 1].values)
  {
    var plants :- PlantResults(frame, profileKeys, areaKeys, summary, summaryKeys, n);
    if |frame| < 2 || |summary.columns| == 0 then Failure(IndexError)
    else
      var fleet :- ResultOf(frame[|frame| - 2].values, frame[|frame| - 1].values, summary.columns[|summary.columns| - 1].values);
      Success(SodeleResults(PhotovoltaicResultsWrapper(plants, fleet)))
  }

  // ---------------------------------------------------------------------------
  // What the report says, independently of the tables
  // ---------------------------------------------------------------------------

  /** The result a plant should get: its own profile, its profile per square
      metre, its yearly energy and that energy per kWp and per m^2. */
  function ExpectedPlant(p: PlantOutcome): PvResult {
    var total := Sum(p.energy);
    PvResult(Present(p.energy), AreaProfile(p), Some(total), Quot(total, p.kwp), Quot(total, p.area))
  }

  /** The result the fleet should get. */
  function ExpectedFleet(plants: seq<PlantOutcome>, rule: FleetAreaRule): PvResult
    requires Aligned(plants)
  {
    var total := FleetTotal(plants);
    PvResult(Present(FleetProfile(plants)), FleetAreaProfile(plants, rule), Some(total),
      Quot(total, Sum(Powers(plants))), Quot(total, Sum(Areas(plants))))
  }

  /** The result structure the report should produce: every plant's expected
      result in order, and the fleet's. */
  function ExpectedResults(plants: seq<PlantOutcome>, rule: FleetAreaRule): SodeleResults
    requires Aligned(plants)
  {
    SodeleResults(PhotovoltaicResultsWrapper(
      seq(|plants|, i requires 0 <= i < |plants| => ExpectedPlant(plants[i])), ExpectedFleet(plants, rule)))
  }

  /** A key carried by exactly one column finds that column. */
  lemma UniqueLookup(frame: seq<Column>, j: nat, key: ColumnKey)
    requires j < |frame| && frame[j].key == key
    requires forall k :: 0 <= k < |frame| && k != j ==> frame[k].key != key
    ensures Lookup(frame, key) == Success(frame[j].values)
  {
  }

  /** The layout of the energy table, as far as reading the results depends on it. */
  predicate EnergyLayout(plants: seq<PlantOutcome>, frame: seq<Column>) {
    && |frame| == 2 * |plants| + 2
    && (forall k :: 0 <= k < 2 * |plants| ==> PlantColumn(plants, k) == Success(frame[k]))
    && frame[2 * |plants|].key == FleetProfileColumn && frame[2 * |plants| + 1].key == FleetAreaProfileColumn
  }

  /** The layout of the summary's value columns. */
  predicate SummaryLayout(plants: seq<PlantOutcome>, columns: seq<Column>) {
    && |columns| == |plants| + 1
    && (forall k :: 0 <= k < |plants| ==> columns[k] == Column(PlantSummaryColumn(k), PlantSummary(plants[k])))
    && columns[|plants|].key == FleetSummaryColumn
  }

  /** In a table laid out like the energy table, plant `i`'s profile is found. */
  lemma LookupProfile(plants: seq<PlantOutcome>, frame: seq<Column>, i: nat)
    requires EnergyLayout(plants, frame) && i < |plants|
    ensures Lookup(frame, PlantProfile(i)) == Success(Present(plants[i].energy))
  {
    assert PlantColumn(plants, 2 * i) == Success(frame[2 * i]);
    forall k | 0 <= k < |frame| && k != 2 * i ensures frame[k].key != PlantProfile(i) {
      if k < 2 * |plants| {
        assert PlantColumn(plants, k) == Success(frame[k]);
      }
    }
    UniqueLookup(frame, 2 * i, PlantProfile(i));
  }

  /** In a table laid out like the energy table, plant `i`'s area-specific profile is found. */
  lemma LookupAreaProfile(plants: seq<PlantOutcome>, frame: seq<Column>, i: nat)
    requires EnergyLayout(plants, frame) && i < |plants|
    ensures Lookup(frame, PlantAreaProfile(i)) == Success(AreaProfile(plants[i]))
  {
    assert PlantColumn(plants, 2 * i + 1) == Success(frame[2 * i + 1]);
    forall k | 0 <= k < |frame| && k != 2 * i + 1 ensures frame[k].key != PlantAreaProfile(i) {
      if k < 2 * |plants| {
        assert PlantColumn(plants, k) == Success(frame[k]);
      }
    }
    UniqueLookup(frame, 2 * i + 1, PlantAreaProfile(i));
  }

  /** Plant `i`'s lookups in the two tables find its own columns. */
  lemma PlantResultFaithful(plants: seq<PlantOutcome>, frame: seq<Column>, summary: SummaryFrame, i: nat)
    requires EnergyLayout(plants, frame) && SummaryLayout(plants, summary.columns) && i < |plants|
    ensures PlantResult(frame, ProfileKeys(|plants|), AreaKeys(|plants|), summary, SummaryKeys(|plants|), i)
      == Success(ExpectedPlant(plants[i]))
  {
    var n := |plants|;
    LookupProfile(plants, frame, i);
    LookupAreaProfile(plants, frame, i);
    LookupSummary(plants, summary.columns, i);
    PlantResultReads(frame, ProfileKeys(n), AreaKeys(n), summary, SummaryKeys(n), i,
      Present(plants[i].energy), AreaProfile(plants[i]), PlantSummary(plants[i]));
  }

  /** In value columns laid out like the summary, plant `i`'s summary is found. */
  lemma LookupSummary(plants: seq<PlantOutcome>, columns: seq<Column>, i: nat)
    requires SummaryLayout(plants, columns) && i < |plants|
    ensures Lookup(columns, PlantSummaryColumn(i)) == Success(PlantSummary(plants[i]))
  {
    UniqueLookup(columns, i, PlantSummaryColumn(i));
  }

  /** Once the three lookups of plant `i` succeed, its result is built from what they found. */
  lemma PlantResultReads(frame: seq<Column>, profileKeys: seq<ColumnKey>, areaKeys: seq<ColumnKey>,
                         summary: SummaryFrame, summaryKeys: seq<ColumnKey>, i: nat,
                         energy: seq<Num>, area: seq<Num>, values: seq<Num>)
    requires i < |profileKeys| && i < |areaKeys| && i < |summaryKeys|
    requires Lookup(frame, profileKeys[i]) == Success(energy) && Lookup(frame, areaKeys[i]) == Success(area)
    requires Lookup(summary.columns, summaryKeys[i]) == Success(values)
    ensures PlantResult(frame, profileKeys, areaKeys, summary, summaryKeys, i) == ResultOf(energy, area, values)
  {
  }

  /** Every plant's result, read from tables laid out as the simulation writes them. */
  lemma PlantResultsFaithful(plants: seq<PlantOutcome>, frame: seq<Column>, summary: SummaryFrame)
    requires EnergyLayout(plants, frame) && SummaryLayout(plants, summary.columns)
    ensures PlantResults(frame, ProfileKeys(|plants|), AreaKeys(|plants|), summary, SummaryKeys(|plants|), |plants|)
      == Success(seq(|plants|, i requires 0 <= i < |plants| => ExpectedPlant(plants[i])))
  {
    var n := |plants|;
    var expected := seq(n, i requires 0 <= i < n => ExpectedPlant(plants[i]));
    var f := (i: nat) => PlantResult(frame, ProfileKeys(n), AreaKeys(n), summary, SummaryKeys(n), i);
    forall i | 0 <= i < n
      ensures f(i) == Success(expected[i])
    {
      PlantResultFaithful(plants, frame, summary, i);
    }
    CollectAllSucceeds(f, expected, n);
    assert expected[..n] == expected;
  }

  /** Reading the results back out of the two tables gives every plant its own
      figures and the fleet its totals: the tables lose nothing. */
  lemma ResultsFaithful(plants: seq<PlantOutcome>, rule: FleetAreaRule)
    requires Aligned(plants) && |plants| > 0
    requires forall i :: 0 <= i < |plants| ==> AreaDivisible(plants[i])
    ensures EnergyFrame(plants, rule).Success? && Summary(plants).Success?
    ensures BuildResults(|plants|, EnergyFrame(plants, rule).value, ProfileKeys(|plants|), AreaKeys(|plants|),
      Summary(plants).value, SummaryKeys(|plants|))
      == Success(ExpectedResults(plants, rule))
  {
    var n := |plants|;
    var frame := EnergyFrame(plants, rule).value;
    var summary := Summary(plants).value;
    assert EnergyLayout(plants, frame);
    assert SummaryLayout(plants, summary.columns);
    var fleet := ExpectedFleet(plants, rule);
    assert ResultOf(frame[2 * n + 0].values, frame[2 * n + 1].values, summary.columns[n].values) == Success(fleet) by {
      assert frame[2 * n].values == Present(FleetProfile(plants));
      assert frame[2 * n + 1].values == FleetAreaProfile(plants, rule);
      assert summary.columns[n].values == FleetSummary(plants);
    }
    BuildResultsOfLayout(plants, frame, summary, fleet);
  }

  /** Tables laid out as the simulation writes them give every plant its
      expected result; the fleet gets what its columns hold. */
  lemma BuildResultsOfLayout(plants: seq<PlantOutcome>, frame: seq<Column>, summary: SummaryFrame, fleet: PvResult)
    requires EnergyLayout(plants, frame) && SummaryLayout(plants, summary.columns)
    requires ResultOf(frame[2 * |plants| + 0].values, frame[2 * |plants| + 1].values, summary.columns[|plants|].values)
      == Success(fleet)
    ensures BuildResults(|plants|, frame, ProfileKeys(|plants|), AreaKeys(|plants|), summary, SummaryKeys(|plants|))
      == Success(SodeleResults(PhotovoltaicResultsWrapper(
           seq(|plants|, i requires 0 <= i < |plants| => ExpectedPlant(plants[i])), fleet)))
  {
    PlantResultsFaithful(plants, frame, summary);
    assert |frame| - 2 == 2 * |plants| + 0 && |summary.columns| - 1 == |plants|;
  }

  // ---------------------------------------------------------------------------
  // The two fleet area rules
  // ---------------------------------------------------------------------------

  /** When every plant has the same non-zero area `a`, averaging the plants'
      area-specific profiles gives what dividing the fleet profile by the total
      area gives. */
  lemma RulesOnEqualAreas(plants: seq<PlantOutcome>, a: real, t: nat)
    requires Aligned(plants) && |plants| > 0 && t < Rows(plants)
    requires a != 0.0 && forall i :: 0 <= i < |plants| ==> plants[i].area == a
    ensures FleetAreaProfile(plants, MeanOfPlants)[t].Some? && FleetAreaProfile(plants, ByTotalArea)[t].Some?
    ensures FleetAreaProfile(plants, MeanOfPlants)[t] == FleetAreaProfile(plants, ByTotalArea)[t]
  {
    var q, mean := MeanRuleOnEqualAreas(plants, a, t);
    var byTotal := TotalRuleOnEqualAreas(plants, a, t);
    ShareOfShare(Sum(Series.Column(Energies(plants), Rows(plants), t)), a, |plants| as real, q, mean, byTotal);
  }

  /** Under the mean rule with equal areas `a`, row `t` is the row sum divided
      by `a` and then by the number of plants. */
  lemma MeanRuleOnEqualAreas(plants: seq<PlantOutcome>, a: real, t: nat) returns (q: real, mean: real)
    requires Aligned(plants) && |plants| > 0 && t < Rows(plants)
    requires a != 0.0 && forall i :: 0 <= i < |plants| ==> plants[i].area == a
    ensures q * a == Sum(Series.Column(Energies(plants), Rows(plants), t))
    ensures mean * (|plants| as real) == q
    ensures FleetAreaProfile(plants, MeanOfPlants)[t] == Some(mean)
  {
    var step := Series.Column(Energies(plants), Rows(plants), t);
    var row := AreaRow(plants, t);
    assert row == QuotEach(step, a);
    QuotEachSum(step, a);
    q := Quot(Sum(step), a).value;
    mean := Quot(q, |plants| as real).value;
    assert RowMean(row) == Some(mean);
  }

  /** Under the total-area rule with equal areas `a`, row `t` is the row sum
      divided by the plants' total area `n * a`. */
  lemma TotalRuleOnEqualAreas(plants: seq<PlantOutcome>, a: real, t: nat) returns (b: real)
    requires Aligned(plants) && |plants| > 0 && t < Rows(plants)
    requires a != 0.0 && forall i :: 0 <= i < |plants| ==> plants[i].area == a
    ensures b * ((|plants| as real) * a) == Sum(Series.Column(Energies(plants), Rows(plants), t))
    ensures FleetAreaProfile(plants, ByTotalArea)[t] == Some(b)
  {
    var n := |plants| as real;
    SumConstant(Areas(plants), a);
    var total := Sum(Areas(plants));
    assert total == n * a;
    var s := FleetProfile(plants)[t];
    b := Quot(s, total).value;
  }

  /** Dividing by `a` and then by `n` is dividing by `n * a`. */
  lemma ShareOfShare(s: real, a: real, n: real, q: real, m: real, b: real)
    requires a != 0.0 && n != 0.0
    requires q * a == s && m * n == q && b * (n * a) == s
    ensures m == b
  {
    calc {
      m * (n * a);
      (m * n) * a;
      s;
      b * (n * a);
    }
    Cancel(m, b, n * a);
  }

  lemma Cancel(x: real, y: real, c: real)
    requires c != 0.0 && x * c == y * c
    ensures x == y
  {
    assert (x - y) * c == 0.0;
  }

  /** Two plants with one unit of energy each, on areas 1 and 3: the fleet has 2
      units on 4 m^2, i.e. 0.5 per m^2, while the mean of the plants' figures 1
      and 1/3 is 2/3. */
  lemma RulesDifferOnUnequalAreas()
    ensures var plants := [PlantOutcome([1.0], 1.0, 1.0), PlantOutcome([1.0], 3.0, 1.0)];
      && Aligned(plants)
      && FleetAreaProfile(plants, ByTotalArea) == [Some(0.5)]
      && FleetAreaProfile(plants, MeanOfPlants) == [Some(2.0 / 3.0)]
  {
    var plants := [PlantOutcome([1.0], 1.0, 1.0), PlantOutcome([1.0], 3.0, 1.0)];
    assert Aligned(plants);
    assert Areas(plants) == [1.0, 3.0];
    assert [1.0, 3.0][1..] == [3.0];
    assert Sum([3.0]) == 3.0;
    assert Sum(Areas(plants)) == 4.0;
    var step := Series.Column(Energies(plants), Rows(plants), 0);
    assert step == [1.0, 1.0];
    assert Sum(step) == 2.0;
    assert FleetProfile(plants)[0] == 2.0;
    assert FleetAreaProfile(plants, ByTotalArea)[0] == Quot(2.0, 4.0) == Some(0.5);
    var row := AreaRow(plants, 0);
    assert row == [Some(1.0), Some(1.0 / 3.0)];
    assert row[1..] == [Some(1.0 / 3.0)];
    assert NumSum([Some(1.0 / 3.0)]) == Some(1.0 / 3.0);
    assert NumSum(row) == Some(4.0 / 3.0);
    assert FleetAreaProfile(plants, MeanOfPlants)[0] == Quot(4.0 / 3.0, 2.0) == Some(2.0 / 3.0);
  }
}
