/** The generators of the CEC module and inverter tables (`generatePvLibDatabase`,
    in the current code base and as a script): the library's name index becomes
    a leading `Name` column, every header gets its unit from a ';'-separated
    list, and the two tables are written to their CSV files. Loading the
    libraries and writing the files are left to the caller; the transposed
    libraries are given as tables. */
module PvDatabase {
  import opened Wrappers
  import opened Text
  import opened PyValue
  import Database

  /** A column of a table: its header and its cells, one per row. */
  datatype Column = Column(name: string, cells: seq<string>)

  /** A transposed library: one row per entry, labelled by the entry names. */
  datatype Table = Table(index: seq<string>, columns: seq<Column>)

  const NameHeader := "Name"

  /** The units of the module table's columns, in column order. */
  const ModuleUnits := ";;;;;;m2;m;m;;A;V;A;V;A/K;V/K;C;V;A;A;Ohm;Ohm;%;%/K;;;"
  /** The units of the inverter table's columns, in column order. */
  const InverterUnits := "Units;V;W;W;W;V;1/W;1/V;1/V;1/V;W;V;A;V;V;;;"

  // ---------------------------------------------------------------------------
  // Moving the names to the front
  // ---------------------------------------------------------------------------

  /** The headers of the columns. */
  function Names(cols: seq<Column>): (ns: seq<string>)
    ensures |ns| == |cols| && forall i :: 0 <= i < |cols| ==> ns[i] == cols[i].name
  {
    seq(|cols|, i requires 0 <= i < |cols| => cols[i].name)
  }

  /** `df["Name"] = df.index`: a column called `Name` gets the entry names as
      cells where it stands; without one, the column is added at the end. */
  function SetNameColumn(t: Table): (r: seq<Column>)
    ensures Column(NameHeader, t.index) in r
    ensures NameHeader !in Names(t.columns) ==> r == t.columns + [Column(NameHeader, t.index)]
    ensures NameHeader in Names(t.columns) ==> |r| == |t.columns| && forall i :: 0 <= i < |t.columns| ==>
      r[i] == (if t.columns[i].name == NameHeader then Column(NameHeader, t.index) else t.columns[i])
  {
    var cols := t.columns;
    if NameHeader in Names(cols) then
      var r := seq(|cols|, i requires 0 <= i < |cols| => if cols[i].name == NameHeader then Column(NameHeader, t.index) else cols[i]);
      var k :| 0 <= k < |cols| && Names(cols)[k] == NameHeader;
      assert r[k] == Column(NameHeader, t.index);
      r
    else
      cols + [Column(NameHeader, t.index)]
  }

  /** `[col for col in df.columns if col != "Name"]`, with the columns themselves. */
  function Others(cols: seq<Column>): (r: seq<Column>)
    ensures forall c :: c in r <==> c in cols && c.name != NameHeader
    ensures |r| <= |cols|
  {
    if |cols| == 0 then []
    else
      var rest := Others(cols[1..]);
      assert forall c :: c in cols <==> c == cols[0] || c in cols[1..];
      if cols[0].name == NameHeader then rest else [cols[0]] + rest
  }

  /** The filter distributes over concatenation, so it keeps the order of what it keeps. */
  lemma {:induction false} OthersAppend(a: seq<Column>, b: seq<Column>)
    ensures Others(a + b) == Others(a) + Others(b)
  {
    if |a| > 0 {
      assert (a + b)[1..] == a[1..] + b;
      OthersAppend(a[1..], b);
    } else {
      assert a + b == b;
    }
  }

  /** A table without a `Name` column loses nothing to the filter. */
  lemma {:induction false} OthersWithoutName(cols: seq<Column>)
    requires NameHeader !in Names(cols)
    ensures Others(cols) == cols
  {
    if |cols| > 0 {
      assert cols[0].name == Names(cols)[0];
      assert Names(cols[1..]) == Names(cols)[1..];
      OthersWithoutName(cols[1..]);
    }
  }

  /** Replacing the cells of the `Name` columns leaves the filter's result alone. */
  lemma {:induction false} OthersIgnoresNameCells(cols: seq<Column>, index: seq<string>)
    ensures var r := seq(|cols|, i requires 0 <= i < |cols| =>
        if cols[i].name == NameHeader then Column(NameHeader, index) else cols[i]);
      Others(r) == Others(cols)
  {
    var r := seq(|cols|, i requires 0 <= i < |cols| =>
        if cols[i].name == NameHeader then Column(NameHeader, index) else cols[i]);
    if |cols| > 0 {
      var tail := cols[1..];
      var rt := seq(|tail|, i requires 0 <= i < |tail| =>
        if tail[i].name == NameHeader then Column(NameHeader, index) else tail[i]);
      assert r[1..] == rt;
      OthersIgnoresNameCells(tail, index);
    }
  }

  /** Setting the name column does not change the other columns. */
  lemma OthersOfSetName(t: Table)
    ensures Others(SetNameColumn(t)) == Others(t.columns)
    ensures NameHeader !in Names(t.columns) ==> Others(t.columns) == t.columns
  {
    if NameHeader in Names(t.columns) {
      OthersIgnoresNameCells(t.columns, t.index);
    } else {
      OthersAppend(t.columns, [Column(NameHeader, t.index)]);
      assert Others([Column(NameHeader, t.index)]) == [];
      OthersWithoutName(t.columns);
    }
  }

  /** The name column first, then every other column in its original order:
      `df[["Name"] + [col for col in df.columns if col != "Name"]]`. */
  function Reorder(t: Table): (r: seq<Column>)
    ensures |r| >= 1 && r[0] == Column(NameHeader, t.index)
    ensures r[1..] == Others(t.columns)
    ensures NameHeader !in Names(t.columns) ==> r == [Column(NameHeader, t.index)] + t.columns
  {
    OthersOfSetName(t);
    [Column(NameHeader, t.index)] + Others(SetNameColumn(t))
  }

  // ---------------------------------------------------------------------------
  // Unit suffixes
  // ---------------------------------------------------------------------------

  /** `generateName(col, unit)`: the header with its unit in brackets, or the
      header alone for an empty unit. */
  function GenerateName(col: string, unit: string): (r: string)
    ensures unit == "" ==> r == col
    ensures unit != "" ==> |r| == |col| + |unit| + 3 && r[..|col|] == col && r[|r| - 1] == ']'
  {
    if unit != "" then col + " [" + unit + "]" else col
  }

  /** Reading a header back into its name and unit: the text before the first
      " [" and the text between it and a closing ']' at the end. */
  function SplitUnit(name: string): (r: (string, string))
  {
    if '[' !in name then (name, "")
    else
      var k := IndexOf(name, '[');
      if 1 <= k && name[k - 1] == ' ' && k + 2 <= |name| && name[|name| - 1] == ']' then
        (name[..k - 1], name[k + 1..|name| - 1])
      else (name, "")
  }

  /** The first `c` of `a + b` is the first in `b` when `a` has none. */
  lemma {:induction false} IndexOfAfter(a: string, b: string, c: char)
    requires c !in a && c in b
    ensures c in a + b && IndexOf(a + b, c) == |a| + IndexOf(b, c)
  {
    assert (a + b)[|a| + IndexOf(b, c)] == c;
    if |a| > 0 {
      assert (a + b)[1..] == a[1..] + b;
      IndexOfAfter(a[1..], b, c);
    } else {
      assert a + b == b;
    }
  }

  /** A header built from a bracket-free name reads back as that name and unit. */
  lemma UnitRoundTrip(col: string, unit: string)
    requires '[' !in col
    ensures SplitUnit(GenerateName(col, unit)) == (col, unit)
  {
    if unit != "" {
      var name := GenerateName(col, unit);
      var tail := " [" + unit + "]";
      assert name == col + tail;
      assert tail[1] == '[' && tail[0] != '[';
      assert IndexOf(tail, '[') == 1;
      IndexOfAfter(col, tail, '[');
      var k := |col| + 1;
      assert name[..k - 1] == col;
      assert name[k + 1..|name| - 1] == unit;
    }
  }

  /** `df.columns = [generateName(col, unit) for col, unit in zip(df.columns, units.split(";"))]`.
      The comprehension pairs headers and units by position and stops at the
      shorter list; pandas accepts the new headers only if there is one per
      column, so fewer units than columns raise. */
  function Rename(cols: seq<Column>, units: string): (r: Result<seq<Column>, PyError>)
    ensures r.Success? <==> |cols| <= |Split(units, ';')|
    ensures r.Failure? ==> r.error == ValueError("Length mismatch")
    ensures r.Success? ==> |r.value| == |cols| && forall i :: 0 <= i < |cols| ==>
      r.value[i].cells == cols[i].cells && r.value[i].name == GenerateName(cols[i].name, Split(units, ';')[i])
  {
    var parts := Split(units, ';');
    var n := if |cols| <= |parts| then |cols| else |parts|;
    var headers := seq(n, i requires 0 <= i < n => GenerateName(cols[i].name, parts[i]));
    if |headers| != |cols| then Failure(ValueError("Length mismatch"))
    else Success(seq(|cols|, i requires 0 <= i < |cols| => Column(headers[i], cols[i].cells)))
  }

  /** Renaming loses nothing: every header of a bracket-free table reads back
      as the original header and the unit at its position. */
  lemma RenameRecoverable(cols: seq<Column>, units: string)
    requires forall i :: 0 <= i < |cols| ==> '[' !in cols[i].name
    requires Rename(cols, units).Success?
    ensures forall i :: 0 <= i < |cols| ==>
      SplitUnit(Rename(cols, units).value[i].name) == (cols[i].name, Split(units, ';')[i])
  {
    forall i | 0 <= i < |cols|
      ensures SplitUnit(Rename(cols, units).value[i].name) == (cols[i].name, Split(units, ';')[i])
    {
      UnitRoundTrip(cols[i].name, Split(units, ';')[i]);
    }
  }

  /** The whole table transformation: names to the front, then the units. */
  function Generate(t: Table, units: string): (r: Result<seq<Column>, PyError>)
    ensures r.Success? <==> |Others(t.columns)| + 1 <= |Split(units, ';')|
    ensures r.Success? ==> (|r.value| == |Others(t.columns)| + 1
      && r.value[0].cells == t.index && r.value[0].name == GenerateName(NameHeader, Split(units, ';')[0])
      && forall i :: 1 <= i < |r.value| ==>
           r.value[i].cells == Others(t.columns)[i - 1].cells
           && r.value[i].name == GenerateName(Others(t.columns)[i - 1].name, Split(units, ';')[i]))
  {
    Rename(Reorder(t), units)
  }

  // ---------------------------------------------------------------------------
  // The output files
  // ---------------------------------------------------------------------------

  /** What a path names on disk. */
  datatype PathState = Missing | IsFile | IsDirectory

  /** One CSV file written: its path, its field separator and its columns. */
  datatype CsvWrite = CsvWrite(path: string, separator: char, columns: seq<Column>)

  /** What the generator does to the disk: whether it creates the base
      directory, and the files it writes in order. */
  datatype Plan = Plan(makeDirectory: bool, writes: seq<CsvWrite>)

  /** `Path(base) / name`. */
  function Child(base: string, name: string): (p: string)
    ensures |base| > 0 && base[|base| - 1] != '/' ==> p == base + "/" + name
  {
    if |base| > 0 && base[|base| - 1] != '/' then base + "/" + name else base + name
  }

  /** `generatePvLibDatabase(basePath)`: both tables are transformed, then a
      base path that is not a directory raises. The test for a missing directory
      comes after that one, so it never holds and the directory is never created.
      The files are written with ',' as separator. */
  function GenerateInto(base: string, state: PathState, modules: Table, inverters: Table): (r: Result<Plan, PyError>)
    ensures Generate(modules, ModuleUnits).Failure? ==> r == Failure(Generate(modules, ModuleUnits).error)
    ensures r.Success? <==>
      Generate(modules, ModuleUnits).Success? && Generate(inverters, InverterUnits).Success? && state == IsDirectory
    ensures Generate(modules, ModuleUnits).Success? && Generate(inverters, InverterUnits).Success? && state != IsDirectory ==>
      r == Failure(Unsupported(VStr(base)))
    ensures r.Success? ==> !r.value.makeDirectory
    ensures r.Success? ==> r.value.writes == [
      CsvWrite(Child(base, Database.CecModules), ',', Generate(modules, ModuleUnits).value),
      CsvWrite(Child(base, Database.CecInverters), ',', Generate(inverters, InverterUnits).value)]
  {
    var m :- Generate(modules, ModuleUnits);
    var i :- Generate(inverters, InverterUnits);
    if state != IsDirectory then Failure(Unsupported(VStr(base)))
    else
      var create := state == Missing;
      Success(Plan(create, [CsvWrite(Child(base, Database.CecModules), ',', m),
                            CsvWrite(Child(base, Database.CecInverters), ',', i)]))
  }

  /** The base path the module's own entry point passes. */
  const DefaultBase := "./src/sodele/res/PV_Database"

  /** Run from its entry point, the generator writes exactly the two files the
      current code reads for database type 2. */
  lemma EntryPointWritesTypeTwoFiles(modules: Table, inverters: Table)
    requires GenerateInto(DefaultBase, IsDirectory, modules, inverters).Success?
    ensures var w := GenerateInto(DefaultBase, IsDirectory, modules, inverters).value.writes;
      (w[0].path, w[1].path) == Database.GetDatabasePaths(2).value
  {
    var w := GenerateInto(DefaultBase, IsDirectory, modules, inverters).value.writes;
    assert w[0].path == Child(DefaultBase, Database.CecModules);
    assert w[1].path == Child(DefaultBase, Database.CecInverters);
    ChildOfDefault(Database.CecModules);
    ChildOfDefault(Database.CecInverters);
  }

  /** Below the entry point's base path, a file lands in the source resource root. */
  lemma ChildOfDefault(name: string)
    ensures Child(DefaultBase, name) == Database.SrcRoot + name
  {
    assert DefaultBase + "/" == Database.SrcRoot;
    Text.AppendAssociative(DefaultBase, "/", name);
  }

  /** The script's version: the same tables, written with ';' as separator to
      two fixed paths below the root package's resources, with no directory test. */
  function GenerateFixed(modules: Table, inverters: Table): (r: Result<seq<CsvWrite>, PyError>)
    ensures r.Success? <==> Generate(modules, ModuleUnits).Success? && Generate(inverters, InverterUnits).Success?
    ensures r.Success? ==> (|r.value| == 2
      && r.value[0] == CsvWrite(Database.RootRoot + Database.CecModules, ';', Generate(modules, ModuleUnits).value)
      && r.value[1] == CsvWrite(Database.RootRoot + Database.CecInverters, ';', Generate(inverters, InverterUnits).value))
  {
    var m :- Generate(modules, ModuleUnits);
    var i :- Generate(inverters, InverterUnits);
    Success([CsvWrite(Database.RootRoot + Database.CecModules, ';', m),
             CsvWrite(Database.RootRoot + Database.CecInverters, ';', i)])
  }

  /** The two generators produce the same tables; they differ only in where
      they write and with which separator. */
  lemma GeneratorsAgree(base: string, modules: Table, inverters: Table)
    requires GenerateInto(base, IsDirectory, modules, inverters).Success?
    ensures GenerateFixed(modules, inverters).Success?
    ensures var a := GenerateInto(base, IsDirectory, modules, inverters).value.writes;
      var b := GenerateFixed(modules, inverters).value;
      && a[0].columns == b[0].columns && a[1].columns == b[1].columns
      && a[0].separator == ',' && b[0].separator == ';'
  {
    var m := Generate(modules, ModuleUnits);
    var i := Generate(inverters, InverterUnits);
    assert m.Success? && i.Success?;
    var a := GenerateInto(base, IsDirectory, modules, inverters).value.writes;
    assert a[0].columns == m.value && a[1].columns == i.value;
  }

  /** The script's inverter file is the one the root package's configuration
      reads for database type 1. */
  lemma ScriptInvertersAreTypeOneInverters()
    ensures Database.ObjectDatabasePaths(Database.RootRoot, VInt(1)).value.1
      == Database.RootRoot + Database.CecInverters
  {
    assert NumEq(VInt(1), 1);
  }
}
