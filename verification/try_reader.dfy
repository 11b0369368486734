/** Reading a TRY `.dat` file (`read_in_dat_file`) and the fixed metadata of the
    EPW reader (`read_in_epw_file`). The data block arrives already tokenised:
    one row of numbers per record, in the order of the header's column names. */
module TryReader {
  import opened Wrappers
  import opened Text
  import opened Series
  import opened Calendar
  import opened Weather
  import opened TryHeader

  /** The coordinate conversion from the file's projection to WGS 84:
      (Hochwert, Rechtswert) to (latitude, longitude). */
  type Projection = (nat, nat) -> (real, real)

  predicate Distinct(names: seq<string>) {
    forall i, j :: 0 <= i < j < |names| ==> names[i] != names[j]
  }

  /** The position of `name` among the column names. */
  function Find(names: seq<string>, name: string): (k: nat)
    requires name in names
    ensures k < |names| && names[k] == name
    ensures forall j :: 0 <= j < k ==> names[j] != name
  {
    if names[0] == name then 0 else 1 + Find(names[1..], name)
  }

  /** The column called `name` of a tokenised table (`dat_data[name]`). */
  function Named(table: seq<seq<real>>, names: seq<string>, name: string): (c: seq<real>)
    requires Rectangular(table, |names|) && name in names
    ensures |c| == |table|
    ensures forall i :: 0 <= i < |table| ==> c[i] == table[i][Find(names, name)]
  {
    Column(table, |names|, Find(names, name))
  }

  /** `dat_data[name]`, which raises `KeyError` for an unknown column. */
  function Lookup(table: seq<seq<real>>, names: seq<string>, name: string): (r: Result<seq<real>, ReadError>)
    requires Rectangular(table, |names|)
    ensures r.Success? <==> name in names
    ensures r.Success? ==> r.value == Named(table, names, name)
    ensures r.Failure? ==> r.error == MissingKey(name)
  {
    if name in names then Success(Named(table, names, name)) else Failure(MissingKey(name))
  }

  /** Minutes since 2015-01-01 00:00 of each hourly record. */
  function Stamps(): (ts: seq<int>)
    ensures |ts| == HoursPerYear
    ensures forall i :: 0 <= i < |ts| ==> ts[i] == MinutesPerHour * i
  {
    seq(HoursPerYear, i => MinutesPerHour * i)
  }

  function Months(): (ms: seq<int>)
    ensures |ms| == HoursPerYear
    ensures forall i :: 0 <= i < |ms| ==> ms[i] == DateOfHour(i).month
  {
    seq(HoursPerYear, i requires 0 <= i < HoursPerYear => DateOfHour(i).month)
  }

  function Days(): (ds: seq<int>)
    ensures |ds| == HoursPerYear
    ensures forall i :: 0 <= i < |ds| ==> ds[i] == DateOfHour(i).day
  {
    seq(HoursPerYear, i requires 0 <= i < HoursPerYear => DateOfHour(i).day)
  }

  function Hours(): (hs: seq<int>)
    ensures |hs| == HoursPerYear
    ensures forall i :: 0 <= i < |hs| ==> hs[i] == i % 24
  {
    seq(HoursPerYear, i requires 0 <= i < HoursPerYear => DateOfHour(i).hour)
  }

  /** The columns the canonical fields are read from, in the order they are read
      (the "date" check falls between "B" and "WR"). */
  predicate HasRequiredColumns(names: seq<string>) {
    && "p" in names && "t" in names && "RF" in names && "WG" in names && "D" in names
    && "B" in names && "WR" in names && "N" in names && "x" in names
  }

  /** The canonical fields of a complete table. A raw column literally named
      "dhi" or "ghi" overwrites the derived one, as the copy loop does. */
  function DatEntry(table: seq<seq<real>>, names: seq<string>): (e: WeatherEntry)
    requires |table| == HoursPerYear && Rectangular(table, |names|) && HasRequiredColumns(names)
    ensures e.Rectangular() && e.Length() == HoursPerYear
    ensures e.timeStamps == Stamps() && e.month == Months() && e.day == Days() && e.hour == Hours()
  {
    var d := Named(table, names, "D");
    var b := Named(table, names, "B");
    WeatherEntry(
      Stamps(), Months(), Days(), Hours(),
      Named(table, names, "t"),
      Scale(100.0, Named(table, names, "p")),
      Named(table, names, "WR"),
      Named(table, names, "WG"),
      Named(table, names, "N"),
      Named(table, names, "x"),
      Named(table, names, "RF"),
      b,
      if "ghi" in names then Named(table, names, "ghi") else Add(d, b),
      if "dhi" in names then Named(table, names, "dhi") else d)
  }

  /** Where the entry's measured columns come from: pressure is `p` converted
      from hPa to Pa, `B` is the direct and `D` the diffuse irradiance, and the
      global irradiance is their sum unless the file has its own `ghi` column. */
  lemma DatEntryColumns(table: seq<seq<real>>, names: seq<string>)
    requires |table| == HoursPerYear && Rectangular(table, |names|) && HasRequiredColumns(names)
    ensures var e := DatEntry(table, names);
      && (forall i :: 0 <= i < HoursPerYear ==> e.atmosphericPressure[i] == 100.0 * Named(table, names, "p")[i])
      && e.tempAir == Named(table, names, "t") && e.relativeHumidity == Named(table, names, "RF")
      && e.windSpeed == Named(table, names, "WG") && e.windDirection == Named(table, names, "WR")
      && e.skyCover == Named(table, names, "N") && e.precipitableWater == Named(table, names, "x")
      && e.dni == Named(table, names, "B")
    ensures var e := DatEntry(table, names);
      && ("dhi" !in names ==> e.dhi == Named(table, names, "D"))
      && ("ghi" !in names ==> forall i :: 0 <= i < HoursPerYear ==>
            e.ghi[i] == Named(table, names, "D")[i] + Named(table, names, "B")[i])
  {
  }

  /** Everything after the header loop: coordinates, tokenising, the row count,
      the column lookups, and the dataset with its fixed metadata. */
  function BuildDat(path: string, h: Header, columns: Option<seq<string>>, table: seq<seq<real>>,
                    project: Projection): (r: Result<WeatherData, ReadError>)
    ensures h.hochwert.None? ==> r == Failure(MissingKey("Hochwert"))
    ensures h.hochwert.Some? && h.rechtswert.None? ==> r == Failure(MissingKey("Rechtswert"))
    ensures h.hochwert.Some? && h.rechtswert.Some? && columns.None? ==> r == Failure(DatapointsUnreadable(path))
    ensures r.Success? ==> columns.Some? && |table| == HoursPerYear && Rectangular(table, |columns.value|)
    ensures r.Failure? && r.error.WrongRowCount? ==> r.error == WrongRowCount(path, |table|) && |table| != HoursPerYear
    ensures r.Success? ==> HasRequiredColumns(columns.value) && "date" !in columns.value
    ensures r.Success? ==> Valid(r.value) && r.value.frame.Some?
    ensures r.Success? ==> r.value.weatherData == DatEntry(table, columns.value)
    ensures r.Success? ==> (r.value.latitude, r.value.longitude) == project(h.hochwert.value, h.rechtswert.value)
    ensures r.Success? ==> r.value.altitude == (h.altitude.GetOr(0) as real) && r.value.kind == h.kind.GetOr("unknown")
    ensures r.Success? ==> r.value.years == 2015 && r.value.tz == 1
    ensures r.Success? ==> r.value.adjustTimestamp && r.value.recalculateDNI && r.value.timeshiftInMinutes == 30
  {
    if h.hochwert.None? then Failure(MissingKey("Hochwert"))
    else if h.rechtswert.None? then Failure(MissingKey("Rechtswert"))
    else
      var (latitude, longitude) := project(h.hochwert.value, h.rechtswert.value);
      if columns.None? then Failure(DatapointsUnreadable(path))
      else
        var names := columns.value;
        if !Distinct(names) || !Rectangular(table, |names|) then Failure(DatapointsUnreadable(path))
        else if |table| != HoursPerYear then Failure(WrongRowCount(path, |table|))
        else
          var _ :- Lookup(table, names, "p");
          var _ :- Lookup(table, names, "t");
          var _ :- Lookup(table, names, "RF");
          var _ :- Lookup(table, names, "WG");
          var _ :- Lookup(table, names, "D");
          var _ :- Lookup(table, names, "B");
          if "date" in names then Failure(NotDatetime)
          else
            var _ :- Lookup(table, names, "WR");
            var _ :- Lookup(table, names, "N");
            var _ :- Lookup(table, names, "x");
            var e := DatEntry(table, names);
            Success(WeatherData(h.altitude.GetOr(0) as real, h.kind.GetOr("unknown"), 2015,
              latitude, longitude, 1, true, true, 30, e, Some(GenerateDf(e))))
  }

  /** `read_in_dat_file` on the file's lines and its tokenised data block. */
  function ReadDat(path: string, lines: seq<string>, table: seq<seq<real>>, project: Projection): (r: Result<WeatherData, ReadError>)
  {
    var scanned :- ScanFrom(lines, 0, NoHeader, "", path);
    BuildDat(path, scanned.header, scanned.columns, table, project)
  }

  /** A successful read always yields the 8760 hours of 2015 at UTC+1, with hour
      `i % 24` for record `i`, and both pre-processing flags set with a 30-minute
      shift. */
  lemma ReadDatCalendar(path: string, lines: seq<string>, table: seq<seq<real>>, project: Projection)
    requires ReadDat(path, lines, table, project).Success?
    ensures var w := ReadDat(path, lines, table, project).value;
      && |w.weatherData.timeStamps| == HoursPerYear
      && (forall i :: 0 <= i < HoursPerYear ==>
            && w.weatherData.timeStamps[i] == 60 * i
            && w.weatherData.hour[i] == i % 24
            && ValidDate(Date(w.weatherData.month[i], w.weatherData.day[i], w.weatherData.hour[i]))
            && HourIndex(Date(w.weatherData.month[i], w.weatherData.day[i], w.weatherData.hour[i])) == i)
      && w.years == 2015 && w.tz == 1 && w.adjustTimestamp && w.recalculateDNI && w.timeshiftInMinutes == 30
  {
    var scanned := ScanFrom(lines, 0, NoHeader, "", path).value;
    var w := ReadDat(path, lines, table, project).value;
    forall i | 0 <= i < HoursPerYear
      ensures ValidDate(Date(w.weatherData.month[i], w.weatherData.day[i], w.weatherData.hour[i]))
      ensures HourIndex(Date(w.weatherData.month[i], w.weatherData.day[i], w.weatherData.hour[i])) == i
    {
      assert Date(w.weatherData.month[i], w.weatherData.day[i], w.weatherData.hour[i]) == DateOfHour(i);
    }
  }

  /** A data block of any other length than 8760 rows is rejected with its count. */
  lemma ReadDatRowCount(path: string, lines: seq<string>, table: seq<seq<real>>, project: Projection)
    requires |table| != HoursPerYear
    ensures ReadDat(path, lines, table, project).Failure?
    ensures var r := ReadDat(path, lines, table, project);
      r.error.WrongRowCount? ==> r.error.count == |table|
  {
  }

  /** `read_in_epw_file`: the reader's own metadata are fixed; the rest comes from
      the EPW parser. */
  function ReadEpw(altitude: real, latitude: real, longitude: real, tz: int, entry: WeatherEntry): (r: Result<WeatherData, WeatherError>)
    ensures r.Success? <==> entry.Rectangular()
    ensures r.Success? ==> r.value.kind == "epw" && r.value.years == 1 && r.value.tz == tz
    ensures r.Success? ==> r.value.adjustTimestamp && r.value.recalculateDNI && r.value.timeshiftInMinutes == 30
    ensures r.Success? ==> Valid(r.value) && r.value.weatherData == entry
  {
    MakeWeatherData(altitude, "epw", 1, latitude, longitude, tz, true, true, 30, entry)
  }
}
