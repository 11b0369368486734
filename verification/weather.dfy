/** The canonical weather dataset of the current interfaces (`WeatherEntry`,
    `WeatherData`): fourteen equally long columns, site metadata, the two
    pre-processing flags, and the data frame that is rebuilt from the columns
    whenever they change. Timestamps are minutes since 2015-01-01 00:00. */
module Weather {
  import opened Wrappers
  import opened Series
  import PyValue

  datatype WeatherEntry = WeatherEntry(
    timeStamps: seq<int>,
    month: seq<int>,
    day: seq<int>,
    hour: seq<int>,
    tempAir: seq<real>,
    atmosphericPressure: seq<real>,
    windDirection: seq<real>,
    windSpeed: seq<real>,
    skyCover: seq<real>,
    precipitableWater: seq<real>,
    relativeHumidity: seq<real>,
    dni: seq<real>,
    ghi: seq<real>,
    dhi: seq<real>)
  {
    /** The length of the series; `Rectangular` says every column has it. */
    function Length(): nat {
      |timeStamps|
    }

    /** All columns have the same length, as `DataFrame.from_dict` demands. */
    predicate Rectangular() {
      var n := |timeStamps|;
      && |month| == n && |day| == n && |hour| == n
      && |tempAir| == n && |atmosphericPressure| == n && |windDirection| == n
      && |windSpeed| == n && |skyCover| == n && |precipitableWater| == n
      && |relativeHumidity| == n && |dni| == n && |ghi| == n && |dhi| == n
    }
  }

  /** The pandas frame: the columns, indexed by the timestamps. */
  datatype Frame = Frame(index: seq<int>, data: WeatherEntry)

  datatype WeatherData = WeatherData(
    altitude: real,
    kind: string,
    years: int,
    latitude: real,
    longitude: real,
    tz: int,
    adjustTimestamp: bool,
    recalculateDNI: bool,
    timeshiftInMinutes: int,
    weatherData: WeatherEntry,
    frame: Option<Frame>)

  datatype WeatherError = RaggedColumns

  /** `generate_df`: the frame of the current columns. */
  function GenerateDf(e: WeatherEntry): Frame
    requires e.Rectangular()
  {
    Frame(e.timeStamps, e)
  }

  /** The class invariant: the columns are rectangular and the frame, when present,
      is the one built from the current columns. */
  predicate Valid(w: WeatherData) {
    w.weatherData.Rectangular() && (w.frame.Some? ==> w.frame.value == GenerateDf(w.weatherData))
  }

  /** Construction and validation: the frame is built at once (`model_post_init`),
      which fails when the columns have different lengths. */
  function MakeWeatherData(
    altitude: real, kind: string, years: int, latitude: real, longitude: real, tz: int,
    adjustTimestamp: bool, recalculateDNI: bool, timeshiftInMinutes: int,
    entry: WeatherEntry): (r: Result<WeatherData, WeatherError>)
    ensures r.Success? <==> entry.Rectangular()
    ensures r.Success? ==> Valid(r.value) && r.value.frame.Some?
    ensures r.Success? ==> r.value.weatherData == entry && r.value.frame.value.index == entry.timeStamps
    ensures r.Success? ==> r.value.adjustTimestamp == adjustTimestamp && r.value.recalculateDNI == recalculateDNI
    ensures r.Success? ==> r.value.timeshiftInMinutes == timeshiftInMinutes && r.value.tz == tz
  {
    if !entry.Rectangular() then Failure(RaggedColumns)
    else
      Success(WeatherData(altitude, kind, years, latitude, longitude, tz,
        adjustTimestamp, recalculateDNI, timeshiftInMinutes, entry, Some(GenerateDf(entry))))
  }

  /** Every timestamp moved by `minutes`. */
  function Shift(ts: seq<int>, minutes: int): (r: seq<int>)
    ensures |r| == |ts|
    ensures forall i :: 0 <= i < |ts| ==> r[i] - ts[i] == minutes
  {
    seq(|ts|, i requires 0 <= i < |ts| => ts[i] + minutes)
  }

  /** `adjust_time_stamp`: without a frame nothing happens; otherwise the frame's
      index is shifted by `timeshiftInMinutes`, written back to `timeStamps`, and
      the frame is rebuilt. Every other column and all metadata are untouched.
      The shifted index's first entry is read on the way, so an empty frame
      raises `IndexError`. */
  function AdjustTimeStamp(w: WeatherData): (r: Result<WeatherData, PyValue.PyError>)
    requires Valid(w)
    ensures r.Failure? <==> w.frame.Some? && |w.weatherData.timeStamps| == 0
    ensures r.Failure? ==> r.error == PyValue.IndexError
    ensures w.frame.None? ==> r == Success(w)
    ensures r.Success? ==> Valid(r.value)
    ensures r.Success? && w.frame.Some? ==> r.value.frame.Some?
    ensures r.Success? ==> r.value == w.(weatherData := r.value.weatherData, frame := r.value.frame)
    ensures r.Success? ==> r.value.weatherData == w.weatherData.(timeStamps := r.value.weatherData.timeStamps)
    ensures r.Success? ==> |r.value.weatherData.timeStamps| == |w.weatherData.timeStamps|
    ensures r.Success? && w.frame.Some? ==> forall i :: 0 <= i < |w.weatherData.timeStamps| ==>
      r.value.weatherData.timeStamps[i] == w.weatherData.timeStamps[i] + w.timeshiftInMinutes
  {
    match w.frame
    case None => Success(w)
    case Some(f) =>
      if |f.index| == 0 then Failure(PyValue.IndexError)
      else
        var e := w.weatherData.(timeStamps := Shift(f.index, w.timeshiftInMinutes));
        Success(w.(weatherData := e, frame := Some(GenerateDf(e))))
  }

  /** The shift keeps the spacing between consecutive records. */
  lemma AdjustKeepsSpacing(w: WeatherData, i: nat)
    requires Valid(w)
    requires i + 1 < |w.weatherData.timeStamps|
    ensures AdjustTimeStamp(w).Success?
    ensures var r := AdjustTimeStamp(w).value.weatherData.timeStamps;
      r[i + 1] - r[i] == w.weatherData.timeStamps[i + 1] - w.weatherData.timeStamps[i]
  {
  }

  /** Applying the shift twice shifts by twice the configured amount, so the
      operation is not idempotent. */
  lemma AdjustTwice(w: WeatherData)
    requires Valid(w) && w.frame.Some? && |w.weatherData.timeStamps| > 0
    ensures AdjustTimeStamp(w).Success? && AdjustTimeStamp(AdjustTimeStamp(w).value).Success?
    ensures var r := AdjustTimeStamp(AdjustTimeStamp(w).value).value.weatherData.timeStamps;
      forall i :: 0 <= i < |r| ==> r[i] == w.weatherData.timeStamps[i] + 2 * w.timeshiftInMinutes
    ensures w.timeshiftInMinutes != 0 ==>
      AdjustTimeStamp(AdjustTimeStamp(w).value).value != AdjustTimeStamp(w).value
  {
    var once := AdjustTimeStamp(w).value;
    var twice := AdjustTimeStamp(once).value;
    if w.timeshiftInMinutes != 0 {
      assert twice.weatherData.timeStamps[0] != once.weatherData.timeStamps[0];
    }
  }

  /** The solar-position and DNI collaborator, applied record by record:
      (timestamp, latitude, longitude, altitude, pressure, ghi, dhi) to a DNI value,
      `None` standing for NaN. */
  type DniModel = (int, real, real, real, real, real, real) -> Option<real>

  /** The collaborator's DNI series for a frame. */
  function ModelDni(f: Frame, latitude: real, longitude: real, altitude: real, model: DniModel): (r: seq<Option<real>>)
    requires f.data.Rectangular() && |f.index| == f.data.Length()
    ensures |r| == |f.index|
  {
    seq(|f.index|, i requires 0 <= i < |f.index| =>
      model(f.index[i], latitude, longitude, altitude, f.data.atmosphericPressure[i], f.data.ghi[i], f.data.dhi[i]))
  }

  /** `recalculate_dni`: without a frame nothing happens; otherwise only the `dni`
      column is replaced by the collaborator's values with NaN replaced by 0. */
  function RecalculateDni(w: WeatherData, model: DniModel): (r: WeatherData)
    requires Valid(w)
    ensures Valid(r)
    ensures w.frame.None? ==> r == w
    ensures w.frame.Some? ==> r.frame.Some?
    ensures r == w.(weatherData := r.weatherData, frame := r.frame)
    ensures r.weatherData == w.weatherData.(dni := r.weatherData.dni)
    ensures w.frame.Some? ==> forall i :: 0 <= i < |r.weatherData.dni| ==>
      var m := model(w.weatherData.timeStamps[i], w.latitude, w.longitude, w.altitude,
                     w.weatherData.atmosphericPressure[i], w.weatherData.ghi[i], w.weatherData.dhi[i]);
      (m.Some? ==> r.weatherData.dni[i] == m.value) && (m.None? ==> r.weatherData.dni[i] == 0.0)
  {
    match w.frame
    case None => w
    case Some(f) =>
      var e := w.weatherData.(dni := FillMissing(ModelDni(f, w.latitude, w.longitude, w.altitude, model)));
      w.(weatherData := e, frame := Some(GenerateDf(e)))
  }

  /** Recalculation depends on the timestamps, so it reads the shifted ones when it
      runs after the adjustment: the two orders generally differ. */
  lemma RecalculateReadsShiftedStamps(w: WeatherData, model: DniModel, i: nat)
    requires Valid(w) && w.frame.Some?
    requires i < |w.weatherData.timeStamps|
    ensures AdjustTimeStamp(w).Success?
    ensures var r := RecalculateDni(AdjustTimeStamp(w).value, model);
      var m := model(w.weatherData.timeStamps[i] + w.timeshiftInMinutes, w.latitude, w.longitude, w.altitude,
                     w.weatherData.atmosphericPressure[i], w.weatherData.ghi[i], w.weatherData.dhi[i]);
      r.weatherData.dni[i] == m.GetOr(0.0)
  {
  }
}
