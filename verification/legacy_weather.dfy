/** The weather data object of the older object model (`WeatherData` under
    `Objects/`): eleven untyped metadata values, the two pre-processing flags
    stored as `shouldAdjustTimestamp` / `shouldRecalculateDNI`, and a pandas
    frame of numeric columns indexed by the timestamps (minutes since the
    epoch of the data set). */
module LegacyWeather {
  import opened Wrappers
  import opened Series
  import opened PyValue

  /** The frame: the index and the numeric columns by name. The index column
      `timeStamps` is not among the columns. */
  datatype Frame = Frame(index: seq<real>, columns: map<string, seq<real>>)

  predicate ValidFrame(f: Frame) {
    && "timeStamps" !in f.columns
    && forall c :: c in f.columns ==> |f.columns[c]| == |f.index|
  }

  datatype WeatherData = WeatherData(
    rechtswert: Value,
    hochwert: Value,
    altitude: Value,
    kind: Value,
    years: Value,
    latitude: Value,
    longitude: Value,
    tz: Value,
    shouldAdjustTimestamp: Value,
    shouldRecalculateDNI: Value,
    timeshiftInMinutes: Value,
    frame: Frame)

  /** `pd.to_datetime` on one timestamp of the document, and the value a
      timestamp of the index becomes when the frame is written out. */
  datatype Stamps = Stamps(parse: Value -> Option<real>, render: real -> Value)

  /** The keys `deserialize` reads, in the order it reads them. */
  const ReadOrder: seq<string> := [
    "rechtswert", "hochwert", "altitude", "kind", "years", "latitude", "longitude",
    "TZ", "adjustTimestamp", "recalculateDNI", "timeshiftInMinutes", "weatherData"]

  // ---------------------------------------------------------------------------
  // Reading a document
  // ---------------------------------------------------------------------------

  /** The first key of `keys` the dictionary lacks. */
  function FirstMissing(entries: map<string, Value>, keys: seq<string>): (r: Option<nat>)
    ensures r.None? <==> forall i :: 0 <= i < |keys| ==> keys[i] in entries
    ensures r.Some? ==> (r.value < |keys| && keys[r.value] !in entries
      && forall i :: 0 <= i < r.value ==> keys[i] in entries)
  {
    if |keys| == 0 then None
    else if keys[0] !in entries then Some(0)
    else
      var rest := FirstMissing(entries, keys[1..]);
      assert forall i :: 1 <= i < |keys| ==> keys[i] == keys[1..][i - 1];
      if rest.None? then None else Some(rest.value + 1)
  }

  /** A list of numbers as reals; anything else is rejected. */
  function Numbers(items: seq<Value>): (r: Option<seq<real>>)
    ensures r.Some? <==> forall i :: 0 <= i < |items| ==> AsNumber(items[i]).Some?
    ensures r.Some? ==> |r.value| == |items| && forall i :: 0 <= i < |items| ==> r.value[i] == AsNumber(items[i]).value
  {
    if forall i :: 0 <= i < |items| ==> AsNumber(items[i]).Some? then
      Some(seq(|items|, i requires 0 <= i < |items| => AsNumber(items[i]).value))
    else None
  }

  /** Every entry is a list, and all lists have length `n`. */
  predicate ListsOfLength(entries: map<string, Value>, n: nat) {
    forall c :: c in entries ==> entries[c].VList? && |entries[c].items| == n
  }

  /** The common length of the lists, if they all have one. */
  function CommonLength(entries: map<string, Value>): (r: Option<nat>)
    ensures r.Some? ==> ListsOfLength(entries, r.value)
    ensures r.None? ==> forall n: nat :: !ListsOfLength(entries, n)
  {
    if exists c :: c in entries then
      var c :| c in entries;
      if entries[c].VList? && ListsOfLength(entries, |entries[c].items|) then Some(|entries[c].items|) else None
    else Some(0)
  }

  /** `DataFrame.from_dict`, converting `timeStamps` and making it the index.
      Lists of different lengths are a `ValueError`; a missing `timeStamps` a
      `KeyError`; an unparsable timestamp or a non-numeric value a `ValueError`. */
  function FrameFromDict(data: Value, stamps: Stamps): (r: Result<Frame, PyError>)
    ensures r.Success? ==> ValidFrame(r.value)
    ensures r.Success? ==> data.VDict? && "timeStamps" in data.entries && data.entries["timeStamps"].VList?
    ensures r.Success? ==> var ts := data.entries["timeStamps"].items;
      |r.value.index| == |ts| && forall i :: 0 <= i < |ts| ==> stamps.parse(ts[i]) == Some(r.value.index[i])
    ensures r.Success? ==> forall c :: c in data.entries && c != "timeStamps" <==> c in r.value.columns
    ensures r.Success? ==> forall c :: c in r.value.columns ==>
      data.entries[c].VList? && Numbers(data.entries[c].items) == Some(r.value.columns[c])
    ensures data.VDict? && CommonLength(data.entries).Some? && "timeStamps" !in data.entries ==>
      r == Failure(KeyError("timeStamps"))
  {
    if !data.VDict? then Failure(TypeError("weatherData"))
    else
      var entries := data.entries;
      match CommonLength(entries)
      case None => Failure(ValueError("All arrays must be of the same length"))
      case Some(n) =>
        if "timeStamps" !in entries then Failure(KeyError("timeStamps"))
        else
          var ts := entries["timeStamps"].items;
          if !(forall i :: 0 <= i < |ts| ==> stamps.parse(ts[i]).Some?) then Failure(ValueError("timeStamps"))
          else if !(forall c :: c in entries && c != "timeStamps" ==> Numbers(entries[c].items).Some?) then
            Failure(ValueError("weatherData"))
          else
            var index := seq(|ts|, i requires 0 <= i < |ts| => stamps.parse(ts[i]).value);
            var columns := map c | c in entries && c != "timeStamps" :: Numbers(entries[c].items).value;
            Success(Frame(index, columns))
  }

  /** The eleven metadata values in the order of `ReadOrder`. */
  function Metadata(w: WeatherData): (m: seq<Value>)
    ensures |m| == 11
  {
    [w.rechtswert, w.hochwert, w.altitude, w.kind, w.years, w.latitude, w.longitude, w.tz,
     w.shouldAdjustTimestamp, w.shouldRecalculateDNI, w.timeshiftInMinutes]
  }

  /** `json[k]` for each key in turn, stopping at the first missing one. */
  function ReadKeys(entries: map<string, Value>, keys: seq<string>): (r: Result<seq<Value>, PyError>)
    ensures FirstMissing(entries, keys).Some? ==> r == Failure(KeyError(keys[FirstMissing(entries, keys).value]))
    ensures FirstMissing(entries, keys).None? ==>
      r.Success? && |r.value| == |keys| && forall i :: 0 <= i < |keys| ==> r.value[i] == entries[keys[i]]
    decreases |keys|
  {
    if |keys| == 0 then Success([])
    else if keys[0] !in entries then Failure(KeyError(keys[0]))
    else
      var rest :- ReadKeys(entries, keys[1..]);
      Success([entries[keys[0]]] + rest)
  }

  /** The values read for the first keys are those found under them. */
  lemma ReadKeysPrefix(entries: map<string, Value>, keys: seq<string>, m: seq<Value>)
    requires forall i :: 0 <= i < |keys| ==> keys[i] in entries
    requires |m| <= |keys| && forall i :: 0 <= i < |m| ==> entries[keys[i]] == m[i]
    ensures ReadKeys(entries, keys).Success? && ReadKeys(entries, keys).value[..|m|] == m
  {
    var v := ReadKeys(entries, keys).value;
    assert forall i :: 0 <= i < |m| ==> v[..|m|][i] == m[i];
  }

  /** `WeatherData.deserialize`: the twelve keys in their order, the first
      missing one raising `KeyError`, then the frame. The flags are stored as
      found, untyped. */
  function Deserialize(json: Value, stamps: Stamps): (r: Result<WeatherData, PyError>)
    ensures !json.VDict? ==> r.Failure? && r.error.TypeError?
    ensures json.VDict? && FirstMissing(json.entries, ReadOrder).Some? ==>
      r == Failure(KeyError(ReadOrder[FirstMissing(json.entries, ReadOrder).value]))
    ensures json.VDict? && FirstMissing(json.entries, ReadOrder).None? ==>
      (r.Success? <==> FrameFromDict(json.entries[ReadOrder[11]], stamps).Success?)
    ensures r.Success? ==> json.VDict? && FirstMissing(json.entries, ReadOrder).None?
    ensures r.Success? ==>
      && Metadata(r.value) == ReadKeys(json.entries, ReadOrder).value[..11]
      && r.value.frame == FrameFromDict(json.entries[ReadOrder[11]], stamps).value
  {
    if !json.VDict? then Failure(TypeError("string indices must be integers"))
    else
      var v :- ReadKeys(json.entries, ReadOrder);
      var frame :- FrameFromDict(v[11], stamps);
      Success(FromValues(v[..11], frame))
  }

  /** The object built from the eleven metadata values in read order. */
  function FromValues(v: seq<Value>, frame: Frame): (w: WeatherData)
    requires |v| == 11
    ensures Metadata(w) == v && w.frame == frame
  {
    var w := WeatherData(v[0], v[1], v[2], v[3], v[4], v[5], v[6], v[7], v[8], v[9], v[10], frame);
    assert Metadata(w) == v;
    w
  }

  // ---------------------------------------------------------------------------
  // Pre-processing
  // ---------------------------------------------------------------------------

  /** The minutes `pd.Timedelta(minutes=v)` accepts: an int that is not a bool,
      or a float. Anything else, a bool included, raises TypeError. */
  function TimedeltaMinutes(v: Value): (m: Option<real>)
    ensures m.Some? <==> v.VInt? || v.VFloat?
    ensures m.Some? ==> Some(m.value) == AsNumber(v)
  {
    match v
    case VInt(i) => Some(i as real)
    case VFloat(f) => Some(f)
    case _ => None
  }

  /** `adjustTimeStamp()`: the index moves by `timeshiftInMinutes`. A shift that
      is not an int or a float cannot be made into a time delta; reading the new
      start time then fails on an empty index. */
  function AdjustTimeStamp(w: WeatherData): (r: Result<WeatherData, PyError>)
    ensures r.Success? <==> (w.timeshiftInMinutes.VInt? || w.timeshiftInMinutes.VFloat?) && |w.frame.index| > 0
    ensures !(w.timeshiftInMinutes.VInt? || w.timeshiftInMinutes.VFloat?) ==> r.Failure? && r.error.TypeError?
    ensures TimedeltaMinutes(w.timeshiftInMinutes).Some? && |w.frame.index| == 0 ==> r == Failure(IndexError)
    ensures r.Success? ==> (r.value == w.(frame := r.value.frame)
      && r.value.frame.columns == w.frame.columns
      && |r.value.frame.index| == |w.frame.index|
      && forall i :: 0 <= i < |w.frame.index| ==>
           r.value.frame.index[i] == w.frame.index[i] + AsNumber(w.timeshiftInMinutes).value)
  {
    match TimedeltaMinutes(w.timeshiftInMinutes)
    case None => Failure(TypeError("timeshiftInMinutes"))
    case Some(minutes) =>
      var index := seq(|w.frame.index|, i requires 0 <= i < |w.frame.index| => w.frame.index[i] + minutes);
      if |index| == 0 then Failure(IndexError)
      else Success(w.(frame := w.frame.(index := index)))
  }

  /** The shift keeps the spacing of the records. */
  lemma AdjustKeepsSpacing(w: WeatherData, i: nat)
    requires AdjustTimeStamp(w).Success? && i + 1 < |w.frame.index|
    ensures var f := AdjustTimeStamp(w).value.frame;
      f.index[i + 1] - f.index[i] == w.frame.index[i + 1] - w.frame.index[i]
  {
  }

  /** `adjustTimeStamp(minutes)`: the method takes no argument besides the
      object, so passing one raises before anything happens. */
  function AdjustTimeStampWith(w: WeatherData, minutes: Value): (r: Result<WeatherData, PyError>)
    ensures r.Failure? && r.error.TypeError?
  {
    Failure(TypeError("adjustTimeStamp() takes 1 positional argument but 2 were given"))
  }

  /** The solar-position and DNI collaborator at one record: (timestamp,
      latitude, longitude, altitude, pressure, ghi, dhi), `None` for NaN. */
  type LegacyDniModel = (real, Value, Value, Value, real, real, real) -> Option<real>

  /** `recalculateDNI()`: the columns it reads must exist; the `dni` column (added
      if absent) is replaced by the model's values with NaN set to 0. */
  function RecalculateDni(w: WeatherData, model: LegacyDniModel): (r: Result<WeatherData, PyError>)
    requires ValidFrame(w.frame)
    ensures r.Success? <==> "atmospheric_pressure" in w.frame.columns && "ghi" in w.frame.columns && "dhi" in w.frame.columns
    ensures "atmospheric_pressure" !in w.frame.columns ==> r == Failure(KeyError("atmospheric_pressure"))
    ensures r.Success? ==> ValidFrame(r.value.frame)
    ensures r.Success? ==> r.value == w.(frame := r.value.frame) && r.value.frame.index == w.frame.index
    ensures r.Success? ==> ("dni" in r.value.frame.columns
      && forall c :: c != "dni" ==> (c in r.value.frame.columns <==> c in w.frame.columns))
    ensures r.Success? ==> forall c :: c in w.frame.columns && c != "dni" ==> r.value.frame.columns[c] == w.frame.columns[c]
    ensures r.Success? ==> forall i :: 0 <= i < |w.frame.index| ==>
      var m := model(w.frame.index[i], w.latitude, w.longitude, w.altitude, w.frame.columns["atmospheric_pressure"][i],
                     w.frame.columns["ghi"][i], w.frame.columns["dhi"][i]);
      r.value.frame.columns["dni"][i] == m.GetOr(0.0)
  {
    var cols := w.frame.columns;
    if "atmospheric_pressure" !in cols then Failure(KeyError("atmospheric_pressure"))
    else if "ghi" !in cols then Failure(KeyError("ghi"))
    else if "dhi" !in cols then Failure(KeyError("dhi"))
    else
      var n := |w.frame.index|;
      var modelled := seq(n, i requires 0 <= i < n =>
        model(w.frame.index[i], w.latitude, w.longitude, w.altitude, cols["atmospheric_pressure"][i], cols["ghi"][i], cols["dhi"][i]));
      Success(w.(frame := w.frame.(columns := cols["dni" := FillMissing(modelled)])))
  }

  // ---------------------------------------------------------------------------
  // Writing a document
  // ---------------------------------------------------------------------------

  /** The frame with its index put back as the column `timeStamps`. */
  function FrameToDict(f: Frame, stamps: Stamps): (d: map<string, Value>)
    requires ValidFrame(f)
    ensures "timeStamps" in d && d["timeStamps"] == VList(seq(|f.index|, i requires 0 <= i < |f.index| => stamps.render(f.index[i])))
    ensures forall c :: c in d <==> c == "timeStamps" || c in f.columns
    ensures forall c :: c in f.columns ==> d[c] == VList(seq(|f.columns[c]|, i requires 0 <= i < |f.columns[c]| => VFloat(f.columns[c][i])))
  {
    var columns := map c | c in f.columns :: VList(seq(|f.columns[c]|, i requires 0 <= i < |f.columns[c]| => VFloat(f.columns[c][i])));
    columns["timeStamps" := VList(seq(|f.index|, i requires 0 <= i < |f.index| => stamps.render(f.index[i])))]
  }

  /** `serialize`: the metadata under their document keys, the frame with its
      index, and, under the two flag keys, the bound methods `adjustTimeStamp`
      and `recalculateDNI` rather than the flags. */
  function Serialize(w: WeatherData, stamps: Stamps): (d: Value)
    requires ValidFrame(w.frame)
    ensures d.VDict? && forall i :: 0 <= i < |ReadOrder| ==> ReadOrder[i] in d.entries
    ensures "adjustTimestamp" in d.entries && d.entries["adjustTimestamp"] == VMethod("adjustTimeStamp")
    ensures "recalculateDNI" in d.entries && d.entries["recalculateDNI"] == VMethod("recalculateDNI")
    ensures forall i :: 0 <= i < 11 ==>
      d.entries[ReadOrder[i]] == Metadata(w.(shouldAdjustTimestamp := VMethod("adjustTimeStamp"), shouldRecalculateDNI := VMethod("recalculateDNI")))[i]
    ensures d.entries[ReadOrder[11]] == VDict(FrameToDict(w.frame, stamps))
  {
    VDict(map[
      "rechtswert" := w.rechtswert,
      "hochwert" := w.hochwert,
      "altitude" := w.altitude,
      "kind" := w.kind,
      "years" := w.years,
      "latitude" := w.latitude,
      "longitude" := w.longitude,
      "TZ" := w.tz,
      "adjustTimestamp" := VMethod("adjustTimeStamp"),
      "recalculateDNI" := VMethod("recalculateDNI"),
      "timeshiftInMinutes" := w.timeshiftInMinutes,
      "weatherData" := VDict(FrameToDict(w.frame, stamps))])
  }

  /** Reading back what was written reproduces the metadata and the frame, but
      the flags come back as the two method objects. */
  lemma SerializeRoundTrip(w: WeatherData, stamps: Stamps)
    requires ValidFrame(w.frame)
    requires forall t :: stamps.parse(stamps.render(t)) == Some(t)
    ensures Deserialize(Serialize(w, stamps), stamps)
      == Success(w.(shouldAdjustTimestamp := VMethod("adjustTimeStamp"), shouldRecalculateDNI := VMethod("recalculateDNI")))
  {
    var d := Serialize(w, stamps);
    var back := w.(shouldAdjustTimestamp := VMethod("adjustTimeStamp"), shouldRecalculateDNI := VMethod("recalculateDNI"));
    FrameRoundTrip(w.frame, stamps);
    assert FrameFromDict(d.entries[ReadOrder[11]], stamps) == Success(back.frame);
    ReadsBack(d, stamps, back);
  }

  /** A document holding an object's metadata under the keys of `ReadOrder`
      and a frame that reads back as its frame deserializes to that object. */
  lemma ReadsBack(d: Value, stamps: Stamps, w: WeatherData)
    requires d.VDict? && forall i :: 0 <= i < |ReadOrder| ==> ReadOrder[i] in d.entries
    requires forall i :: 0 <= i < 11 ==> d.entries[ReadOrder[i]] == Metadata(w)[i]
    requires FrameFromDict(d.entries[ReadOrder[11]], stamps) == Success(w.frame)
    ensures Deserialize(d, stamps) == Success(w)
  {
    ReadKeysPrefix(d.entries, ReadOrder, Metadata(w));
    var r := Deserialize(d, stamps);
    MetadataDetermines(r.value, w);
  }

  /** The metadata and the frame make up the whole object. */
  lemma MetadataDetermines(a: WeatherData, b: WeatherData)
    requires Metadata(a) == Metadata(b) && a.frame == b.frame
    ensures a == b
  {
    assert forall i :: 0 <= i < 11 ==> Metadata(a)[i] == Metadata(b)[i];
  }

  /** The frame survives being written out and read back. */
  lemma FrameRoundTrip(f: Frame, stamps: Stamps)
    requires ValidFrame(f)
    requires forall t :: stamps.parse(stamps.render(t)) == Some(t)
    ensures FrameFromDict(VDict(FrameToDict(f, stamps)), stamps) == Success(f)
  {
    var d := FrameToDict(f, stamps);
    var n := |f.index|;
    assert ListsOfLength(d, n);
    assert CommonLength(d).Some? && CommonLength(d).value == n by {
      var c :| c in d;
      assert d[c].VList? && |d[c].items| == n;
    }
    forall c | c in d && c != "timeStamps"
      ensures Numbers(d[c].items) == Some(f.columns[c])
    {
      var items := d[c].items;
      assert forall i :: 0 <= i < |items| ==> AsNumber(items[i]) == Some(f.columns[c][i]);
      assert Numbers(items).value == f.columns[c];
    }
    var ts := d["timeStamps"].items;
    forall i | 0 <= i < |ts|
      ensures stamps.parse(ts[i]) == Some(f.index[i])
    {
      var t := f.index[i];
      assert ts[i] == stamps.render(t);
      assert stamps.parse(stamps.render(t)) == Some(t);
    }
    var r := FrameFromDict(VDict(d), stamps);
    assert r.value.index == f.index;
    assert r.value.columns == f.columns;
  }

  /** After a round trip both flags are method objects, which are true: the
      document read back asks for both pre-processing steps whatever it said. */
  lemma RoundTripFlagsTruthy(w: WeatherData, stamps: Stamps)
    requires ValidFrame(w.frame)
    requires forall t :: stamps.parse(stamps.render(t)) == Some(t)
    ensures var back := Deserialize(Serialize(w, stamps), stamps);
      back.Success? && Truthy(back.value.shouldAdjustTimestamp) && Truthy(back.value.shouldRecalculateDNI)
  {
    SerializeRoundTrip(w, stamps);
  }
}
