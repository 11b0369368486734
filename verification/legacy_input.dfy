/** The input document of the older object model (`SodeleInput`), in its two
    copies: the root package's holds a configuration object, the plants, the
    `showPlots` flag and the weather data; the one under `src/` has no
    configuration object and reads the newer plant. */
module LegacyInput {
  import opened Wrappers
  import opened PyValue
  import opened Dictor
  import LegacyWeather
  import LegacyPlant
  import RootObjects

  // ---------------------------------------------------------------------------
  // The plant list comprehension
  // ---------------------------------------------------------------------------

  /** `[read(item) for item in items]`, where item `i` is read with its own
      fresh identifier; the first failing item stops the comprehension. */
  function ReadEach<T>(items: seq<Value>, read: (nat, Value) -> Result<T, PyError>): (r: Result<seq<T>, PyError>)
    ensures r.Success? <==> forall i :: 0 <= i < |items| ==> read(i, items[i]).Success?
    ensures r.Success? ==> |r.value| == |items| && forall i :: 0 <= i < |items| ==> r.value[i] == read(i, items[i]).value
    decreases |items|
  {
    if |items| == 0 then Success([])
    else
      var n := |items| - 1;
      var init :- ReadEach(items[..n], read);
      var last :- read(n, items[n]);
      Success(init + [last])
  }

  /** A failing comprehension raises the error of its first failing item. */
  lemma {:induction false} ReadEachFirstFailure<T>(items: seq<Value>, read: (nat, Value) -> Result<T, PyError>) returns (i: nat)
    requires ReadEach(items, read).Failure?
    ensures i < |items| && read(i, items[i]) == Failure(ReadEach(items, read).error)
    ensures forall j :: 0 <= j < i ==> read(j, items[j]).Success?
    decreases |items|
  {
    var n := |items| - 1;
    if ReadEach(items[..n], read).Failure? {
      i := ReadEachFirstFailure(items[..n], read);
    } else {
      i := n;
    }
  }

  /** The comprehension over whatever the document holds under the plants'
      key. A list yields its items and a string its characters. A dict yields
      its keys, which are strings, and neither plant can be read from a string
      (see `StringPlantsFail`), so a non-empty dict fails. Anything else is not
      iterable. */
  function ReadPlants<T>(v: Value, read: (nat, Value) -> Result<T, PyError>): (r: Result<seq<T>, PyError>)
    ensures v.VList? ==> r == ReadEach(v.items, read)
    ensures v.VStr? ==> r == ReadEach(seq(|v.s|, i requires 0 <= i < |v.s| => VStr([v.s[i]])), read)
    ensures v.VDict? ==> (r.Success? <==> |v.entries| == 0)
    ensures r.Success? && !v.VList? ==> (v.VStr? || v.VDict?)
  {
    match v
    case VList(items) => ReadEach(items, read)
    case VStr(s) => ReadEach(seq(|s|, i requires 0 <= i < |s| => VStr([s[i]])), read)
    case VDict(e) => if |e| == 0 then Success([]) else Failure(TypeError("string indices must be integers"))
    case _ => Failure(TypeError("object is not iterable"))
  }

  /** Neither plant deserializes from a string, the item a dict or a string
      yields. */
  lemma StringPlantsFail(s: string, freshUid: Value)
    ensures LegacyPlant.Deserialize(VStr(s), freshUid).Failure? && LegacyPlant.Deserialize(VStr(s), freshUid).error.TypeError?
    ensures RootObjects.DeserializePlant(VStr(s), freshUid).Failure? && RootObjects.DeserializePlant(VStr(s), freshUid).error.TypeError?
  {
  }

  /** A comprehension whose every item reads as `v` gives `v`. */
  lemma ReadEachOf<T>(items: seq<Value>, read: (nat, Value) -> Result<T, PyError>, v: seq<T>)
    requires |v| == |items| && forall i :: 0 <= i < |items| ==> read(i, items[i]) == Success(v[i])
    ensures ReadEach(items, read) == Success(v)
  {
    assert ReadEach(items, read).Success?;
    var r := ReadEach(items, read).value;
    assert |r| == |v| && forall i :: 0 <= i < |items| ==> r[i] == v[i];
    assert r == v;
  }

  // ---------------------------------------------------------------------------
  // The root package's input
  // ---------------------------------------------------------------------------

  datatype RootInput = RootInput(
    config: RootObjects.Config,
    plants: seq<RootObjects.Plant>,
    showPlots: Value,
    weather: LegacyWeather.WeatherData)

  /** `deserialize`: the configuration, then the plants, then the weather data,
      each from its key (a missing one raising `KeyError`), then `showPlots`
      through `dictor` with default `False`. */
  function DeserializeRoot(json: Value, uids: nat -> Value, stamps: LegacyWeather.Stamps): (r: Result<RootInput, PyError>)
    ensures !json.VDict? ==> r.Failure? && r.error.TypeError?
    ensures json.VDict? && "PhotovoltaicConfig" !in json.entries ==> r == Failure(KeyError("PhotovoltaicConfig"))
    ensures json.VDict? && "PhotovoltaicConfig" in json.entries && RootObjects.DeserializeConfig(json.entries["PhotovoltaicConfig"]).Failure? ==>
      r == Failure(RootObjects.DeserializeConfig(json.entries["PhotovoltaicConfig"]).error)
    ensures r.Success? ==> (json.VDict? && "PhotovoltaicPlants" in json.entries && "weatherData" in json.entries
      && r.value.config == RootObjects.DeserializeConfig(json.entries["PhotovoltaicConfig"]).value
      && ReadPlants(json.entries["PhotovoltaicPlants"], (i, p) => RootObjects.DeserializePlant(p, uids(i))) == Success(r.value.plants)
      && LegacyWeather.Deserialize(json.entries["weatherData"], stamps) == Success(r.value.weather))
  {
    var configDoc :- Index(json, "PhotovoltaicConfig");
    var config :- RootObjects.DeserializeConfig(configDoc);
    var plantsDoc :- Index(json, "PhotovoltaicPlants");
    var plants :- ReadPlants(plantsDoc, (i, p) => RootObjects.DeserializePlant(p, uids(i)));
    var weatherDoc :- Index(json, "weatherData");
    var weather :- LegacyWeather.Deserialize(weatherDoc, stamps);
    var showPlots :- Dictor.Dictor(json, "showPlots", VBool(false));
    Success(RootInput(config, plants, showPlots, weather))
  }

  lemma ShowPlotsHasNoDot()
    ensures '.' !in "showPlots"
  {
    var k := "showPlots";
    assert forall j :: 0 <= j < |k| ==> k[j] != '.';
  }

  /** Once the three parts are read, `showPlots` is the coerced document value,
      or `False` when the key is absent. */
  lemma DeserializeRootShowPlots(json: Value, uids: nat -> Value, stamps: LegacyWeather.Stamps)
    requires DeserializeRoot(json, uids, stamps).Success?
    ensures DeserializeRoot(json, uids, stamps).value.showPlots == FieldOr(json.entries, "showPlots", VBool(false))
  {
    ShowPlotsHasNoDot();
    DictorKey(json.entries, "showPlots", VBool(false));
  }

  /** `serialize`: four keys; the plants in order. */
  function SerializeRoot(x: RootInput, stamps: LegacyWeather.Stamps): (d: Value)
    requires LegacyWeather.ValidFrame(x.weather.frame)
    ensures d.VDict? && d.entries.Keys == {"PhotovoltaicConfig", "PhotovoltaicPlants", "showPlots", "weatherData"}
    ensures d.entries["PhotovoltaicConfig"] == RootObjects.SerializeConfig(x.config)
    ensures d.entries["PhotovoltaicPlants"].VList? && |d.entries["PhotovoltaicPlants"].items| == |x.plants|
    ensures forall i :: 0 <= i < |x.plants| ==> d.entries["PhotovoltaicPlants"].items[i] == RootObjects.SerializePlant(x.plants[i])
    ensures d.entries["showPlots"] == x.showPlots
    ensures d.entries["weatherData"] == LegacyWeather.Serialize(x.weather, stamps)
  {
    VDict(map[
      "PhotovoltaicConfig" := RootObjects.SerializeConfig(x.config),
      "PhotovoltaicPlants" := VList(seq(|x.plants|, i requires 0 <= i < |x.plants| => RootObjects.SerializePlant(x.plants[i]))),
      "showPlots" := x.showPlots,
      "weatherData" := LegacyWeather.Serialize(x.weather, stamps)])
  }

  /** Reading back a written input keeps the configuration, every plant's
      settings (with fresh identifiers and no results), `showPlots` and the
      weather data, whose flags come back as the two method objects. */
  lemma RootRoundTrip(x: RootInput, uids: nat -> Value, stamps: LegacyWeather.Stamps)
    requires RootObjects.NewConfig(x.config.modulesDatabaseType) == Success(x.config)
    requires forall i :: 0 <= i < |x.plants| ==> RootObjects.PlantStable(x.plants[i].settings)
    requires Coerce(x.showPlots) == x.showPlots
    requires LegacyWeather.ValidFrame(x.weather.frame)
    requires forall t :: stamps.parse(stamps.render(t)) == Some(t)
    ensures DeserializeRoot(SerializeRoot(x, stamps), uids, stamps) == Success(RootInput(
      x.config,
      seq(|x.plants|, i requires 0 <= i < |x.plants| => RootObjects.NewPlant(uids(i), x.plants[i].settings)),
      x.showPlots,
      x.weather.(shouldAdjustTimestamp := VMethod("adjustTimeStamp"), shouldRecalculateDNI := VMethod("recalculateDNI"))))
  {
    var d := SerializeRoot(x, stamps);
    RootObjects.ConfigRoundTrip(x.config);
    var read := (i: nat, p: Value) => RootObjects.DeserializePlant(p, uids(i));
    var items := d.entries["PhotovoltaicPlants"].items;
    var plants := seq(|x.plants|, i requires 0 <= i < |x.plants| => RootObjects.NewPlant(uids(i), x.plants[i].settings));
    forall i | 0 <= i < |items| ensures read(i, items[i]) == Success(plants[i]) {
      RootObjects.PlantRoundTrip(x.plants[i], uids(i));
    }
    ReadEachOf(items, read, plants);
    LegacyWeather.SerializeRoundTrip(x.weather, stamps);
    ShowPlotsHasNoDot();
    DictorKey(d.entries, "showPlots", VBool(false));
  }

  /** `options`: one entry per key `serialize` writes; the weather data's
      options are given. */
  function RootOptions(weatherOptions: Value): (o: Value)
    ensures o.VDict? && o.entries.Keys == {"PhotovoltaicConfig", "PhotovoltaicPlants", "showPlots", "weatherData"}
  {
    VDict(map[
      "PhotovoltaicConfig" := VDict(RootObjects.ConfigOptions()),
      "PhotovoltaicPlants" := VDict(RootObjects.PlantOptions()),
      "showPlots" := VStr("bool"),
      "weatherData" := weatherOptions])
  }

  /** The options describe exactly the keys of a written input. */
  lemma RootOptionsMirrorSerialize(x: RootInput, stamps: LegacyWeather.Stamps, weatherOptions: Value)
    requires LegacyWeather.ValidFrame(x.weather.frame)
    ensures RootOptions(weatherOptions).entries.Keys == SerializeRoot(x, stamps).entries.Keys
  {
  }

  // ---------------------------------------------------------------------------
  // The input under `src/`
  // ---------------------------------------------------------------------------

  datatype SrcInput = SrcInput(
    plants: seq<LegacyPlant.Plant>,
    showPlots: Value,
    weather: LegacyWeather.WeatherData)

  /** `deserialize`: the plants, then the weather data, each from its key (a
      missing one raising `KeyError`), then `showPlots` through `dictor` with
      default `True`. There is no configuration object. */
  function DeserializeSrc(json: Value, uids: nat -> Value, stamps: LegacyWeather.Stamps): (r: Result<SrcInput, PyError>)
    ensures !json.VDict? ==> r.Failure? && r.error.TypeError?
    ensures json.VDict? && "PhotovoltaicPlants" !in json.entries ==> r == Failure(KeyError("PhotovoltaicPlants"))
    ensures r.Success? ==> (json.VDict? && "PhotovoltaicPlants" in json.entries && "weatherData" in json.entries
      && ReadPlants(json.entries["PhotovoltaicPlants"], (i, p) => LegacyPlant.Deserialize(p, uids(i))) == Success(r.value.plants)
      && LegacyWeather.Deserialize(json.entries["weatherData"], stamps) == Success(r.value.weather))
  {
    var plantsDoc :- Index(json, "PhotovoltaicPlants");
    var plants :- ReadPlants(plantsDoc, (i, p) => LegacyPlant.Deserialize(p, uids(i)));
    var weatherDoc :- Index(json, "weatherData");
    var weather :- LegacyWeather.Deserialize(weatherDoc, stamps);
    var showPlots :- Dictor.Dictor(json, "showPlots", VBool(true));
    Success(SrcInput(plants, showPlots, weather))
  }

  /** Once the two parts are read, `showPlots` is the coerced document value,
      or `True` when the key is absent. */
  lemma DeserializeSrcShowPlots(json: Value, uids: nat -> Value, stamps: LegacyWeather.Stamps)
    requires DeserializeSrc(json, uids, stamps).Success?
    ensures DeserializeSrc(json, uids, stamps).value.showPlots == FieldOr(json.entries, "showPlots", VBool(true))
  {
    ShowPlotsHasNoDot();
    DictorKey(json.entries, "showPlots", VBool(true));
  }

  /** `serialize`: exactly three keys; the plants in order. */
  function SerializeSrc(x: SrcInput, stamps: LegacyWeather.Stamps): (d: Value)
    requires LegacyWeather.ValidFrame(x.weather.frame)
    ensures d.VDict? && d.entries.Keys == {"PhotovoltaicPlants", "showPlots", "weatherData"}
    ensures d.entries["PhotovoltaicPlants"].VList? && |d.entries["PhotovoltaicPlants"].items| == |x.plants|
    ensures forall i :: 0 <= i < |x.plants| ==> d.entries["PhotovoltaicPlants"].items[i] == LegacyPlant.Serialize(x.plants[i])
    ensures d.entries["showPlots"] == x.showPlots
    ensures d.entries["weatherData"] == LegacyWeather.Serialize(x.weather, stamps)
  {
    VDict(map[
      "PhotovoltaicPlants" := VList(seq(|x.plants|, i requires 0 <= i < |x.plants| => LegacyPlant.Serialize(x.plants[i]))),
      "showPlots" := x.showPlots,
      "weatherData" := LegacyWeather.Serialize(x.weather, stamps)])
  }

  /** Reading back a written input gives every plant, as the constructor left
      it, back with a fresh identifier, keeps `showPlots`, and brings the
      weather data back with the two method objects as flags. */
  lemma SrcRoundTrip(x: SrcInput, uids: nat -> Value, stamps: LegacyWeather.Stamps)
    requires forall i :: 0 <= i < |x.plants| ==> LegacyPlant.Constructed(x.plants[i]) && LegacyPlant.Stable(x.plants[i].settings)
    requires Coerce(x.showPlots) == x.showPlots
    requires LegacyWeather.ValidFrame(x.weather.frame)
    requires forall t :: stamps.parse(stamps.render(t)) == Some(t)
    ensures DeserializeSrc(SerializeSrc(x, stamps), uids, stamps) == Success(SrcInput(
      seq(|x.plants|, i requires 0 <= i < |x.plants| => x.plants[i].(uid := uids(i))),
      x.showPlots,
      x.weather.(shouldAdjustTimestamp := VMethod("adjustTimeStamp"), shouldRecalculateDNI := VMethod("recalculateDNI"))))
  {
    var d := SerializeSrc(x, stamps);
    var read := (i: nat, p: Value) => LegacyPlant.Deserialize(p, uids(i));
    var items := d.entries["PhotovoltaicPlants"].items;
    var plants := seq(|x.plants|, i requires 0 <= i < |x.plants| => x.plants[i].(uid := uids(i)));
    forall i | 0 <= i < |items| ensures read(i, items[i]) == Success(plants[i]) {
      LegacyPlant.SerializeRoundTrip(x.plants[i], uids(i));
    }
    ReadEachOf(items, read, plants);
    LegacyWeather.SerializeRoundTrip(x.weather, stamps);
    ShowPlotsHasNoDot();
    DictorKey(d.entries, "showPlots", VBool(true));
  }

  /** `options`: one entry per key `serialize` writes; the plants' and the
      weather data's options are given. */
  function SrcOptions(plantOptions: Value, weatherOptions: Value): (o: Value)
    ensures o.VDict? && o.entries.Keys == {"PhotovoltaicPlants", "showPlots", "weatherData"}
  {
    VDict(map[
      "PhotovoltaicPlants" := plantOptions,
      "showPlots" := VStr("bool"),
      "weatherData" := weatherOptions])
  }

  /** The defaults differ between the copies: `showPlots` is `False` in the
      root package and `True` under `src/`. */
  lemma ShowPlotsDefaultsDiffer(json: Value, uids: nat -> Value, stamps: LegacyWeather.Stamps)
    requires DeserializeRoot(json, uids, stamps).Success? && DeserializeSrc(json, uids, stamps).Success?
    requires "showPlots" !in json.entries
    ensures DeserializeRoot(json, uids, stamps).value.showPlots == VBool(false)
    ensures DeserializeSrc(json, uids, stamps).value.showPlots == VBool(true)
  {
    DeserializeRootShowPlots(json, uids, stamps);
    DeserializeSrcShowPlots(json, uids, stamps);
  }
}
