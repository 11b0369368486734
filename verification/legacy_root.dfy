/** The plant and configuration objects of the root package (`sodele/Objects/`):
    a plant holds seven geometry settings read with `dictor` defaults and no
    database; the configuration holds the database type and the two paths it
    selects below `./sodele/res/PV_Database/`. */
module RootObjects {
  import opened Wrappers
  import opened PyValue
  import opened Dictor
  import opened Database
  import Options
  import LegacyPlant

  // ---------------------------------------------------------------------------
  // Reading several keys with `dictor`
  // ---------------------------------------------------------------------------

  /** No key is a dotted path. */
  predicate NoDots(keys: seq<string>) {
    forall i :: 0 <= i < |keys| ==> '.' !in keys[i]
  }

  /** One `dictor(json, key, default)` per key, in order; the first error
      escapes. */
  function ReadDefaults(json: Value, keys: seq<string>, defaults: seq<Value>): (r: Result<seq<Value>, PyError>)
    requires |keys| == |defaults|
    ensures r.Success? ==> |r.value| == |keys|
    ensures r.Failure? ==> !r.error.KeyError?
    decreases |keys|
  {
    if |keys| == 0 then Success([])
    else
      var first :- Dictor.Dictor(json, keys[0], defaults[0]);
      var rest :- ReadDefaults(json, keys[1..], defaults[1..]);
      Success([first] + rest)
  }

  /** On a dict every read succeeds: a present key gives its coerced value, a
      missing one its default. */
  lemma {:induction false} ReadDefaultsDict(e: map<string, Value>, keys: seq<string>, defaults: seq<Value>)
    requires |keys| == |defaults| && NoDots(keys)
    ensures ReadDefaults(VDict(e), keys, defaults).Success?
    ensures var v := ReadDefaults(VDict(e), keys, defaults).value;
      |v| == |keys| && forall i :: 0 <= i < |keys| ==> v[i] == FieldOr(e, keys[i], defaults[i])
    decreases |keys|
  {
    if |keys| > 0 {
      DictorKey(e, keys[0], defaults[0]);
      assert NoDots(keys[1..]) by {
        forall i | 0 <= i < |keys| - 1 ensures '.' !in keys[1..][i] {
          assert keys[1..][i] == keys[i + 1];
        }
      }
      ReadDefaultsDict(e, keys[1..], defaults[1..]);
      var rest := ReadDefaults(VDict(e), keys[1..], defaults[1..]).value;
      var v := ReadDefaults(VDict(e), keys, defaults).value;
      assert v == [FieldOr(e, keys[0], defaults[0])] + rest;
      forall i | 1 <= i < |keys| ensures v[i] == FieldOr(e, keys[i], defaults[i]) {
        assert v[i] == rest[i - 1];
        assert keys[1..][i - 1] == keys[i] && defaults[1..][i - 1] == defaults[i];
      }
    }
  }

  // ---------------------------------------------------------------------------
  // The plant
  // ---------------------------------------------------------------------------

  datatype PlantSettings = PlantSettings(
    surfaceAzimuth: Value,
    surfaceTilt: Value,
    modulesPerString: Value,
    stringsPerInverter: Value,
    numberOfInverters: Value,
    albedo: Value,
    moduleInstallation: Value)

  /** The plant with the result fields the simulation fills in. */
  datatype Plant = Plant(
    uid: Value,
    settings: PlantSettings,
    energyProfile: Option<seq<real>>,
    surfaceArea: Option<real>,
    systemKWP: Option<real>,
    metrics: Option<LegacyPlant.Metrics>)

  /** The document keys, in the order `serialize` writes them. */
  const PlantKeys: seq<string> := [
    "surfaceAzimuth", "surfaceTilt", "modulesPerString", "stringsPerInverter", "numberOfInverters",
    "albedo", "moduleInstallation"]

  /** The defaults `deserialize` gives, key by key. */
  const PlantDefaults: seq<Value> := [VInt(0), VInt(0), VInt(0), VInt(0), VInt(0), VFloat(0.2), VInt(1)]

  lemma PlantKeysHaveNoDots()
    ensures NoDots(PlantKeys)
  {
    forall i | 0 <= i < 7 ensures '.' !in PlantKeys[i] {
      var k := PlantKeys[i];
      assert forall j :: 0 <= j < |k| ==> k[j] != '.';
    }
  }

  /** The settings in the order of `PlantKeys`. */
  function PlantValues(s: PlantSettings): (v: seq<Value>)
    ensures |v| == 7
  {
    [s.surfaceAzimuth, s.surfaceTilt, s.modulesPerString, s.stringsPerInverter, s.numberOfInverters,
     s.albedo, s.moduleInstallation]
  }

  /** The settings made of seven values in key order. */
  function PlantFromValues(v: seq<Value>): (s: PlantSettings)
    requires |v| == 7
    ensures PlantValues(s) == v
  {
    var s := PlantSettings(v[0], v[1], v[2], v[3], v[4], v[5], v[6]);
    assert PlantValues(s) == v;
    s
  }

  /** The constructor: the settings are stored and every result is unset. */
  function NewPlant(uid: Value, s: PlantSettings): Plant {
    Plant(uid, s, None, None, None, None)
  }

  /** `deserialize`: `dictor` for the `uid` (a fresh one by default) and for each
      setting with its default. Something other than a dict cannot be indexed by
      a key. */
  function DeserializePlant(json: Value, freshUid: Value): (r: Result<Plant, PyError>)
    ensures !json.VDict? ==> r.Failure? && r.error.TypeError?
    ensures r.Success? ==> (r.value.energyProfile.None? && r.value.surfaceArea.None?
      && r.value.systemKWP.None? && r.value.metrics.None?)
  {
    var uid :- Dictor.Dictor(json, "uid", freshUid);
    var v :- ReadDefaults(json, PlantKeys, PlantDefaults);
    Success(NewPlant(uid, PlantFromValues(v)))
  }

  /** A dict always deserializes: each setting is the coerced document value,
      or its default when the key is absent, and the `uid` likewise. */
  lemma DeserializePlantDict(e: map<string, Value>, freshUid: Value)
    ensures var r := DeserializePlant(VDict(e), freshUid);
      r.Success? && r.value.uid == FieldOr(e, "uid", freshUid)
      && forall i :: 0 <= i < 7 ==> PlantValues(r.value.settings)[i] == FieldOr(e, PlantKeys[i], PlantDefaults[i])
  {
    DictorKey(e, "uid", freshUid);
    PlantKeysHaveNoDots();
    ReadDefaultsDict(e, PlantKeys, PlantDefaults);
  }

  /** The defaults of an empty document: azimuth, tilt and the counts 0, albedo
      0.2, installation type 1, and the fresh `uid`. */
  lemma DeserializePlantDefaults(freshUid: Value)
    ensures DeserializePlant(VDict(map[]), freshUid)
      == Success(NewPlant(freshUid, PlantSettings(VInt(0), VInt(0), VInt(0), VInt(0), VInt(0), VFloat(0.2), VInt(1))))
  {
    DeserializePlantDict(map[], freshUid);
    var r := DeserializePlant(VDict(map[]), freshUid).value;
    assert PlantValues(r.settings) == PlantDefaults;
  }

  /** `serialize`: the seven settings under their keys and nothing else. */
  function SerializePlant(p: Plant): (d: Value)
    ensures d.VDict? && "uid" !in d.entries
    ensures forall k :: k in d.entries ==> k in PlantKeys
    ensures forall i :: 0 <= i < 7 ==> PlantKeys[i] in d.entries && d.entries[PlantKeys[i]] == PlantValues(p.settings)[i]
  {
    var s := p.settings;
    VDict(map[
      "surfaceAzimuth" := s.surfaceAzimuth,
      "surfaceTilt" := s.surfaceTilt,
      "modulesPerString" := s.modulesPerString,
      "stringsPerInverter" := s.stringsPerInverter,
      "numberOfInverters" := s.numberOfInverters,
      "albedo" := s.albedo,
      "moduleInstallation" := s.moduleInstallation])
  }

  /** No setting is a string that `float()` accepts. */
  predicate PlantStable(s: PlantSettings) {
    forall i :: 0 <= i < 7 ==> Coerce(PlantValues(s)[i]) == PlantValues(s)[i]
  }

  /** Reading back what was written keeps all seven settings, with a new `uid`
      and the results unset again. */
  lemma PlantRoundTrip(p: Plant, freshUid: Value)
    requires PlantStable(p.settings)
    ensures DeserializePlant(SerializePlant(p), freshUid) == Success(NewPlant(freshUid, p.settings))
  {
    var d := SerializePlant(p);
    DeserializePlantDict(d.entries, freshUid);
    var r := DeserializePlant(d, freshUid).value;
    assert PlantValues(r.settings) == PlantValues(p.settings);
    assert r.settings == p.settings by {
      assert PlantFromValues(PlantValues(r.settings)) == r.settings;
    }
  }

  /** The root plant reads the first seven settings of the newer object
      model's plant, under the same keys and with the same defaults. */
  lemma SharedWithSourcePlant()
    ensures PlantKeys == LegacyPlant.SettingKeys[..7]
    ensures forall i :: 0 <= i < 7 ==> LegacyPlant.SettingDefaults[i] == Some(PlantDefaults[i])
  {
  }

  /** The builder `options` uses per setting (`getFloat` or `getInteger`), the
      description it passes and the builder's default. */
  const PlantOptionTags: seq<string> := ["float", "float", "float", "integer", "integer", "float", "integer"]
  const PlantOptionDescriptions: seq<string> := [
    "Surface azimuth", "Surface tilt", "Modules per string", "Strings per inverter",
    "Number of inverters", "Albedo", "Module installation"]
  const PlantOptionDefaults: seq<Value> := [VFloat(0.0), VFloat(0.0), VFloat(0.0), VInt(0), VInt(0), VFloat(0.2), VInt(1)]

  /** The seven option builders of `options`, in order: one option per
      setting, whose default equals the one `deserialize` uses as a number. */
  function PlantOptionParts(): (parts: seq<Value>)
    ensures Options.OneKeyEach(parts, PlantKeys)
    ensures forall i :: 0 <= i < 7 ==> var o := parts[i].entries[PlantKeys[i]];
      o.VDict? && "default" in o.entries && AsNumber(o.entries["default"]) == AsNumber(PlantDefaults[i])
  {
    assert forall i :: 0 <= i < 7 ==> AsNumber(PlantOptionDefaults[i]) == AsNumber(PlantDefaults[i]);
    seq(7, i requires 0 <= i < 7 =>
      Options.GetDefault(PlantOptionTags[i], PlantKeys[i], PlantOptionDescriptions[i], false, PlantOptionDefaults[i]))
  }

  /** `options`: the builders merged into one document. */
  function PlantOptions(): map<string, Value> {
    Options.Merge(PlantOptionParts())
  }

  lemma PlantKeysDistinct()
    ensures forall i, j :: 0 <= i < j < 7 ==> PlantKeys[i] != PlantKeys[j]
  {
    forall i, j | 0 <= i < j < 7 ensures PlantKeys[i] != PlantKeys[j] {
      assert |PlantKeys[i]| != |PlantKeys[j]| || PlantKeys[i][0] != PlantKeys[j][0];
    }
  }

  /** The options describe exactly the keys `serialize` writes, each with a
      default numerically equal to the one `deserialize` uses. */
  lemma PlantOptionsAgree()
    ensures forall k :: k in PlantOptions() <==> k in PlantKeys
    ensures forall i :: 0 <= i < 7 ==>
      var o := PlantOptions()[PlantKeys[i]];
      o.VDict? && "default" in o.entries && AsNumber(o.entries["default"]) == AsNumber(PlantDefaults[i])
  {
    var parts := PlantOptionParts();
    PlantKeysDistinct();
    Options.MergeKeys(parts, PlantKeys);
    Options.MergeDistinct(parts, PlantKeys);
  }

  /** `calculateProfileMetrics`, as for the newer plant. */
  function CalculatePlantMetrics(p: Plant): (r: Result<Plant, PyError>)
    ensures r.Success? <==> LegacyPlant.ProfileMetrics(p.energyProfile, p.surfaceArea, p.systemKWP).Success?
    ensures r.Success? ==> r.value == p.(metrics := Some(LegacyPlant.ProfileMetrics(p.energyProfile, p.surfaceArea, p.systemKWP).value))
  {
    var m :- LegacyPlant.ProfileMetrics(p.energyProfile, p.surfaceArea, p.systemKWP);
    Success(p.(metrics := Some(m)))
  }

  // ---------------------------------------------------------------------------
  // The configuration
  // ---------------------------------------------------------------------------

  datatype Config = Config(modulesDatabaseType: Value, modulesDatabasePath: string, invertersDatabasePath: string)

  /** The constructor derives both paths from the type, so an unsupported type
      fails here. */
  function NewConfig(modulesDatabaseType: Value): (r: Result<Config, PyError>)
    ensures r.Success? <==> NumEq(modulesDatabaseType, 1) || NumEq(modulesDatabaseType, 2)
    ensures r.Failure? ==> r.error == Unsupported(modulesDatabaseType)
    ensures NumEq(modulesDatabaseType, 1) ==>
      r == Success(Config(modulesDatabaseType, RootRoot + SandiaModules, RootRoot + CecInverters))
    ensures NumEq(modulesDatabaseType, 2) ==>
      r == Success(Config(modulesDatabaseType, RootRoot + CecInverters, RootRoot + CecInverters))
  {
    var (modules, inverters) :- ObjectDatabasePaths(RootRoot, modulesDatabaseType);
    Success(Config(modulesDatabaseType, modules, inverters))
  }

  /** `deserialize`: the type through `dictor` with default 1. */
  function DeserializeConfig(json: Value): (r: Result<Config, PyError>)
    ensures !json.VDict? ==> r.Failure? && r.error.TypeError?
  {
    var t :- Dictor.Dictor(json, "modulesDatabaseType", VInt(1));
    NewConfig(t)
  }

  lemma ConfigKeyHasNoDot()
    ensures '.' !in "modulesDatabaseType"
  {
    var k := "modulesDatabaseType";
    assert forall j :: 0 <= j < |k| ==> k[j] != '.';
  }

  /** A dict without the key gives type 1 (Sandia modules, CEC inverters); with
      the key, the coerced value decides, so the string "2" selects type 2. */
  lemma DeserializeConfigDict(e: map<string, Value>)
    ensures "modulesDatabaseType" !in e ==>
      DeserializeConfig(VDict(e)) == Success(Config(VInt(1), RootRoot + SandiaModules, RootRoot + CecInverters))
    ensures "modulesDatabaseType" in e ==> DeserializeConfig(VDict(e)) == NewConfig(Coerce(e["modulesDatabaseType"]))
  {
    ConfigKeyHasNoDot();
    DictorKey(e, "modulesDatabaseType", VInt(1));
  }

  /** `serialize`: only the type. */
  function SerializeConfig(c: Config): (d: Value)
    ensures d.VDict? && d.entries.Keys == {"modulesDatabaseType"}
    ensures d.entries["modulesDatabaseType"] == c.modulesDatabaseType
  {
    VDict(map["modulesDatabaseType" := c.modulesDatabaseType])
  }

  /** Every configuration that could be built reads back as itself: a supported
      type is a number, which `dictor` does not touch. */
  lemma ConfigRoundTrip(c: Config)
    requires NewConfig(c.modulesDatabaseType) == Success(c)
    ensures DeserializeConfig(SerializeConfig(c)) == Success(c)
  {
    DeserializeConfigDict(SerializeConfig(c).entries);
    assert !c.modulesDatabaseType.VStr?;
  }

  /** `options`: the type as an integer option with default 1, the value
      `deserialize` falls back on. */
  function ConfigOptions(): (o: map<string, Value>) {
    Options.Merge([Options.GetInteger("modulesDatabaseType", "", default := 1)])
  }

  lemma ConfigOptionsAgree()
    ensures ConfigOptions().Keys == {"modulesDatabaseType"}
    ensures Options.Declared(VDict(ConfigOptions()), "modulesDatabaseType") == (VStr("integer"), VInt(1))
    ensures DeserializeConfig(VDict(map[])).value.modulesDatabaseType == VInt(1)
  {
    DeserializeConfigDict(map[]);
  }
}
