/** The photovoltaic plant of the older object model (`PhotovoltaicPlant` under
    `src/sodele/Objects/`): sixteen untyped configuration values read from a
    document with `dictor` defaults, the two database paths derived from the
    database type when the object is built, and the result fields the
    simulation fills in, from which `calculateProfileMetrics` derives the
    per-area profile and the specific sums. */
module LegacyPlant {
  import opened Wrappers
  import opened Series
  import opened Floats
  import opened PyValue
  import opened Dictor
  import opened Database
  import Options

  // ---------------------------------------------------------------------------
  // Reading fields of a document
  // ---------------------------------------------------------------------------

  /** The message `deserialize` raises for a missing required key: the caught
      `KeyError` is formatted with its quotes. */
  function MissingKey(key: string): string {
    "The key ''" + key + "'' is missing in the photovoltaic config."
  }

  /** A setting read with its default (`dictor`), or, where there is no default,
      with `json[key]`, which does not coerce. */
  function Setting(entries: map<string, Value>, key: string, default: Option<Value>): (r: Result<Value, PyError>)
    ensures default.Some? ==> r == Success(FieldOr(entries, key, default.value))
    ensures default.None? && key in entries ==> r == Success(entries[key])
    ensures default.None? && key !in entries ==> r == Failure(KeyError(MissingKey(key)))
  {
    match default
    case Some(d) => Success(FieldOr(entries, key, d))
    case None => if key in entries then Success(entries[key]) else Failure(KeyError(MissingKey(key)))
  }

  /** The first required key the dict lacks. */
  function FirstRequiredMissing(entries: map<string, Value>, keys: seq<string>, defaults: seq<Option<Value>>): (r: Option<nat>)
    requires |keys| == |defaults|
    ensures r.None? <==> forall i :: 0 <= i < |keys| && defaults[i].None? ==> keys[i] in entries
    ensures r.Some? ==> (r.value < |keys| && defaults[r.value].None? && keys[r.value] !in entries
      && forall i :: 0 <= i < r.value && defaults[i].None? ==> keys[i] in entries)
  {
    if |keys| == 0 then None
    else if defaults[0].None? && keys[0] !in entries then Some(0)
    else
      var rest := FirstRequiredMissing(entries, keys[1..], defaults[1..]);
      assert forall i :: 1 <= i < |keys| ==> keys[i] == keys[1..][i - 1] && defaults[i] == defaults[1..][i - 1];
      if rest.None? then None else Some(rest.value + 1)
  }

  /** The settings read one after the other; the first missing required key
      raises. */
  function ReadSettings(entries: map<string, Value>, keys: seq<string>, defaults: seq<Option<Value>>): (r: Result<seq<Value>, PyError>)
    requires |keys| == |defaults|
    ensures FirstRequiredMissing(entries, keys, defaults).Some? ==>
      r == Failure(KeyError(MissingKey(keys[FirstRequiredMissing(entries, keys, defaults).value])))
    ensures FirstRequiredMissing(entries, keys, defaults).None? ==>
      r.Success? && |r.value| == |keys| && forall i :: 0 <= i < |keys| ==> Setting(entries, keys[i], defaults[i]) == Success(r.value[i])
    decreases |keys|
  {
    if |keys| == 0 then Success([])
    else
      var first :- Setting(entries, keys[0], defaults[0]);
      var rest :- ReadSettings(entries, keys[1..], defaults[1..]);
      Success([first] + rest)
  }

  // ---------------------------------------------------------------------------
  // The plant object
  // ---------------------------------------------------------------------------

  /** The configuration as stored: whatever the document held. */
  datatype Settings = Settings(
    surfaceAzimuth: Value,
    surfaceTilt: Value,
    modulesPerString: Value,
    stringsPerInverter: Value,
    numberOfInverters: Value,
    albedo: Value,
    moduleInstallation: Value,
    moduleName: Value,
    lossesIrradiation: Value,
    lossesDCDatasheet: Value,
    lossesDCCables: Value,
    modulesDatabaseType: Value,
    useInverterDatabase: Value,
    inverterName: Value,
    useStandByPowerInverter: Value,
    inverterEta: Value)

  /** What `calculateProfileMetrics` derives: the profile's sum, the profile per
      square metre, that sum per square metre and per kWp. */
  datatype Metrics = Metrics(profileSum: real, profileArea: seq<real>, profileAreaSum: real, kwpSum: real)

  datatype Plant = Plant(
    uid: Value,
    settings: Settings,
    modulesDatabasePath: string,
    invertersDatabasePath: string,
    energyProfile: Option<seq<real>>,
    surfaceArea: Option<real>,
    systemKWP: Option<real>,
    metrics: Option<Metrics>)

  /** The document keys, in the order `serialize` writes them. */
  const SettingKeys: seq<string> := [
    "surfaceAzimuth", "surfaceTilt", "modulesPerString", "stringsPerInverter", "numberOfInverters",
    "albedo", "moduleInstallation", "moduleName", "lossesIrradiation", "lossesDCDatasheet",
    "lossesDCCables", "modulesDatabaseType", "useInverterDatabase", "inverterName",
    "useStandByPowerInverter", "inverterEta"]

  /** The defaults `deserialize` gives, key by key; `moduleName` and
      `inverterName` have none. */
  const SettingDefaults: seq<Option<Value>> := [
    Some(VInt(0)), Some(VInt(0)), Some(VInt(0)), Some(VInt(0)), Some(VInt(0)),
    Some(VFloat(0.2)), Some(VInt(1)), None, Some(VFloat(1.0)), Some(VFloat(2.0)),
    Some(VFloat(0.0)), Some(VInt(2)), Some(VBool(false)), None,
    Some(VBool(false)), Some(VFloat(0.92))]

  /** The settings in the order of `SettingKeys`. */
  function SettingValues(s: Settings): (v: seq<Value>)
    ensures |v| == 16
  {
    [s.surfaceAzimuth, s.surfaceTilt, s.modulesPerString, s.stringsPerInverter, s.numberOfInverters,
     s.albedo, s.moduleInstallation, s.moduleName, s.lossesIrradiation, s.lossesDCDatasheet,
     s.lossesDCCables, s.modulesDatabaseType, s.useInverterDatabase, s.inverterName,
     s.useStandByPowerInverter, s.inverterEta]
  }

  /** The settings made of sixteen values in key order. */
  function FromValues(v: seq<Value>): (s: Settings)
    requires |v| == 16
    ensures SettingValues(s) == v
  {
    var s := Settings(v[0], v[1], v[2], v[3], v[4], v[5], v[6], v[7], v[8], v[9], v[10], v[11], v[12], v[13], v[14], v[15]);
    assert SettingValues(s) == v;
    s
  }

  /** The values determine the settings. */
  lemma SettingValuesInjective(a: Settings, b: Settings)
    requires SettingValues(a) == SettingValues(b)
    ensures a == b
  {
    assert forall i :: 0 <= i < 16 ==> SettingValues(a)[i] == SettingValues(b)[i];
  }

  /** The constructor: the database paths follow from the type, so an
      unsupported type fails here; the result fields start empty. */
  function Construct(uid: Value, s: Settings): (r: Result<Plant, PyError>)
    ensures r.Success? <==> NumEq(s.modulesDatabaseType, 1) || NumEq(s.modulesDatabaseType, 2)
    ensures r.Failure? ==> r.error == Unsupported(s.modulesDatabaseType)
    ensures r.Success? ==> (r.value.uid == uid && r.value.settings == s
      && (r.value.modulesDatabasePath, r.value.invertersDatabasePath) == ObjectDatabasePaths(SrcRoot, s.modulesDatabaseType).value
      && r.value.energyProfile.None? && r.value.surfaceArea.None? && r.value.systemKWP.None? && r.value.metrics.None?)
  {
    var (modules, inverters) :- ObjectDatabasePaths(SrcRoot, s.modulesDatabaseType);
    Success(Plant(uid, s, modules, inverters, None, None, None, None))
  }

  /** A plant as the constructor leaves it. */
  predicate Constructed(p: Plant) {
    Construct(p.uid, p.settings) == Success(p)
  }

  /** `deserialize`: `dictor` with defaults for every key but `moduleName` and
      `inverterName`, which must be present; a fresh `uid` unless the document
      has one. Something other than a dict cannot be read at all. */
  function Deserialize(json: Value, freshUid: Value): (r: Result<Plant, PyError>)
    ensures !json.VDict? ==> r.Failure? && r.error.TypeError?
    ensures json.VDict? && "moduleName" !in json.entries ==> r == Failure(KeyError(MissingKey("moduleName")))
    ensures json.VDict? && "moduleName" in json.entries && "inverterName" !in json.entries ==>
      r == Failure(KeyError(MissingKey("inverterName")))
    ensures json.VDict? && "moduleName" in json.entries && "inverterName" in json.entries ==>
      r.Success? || r.error.Unsupported?
    ensures r.Success? ==> (json.VDict? && Constructed(r.value)
      && r.value.uid == FieldOr(json.entries, "uid", freshUid)
      && forall i :: 0 <= i < 16 ==>
           Setting(json.entries, SettingKeys[i], SettingDefaults[i]) == Success(SettingValues(r.value.settings)[i]))
  {
    if !json.VDict? then Failure(TypeError("string indices must be integers"))
    else
      var e := json.entries;
      RequiredSettings(e);
      var values :- ReadSettings(e, SettingKeys, SettingDefaults);
      Construct(FieldOr(e, "uid", freshUid), FromValues(values))
  }

  /** The keys that have a default are neither of the two required ones. */
  lemma DefaultedKeys()
    ensures forall i :: 0 <= i < 16 && SettingDefaults[i].Some? ==>
      SettingKeys[i] != "moduleName" && SettingKeys[i] != "inverterName"
  {
    forall i | 0 <= i < 16 && SettingDefaults[i].Some?
      ensures SettingKeys[i] != "moduleName" && SettingKeys[i] != "inverterName"
    {
      var k := SettingKeys[i];
      assert k[0] != 'm' || k[1] != 'o' || |k| != 10;
      assert k[0] != 'i' || |k| != 12;
    }
  }

  /** Only `moduleName` and `inverterName` are required, in that order. */
  lemma RequiredSettings(e: map<string, Value>)
    ensures SettingKeys[7] == "moduleName" && SettingKeys[13] == "inverterName"
    ensures "moduleName" !in e ==> FirstRequiredMissing(e, SettingKeys, SettingDefaults) == Some(7)
    ensures "moduleName" in e && "inverterName" !in e ==> FirstRequiredMissing(e, SettingKeys, SettingDefaults) == Some(13)
    ensures "moduleName" in e && "inverterName" in e ==> FirstRequiredMissing(e, SettingKeys, SettingDefaults).None?
  {
    RequiredIndices();
    var r := FirstRequiredMissing(e, SettingKeys, SettingDefaults);
    if "moduleName" !in e {
      assert SettingDefaults[7].None? && SettingKeys[7] !in e;
      assert r.Some? && r.value == 7;
    } else if "inverterName" !in e {
      assert SettingDefaults[13].None? && SettingKeys[13] !in e;
      assert r.Some? && r.value == 13;
    }
  }

  /** Exactly the settings at 7 and 13 have no default; they are read under
      `moduleName` and `inverterName`. */
  lemma RequiredIndices()
    ensures forall i :: 0 <= i < 16 ==> (SettingDefaults[i].None? <==> i == 7 || i == 13)
    ensures SettingKeys[7] == "moduleName" && SettingKeys[13] == "inverterName"
  {
  }

  /** `serialize`: the sixteen settings under their keys; neither the `uid` nor
      any result is written. */
  function Serialize(p: Plant): (d: Value)
    ensures d.VDict? && "uid" !in d.entries
    ensures forall k :: k in d.entries ==> k in SettingKeys
    ensures forall i :: 0 <= i < 16 ==> SettingKeys[i] in d.entries && d.entries[SettingKeys[i]] == SettingValues(p.settings)[i]
  {
    var s := p.settings;
    VDict(map[
      "surfaceAzimuth" := s.surfaceAzimuth,
      "surfaceTilt" := s.surfaceTilt,
      "modulesPerString" := s.modulesPerString,
      "stringsPerInverter" := s.stringsPerInverter,
      "numberOfInverters" := s.numberOfInverters,
      "albedo" := s.albedo,
      "moduleInstallation" := s.moduleInstallation,
      "moduleName" := s.moduleName,
      "lossesIrradiation" := s.lossesIrradiation,
      "lossesDCDatasheet" := s.lossesDCDatasheet,
      "lossesDCCables" := s.lossesDCCables,
      "modulesDatabaseType" := s.modulesDatabaseType,
      "useInverterDatabase" := s.useInverterDatabase,
      "inverterName" := s.inverterName,
      "useStandByPowerInverter" := s.useStandByPowerInverter,
      "inverterEta" := s.inverterEta])
  }

  /** A setting `dictor` reads back unchanged: anything but a string that
      `float()` accepts. */
  predicate Stable(s: Settings) {
    forall i :: 0 <= i < 16 && SettingDefaults[i].Some? ==> Coerce(SettingValues(s)[i]) == SettingValues(s)[i]
  }

  /** Reading back what was written gives the plant again, with a new `uid`
      and empty results, provided no setting is a numeric string (which
      `dictor` would turn into a float). */
  lemma SerializeRoundTrip(p: Plant, freshUid: Value)
    requires Construct(p.uid, p.settings).Success?
    requires Stable(p.settings)
    ensures Deserialize(Serialize(p), freshUid) == Construct(freshUid, p.settings)
  {
    var d := Serialize(p);
    var e := d.entries;
    RequiredSettings(e);
    ReadSettingsOf(e, SettingKeys, SettingDefaults, SettingValues(p.settings));
    var r := Deserialize(d, freshUid);
    SettingValuesInjective(r.value.settings, p.settings);
  }

  /** Reading succeeds with `v` when every single setting reads as `v` does. */
  lemma ReadSettingsOf(e: map<string, Value>, keys: seq<string>, defaults: seq<Option<Value>>, v: seq<Value>)
    requires |keys| == |defaults| == |v|
    requires forall i :: 0 <= i < |keys| ==> Setting(e, keys[i], defaults[i]) == Success(v[i])
    ensures ReadSettings(e, keys, defaults) == Success(v)
  {
    assert FirstRequiredMissing(e, keys, defaults).None?;
    var r := ReadSettings(e, keys, defaults).value;
    assert |r| == |v|;
    assert forall i :: 0 <= i < |keys| ==> r[i] == v[i];
    assert r == v;
  }

  /** No setting key holds a dot, so `dictor` reads each as one plain key.
      The keys are checked four at a time. */
  lemma SettingKeysUndotted()
    ensures forall i :: 0 <= i < 16 ==> '.' !in SettingKeys[i]
  {
    forall i | 0 <= i < 16
      ensures '.' !in SettingKeys[i]
    {
      if i < 4 { KeysUndotted0(i); }
      else if i < 8 { KeysUndotted4(i); }
      else if i < 12 { KeysUndotted8(i); }
      else { KeysUndotted12(i); }
    }
  }

  lemma KeysUndotted0(i: nat)
    requires 0 <= i < 4
    ensures '.' !in SettingKeys[i]
  {
    if i == 0 { assert '.' !in SettingKeys[0]; }
    else if i == 1 { assert '.' !in SettingKeys[1]; }
    else if i == 2 { assert '.' !in SettingKeys[2]; }
    else { assert '.' !in SettingKeys[3]; }
  }

  lemma KeysUndotted4(i: nat)
    requires 4 <= i < 8
    ensures '.' !in SettingKeys[i]
  {
    if i == 4 { assert '.' !in SettingKeys[4]; }
    else if i == 5 { assert '.' !in SettingKeys[5]; }
    else if i == 6 { assert '.' !in SettingKeys[6]; }
    else { assert '.' !in SettingKeys[7]; }
  }

  lemma KeysUndotted8(i: nat)
    requires 8 <= i < 12
    ensures '.' !in SettingKeys[i]
  {
    if i == 8 { assert '.' !in SettingKeys[8]; }
    else if i == 9 { assert '.' !in SettingKeys[9]; }
    else if i == 10 { assert '.' !in SettingKeys[10]; }
    else { assert '.' !in SettingKeys[11]; }
  }

  lemma KeysUndotted12(i: nat)
    requires 12 <= i < 16
    ensures '.' !in SettingKeys[i]
  {
    if i == 12 { assert '.' !in SettingKeys[12]; }
    else if i == 13 { assert '.' !in SettingKeys[13]; }
    else if i == 14 { assert '.' !in SettingKeys[14]; }
    else { assert '.' !in SettingKeys[15]; }
  }

  /** The settings read with a default are read by `dictor`. */
  lemma SettingIsDictor(e: map<string, Value>, i: nat)
    requires i < 16 && SettingDefaults[i].Some?
    ensures Dictor.Dictor(VDict(e), SettingKeys[i], SettingDefaults[i].value) == Setting(e, SettingKeys[i], SettingDefaults[i])
  {
    SettingKeysUndotted();
    DictorKey(e, SettingKeys[i], SettingDefaults[i].value);
  }

  /** A dict whose settings all read as `v` deserializes to the plant built
      from `v`. */
  lemma DeserializeDict(e: map<string, Value>, freshUid: Value, v: seq<Value>)
    requires |v| == 16 && forall i :: 0 <= i < 16 ==> Setting(e, SettingKeys[i], SettingDefaults[i]) == Success(v[i])
    ensures Deserialize(VDict(e), freshUid) == Construct(FieldOr(e, "uid", freshUid), FromValues(v))
  {
    ReadSettingsOf(e, SettingKeys, SettingDefaults, v);
  }

  /** The settings a document naming only the module and the inverter should
      give. */
  function DefaultSettings(moduleName: Value, inverterName: Value): Settings {
    Settings(VInt(0), VInt(0), VInt(0), VInt(0), VInt(0), VFloat(0.2), VInt(1), moduleName,
      VFloat(1.0), VFloat(2.0), VFloat(0.0), VInt(2), VBool(false), inverterName, VBool(false), VFloat(0.92))
  }

  /** Each setting of such a document reads as its default. */
  lemma DefaultsRead(moduleName: Value, inverterName: Value)
    ensures var e := map["moduleName" := moduleName, "inverterName" := inverterName];
      forall i :: 0 <= i < 16 ==>
        Setting(e, SettingKeys[i], SettingDefaults[i]) == Success(SettingValues(DefaultSettings(moduleName, inverterName))[i])
  {
    var e := map["moduleName" := moduleName, "inverterName" := inverterName];
    var v := SettingValues(DefaultSettings(moduleName, inverterName));
    DefaultedKeys();
    RequiredIndices();
    DefaultsMatch(moduleName, inverterName);
    forall i | 0 <= i < 16
      ensures Setting(e, SettingKeys[i], SettingDefaults[i]) == Success(v[i])
    {
      if SettingDefaults[i].Some? {
        assert SettingKeys[i] !in e;
      }
    }
  }

  /** The default settings hold each setting's default, and the two names. */
  lemma DefaultsMatch(moduleName: Value, inverterName: Value)
    ensures var v := SettingValues(DefaultSettings(moduleName, inverterName));
      v[7] == moduleName && v[13] == inverterName
      && forall i :: 0 <= i < 16 && SettingDefaults[i].Some? ==> v[i] == SettingDefaults[i].value
  {
  }

  /** A document naming only the module and the inverter gives the documented
      defaults, with the database type 2 (whose both paths are the CEC
      inverter database). */
  lemma DeserializeDefaults(moduleName: Value, inverterName: Value, freshUid: Value)
    ensures var r := Deserialize(VDict(map["moduleName" := moduleName, "inverterName" := inverterName]), freshUid);
      r.Success? && r.value.uid == freshUid
      && r.value.settings == Settings(VInt(0), VInt(0), VInt(0), VInt(0), VInt(0), VFloat(0.2), VInt(1), moduleName,
           VFloat(1.0), VFloat(2.0), VFloat(0.0), VInt(2), VBool(false), inverterName, VBool(false), VFloat(0.92))
      && r.value.modulesDatabasePath == SrcRoot + CecInverters && r.value.invertersDatabasePath == SrcRoot + CecInverters
  {
    var e := map["moduleName" := moduleName, "inverterName" := inverterName];
    var s := DefaultSettings(moduleName, inverterName);
    assert FieldOr(e, "uid", freshUid) == freshUid;
    DefaultsRead(moduleName, inverterName);
    DeserializeDict(e, freshUid, SettingValues(s));
    SettingValuesInjective(FromValues(SettingValues(s)), s);
    ConstructDefaults(freshUid, moduleName, inverterName);
  }

  /** Database type 2 builds with the CEC inverter database for both paths. */
  lemma ConstructDefaults(uid: Value, moduleName: Value, inverterName: Value)
    ensures Construct(uid, DefaultSettings(moduleName, inverterName))
      == Success(Plant(uid, DefaultSettings(moduleName, inverterName), SrcRoot + CecInverters, SrcRoot + CecInverters, None, None, None, None))
  {
    assert NumEq(VInt(2), 2) && !NumEq(VInt(2), 1);
  }

  /** The options advertise database type 1 as the default, but a document
      without the key is read with type 2. */
  lemma AdvertisedDatabaseTypeDiffers()
    ensures SettingKeys[11] == "modulesDatabaseType"
    ensures Options.Declared(Options.GetInteger("modulesDatabaseType", "", default := 1), "modulesDatabaseType").1 == VInt(1)
    ensures SettingDefaults[11] == Some(VInt(2))
  {
  }

  // ---------------------------------------------------------------------------
  // Profile metrics
  // ---------------------------------------------------------------------------

  /** `calculateProfileMetrics` on the three result fields, which are plain
      floats. Reading a result that was never set (`None`) raises a `TypeError`,
      and dividing by a zero area or kWp raises a `ZeroDivisionError`; the area is
      divided by before the kWp is read. */
  function ProfileMetrics(energy: Option<seq<real>>, area: Option<real>, kwp: Option<real>): (r: Result<Metrics, PyError>)
    ensures r.Success? <==> energy.Some? && area.Some? && kwp.Some? && area.value != 0.0 && kwp.value != 0.0
    ensures energy.None? || area.None? ==> r.Failure? && r.error.TypeError?
    ensures energy.Some? && area.Some? && area.value == 0.0 ==> r == Failure(ZeroDivisionError)
    ensures energy.Some? && area.Some? && area.value != 0.0 && kwp.None? ==> r.Failure? && r.error.TypeError?
    ensures energy.Some? && area.Some? && area.value != 0.0 && kwp == Some(0.0) ==> r == Failure(ZeroDivisionError)
    ensures r.Success? ==> (r.value.profileSum == Sum(energy.value)
      && |r.value.profileArea| == |energy.value|
      && (forall i :: 0 <= i < |energy.value| ==>
            r.value.profileArea[i] * area.value == energy.value[i])
      && r.value.profileAreaSum * area.value == r.value.profileSum
      && r.value.kwpSum * kwp.value == r.value.profileSum)
  {
    if energy.None? then Failure(TypeError("'NoneType' object is not iterable"))
    else if area.None? then Failure(TypeError("unsupported operand type(s) for /"))
    else
      var total := Sum(energy.value);
      var perArea :- DivEach(energy.value, area.value);
      var areaSum :- Div(total, area.value);
      if kwp.None? then Failure(TypeError("unsupported operand type(s) for /"))
      else
        var kwpSum :- Div(total, kwp.value);
        Success(Metrics(total, perArea, areaSum, kwpSum))
  }

  /** The per-area sum is the sum of the per-area profile. */
  lemma MetricsAgree(energy: seq<real>, area: real, kwp: real)
    requires area != 0.0 && kwp != 0.0
    ensures var m := ProfileMetrics(Some(energy), Some(area), Some(kwp)).value;
      Sum(m.profileArea) == m.profileAreaSum
  {
    var m := ProfileMetrics(Some(energy), Some(area), Some(kwp)).value;
    assert m.profileArea == DivideBy(energy, area);
    SumDivideBy(energy, area);
  }

  /** `calculateProfileMetrics` on a plant: the metrics are stored, nothing else
      changes. */
  function CalculateProfileMetrics(p: Plant): (r: Result<Plant, PyError>)
    ensures r.Success? <==> ProfileMetrics(p.energyProfile, p.surfaceArea, p.systemKWP).Success?
    ensures r.Success? ==> r.value == p.(metrics := Some(ProfileMetrics(p.energyProfile, p.surfaceArea, p.systemKWP).value))
  {
    var m :- ProfileMetrics(p.energyProfile, p.surfaceArea, p.systemKWP);
    Success(p.(metrics := Some(m)))
  }
}
