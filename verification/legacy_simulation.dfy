/** The simulation driver of the older object model (`simulatePVPlants` in
    `PVSImulation.py`): the pre-processing chosen by the untyped flags, the
    per-plant power computation on the untyped settings, the results stored in
    kWh and kWp together with the profile metrics, and the two tables with the
    result structure built from them. */
module LegacySimulation {
  import opened Wrappers
  import opened Series
  import opened Floats
  import opened PyValue
  import opened PowerModel
  import opened Aggregation
  import LegacyWeather
  import LegacyPlant
  import LegacyInput

  // ---------------------------------------------------------------------------
  // Pre-processing
  // ---------------------------------------------------------------------------

  /** The weather data after pre-processing and whether the warning was logged. */
  datatype Prepped = Prepped(weather: LegacyWeather.WeatherData, warned: bool)

  /** The two tests of `simulatePVPlants`, on the truthiness of the flags. A
      recalculation without adjustment logs the warning and recomputes the DNI.
      With both flags set, `adjustTimeStamp` is handed the shift it does not
      take and raises, so the recalculation after it is never reached. The
      first branch leaves the flags alone, so the second test cannot fire after it. */
  function PreProcess(w: LegacyWeather.WeatherData, model: LegacyWeather.LegacyDniModel): (r: Result<Prepped, PyError>)
    requires LegacyWeather.ValidFrame(w.frame)
    ensures !Truthy(w.shouldRecalculateDNI) ==> r == Success(Prepped(w, false))
    ensures Truthy(w.shouldAdjustTimestamp) && Truthy(w.shouldRecalculateDNI) ==> r.Failure? && r.error.TypeError?
    ensures !Truthy(w.shouldAdjustTimestamp) && Truthy(w.shouldRecalculateDNI) ==>
      (r.Success? <==> LegacyWeather.RecalculateDni(w, model).Success?)
    ensures !Truthy(w.shouldAdjustTimestamp) && Truthy(w.shouldRecalculateDNI) && r.Success? ==>
      r.value == Prepped(LegacyWeather.RecalculateDni(w, model).value, true)
    ensures r.Success? ==> (LegacyWeather.ValidFrame(r.value.weather.frame)
      && r.value.weather == w.(frame := r.value.weather.frame)
      && (r.value.warned <==> Truthy(w.shouldRecalculateDNI)))
  {
    var adjust := Truthy(w.shouldAdjustTimestamp);
    var recalculate := Truthy(w.shouldRecalculateDNI);
    if !adjust && recalculate then
      var done :- LegacyWeather.RecalculateDni(w, model);
      Success(Prepped(done, true))
    else if adjust && recalculate then
      Failure(LegacyWeather.AdjustTimeStampWith(w, w.timeshiftInMinutes).error)
    else
      Success(Prepped(w, false))
  }

  /** A weather document written by `serialize` and read back carries the two
      method objects as flags, which are both true: simulating it always raises. */
  lemma RoundTripWeatherCannotRun(w: LegacyWeather.WeatherData, stamps: LegacyWeather.Stamps,
                                  model: LegacyWeather.LegacyDniModel)
    requires LegacyWeather.ValidFrame(w.frame)
    requires forall t :: stamps.parse(stamps.render(t)) == Some(t)
    ensures var back := LegacyWeather.Deserialize(LegacyWeather.Serialize(w, stamps), stamps);
      back.Success? && LegacyWeather.ValidFrame(back.value.frame)
      && PreProcess(back.value, model).Failure? && PreProcess(back.value, model).error.TypeError?
  {
    LegacyWeather.RoundTripFlagsTruthy(w, stamps);
  }

  // ---------------------------------------------------------------------------
  // The per-plant computation
  // ---------------------------------------------------------------------------

  /** A setting used in arithmetic: a value that is no number raises. */
  function Number(v: Value, name: string): (r: Result<real, PyError>)
    ensures r.Success? <==> AsNumber(v).Some?
    ensures r.Success? ==> r.value == AsNumber(v).value
    ensures r.Failure? ==> r.error == TypeError(name)
  {
    match AsNumber(v)
    case Some(x) => Success(x)
    case None => Failure(TypeError(name))
  }

  /** A name setting as text. The names only select database entries, and that
      selection is made from the plant itself (see `ModulesAndInverters`). */
  function Name(v: Value): string {
    if v.VStr? then v.s else ""
  }

  /** Named settings converted in order: the first that is no number raises. */
  function Numbers(named: seq<(string, Value)>): (r: Result<seq<real>, PyError>)
    ensures r.Success? <==> forall i :: 0 <= i < |named| ==> AsNumber(named[i].1).Some?
    ensures r.Success? ==> |r.value| == |named| && forall i :: 0 <= i < |named| ==> r.value[i] == AsNumber(named[i].1).value
  {
    if |named| == 0 then Success([])
    else
      var x :- Number(named[0].1, named[0].0);
      var rest :- Numbers(named[1..]);
      Success([x] + rest)
  }

  /** A failed conversion names the first setting that is no number. */
  lemma {:induction false} NumbersFirstFailure(named: seq<(string, Value)>) returns (i: nat)
    requires Numbers(named).Failure?
    ensures FirstNonNumber(named, i) && Numbers(named).error == TypeError(named[i].0)
  {
    if AsNumber(named[0].1).None? {
      i := 0;
    } else {
      var k := NumbersFirstFailure(named[1..]);
      i := k + 1;
    }
  }

  /** `named[i]` is the first of the named values that is no number. */
  predicate FirstNonNumber(named: seq<(string, Value)>, i: nat) {
    i < |named| && AsNumber(named[i].1).None? && forall j :: 0 <= j < i ==> AsNumber(named[j].1).Some?
  }

  /** The coordinates handed to `Location` and the settings handed to
      `PVSystem`, in the order the source passes them. */
  function SystemInputs(s: LegacyPlant.Settings, w: LegacyWeather.WeatherData): (named: seq<(string, Value)>)
    ensures |named| == 8
  {
    [("latitude", w.latitude), ("longitude", w.longitude),
     ("surfaceTilt", s.surfaceTilt), ("surfaceAzimuth", s.surfaceAzimuth),
     ("modulesPerString", s.modulesPerString), ("stringsPerInverter", s.stringsPerInverter),
     ("lossesDCCables", s.lossesDCCables), ("lossesDCDatasheet", s.lossesDCDatasheet)]
  }

  /** A library as `retrieve_sam` returns it: database rows by entry name. */
  type Library = map<string, Record>

  /** The two ways of loading a library: from a file path, or one of the
      libraries shipped with the photovoltaic library by name. */
  datatype Catalogs = Catalogs(
    fromPath: string -> Result<Library, PyError>,
    builtIn: string -> Result<Library, PyError>)

  /** `library[name]`: a name that is not an entry of the library raises. */
  function Entry(lib: Library, name: Value, what: string): (r: Result<Record, PyError>)
    ensures r.Success? <==> name.VStr? && name.s in lib
    ensures r.Success? ==> r.value == lib[name.s]
    ensures r.Failure? ==> r.error == KeyError(what)
  {
    if name.VStr? && name.s in lib then Success(lib[name.s]) else Failure(KeyError(what))
  }

  /** The library loaded and has an entry of that name. */
  predicate Finds(lib: Result<Library, PyError>, name: Value) {
    lib.Success? && name.VStr? && name.s in lib.value
  }

  /** `getModulesAndInverters`: for the Sandia type both libraries are read from
      the plant's paths, for the CEC type from the shipped `cecmod` and
      `cecinverter` libraries; the module comes before the inverter. For any other
      type the method returns nothing, and unpacking that raises. */
  function ModulesAndInverters(p: LegacyPlant.Plant, catalogs: Catalogs): (r: Result<(Record, Record), PyError>)
    ensures !NumEq(p.settings.modulesDatabaseType, 1) && !NumEq(p.settings.modulesDatabaseType, 2) ==>
      r == Failure(TypeError("cannot unpack non-iterable NoneType object"))
    ensures NumEq(p.settings.modulesDatabaseType, 1) ==>
      var modules := catalogs.fromPath(p.modulesDatabasePath);
      var inverters := catalogs.fromPath(p.invertersDatabasePath);
      && (r.Success? <==> Finds(modules, p.settings.moduleName) && Finds(inverters, p.settings.inverterName))
      && (r.Success? ==> r.value == (modules.value[p.settings.moduleName.s], inverters.value[p.settings.inverterName.s]))
    ensures NumEq(p.settings.modulesDatabaseType, 2) ==>
      var modules := catalogs.builtIn("cecmod");
      var inverters := catalogs.builtIn("cecinverter");
      && (r.Success? <==> Finds(modules, p.settings.moduleName) && Finds(inverters, p.settings.inverterName))
      && (r.Success? ==> r.value == (modules.value[p.settings.moduleName.s], inverters.value[p.settings.inverterName.s]))
  {
    var databaseType := p.settings.modulesDatabaseType;
    if !NumEq(databaseType, 1) && !NumEq(databaseType, 2) then
      Failure(TypeError("cannot unpack non-iterable NoneType object"))
    else
      var modules :- if NumEq(databaseType, 1) then catalogs.fromPath(p.modulesDatabasePath) else catalogs.builtIn("cecmod");
      var inverters :- if NumEq(databaseType, 1) then catalogs.fromPath(p.invertersDatabasePath) else catalogs.builtIn("cecinverter");
      var m :- Entry(modules, p.settings.moduleName, "moduleName");
      var i :- Entry(inverters, p.settings.inverterName, "inverterName");
      Success((m, i))
  }

  /** The weather columns in the order the computation first reads them. */
  const ReadColumns: seq<string> := ["temp_air", "relative_humidity", "ghi", "dni", "dhi", "wind_speed"]

  /** The frame has every column the computation reads. */
  predicate HasReadColumns(f: LegacyWeather.Frame) {
    && "temp_air" in f.columns && "relative_humidity" in f.columns && "ghi" in f.columns
    && "dni" in f.columns && "dhi" in f.columns && "wind_speed" in f.columns
  }

  /** The weather columns read from the frame; the first one it lacks raises. */
  function ColumnsOf(f: LegacyWeather.Frame): (r: Result<WeatherColumns, PyError>)
    requires LegacyWeather.ValidFrame(f)
    ensures r.Success? <==> HasReadColumns(f)
    ensures r.Failure? ==> exists i :: (0 <= i < |ReadColumns| && r.error == KeyError(ReadColumns[i])
      && ReadColumns[i] !in f.columns && forall j :: 0 <= j < i ==> ReadColumns[j] in f.columns)
    ensures r.Success? ==> (r.value.Aligned() && r.value.index == f.index
      && r.value.ghi == f.columns["ghi"] && r.value.dni == f.columns["dni"] && r.value.dhi == f.columns["dhi"]
      && r.value.tempAir == f.columns["temp_air"] && r.value.windSpeed == f.columns["wind_speed"]
      && r.value.relativeHumidity == f.columns["relative_humidity"])
  {
    var cols := f.columns;
    assert ReadColumns[0] == "temp_air" && ReadColumns[1] == "relative_humidity" && ReadColumns[2] == "ghi";
    assert ReadColumns[3] == "dni" && ReadColumns[4] == "dhi" && ReadColumns[5] == "wind_speed";
    if "temp_air" !in cols then Failure(KeyError("temp_air"))
    else if "relative_humidity" !in cols then Failure(KeyError("relative_humidity"))
    else if "ghi" !in cols then Failure(KeyError("ghi"))
    else if "dni" !in cols then Failure(KeyError("dni"))
    else if "dhi" !in cols then Failure(KeyError("dhi"))
    else if "wind_speed" !in cols then Failure(KeyError("wind_speed"))
    else Success(WeatherColumns(f.index, cols["ghi"], cols["dni"], cols["dhi"], cols["temp_air"], cols["wind_speed"],
      cols["relative_humidity"]))
  }

  /** The calls into the photovoltaic library the legacy computation makes. */
  datatype LegacyCollaborators = LegacyCollaborators(
    catalogs: Catalogs,
    precipitableWater: (real, real) -> real,
    newChain: ChainSetup -> Result<(), PyError>,
    runModel: ChainSetup -> Result<(real, ChainInput) -> DcPoint, PyError>,
    sandia: (Record, Num, Num) -> Num)

  /** The collaborators of the shared computation for plant `p`: its database
      entries are looked up from the plant. */
  function ForPlant(p: LegacyPlant.Plant, c: LegacyCollaborators): (collab: Collaborators)
    ensures forall cfg :: collab.lookup(cfg) == ModulesAndInverters(p, c.catalogs)
    ensures collab.precipitableWater == c.precipitableWater && collab.sandia == c.sandia
  {
    Collaborators((cfg: PlantConfig) => ModulesAndInverters(p, c.catalogs), c.precipitableWater,
      c.newChain, c.runModel, c.sandia)
  }

  /** The constructed model chain: the database rows, the converted coordinates
      and system settings (in the order of `SystemInputs`), and the setup. */
  datatype Chain = Chain(moduleRow: Record, inverter: Record, system: seq<real>, setup: ChainSetup)

  /** The model chain's setup from the converted coordinates and system settings. */
  function SetupOf(moduleRow: Record, inverter: Record, thermal: string, system: seq<real>, dcModel: string): ChainSetup
    requires |system| == 8
  {
    ChainSetup(system[2], system[3], moduleRow, inverter, thermal, system[4], system[5], system[6], system[7],
      system[0], system[1], dcModel)
  }

  /** `CalcPVPowerProfile` up to constructing the model chain: the database
      lookup, the installation type, the coordinates and system settings, the
      database type, then the construction, each failing in that order. */
  function ChainOf(p: LegacyPlant.Plant, w: LegacyWeather.WeatherData, c: LegacyCollaborators): (r: Result<Chain, PyError>)
    ensures ModulesAndInverters(p, c.catalogs).Failure? ==> r == Failure(ModulesAndInverters(p, c.catalogs).error)
    ensures ModulesAndInverters(p, c.catalogs).Success? && ThermalClass(p.settings.moduleInstallation).Failure? ==>
      r == Failure(KeyError("moduleInstallation"))
    ensures (ModulesAndInverters(p, c.catalogs).Success? && ThermalClass(p.settings.moduleInstallation).Success?
             && Numbers(SystemInputs(p.settings, w)).Failure?) ==>
      r == Failure(Numbers(SystemInputs(p.settings, w)).error)
    ensures (ModulesAndInverters(p, c.catalogs).Success? && ThermalClass(p.settings.moduleInstallation).Success?
             && Numbers(SystemInputs(p.settings, w)).Success? && DcModel(p.settings.modulesDatabaseType).Failure?) ==>
      r == Failure(KeyError("modulesDatabaseType"))
    ensures (ModulesAndInverters(p, c.catalogs).Success? && ThermalClass(p.settings.moduleInstallation).Success?
             && Numbers(SystemInputs(p.settings, w)).Success? && DcModel(p.settings.modulesDatabaseType).Success?) ==>
      var (moduleRow, inverter) := ModulesAndInverters(p, c.catalogs).value;
      var system := Numbers(SystemInputs(p.settings, w)).value;
      var setup := SetupOf(moduleRow, inverter, ThermalClass(p.settings.moduleInstallation).value, system,
                           DcModel(p.settings.modulesDatabaseType).value);
      && (r.Success? <==> c.newChain(setup).Success?)
      && (r.Failure? ==> r.error == c.newChain(setup).error)
      && (r.Success? ==> r.value == Chain(moduleRow, inverter, system, setup))
  {
    var (moduleRow, inverter) :- ModulesAndInverters(p, c.catalogs);
    var thermal :- ThermalClass(p.settings.moduleInstallation);
    var system :- Numbers(SystemInputs(p.settings, w));
    var dcModel :- DcModel(p.settings.modulesDatabaseType);
    var setup := SetupOf(moduleRow, inverter, thermal, system, dcModel);
    var _ :- c.newChain(setup);
    Success(Chain(moduleRow, inverter, system, setup))
  }

  /** The weather table's inputs: the weather columns, the albedo and the
      irradiation losses. */
  datatype Inputs = Inputs(cols: WeatherColumns, albedo: real, lossesIrradiation: real)

  /** The reads that build the weather table, in order: `temp_air` and
      `relative_humidity`, the albedo, the irradiation losses, then `ghi`,
      `dni`, `dhi` and `wind_speed`. */
  function InputsOf(s: LegacyPlant.Settings, f: LegacyWeather.Frame): (r: Result<Inputs, PyError>)
    requires LegacyWeather.ValidFrame(f)
    ensures !("temp_air" in f.columns && "relative_humidity" in f.columns) ==> r == Failure(ColumnsOf(f).error)
    ensures "temp_air" in f.columns && "relative_humidity" in f.columns && AsNumber(s.albedo).None? ==>
      r == Failure(TypeError("albedo"))
    ensures ("temp_air" in f.columns && "relative_humidity" in f.columns && AsNumber(s.albedo).Some?
             && AsNumber(s.lossesIrradiation).None?) ==> r == Failure(TypeError("lossesIrradiation"))
    ensures AsNumber(s.albedo).Some? && AsNumber(s.lossesIrradiation).Some? ==>
      && (r.Success? <==> ColumnsOf(f).Success?)
      && (r.Failure? ==> r.error == ColumnsOf(f).error)
      && (r.Success? ==> r.value == Inputs(ColumnsOf(f).value, AsNumber(s.albedo).value, AsNumber(s.lossesIrradiation).value))
  {
    if "temp_air" !in f.columns || "relative_humidity" !in f.columns then Failure(ColumnsOf(f).error)
    else
      var albedo :- Number(s.albedo, "albedo");
      var irradiation :- Number(s.lossesIrradiation, "lossesIrradiation");
      var cols :- ColumnsOf(f);
      Success(Inputs(cols, albedo, irradiation))
  }

  /** The configuration the shared computation reads: the converted numbers,
      the two switches by truthiness and the two selectors as they are, since
      they are used as dictionary keys. The efficiency is only read when the
      inverter database is not used. */
  function ConfigFrom(s: LegacyPlant.Settings, system: seq<real>, inputs: Inputs, inverters: real, eta: real): (cfg: PlantConfig)
    requires |system| == 8
    ensures cfg.moduleInstallation == s.moduleInstallation && cfg.modulesDatabaseType == s.modulesDatabaseType
    ensures cfg.useInverterDatabase <==> Truthy(s.useInverterDatabase)
    ensures cfg.useStandByPowerInverter <==> Truthy(s.useStandByPowerInverter)
  {
    PlantConfig(system[3], system[2], system[4], system[5], inverters, inputs.albedo, s.moduleInstallation,
      Name(s.moduleName), inputs.lossesIrradiation, system[7], system[6], s.modulesDatabaseType,
      Truthy(s.useInverterDatabase), Name(s.inverterName), Truthy(s.useStandByPowerInverter), eta)
  }

  /** The inverter efficiency as the source reads it: only without the inverter
      database. With the database the value is never read, and the
      configuration carries 0 in its place. */
  function EtaOf(s: LegacyPlant.Settings): (r: Result<real, PyError>)
    ensures Truthy(s.useInverterDatabase) ==> r == Success(0.0)
    ensures !Truthy(s.useInverterDatabase) ==> r == Number(s.inverterEta, "inverterEta")
  {
    if Truthy(s.useInverterDatabase) then Success(0.0) else Number(s.inverterEta, "inverterEta")
  }

  /** `CalcPVPowerProfile` up to the AC conversion: the constructed chain, the
      weather inputs, running the chain, the number of inverters (which gives the
      count of modules) and the efficiency, each failing in that order. */
  function Configured(p: LegacyPlant.Plant, w: LegacyWeather.WeatherData, c: LegacyCollaborators)
    : (r: Result<(PlantConfig, Prepared), PyError>)
    requires LegacyWeather.ValidFrame(w.frame)
    ensures ChainOf(p, w, c).Failure? ==> r == Failure(ChainOf(p, w, c).error)
    ensures ChainOf(p, w, c).Success? && InputsOf(p.settings, w.frame).Failure? ==>
      r == Failure(InputsOf(p.settings, w.frame).error)
    ensures ChainOf(p, w, c).Success? && InputsOf(p.settings, w.frame).Success? ==>
      var run := c.runModel(ChainOf(p, w, c).value.setup);
      && (run.Failure? ==> r == Failure(run.error))
      && (run.Success? && AsNumber(p.settings.numberOfInverters).None? ==> r == Failure(TypeError("numberOfInverters")))
      && (run.Success? && AsNumber(p.settings.numberOfInverters).Some? ==>
            && (r.Success? <==> EtaOf(p.settings).Success?)
            && (r.Failure? ==> r.error == TypeError("inverterEta")))
    ensures r.Success? ==> var chain := ChainOf(p, w, c).value;
      var inputs := InputsOf(p.settings, w.frame).value;
      && ChainOf(p, w, c).Success? && InputsOf(p.settings, w.frame).Success?
      && r.value.0 == ConfigFrom(p.settings, chain.system, inputs, AsNumber(p.settings.numberOfInverters).value,
                                 EtaOf(p.settings).value)
      && r.value.1 == Prepared(chain.moduleRow, chain.inverter, inputs.cols, c.runModel(chain.setup).value)
  {
    var chain :- ChainOf(p, w, c);
    var inputs :- InputsOf(p.settings, w.frame);
    var run :- c.runModel(chain.setup);
    var inverters :- Number(p.settings.numberOfInverters, "numberOfInverters");
    var eta :- EtaOf(p.settings);
    Success((ConfigFrom(p.settings, chain.system, inputs, inverters, eta),
             Prepared(chain.moduleRow, chain.inverter, inputs.cols, run)))
  }

  /** `CalcPVPowerProfile` for plant `p` on weather `w`, in Wh, m^2 and W. */
  function PlantCalc(p: LegacyPlant.Plant, w: LegacyWeather.WeatherData, c: LegacyCollaborators): (r: Result<PowerResult, PyError>)
    requires LegacyWeather.ValidFrame(w.frame)
    ensures Configured(p, w, c).Failure? ==> r == Failure(Configured(p, w, c).error)
    ensures Configured(p, w, c).Success? ==> r.Success? || r.error.AttributeError?
    ensures r.Success? ==> var (cfg, prep) := Configured(p, w, c).value;
      && Configured(p, w, c).Success? && prep.cols.Aligned()
      && |r.value.energy| == |w.frame.index|
      && r.value.energy == EnergyProfile(PlantPower(cfg, prep.cols, prep.run, prep.inverter, ForPlant(p, c)))
      && RatedAndArea(p.settings.modulesDatabaseType, prep.moduleRow, ModuleCount(cfg)) == Success((r.value.rated, r.value.area))
    ensures r.Success? && !Truthy(p.settings.useStandByPowerInverter) ==>
      forall i :: 0 <= i < |r.value.energy| ==> r.value.energy[i] >= 0.0
  {
    var (cfg, prep) :- Configured(p, w, c);
    Finish(cfg, prep, ForPlant(p, c))
  }

  /** With the inverter database in use the efficiency is never read: the
      computation does not depend on it, whatever it holds. */
  lemma EtaUnreadWithDatabase(p: LegacyPlant.Plant, w: LegacyWeather.WeatherData, c: LegacyCollaborators, eta: Value)
    requires LegacyWeather.ValidFrame(w.frame)
    requires Truthy(p.settings.useInverterDatabase)
    ensures PlantCalc(p.(settings := p.settings.(inverterEta := eta)), w, c) == PlantCalc(p, w, c)
  {
    var q := p.(settings := p.settings.(inverterEta := eta));
    assert ModulesAndInverters(q, c.catalogs) == ModulesAndInverters(p, c.catalogs);
    assert SystemInputs(q.settings, w) == SystemInputs(p.settings, w);
    assert ChainOf(q, w, c) == ChainOf(p, w, c);
    assert InputsOf(q.settings, w.frame) == InputsOf(p.settings, w.frame);
    assert Configured(q, w, c) == Configured(p, w, c);
    assert ForPlant(q, c) == ForPlant(p, c);
  }

  /** The plant after its computation: the profile is stored in kWh, the area in
      m^2 and the rated power in kWp, and the profile metrics are computed from
      them. Those divide plain floats, so a zero area or rated power raises
      `ZeroDivisionError`. Nothing else about the plant changes. */
  function Store(p: LegacyPlant.Plant, r: PowerResult): (q: Result<LegacyPlant.Plant, PyError>)
    ensures q.Success? <==> r.area != 0.0 && r.rated != 0.0
    ensures q.Failure? ==> q.error == ZeroDivisionError
    ensures q.Success? ==> var v := q.value;
      && v.energyProfile.Some? && |v.energyProfile.value| == |r.energy|
      && (forall i :: 0 <= i < |r.energy| ==> v.energyProfile.value[i] * 1000.0 == r.energy[i])
      && v.surfaceArea == Some(r.area)
      && v.systemKWP.Some? && v.systemKWP.value * 1000.0 == r.rated
      && v.metrics.Some? && v.metrics.value.profileSum * 1000.0 == Sum(r.energy)
      && |v.metrics.value.profileArea| == |r.energy|
      && (forall i :: 0 <= i < |r.energy| ==> v.metrics.value.profileArea[i] * r.area == v.energyProfile.value[i])
    ensures q.Success? ==> q.value.(energyProfile := p.energyProfile, surfaceArea := p.surfaceArea,
                                    systemKWP := p.systemKWP, metrics := p.metrics) == p
  {
    var kwh := DivideBy(r.energy, 1000.0);
    SumDivideBy(r.energy, 1000.0);
    var updated := p.(energyProfile := Some(kwh), surfaceArea := Some(r.area), systemKWP := Some(r.rated / 1000.0));
    LegacyPlant.CalculateProfileMetrics(updated)
  }

  /** The stored area-specific profile is the one the energy table derives from
      the stored profile and area. */
  lemma StoredAreaProfile(p: LegacyPlant.Plant, r: PowerResult)
    requires Store(p, r).Success?
    ensures var q := Store(p, r).value;
      Present(q.metrics.value.profileArea) == AreaProfile(OutcomeOf(q))
  {
    var q := Store(p, r).value;
    var stored := q.metrics.value.profileArea;
    var derived := AreaProfile(OutcomeOf(q));
    forall i | 0 <= i < |r.energy| ensures Present(stored)[i] == derived[i] {
      QuotOfProduct(stored[i], r.area, q.energyProfile.value[i]);
    }
  }

  /** `x * d == y` with `d != 0` makes `x` the quotient `y / d`. */
  lemma QuotOfProduct(x: real, d: real, y: real)
    requires d != 0.0 && x * d == y
    ensures Quot(y, d) == Some(x)
  {
    assert Quot(y, d).value * d == x * d;
  }

  /** One pass of the plant loop: compute the plant, then store its results. */
  function Step(p: LegacyPlant.Plant, w: LegacyWeather.WeatherData, c: LegacyCollaborators)
    : (r: Result<LegacyPlant.Plant, PyError>)
    requires LegacyWeather.ValidFrame(w.frame)
    ensures r.Success? <==> PlantCalc(p, w, c).Success? && Store(p, PlantCalc(p, w, c).value).Success?
    ensures r.Success? ==> r == Store(p, PlantCalc(p, w, c).value)
    ensures PlantCalc(p, w, c).Failure? ==> r.error == PlantCalc(p, w, c).error
    ensures PlantCalc(p, w, c).Success? && r.Failure? ==> r.error == ZeroDivisionError
  {
    var result :- PlantCalc(p, w, c);
    Store(p, result)
  }

  /** The plant loop: plants `0 .. k-1` computed in order and updated; the first
      plant whose computation raises ends the simulation with that error. */
  function SimulatePlants(plants: seq<LegacyPlant.Plant>, w: LegacyWeather.WeatherData, c: LegacyCollaborators, k: nat)
    : (r: Result<seq<LegacyPlant.Plant>, PyError>)
    requires k <= |plants|
    requires LegacyWeather.ValidFrame(w.frame)
    ensures r.Success? <==> forall i :: 0 <= i < k ==> Step(plants[i], w, c).Success?
    ensures r.Success? ==> |r.value| == k && forall i :: 0 <= i < k ==> r.value[i] == Step(plants[i], w, c).value
  {
    CollectAll(StepAt(plants, w, c), k)
  }

  /** The loop body as a function of the plant's position. */
  function StepAt(plants: seq<LegacyPlant.Plant>, w: LegacyWeather.WeatherData, c: LegacyCollaborators)
    : (f: nat -> Result<LegacyPlant.Plant, PyError>)
    requires LegacyWeather.ValidFrame(w.frame)
    ensures forall i :: 0 <= i < |plants| ==> f(i) == Step(plants[i], w, c)
  {
    (i: nat) => if i < |plants| then Step(plants[i], w, c) else Failure(IndexError)
  }

  /** A failing loop raises the error of the first plant whose step raises; the
      plants before it were all computed. */
  lemma SimulatePlantsFirstFailure(plants: seq<LegacyPlant.Plant>, w: LegacyWeather.WeatherData, c: LegacyCollaborators,
                                   k: nat) returns (i: nat)
    requires k <= |plants|
    requires LegacyWeather.ValidFrame(w.frame)
    requires SimulatePlants(plants, w, c, k).Failure?
    ensures i < k && Step(plants[i], w, c) == Failure(SimulatePlants(plants, w, c, k).error)
    ensures forall j :: 0 <= j < i ==> Step(plants[j], w, c).Success?
  {
    i := CollectAllFirstFailure(StepAt(plants, w, c), k);
  }

  /** What the tables read of a computed plant: its profile, area and kWp. */
  function OutcomeOf(p: LegacyPlant.Plant): PlantOutcome
    requires Computed(p)
  {
    PlantOutcome(p.energyProfile.value, p.surfaceArea.value, p.systemKWP.value)
  }

  /** A plant holding what its computation stores; its area is non-zero, since
      the profile metrics divide by it. */
  predicate Computed(p: LegacyPlant.Plant) {
    p.energyProfile.Some? && p.surfaceArea.Some? && p.systemKWP.Some? && p.surfaceArea.value != 0.0
  }

  function Outcomes(plants: seq<LegacyPlant.Plant>): (o: seq<PlantOutcome>)
    requires forall i :: 0 <= i < |plants| ==> Computed(plants[i])
    ensures |o| == |plants| && forall i :: 0 <= i < |plants| ==> o[i] == OutcomeOf(plants[i])
  {
    seq(|plants|, i requires 0 <= i < |plants| => OutcomeOf(plants[i]))
  }

  /** Every computed profile has one entry per weather record, so the computed
      plants fit into one table. */
  lemma ComputedPlantsAligned(input: seq<LegacyPlant.Plant>, w: LegacyWeather.WeatherData, c: LegacyCollaborators,
                              plants: seq<LegacyPlant.Plant>)
    requires LegacyWeather.ValidFrame(w.frame)
    requires SimulatePlants(input, w, c, |input|) == Success(plants)
    ensures forall i :: 0 <= i < |plants| ==> Computed(plants[i])
    ensures Aligned(Outcomes(plants))
    ensures |plants| > 0 ==> Rows(Outcomes(plants)) == |w.frame.index|
  {
    var outcomes := Outcomes(plants);
    forall i | 0 <= i < |plants|
      ensures |outcomes[i].energy| == |w.frame.index|
    {
      assert Step(input[i], w, c).Success?;
      var computed := PlantCalc(input[i], w, c);
      assert Success(plants[i]) == Store(input[i], computed.value);
    }
  }

  // ---------------------------------------------------------------------------
  // The whole simulation
  // ---------------------------------------------------------------------------

  /** What `simulatePVPlants` returns, with the updated plants and whether the
      warning was logged. */
  datatype SimulationOutput = SimulationOutput(results: SodeleResults, plants: seq<LegacyPlant.Plant>, warned: bool)

  /** Both tables and the result structure: the energy table first, whose fleet
      area-specific profile is the mean of the plants', then the summary, which
      raises numpy's axis error without plants. */
  function Assemble(plants: seq<LegacyPlant.Plant>): (r: Result<SodeleResults, PyError>)
    requires forall i :: 0 <= i < |plants| ==> Computed(plants[i])
    requires Aligned(Outcomes(plants))
    ensures |plants| == 0 ==> r == Failure(AxisError)
    ensures |plants| > 0 ==> r.Success?
  {
    var outcomes := Outcomes(plants);
    var frame := EnergyFrame(outcomes, MeanOfPlants).value;
    var summary :- Summary(outcomes);
    ResultsFaithful(outcomes, MeanOfPlants);
    BuildResults(|plants|, frame, ProfileKeys(|plants|), AreaKeys(|plants|), summary, SummaryKeys(|plants|))
  }

  /** With plants, the assembled results are what the stored plants promise,
      with the fleet's area-specific profile averaged over the plants. */
  lemma AssembleFaithful(plants: seq<LegacyPlant.Plant>)
    requires forall i :: 0 <= i < |plants| ==> Computed(plants[i])
    requires Aligned(Outcomes(plants))
    requires |plants| > 0
    ensures Assemble(plants) == Success(ExpectedResults(Outcomes(plants), MeanOfPlants))
  {
    ResultsFaithful(Outcomes(plants), MeanOfPlants);
  }

  /** The plant loop run on the pre-processed weather. */
  function Run(input: LegacyInput.SrcInput, c: LegacyCollaborators, w: LegacyWeather.WeatherData)
    : Result<seq<LegacyPlant.Plant>, PyError>
    requires LegacyWeather.ValidFrame(w.frame)
  {
    SimulatePlants(input.plants, w, c, |input.plants|)
  }

  /** `simulatePVPlants`: pre-process the weather, compute every plant, then
      build the tables and the result structure. */
  function Simulate(input: LegacyInput.SrcInput, c: LegacyCollaborators, model: LegacyWeather.LegacyDniModel)
    : (r: Result<SimulationOutput, PyError>)
    requires LegacyWeather.ValidFrame(input.weather.frame)
    ensures PreProcess(input.weather, model).Failure? ==> r == Failure(PreProcess(input.weather, model).error)
    ensures PreProcess(input.weather, model).Success? ==> var w := PreProcess(input.weather, model).value;
      && (r.Success? <==> Run(input, c, w.weather).Success? && |input.plants| > 0)
      && (Run(input, c, w.weather).Failure? ==> r == Failure(Run(input, c, w.weather).error))
      && (Run(input, c, w.weather).Success? && |input.plants| == 0 ==> r == Failure(AxisError))
      && (r.Success? ==> r.value.plants == Run(input, c, w.weather).value && r.value.warned == w.warned)
  {
    var prepped :- PreProcess(input.weather, model);
    var plants :- Run(input, c, prepped.weather);
    ComputedPlantsAligned(input.plants, prepped.weather, c, plants);
    var results :- Assemble(plants);
    Success(SimulationOutput(results, plants, prepped.warned))
  }

  /** On success, the result structure holds what the stored plants promise,
      with the fleet's area-specific profile averaged over the plants. */
  lemma SimulateFaithful(input: LegacyInput.SrcInput, c: LegacyCollaborators, model: LegacyWeather.LegacyDniModel)
    requires LegacyWeather.ValidFrame(input.weather.frame)
    requires Simulate(input, c, model).Success?
    ensures var out := Simulate(input, c, model).value;
      && (forall i :: 0 <= i < |out.plants| ==> Computed(out.plants[i]))
      && var o := Outcomes(out.plants);
      && Aligned(o)
      && out.results == ExpectedResults(o, MeanOfPlants)
  {
    var w := PreProcess(input.weather, model).value.weather;
    var plants := Run(input, c, w).value;
    ComputedPlantsAligned(input.plants, w, c, plants);
    AssembleFaithful(plants);
  }

  /** An input written by `serialize` and read back never simulates: the flags
      come back as method objects and the shift raises. */
  lemma RoundTripInputCannotRun(x: LegacyInput.SrcInput, uids: nat -> Value, stamps: LegacyWeather.Stamps,
                                c: LegacyCollaborators, model: LegacyWeather.LegacyDniModel)
    requires forall i :: 0 <= i < |x.plants| ==> LegacyPlant.Constructed(x.plants[i]) && LegacyPlant.Stable(x.plants[i].settings)
    requires Coerce(x.showPlots) == x.showPlots
    requires LegacyWeather.ValidFrame(x.weather.frame)
    requires forall t :: stamps.parse(stamps.render(t)) == Some(t)
    ensures var back := LegacyInput.DeserializeSrc(LegacyInput.SerializeSrc(x, stamps), uids, stamps);
      && back.Success? && LegacyWeather.ValidFrame(back.value.weather.frame)
      && Simulate(back.value, c, model).Failure? && Simulate(back.value, c, model).error.TypeError?
  {
    var back := LegacyInput.DeserializeSrc(LegacyInput.SerializeSrc(x, stamps), uids, stamps);
    LegacyInput.SrcRoundTrip(x, uids, stamps);
    var w := back.value.weather;
    assert w == x.weather.(shouldAdjustTimestamp := VMethod("adjustTimeStamp"), shouldRecalculateDNI := VMethod("recalculateDNI"));
    assert Truthy(w.shouldAdjustTimestamp) && Truthy(w.shouldRecalculateDNI);
    BothFlagsCannotRun(back.value, c, model);
  }

  /** With both flags truthy, simulating raises the shift's TypeError. */
  lemma BothFlagsCannotRun(input: LegacyInput.SrcInput, c: LegacyCollaborators, model: LegacyWeather.LegacyDniModel)
    requires LegacyWeather.ValidFrame(input.weather.frame)
    requires Truthy(input.weather.shouldAdjustTimestamp) && Truthy(input.weather.shouldRecalculateDNI)
    ensures Simulate(input, c, model).Failure? && Simulate(input, c, model).error.TypeError?
  {
  }

  // ---------------------------------------------------------------------------
  // The specific yield
  // ---------------------------------------------------------------------------

  /** Since the rated power is stored in kWp and the profile in kWh, a plant's
      energy per kWp is its energy in Wh over its rated power in W. */
  lemma PlantYieldPerKwp(p: LegacyPlant.Plant, r: PowerResult)
    requires Store(p, r).Success?
    ensures ExpectedPlant(OutcomeOf(Store(p, r).value)).workSpecificEnergyPerYear == Some(Sum(r.energy) / r.rated)
  {
    var q := Store(p, r).value;
    var total := Sum(q.energyProfile.value);
    assert q.energyProfile.value == DivideBy(r.energy, 1000.0);
    SumDivideBy(r.energy, 1000.0);
    assert total * 1000.0 == Sum(r.energy);
    SharedFactor(total, q.systemKWP.value, Sum(r.energy), r.rated);
  }

  /** `a / b == (1000 a) / (1000 b)`. */
  lemma SharedFactor(a: real, b: real, x: real, y: real)
    requires a * 1000.0 == x && b * 1000.0 == y && y != 0.0
    ensures a / b == x / y
  {
  }
}
