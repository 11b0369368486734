/** The per-plant power computation shared by both simulation entry points
    (`calc_pv_power_profile` and `CalcPVPowerProfile`): selector lookups, the
    weather table handed to the model chain, AC conversion, post-processing,
    rated power and area, and the energy profile. The model chain, the inverter
    model, the precipitable-water model and the database lookup are parameters. */
module PowerModel {
  import opened Wrappers
  import opened Series
  import opened Floats
  import opened PyValue

  /** A database row: named numeric attributes of a module or an inverter. */
  type Record = map<string, real>

  /** `record.name` on a database row. */
  function Attribute(r: Record, name: string): (a: Result<real, PyError>)
    ensures a.Success? <==> name in r
    ensures a.Success? ==> a.value == r[name]
    ensures a.Failure? ==> a.error == AttributeError(name)
  {
    if name in r then Success(r[name]) else Failure(AttributeError(name))
  }

  /** The plant configuration as the power computation reads it. The two selector
      fields keep the raw value, since they are used as dictionary keys. */
  datatype PlantConfig = PlantConfig(
    surfaceAzimuth: real,
    surfaceTilt: real,
    modulesPerString: real,
    stringsPerInverter: real,
    numberOfInverters: real,
    albedo: real,
    moduleInstallation: Value,
    moduleName: string,
    lossesIrradiation: real,
    lossesDCDatasheet: real,
    lossesDCCables: real,
    modulesDatabaseType: Value,
    useInverterDatabase: bool,
    inverterName: string,
    useStandByPowerInverter: bool,
    inverterEta: real)

  /** The weather columns the computation reads, indexed by the timestamps. */
  datatype WeatherColumns = WeatherColumns(
    index: seq<real>,
    ghi: seq<real>,
    dni: seq<real>,
    dhi: seq<real>,
    tempAir: seq<real>,
    windSpeed: seq<real>,
    relativeHumidity: seq<real>)
  {
    predicate Aligned() {
      var n := |index|;
      |ghi| == n && |dni| == n && |dhi| == n && |tempAir| == n && |windSpeed| == n && |relativeHumidity| == n
    }
  }

  /** One row of the weather table given to the model chain. */
  datatype ChainInput = ChainInput(
    ghi: real, dni: real, dhi: real, tempAir: real, windSpeed: real, precipitableWater: real, albedo: real)

  /** Everything the model chain is configured with. */
  datatype ChainSetup = ChainSetup(
    surfaceTilt: real, surfaceAzimuth: real,
    moduleRow: Record, inverter: Record,
    temperatureModel: string,
    modulesPerString: real, stringsPerInverter: real,
    dcOhmicPercent: real, mismatch: real,
    latitude: real, longitude: real,
    dcModel: string)

  /** The model chain's DC output at one time step: `v_mp` and `p_mp`. */
  datatype DcPoint = DcPoint(vmp: Num, pmp: Num)

  /** The calls into the photovoltaic library. Constructing the model chain may
      fail; running it may fail too, and otherwise gives the chain's result,
      applied record by record to (timestamp, weather row). */
  datatype Collaborators = Collaborators(
    lookup: PlantConfig -> Result<(Record, Record), PyError>,
    precipitableWater: (real, real) -> real,
    newChain: ChainSetup -> Result<(), PyError>,
    runModel: ChainSetup -> Result<(real, ChainInput) -> DcPoint, PyError>,
    sandia: (Record, Num, Num) -> Num)

  /** The temperature-model class of `moduleInstallation` (a dictionary lookup). */
  function ThermalClass(installation: Value): (r: Result<string, PyError>)
    ensures r.Success? <==> NumEq(installation, 1) || NumEq(installation, 2) || NumEq(installation, 3) || NumEq(installation, 4)
    ensures NumEq(installation, 1) ==> r.value == "open_rack_glass_glass"
    ensures NumEq(installation, 2) ==> r.value == "open_rack_glass_polymer"
    ensures NumEq(installation, 3) ==> r.value == "close_mount_glass_glass"
    ensures NumEq(installation, 4) ==> r.value == "insulated_back_glass_polymer"
    ensures r.Failure? ==> r.error == KeyError("moduleInstallation")
  {
    if NumEq(installation, 1) then Success("open_rack_glass_glass")
    else if NumEq(installation, 2) then Success("open_rack_glass_polymer")
    else if NumEq(installation, 3) then Success("close_mount_glass_glass")
    else if NumEq(installation, 4) then Success("insulated_back_glass_polymer")
    else Failure(KeyError("moduleInstallation"))
  }

  /** The DC model of `modulesDatabaseType` (a dictionary lookup). */
  function DcModel(databaseType: Value): (r: Result<string, PyError>)
    ensures r.Success? <==> NumEq(databaseType, 1) || NumEq(databaseType, 2)
    ensures NumEq(databaseType, 1) ==> r.value == "sapm"
    ensures NumEq(databaseType, 2) ==> r.value == "cec"
    ensures r.Failure? ==> r.error == KeyError("modulesDatabaseType")
  {
    if NumEq(databaseType, 1) then Success("sapm")
    else if NumEq(databaseType, 2) then Success("cec")
    else Failure(KeyError("modulesDatabaseType"))
  }

  /** The weather table: irradiance reduced by `lossesIrradiation` percent,
      temperature and wind passed through, precipitable water estimated from
      temperature and humidity, and the albedo repeated for every step. */
  function ChainWeather(cols: WeatherColumns, cfg: PlantConfig, pw: (real, real) -> real): (rows: seq<ChainInput>)
    requires cols.Aligned()
    ensures |rows| == |cols.index|
    ensures forall i :: 0 <= i < |rows| ==>
      var k := 1.0 - cfg.lossesIrradiation / 100.0;
      && rows[i].ghi == k * cols.ghi[i] && rows[i].dni == k * cols.dni[i] && rows[i].dhi == k * cols.dhi[i]
      && rows[i].tempAir == cols.tempAir[i] && rows[i].windSpeed == cols.windSpeed[i]
      && rows[i].precipitableWater == pw(cols.tempAir[i], cols.relativeHumidity[i])
      && rows[i].albedo == cfg.albedo
  {
    var k := 1.0 - cfg.lossesIrradiation / 100.0;
    seq(|cols.index|, i requires 0 <= i < |cols.index| =>
      ChainInput(k * cols.ghi[i], k * cols.dni[i], k * cols.dhi[i], cols.tempAir[i], cols.windSpeed[i],
                 pw(cols.tempAir[i], cols.relativeHumidity[i]), cfg.albedo))
  }

  /** Total number of modules of the plant. */
  function ModuleCount(cfg: PlantConfig): real {
    cfg.numberOfInverters * cfg.stringsPerInverter * cfg.modulesPerString
  }

  /** `n * x` on a float that may be non-finite. */
  function ScaleNum(n: real, x: Num): Num {
    match x
    case None => None
    case Some(v) => Some(n * v)
  }

  /** AC power per step: the inverter model's output, or `p_mp` times the
      inverter efficiency, times the number of inverters. */
  function AcPower(cfg: PlantConfig, dc: seq<DcPoint>, inverter: Record, sandia: (Record, Num, Num) -> Num): (ac: seq<Num>)
    ensures |ac| == |dc|
    ensures cfg.useInverterDatabase ==> forall i :: 0 <= i < |dc| ==>
      ac[i] == ScaleNum(cfg.numberOfInverters, sandia(inverter, dc[i].vmp, dc[i].pmp))
    ensures !cfg.useInverterDatabase ==> forall i :: 0 <= i < |dc| ==>
      (dc[i].pmp.None? <==> ac[i].None?)
      && (dc[i].pmp.Some? ==> ac[i].value == cfg.numberOfInverters * (dc[i].pmp.value * cfg.inverterEta))
  {
    seq(|dc|, i requires 0 <= i < |dc| =>
      if cfg.useInverterDatabase then ScaleNum(cfg.numberOfInverters, sandia(inverter, dc[i].vmp, dc[i].pmp))
      else if dc[i].pmp.None? then None
      else Some(cfg.numberOfInverters * (dc[i].pmp.value * cfg.inverterEta)))
  }

  /** Missing values become 0; negative values become 0 unless stand-by power is
      kept. */
  function PostProcess(power: seq<Num>, keepStandBy: bool): (r: seq<real>)
    ensures |r| == |power|
    ensures forall i :: 0 <= i < |power| ==> (power[i].None? ==> r[i] == 0.0)
    ensures forall i :: 0 <= i < |power| ==> (power[i].Some? && (keepStandBy || power[i].value >= 0.0) ==> r[i] == power[i].value)
    ensures forall i :: 0 <= i < |power| ==> (power[i].Some? && !keepStandBy && power[i].value < 0.0 ==> r[i] == 0.0)
  {
    var filled := FillMissing(power);
    if keepStandBy then filled
    else seq(|filled|, i requires 0 <= i < |filled| => if filled[i] < 0.0 then 0.0 else filled[i])
  }

  /** Post-processing leaves nothing negative when stand-by power is dropped, and
      doing it again changes nothing. */
  lemma PostProcessSettles(power: seq<Num>, keepStandBy: bool)
    ensures !keepStandBy ==> forall i :: 0 <= i < |power| ==> PostProcess(power, keepStandBy)[i] >= 0.0
    ensures PostProcess(Present(PostProcess(power, keepStandBy)), keepStandBy) == PostProcess(power, keepStandBy)
  {
  }

  /** The energy profile: power times 8760 divided by the number of steps, so
      that an hourly year is left unchanged. */
  function EnergyProfile(power: seq<real>): (e: seq<real>)
    ensures |e| == |power|
    ensures Proportional(e, power, |power| as real, 8760.0)
  {
    if |power| == 0 then []
    else Scale(8760.0 / (|power| as real), power)
  }

  /** Scaling to a year keeps every value's sign. */
  lemma EnergyKeepsSign(power: seq<real>)
    ensures forall i :: 0 <= i < |power| ==> (power[i] >= 0.0 ==> EnergyProfile(power)[i] >= 0.0)
  {
    if |power| > 0 {
      var k := 8760.0 / (|power| as real);
      assert k > 0.0;
      assert EnergyProfile(power) == Scale(k, power);
    }
  }

  /** An hourly profile over a year is its own energy profile. */
  lemma EnergyProfileOfYear(power: seq<real>)
    requires |power| == 8760
    ensures EnergyProfile(power) == power
  {
    var e := EnergyProfile(power);
    assert forall i :: 0 <= i < |power| ==> e[i] * 8760.0 == power[i] * 8760.0;
  }

  /** The yearly energy is the total power times 8760 over the number of steps. */
  lemma EnergyProfileSum(power: seq<real>)
    requires |power| > 0
    ensures InProportion(Sum(EnergyProfile(power)), Sum(power), |power| as real, 8760.0)
  {
    var e := EnergyProfile(power);
    var n := |power| as real;
    SumProportional(e, power, n, 8760.0);
  }

  /** Rated power and module area, read from the database row by type: Sandia rows
      carry `Impo`, `Vmpo`, `Area`; CEC rows `I_mp_ref`, `V_mp_ref`, `A_c`. */
  function RatedAndArea(databaseType: Value, moduleRow: Record, modules: real): (r: Result<(real, real), PyError>)
    ensures NumEq(databaseType, 1) && "Impo" in moduleRow && "Vmpo" in moduleRow && "Area" in moduleRow ==>
      r == Success((moduleRow["Impo"] * moduleRow["Vmpo"] * modules, moduleRow["Area"] * modules))
    ensures NumEq(databaseType, 2) && "I_mp_ref" in moduleRow && "V_mp_ref" in moduleRow && "A_c" in moduleRow ==>
      r == Success((moduleRow["I_mp_ref"] * moduleRow["V_mp_ref"] * modules, moduleRow["A_c"] * modules))
    ensures r.Failure? && (NumEq(databaseType, 1) || NumEq(databaseType, 2)) ==> r.error.AttributeError?
    ensures !NumEq(databaseType, 1) && !NumEq(databaseType, 2) ==>
      r == Failure(ValueError("Invalid value for modulesDatabaseType"))
  {
    if NumEq(databaseType, 1) then
      if "Impo" !in moduleRow then Failure(AttributeError("Impo"))
      else if "Vmpo" !in moduleRow then Failure(AttributeError("Vmpo"))
      else if "Area" !in moduleRow then Failure(AttributeError("Area"))
      else Success((moduleRow["Impo"] * moduleRow["Vmpo"] * modules, moduleRow["Area"] * modules))
    else if NumEq(databaseType, 2) then
      if "I_mp_ref" !in moduleRow then Failure(AttributeError("I_mp_ref"))
      else if "V_mp_ref" !in moduleRow then Failure(AttributeError("V_mp_ref"))
      else if "A_c" !in moduleRow then Failure(AttributeError("A_c"))
      else Success((moduleRow["I_mp_ref"] * moduleRow["V_mp_ref"] * modules, moduleRow["A_c"] * modules))
    else Failure(ValueError("Invalid value for modulesDatabaseType"))
  }

  /** What the power computation produces: the energy profile in Wh, the module
      area in m^2 and the rated power in W. */
  datatype PowerResult = PowerResult(energy: seq<real>, area: real, rated: real)

  /** The model chain's setup for a plant. */
  function Setup(cfg: PlantConfig, moduleRow: Record, inverter: Record, thermal: string,
                 latitude: real, longitude: real, dcModel: string): ChainSetup
  {
    ChainSetup(cfg.surfaceTilt, cfg.surfaceAzimuth, moduleRow, inverter, thermal,
      cfg.modulesPerString, cfg.stringsPerInverter, cfg.lossesDCCables, cfg.lossesDCDatasheet,
      latitude, longitude, dcModel)
  }

  /** The post-processed power of a plant once the model chain has run. */
  function PlantPower(cfg: PlantConfig, cols: WeatherColumns, run: (real, ChainInput) -> DcPoint,
                      inverter: Record, collab: Collaborators): (power: seq<real>)
    requires cols.Aligned()
    ensures |power| == |cols.index|
    ensures !cfg.useStandByPowerInverter ==> forall i :: 0 <= i < |power| ==> power[i] >= 0.0
  {
    var rows := ChainWeather(cols, cfg, collab.precipitableWater);
    var dc := seq(|cols.index|, i requires 0 <= i < |cols.index| => run(cols.index[i], rows[i]));
    var power := PostProcess(AcPower(cfg, dc, inverter, collab.sandia), cfg.useStandByPowerInverter);
    PostProcessSettles(AcPower(cfg, dc, inverter, collab.sandia), cfg.useStandByPowerInverter);
    power
  }

  /** Everything the computation has once the model chain has run: the database
      rows, the weather columns and the chain's pointwise result. */
  datatype Prepared = Prepared(moduleRow: Record, inverter: Record, cols: WeatherColumns, run: (real, ChainInput) -> DcPoint)

  /** The part of `calc_pv_power_profile` up to running the model chain.
      Failures come in the source's order: database lookup, installation type,
      database type, constructing the chain, missing weather, running the
      chain. */
  function Prepare(cfg: PlantConfig, weather: Result<WeatherColumns, PyError>, latitude: real, longitude: real,
                   collab: Collaborators): (r: Result<Prepared, PyError>)
    ensures collab.lookup(cfg).Failure? ==> r == Failure(collab.lookup(cfg).error)
    ensures collab.lookup(cfg).Success? && ThermalClass(cfg.moduleInstallation).Failure? ==>
      r == Failure(KeyError("moduleInstallation"))
    ensures collab.lookup(cfg).Success? && ThermalClass(cfg.moduleInstallation).Success? && DcModel(cfg.modulesDatabaseType).Failure? ==>
      r == Failure(KeyError("modulesDatabaseType"))
    ensures collab.lookup(cfg).Success? && ThermalClass(cfg.moduleInstallation).Success? && DcModel(cfg.modulesDatabaseType).Success? ==>
      var (moduleRow, inverter) := collab.lookup(cfg).value;
      var setup := Setup(cfg, moduleRow, inverter, ThermalClass(cfg.moduleInstallation).value, latitude, longitude,
                         DcModel(cfg.modulesDatabaseType).value);
      && (collab.newChain(setup).Failure? ==> r == Failure(collab.newChain(setup).error))
      && (collab.newChain(setup).Success? && weather.Failure? ==> r == Failure(weather.error))
      && (collab.newChain(setup).Success? && weather.Success? ==>
            && (r.Success? <==> collab.runModel(setup).Success?)
            && (r.Failure? ==> r.error == collab.runModel(setup).error)
            && (r.Success? ==> r.value == Prepared(moduleRow, inverter, weather.value, collab.runModel(setup).value)))
    ensures r.Success? ==> NumEq(cfg.modulesDatabaseType, 1) || NumEq(cfg.modulesDatabaseType, 2)
  {
    var (moduleRow, inverter) :- collab.lookup(cfg);
    var thermal :- ThermalClass(cfg.moduleInstallation);
    var dcModel :- DcModel(cfg.modulesDatabaseType);
    var setup := Setup(cfg, moduleRow, inverter, thermal, latitude, longitude, dcModel);
    var _ :- collab.newChain(setup);
    var cols :- weather;
    var run :- collab.runModel(setup);
    Success(Prepared(moduleRow, inverter, cols, run))
  }

  /** The part after the model chain has run: AC power, post-processing, rated
      power and area, and the energy profile. The only possible failure is a
      missing attribute on the module row. */
  function Finish(cfg: PlantConfig, p: Prepared, collab: Collaborators): (r: Result<PowerResult, PyError>)
    requires p.cols.Aligned()
    ensures r.Success? <==> RatedAndArea(cfg.modulesDatabaseType, p.moduleRow, ModuleCount(cfg)).Success?
    ensures r.Failure? ==> r.error == RatedAndArea(cfg.modulesDatabaseType, p.moduleRow, ModuleCount(cfg)).error
    ensures r.Success? ==> RatedAndArea(cfg.modulesDatabaseType, p.moduleRow, ModuleCount(cfg)).value == (r.value.rated, r.value.area)
    ensures r.Success? ==> r.value.energy == EnergyProfile(PlantPower(cfg, p.cols, p.run, p.inverter, collab))
    ensures r.Success? ==> |r.value.energy| == |p.cols.index|
    ensures r.Success? && !cfg.useStandByPowerInverter ==>
      forall i :: 0 <= i < |r.value.energy| ==> r.value.energy[i] >= 0.0
  {
    var power := PlantPower(cfg, p.cols, p.run, p.inverter, collab);
    var (rated, area) :- RatedAndArea(cfg.modulesDatabaseType, p.moduleRow, ModuleCount(cfg));
    var energy := EnergyProfile(power);
    EnergyKeepsSign(power);
    Success(PowerResult(energy, area, rated))
  }

  /** The whole per-plant computation. `weather` is the frame's columns, or the
      error that reading them raises. Once the model chain has run, the only
      possible failure is a missing attribute on the module row: the
      "Invalid value for modulesDatabaseType" branch cannot be reached, since
      the database type was already looked up. */
  function CalcPower(cfg: PlantConfig, weather: Result<WeatherColumns, PyError>, latitude: real, longitude: real,
                     collab: Collaborators): (r: Result<PowerResult, PyError>)
    requires weather.Success? ==> weather.value.Aligned()
    ensures Prepare(cfg, weather, latitude, longitude, collab).Failure? ==>
      r == Failure(Prepare(cfg, weather, latitude, longitude, collab).error)
    ensures Prepare(cfg, weather, latitude, longitude, collab).Success? ==> r.Success? || r.error.AttributeError?
    ensures r.Success? ==> weather.Success? && |r.value.energy| == |weather.value.index|
    ensures r.Success? ==> var p := Prepare(cfg, weather, latitude, longitude, collab);
      p.Success? && r.value.energy == EnergyProfile(PlantPower(cfg, p.value.cols, p.value.run, p.value.inverter, collab))
    ensures r.Success? && !cfg.useStandByPowerInverter ==>
      forall i :: 0 <= i < |r.value.energy| ==> r.value.energy[i] >= 0.0
    ensures r.Success? ==> (collab.lookup(cfg).Success?
      && RatedAndArea(cfg.modulesDatabaseType, collab.lookup(cfg).value.0, ModuleCount(cfg)) == Success((r.value.rated, r.value.area)))
  {
    var p :- Prepare(cfg, weather, latitude, longitude, collab);
    Finish(cfg, p, collab)
  }
}
