/** The typed photovoltaic plant of the current interfaces: its configuration
    fields with their defaults, the three result fields filled in by the
    simulation, and the properties derived from them on every read. */
module PvSpecifics {
  import opened Wrappers
  import opened Series
  import opened Floats
  import opened Database
  import opened PyValue

  datatype PvPlant = PvPlant(
    uid: string,
    surfaceAzimuth: real,
    surfaceTilt: real,
    modulesPerString: real,
    stringsPerInverter: int,
    numberOfInverters: int,
    albedo: real,
    moduleInstallation: int,
    moduleName: string,
    lossesIrradiation: real,
    lossesDCDatasheet: real,
    lossesDCCables: real,
    modulesDatabaseType: int,
    useInverterDatabase: bool,
    inverterName: string,
    useStandByPowerInverter: bool,
    inverterEta: real,
    energyProfile: Option<seq<real>>,
    surfaceArea: Option<real>,
    systemKWP: Option<real>)

  /** A plant given only its required fields; everything else takes its default. */
  function NewPlant(uid: string, moduleName: string, inverterName: string): (p: PvPlant)
    ensures p.uid == uid && p.moduleName == moduleName && p.inverterName == inverterName
    ensures p.surfaceAzimuth == 0.0 && p.surfaceTilt == 0.0 && p.modulesPerString == 0.0
    ensures p.stringsPerInverter == 0 && p.numberOfInverters == 0
    ensures p.albedo == 0.2 && p.moduleInstallation == 1
    ensures p.lossesIrradiation == 1.0 && p.lossesDCDatasheet == 2.0 && p.lossesDCCables == 0.0
    ensures p.modulesDatabaseType == 1 && p.inverterEta == 0.92
    ensures !p.useInverterDatabase && !p.useStandByPowerInverter
    ensures p.energyProfile.None? && p.surfaceArea.None? && p.systemKWP.None?
  {
    PvPlant(uid, 0.0, 0.0, 0.0, 0, 0, 0.2, 1, moduleName, 1.0, 2.0, 0.0, 1, false, inverterName, false, 0.92,
      None, None, None)
  }

  /** `energyProfileSum`. */
  function EnergyProfileSum(p: PvPlant): (s: real)
    ensures p.energyProfile.None? ==> s == 0.0
    ensures p.energyProfile.Some? ==> s == Sum(p.energyProfile.value)
  {
    match p.energyProfile
    case None => 0.0
    case Some(profile) => Sum(profile)
  }

  /** `energyProfileArea`: the profile per square metre, or [] while the profile or
      the area is unknown. The division is on plain floats, so a zero area
      raises as soon as there is a value to divide. */
  function EnergyProfileArea(p: PvPlant): (r: Result<seq<real>, PyError>)
    ensures p.energyProfile.None? || p.surfaceArea.None? ==> r == Success([])
    ensures p.energyProfile.Some? && p.surfaceArea.Some? ==>
      && (r.Failure? <==> p.surfaceArea.value == 0.0 && |p.energyProfile.value| > 0)
      && (r.Failure? ==> r.error == ZeroDivisionError)
      && (r.Success? ==>
            |r.value| == |p.energyProfile.value|
            && forall i :: 0 <= i < |r.value| ==> r.value[i] * p.surfaceArea.value == p.energyProfile.value[i])
  {
    if p.energyProfile.None? || p.surfaceArea.None? then Success([])
    else DivEach(p.energyProfile.value, p.surfaceArea.value)
  }

  /** `energyProfileAreaSum`: 0 while the area or the profile is unknown, and a
      zero area raises. */
  function EnergyProfileAreaSum(p: PvPlant): (r: Result<real, PyError>)
    ensures p.energyProfile.None? || p.surfaceArea.None? ==> r == Success(0.0)
    ensures p.energyProfile.Some? && p.surfaceArea.Some? ==>
      && (r.Failure? <==> p.surfaceArea.value == 0.0)
      && (r.Failure? ==> r.error == ZeroDivisionError)
      && (r.Success? ==> r.value * p.surfaceArea.value == EnergyProfileSum(p))
  {
    if p.surfaceArea.None? then Success(0.0)
    else if p.energyProfile.None? then Success(0.0)
    else Div(EnergyProfileSum(p), p.surfaceArea.value)
  }

  /** `energyKWPSum`: 0 while the power or the profile is unknown, and a zero
      power raises. */
  function EnergyKWPSum(p: PvPlant): (r: Result<real, PyError>)
    ensures p.energyProfile.None? || p.systemKWP.None? ==> r == Success(0.0)
    ensures p.energyProfile.Some? && p.systemKWP.Some? ==>
      && (r.Failure? <==> p.systemKWP.value == 0.0)
      && (r.Failure? ==> r.error == ZeroDivisionError)
      && (r.Success? ==> r.value * p.systemKWP.value == EnergyProfileSum(p))
  {
    if p.systemKWP.None? then Success(0.0)
    else if p.energyProfile.None? then Success(0.0)
    else Div(EnergyProfileSum(p), p.systemKWP.value)
  }

  /** The area-specific sum is the sum of the area-specific profile whenever both
      can be read. With a zero area the sum always raises, and the profile raises
      exactly when it is not empty. */
  lemma AreaSumIsSumOfAreaProfile(p: PvPlant)
    requires p.energyProfile.Some? && p.surfaceArea.Some?
    ensures EnergyProfileArea(p).Success? && EnergyProfileAreaSum(p).Success? ==>
      Sum(EnergyProfileArea(p).value) == EnergyProfileAreaSum(p).value
    ensures p.surfaceArea.value == 0.0 ==>
      EnergyProfileAreaSum(p) == Failure(ZeroDivisionError)
      && (EnergyProfileArea(p).Failure? <==> |p.energyProfile.value| > 0)
  {
    var profile := p.energyProfile.value;
    var area := p.surfaceArea.value;
    if area != 0.0 {
      assert EnergyProfileArea(p).value == DivideBy(profile, area);
      SumDivideBy(profile, area);
    }
  }

  /** The properties are computed from the current fields, so they follow every
      update of the result fields. */
  lemma PropertiesFollowUpdates(p: PvPlant, profile: seq<real>, area: real, kwp: real)
    ensures var q := p.(energyProfile := Some(profile), surfaceArea := Some(area), systemKWP := Some(kwp));
      && EnergyProfileSum(q) == Sum(profile)
      && EnergyProfileArea(q) == DivEach(profile, area)
      && EnergyProfileAreaSum(q) == Div(Sum(profile), area)
      && EnergyKWPSum(q) == Div(Sum(profile), kwp)
  {
  }

  /** `modulesDatabasePath` and `invertersDatabasePath`: type 1 reads the Sandia
      modules, type 2 the CEC modules, both the CEC inverters; any other type is
      an error naming it. */
  function DatabasePaths(p: PvPlant): (r: Result<(string, string), DatabaseError>)
    ensures p.modulesDatabaseType == 1 ==> r == Success((SrcRoot + SandiaModules, SrcRoot + CecInverters))
    ensures p.modulesDatabaseType == 2 ==> r == Success((SrcRoot + CecModules, SrcRoot + CecInverters))
    ensures p.modulesDatabaseType != 1 && p.modulesDatabaseType != 2 ==>
      r == Failure(UnknownModulesDatabaseType(p.modulesDatabaseType))
  {
    GetDatabasePaths(p.modulesDatabaseType)
  }

  /** A fresh plant reads the Sandia module and CEC inverter databases. */
  lemma NewPlantPaths(uid: string, moduleName: string, inverterName: string)
    ensures DatabasePaths(NewPlant(uid, moduleName, inverterName)) == Success((SrcRoot + SandiaModules, SrcRoot + CecInverters))
  {
  }
}
