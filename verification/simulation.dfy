/** The simulation driver of the current code base (`simulate_pv_plants`):
    the weather pre-processing chosen by the two flags, the per-plant power
    computation whose results are written back into the plants, and the
    energy and summary tables with the result structure built from them. */
module Simulation {
  import opened Wrappers
  import opened Series
  import opened Floats
  import opened PyValue
  import opened Weather
  import opened PowerModel
  import opened PvSpecifics
  import opened Aggregation

  // ---------------------------------------------------------------------------
  // Pre-processing
  // ---------------------------------------------------------------------------

  /** One pre-processing action: shift the timestamps, log the warning about
      recalculating without adjusting, recalculate the DNI. */
  datatype Step = AdjustStep | WarnStep | RecalculateStep

  /** The pre-processing the two flags ask for, in the order it must happen. */
  function PreSteps(adjust: bool, recalculate: bool): (steps: seq<Step>)
    ensures AdjustStep in steps <==> adjust
    ensures RecalculateStep in steps <==> recalculate
    ensures WarnStep in steps <==> recalculate && !adjust
    ensures forall i, j :: 0 <= i < |steps| && 0 <= j < |steps| && steps[i] == AdjustStep && steps[j] == RecalculateStep ==> i < j
    ensures forall i, j :: 0 <= i < |steps| && 0 <= j < |steps| && steps[i] == WarnStep && steps[j] == RecalculateStep ==> i < j
    ensures forall i, j :: 0 <= i < j < |steps| ==> steps[i] != steps[j]
  {
    (if adjust then [AdjustStep] else [])
      + (if recalculate then (if adjust then [] else [WarnStep]) + [RecalculateStep] else [])
  }

  /** Carrying out a list of steps on the weather data; the warning leaves the
      data alone, and the first step that raises ends the run. */
  function RunSteps(w: WeatherData, steps: seq<Step>, model: DniModel): (r: Result<WeatherData, PyError>)
    requires Valid(w)
    ensures r.Success? ==> Valid(r.value)
    decreases |steps|
  {
    if |steps| == 0 then Success(w)
    else
      var next :- (match steps[0]
        case AdjustStep => AdjustTimeStamp(w)
        case WarnStep => Success(w)
        case RecalculateStep => Success(RecalculateDni(w, model)));
      RunSteps(next, steps[1..], model)
  }

  /** The weather data after pre-processing and whether the warning was logged. */
  datatype Prepped = Prepped(weather: WeatherData, warned: bool)

  /** The pre-processing of `simulate_pv_plants`. The second test reads the
      adjustment flag again, after the adjustment, which leaves the flags alone.
      Adjusting a frame without records raises `IndexError`. */
  function PreProcess(w: WeatherData, model: DniModel): (r: Result<Prepped, PyError>)
    requires Valid(w)
    ensures r.Failure? <==> w.adjustTimestamp && w.frame.Some? && |w.weatherData.timeStamps| == 0
    ensures r.Failure? ==> r.error == IndexError
    ensures r.Success? ==> Valid(r.value.weather)
    ensures r.Success? ==> r.value.weather == w.(weatherData := r.value.weather.weatherData, frame := r.value.weather.frame)
    ensures r.Success? ==> (r.value.warned <==> w.recalculateDNI && !w.adjustTimestamp)
    ensures !w.adjustTimestamp && !w.recalculateDNI ==> r == Success(Prepped(w, false))
  {
    var adjusted :- if w.adjustTimestamp then AdjustTimeStamp(w) else Success(w);
    var warned := adjusted.recalculateDNI && !adjusted.adjustTimestamp;
    var done := if adjusted.recalculateDNI then RecalculateDni(adjusted, model) else adjusted;
    Success(Prepped(done, warned))
  }

  /** The pre-processing carries out exactly the planned steps, fails exactly
      when they fail and with their error, and logs the warning exactly when the
      plan holds it. */
  lemma PreProcessFollowsPlan(w: WeatherData, model: DniModel)
    requires Valid(w)
    ensures var steps := PreSteps(w.adjustTimestamp, w.recalculateDNI);
      PreProcess(w, model).Success? <==> RunSteps(w, steps, model).Success?
    ensures var steps := PreSteps(w.adjustTimestamp, w.recalculateDNI);
      PreProcess(w, model).Success? ==> PreProcess(w, model).value == Prepped(RunSteps(w, steps, model).value, WarnStep in steps)
    ensures var steps := PreSteps(w.adjustTimestamp, w.recalculateDNI);
      PreProcess(w, model).Failure? ==> PreProcess(w, model).error == RunSteps(w, steps, model).error
  {
    var steps := PreSteps(w.adjustTimestamp, w.recalculateDNI);
    if w.adjustTimestamp {
      var adjusted := AdjustTimeStamp(w);
      assert steps[0] == AdjustStep;
      if adjusted.Failure? {
        assert RunSteps(w, steps, model) == Failure(adjusted.error);
      } else {
        assert RunSteps(w, steps, model) == RunSteps(adjusted.value, steps[1..], model);
        if w.recalculateDNI {
          assert steps[1..] == [RecalculateStep];
          assert RunSteps(adjusted.value, [RecalculateStep], model) == RunSteps(RecalculateDni(adjusted.value, model), [], model);
        } else {
          assert steps[1..] == [];
        }
      }
    } else if w.recalculateDNI {
      assert steps == [WarnStep, RecalculateStep];
      assert steps[1..] == [RecalculateStep];
      assert RunSteps(w, [RecalculateStep], model) == RunSteps(RecalculateDni(w, model), [], model);
    } else {
      assert steps == [];
    }
  }

  /** With both flags set, the DNI is recomputed from the shifted timestamps and
      every other column apart from the timestamps keeps its values. */
  lemma PreProcessBoth(w: WeatherData, model: DniModel, i: nat)
    requires Valid(w) && w.frame.Some? && w.adjustTimestamp && w.recalculateDNI
    requires i < |w.weatherData.timeStamps|
    ensures PreProcess(w, model).Success?
    ensures var r := PreProcess(w, model).value.weather.weatherData;
      && r.timeStamps[i] == w.weatherData.timeStamps[i] + w.timeshiftInMinutes
      && r.dni[i] == model(w.weatherData.timeStamps[i] + w.timeshiftInMinutes, w.latitude, w.longitude, w.altitude,
                           w.weatherData.atmosphericPressure[i], w.weatherData.ghi[i], w.weatherData.dhi[i]).GetOr(0.0)
      && r.(timeStamps := w.weatherData.timeStamps, dni := w.weatherData.dni) == w.weatherData
  {
    RecalculateReadsShiftedStamps(w, model, i);
  }

  // ---------------------------------------------------------------------------
  // The per-plant computation
  // ---------------------------------------------------------------------------

  /** The configuration the power computation reads from a typed plant: every
      setting reaches it unchanged, the integer ones as the numbers they equal. */
  function ConfigOf(p: PvPlant): (c: PlantConfig)
    ensures NumEq(c.modulesDatabaseType, p.modulesDatabaseType) && NumEq(c.moduleInstallation, p.moduleInstallation)
    ensures c.numberOfInverters == p.numberOfInverters as real && c.stringsPerInverter == p.stringsPerInverter as real
    ensures c.surfaceAzimuth == p.surfaceAzimuth && c.surfaceTilt == p.surfaceTilt
    ensures c.modulesPerString == p.modulesPerString && c.albedo == p.albedo && c.moduleName == p.moduleName
    ensures c.lossesIrradiation == p.lossesIrradiation && c.lossesDCDatasheet == p.lossesDCDatasheet
    ensures c.lossesDCCables == p.lossesDCCables
    ensures c.useInverterDatabase == p.useInverterDatabase && c.inverterName == p.inverterName
    ensures c.useStandByPowerInverter == p.useStandByPowerInverter && c.inverterEta == p.inverterEta
  {
    PlantConfig(p.surfaceAzimuth, p.surfaceTilt, p.modulesPerString, p.stringsPerInverter as real,
      p.numberOfInverters as real, p.albedo, VInt(p.moduleInstallation), p.moduleName,
      p.lossesIrradiation, p.lossesDCDatasheet, p.lossesDCCables, VInt(p.modulesDatabaseType),
      p.useInverterDatabase, p.inverterName, p.useStandByPowerInverter, p.inverterEta)
  }

  /** Two plants give the same configuration exactly when they agree on all
      sixteen settings; only the uid and the stored results are not passed on. */
  lemma ConfigOfKeepsSettings(p: PvPlant, q: PvPlant)
    ensures ConfigOf(p) == ConfigOf(q) <==>
      p.(uid := q.uid, energyProfile := q.energyProfile, surfaceArea := q.surfaceArea, systemKWP := q.systemKWP) == q
  {
  }

  /** The weather columns read from the frame; a missing frame raises. */
  function ColumnsOf(w: WeatherData): (r: Result<WeatherColumns, PyError>)
    requires Valid(w)
    ensures r.Failure? <==> w.frame.None?
    ensures r.Failure? ==> r.error == ValueError("No weather data available!")
    ensures r.Success? ==> r.value.Aligned() && |r.value.index| == |w.weatherData.timeStamps|
    ensures r.Success? ==> forall i :: 0 <= i < |r.value.index| ==> r.value.index[i] == w.weatherData.timeStamps[i] as real
    ensures r.Success? ==> r.value.ghi == w.weatherData.ghi && r.value.dni == w.weatherData.dni && r.value.dhi == w.weatherData.dhi
    ensures r.Success? ==> (r.value.tempAir == w.weatherData.tempAir && r.value.windSpeed == w.weatherData.windSpeed
      && r.value.relativeHumidity == w.weatherData.relativeHumidity)
  {
    match w.frame
    case None => Failure(ValueError("No weather data available!"))
    case Some(f) =>
      Success(WeatherColumns(seq(|f.index|, i requires 0 <= i < |f.index| => f.index[i] as real), f.data.ghi, f.data.dni, f.data.dhi, f.data.tempAir, f.data.windSpeed,
        f.data.relativeHumidity))
  }

  /** The plant after its computation: the profile and the area are stored, and
      `systemKWP` receives the annual energy in kWh rather than the rated power. */
  function Store(p: PvPlant, r: PowerResult): (q: PvPlant)
    ensures q.energyProfile == Some(r.energy) && q.surfaceArea == Some(r.area)
    ensures q.systemKWP.Some? && q.systemKWP.value * 1000.0 == Sum(r.energy)
    ensures q.(energyProfile := p.energyProfile, surfaceArea := p.surfaceArea, systemKWP := p.systemKWP) == p
  {
    p.(energyProfile := Some(r.energy), surfaceArea := Some(r.area), systemKWP := Some(Sum(r.energy) / 1000.0))
  }

  /** The power computation of plant `p`. */
  function PlantCalc(p: PvPlant, cols: Result<WeatherColumns, PyError>, latitude: real, longitude: real,
                     collab: Collaborators): Result<PowerResult, PyError>
    requires cols.Success? ==> cols.value.Aligned()
  {
    CalcPower(ConfigOf(p), cols, latitude, longitude, collab)
  }

  /** One pass of the plant loop: compute the plant, then store its results. */
  function PlantStep(p: PvPlant, cols: Result<WeatherColumns, PyError>, latitude: real, longitude: real,
                collab: Collaborators): (r: Result<PvPlant, PyError>)
    requires cols.Success? ==> cols.value.Aligned()
    ensures r.Success? <==> PlantCalc(p, cols, latitude, longitude, collab).Success?
    ensures r.Success? ==> r.value == Store(p, PlantCalc(p, cols, latitude, longitude, collab).value)
    ensures r.Failure? ==> r.error == PlantCalc(p, cols, latitude, longitude, collab).error
  {
    var result :- PlantCalc(p, cols, latitude, longitude, collab);
    Success(Store(p, result))
  }

  /** The loop body as a function of the plant's position. */
  function StepAt(plants: seq<PvPlant>, cols: Result<WeatherColumns, PyError>, latitude: real, longitude: real,
                  collab: Collaborators): (f: nat -> Result<PvPlant, PyError>)
    requires cols.Success? ==> cols.value.Aligned()
    ensures forall i :: 0 <= i < |plants| ==> f(i) == PlantStep(plants[i], cols, latitude, longitude, collab)
  {
    (i: nat) => if i < |plants| then PlantStep(plants[i], cols, latitude, longitude, collab) else Failure(IndexError)
  }

  /** The plant loop: plants `0 .. k-1` computed in order and updated; the first
      plant whose computation raises ends the simulation with that error. */
  function SimulatePlants(plants: seq<PvPlant>, cols: Result<WeatherColumns, PyError>, latitude: real, longitude: real,
                          collab: Collaborators, k: nat): (r: Result<seq<PvPlant>, PyError>)
    requires k <= |plants|
    requires cols.Success? ==> cols.value.Aligned()
    ensures r.Success? <==> forall i :: 0 <= i < k ==> PlantStep(plants[i], cols, latitude, longitude, collab).Success?
    ensures r.Success? ==> |r.value| == k && forall i :: 0 <= i < k ==>
      r.value[i] == PlantStep(plants[i], cols, latitude, longitude, collab).value
  {
    CollectAll(StepAt(plants, cols, latitude, longitude, collab), k)
  }

  /** A failing loop fails with the error of the first plant whose computation
      raises; the plants before it all succeeded. */
  lemma SimulatePlantsFirstFailure(plants: seq<PvPlant>, cols: Result<WeatherColumns, PyError>,
                                   latitude: real, longitude: real, collab: Collaborators, k: nat)
    returns (i: nat)
    requires k <= |plants|
    requires cols.Success? ==> cols.value.Aligned()
    requires SimulatePlants(plants, cols, latitude, longitude, collab, k).Failure?
    ensures i < k
    ensures PlantCalc(plants[i], cols, latitude, longitude, collab).Failure?
    ensures SimulatePlants(plants, cols, latitude, longitude, collab, k).error
      == PlantCalc(plants[i], cols, latitude, longitude, collab).error
    ensures forall j :: 0 <= j < i ==> PlantCalc(plants[j], cols, latitude, longitude, collab).Success?
  {
    i := CollectAllFirstFailure(StepAt(plants, cols, latitude, longitude, collab), k);
    forall j | 0 <= j < i ensures PlantCalc(plants[j], cols, latitude, longitude, collab).Success? {
      assert PlantStep(plants[j], cols, latitude, longitude, collab).Success?;
    }
  }

  /** A plant holding what its computation stores. */
  predicate Stored(p: PvPlant) {
    p.energyProfile.Some? && p.surfaceArea.Some? && p.systemKWP.Some?
  }

  /** What the tables are built from: each plant's stored profile, area and
      `systemKWP`. */
  function OutcomeOf(p: PvPlant): PlantOutcome
    requires Stored(p)
  {
    PlantOutcome(p.energyProfile.value, p.surfaceArea.value, p.systemKWP.value)
  }

  /** The computed plants in the form the tables read them. */
  function Outcomes(plants: seq<PvPlant>): (o: seq<PlantOutcome>)
    requires forall i :: 0 <= i < |plants| ==>
      Stored(plants[i])
    ensures |o| == |plants| && forall i :: 0 <= i < |plants| ==> o[i] == OutcomeOf(plants[i])
  {
    seq(|plants|, i requires 0 <= i < |plants| => OutcomeOf(plants[i]))
  }

  // ---------------------------------------------------------------------------
  // The whole simulation
  // ---------------------------------------------------------------------------

  /** The input the simulation reads. */
  datatype SimulationInput = SimulationInput(plants: seq<PvPlant>, weather: WeatherData)

  /** What `simulate_pv_plants` returns, plus whether the warning was logged. */
  datatype SimulationOutput = SimulationOutput(results: SodeleResults, plants: seq<PvPlant>, warned: bool)

  /** The plant loop run on the pre-processed weather. */
  function Computed(input: SimulationInput, collab: Collaborators, model: DniModel): Result<seq<PvPlant>, PyError>
    requires Valid(input.weather)
  {
    var prepped :- PreProcess(input.weather, model);
    var w := prepped.weather;
    SimulatePlants(input.plants, ColumnsOf(w), w.latitude, w.longitude, collab, |input.plants|)
  }

  /** Every computed profile has one entry per weather record, so the computed
      plants always fit into one table. */
  lemma ComputedPlantsAligned(input: seq<PvPlant>, cols: Result<WeatherColumns, PyError>, latitude: real, longitude: real,
                              collab: Collaborators, plants: seq<PvPlant>)
    requires cols.Success? ==> cols.value.Aligned()
    requires SimulatePlants(input, cols, latitude, longitude, collab, |input|) == Success(plants)
    ensures forall i :: 0 <= i < |plants| ==> Stored(plants[i])
    ensures Aligned(Outcomes(plants))
    ensures |plants| > 0 ==> Rows(Outcomes(plants)) == |cols.value.index|
  {
    var outcomes := Outcomes(plants);
    forall i | 0 <= i < |plants|
      ensures |outcomes[i].energy| == |cols.value.index|
    {
      var computed := PlantCalc(input[i], cols, latitude, longitude, collab);
      assert computed.Success? && plants[i] == Store(input[i], computed.value);
    }
  }

  /** Every plant the loop computes stores its yearly energy in kWh as `systemKWP`. */
  lemma StoredEnergy(input: seq<PvPlant>, cols: Result<WeatherColumns, PyError>, latitude: real, longitude: real,
                     collab: Collaborators, plants: seq<PvPlant>)
    requires cols.Success? ==> cols.value.Aligned()
    requires SimulatePlants(input, cols, latitude, longitude, collab, |input|) == Success(plants)
    ensures forall i :: 0 <= i < |plants| ==>
      plants[i].systemKWP.Some? && plants[i].energyProfile.Some?
      && plants[i].systemKWP.value * 1000.0 == Sum(plants[i].energyProfile.value)
  {
    forall i | 0 <= i < |plants|
      ensures plants[i].systemKWP.Some? && plants[i].energyProfile.Some?
      ensures plants[i].systemKWP.value * 1000.0 == Sum(plants[i].energyProfile.value)
    {
      var computed := PlantCalc(input[i], cols, latitude, longitude, collab);
      assert computed.Success? && plants[i] == Store(input[i], computed.value);
    }
  }

  /** A stored plant's `energyProfileArea` can be read exactly when the energy
      table can form its area-specific column, and then they agree. */
  lemma AreaColumnIsAreaProperty(p: PvPlant)
    requires Stored(p)
    ensures EnergyProfileArea(p).Success? <==> AreaDivisible(OutcomeOf(p))
    ensures EnergyProfileArea(p).Success? ==> Present(EnergyProfileArea(p).value) == AreaProfile(OutcomeOf(p))
  {
  }

  /** A computed plant whose area-specific profile can be read. */
  predicate Reportable(p: PvPlant) {
    EnergyProfileArea(p).Success?
  }

  /** Both tables and the result structure for the computed plants. A plant
      with a zero area and a non-empty profile raises `ZeroDivisionError` while
      the energy table is built; then no plants raise numpy's axis error in the
      summary; otherwise every plant gets its stored profile, area-specific
      profile, annual total and specific yields, and the fleet its summed
      profile over the total area and the fleet totals. */
  function Assemble(plants: seq<PvPlant>): (r: Result<SodeleResults, PyError>)
    requires forall i :: 0 <= i < |plants| ==>
      Stored(plants[i])
    requires Aligned(Outcomes(plants))
    ensures r.Success? <==> |plants| > 0 && forall i :: 0 <= i < |plants| ==> Reportable(plants[i])
    ensures (exists i :: 0 <= i < |plants| && !Reportable(plants[i])) ==> r == Failure(ZeroDivisionError)
    ensures |plants| == 0 ==> r == Failure(AxisError)
  {
    var outcomes := Outcomes(plants);
    forall i | 0 <= i < |plants| ensures Reportable(plants[i]) <==> AreaDivisible(outcomes[i]) {
      AreaColumnIsAreaProperty(plants[i]);
    }
    var frame :- EnergyFrame(outcomes, ByTotalArea);
    var summary :- Summary(outcomes);
    ResultsFaithful(outcomes, ByTotalArea);
    BuildResults(|plants|, frame, ProfileKeys(|plants|), AreaKeys(|plants|), summary, SummaryKeys(|plants|))
  }

  /** With plants whose area-specific profiles can be read, the assembled
      results are what the stored plants promise, with the fleet's
      area-specific profile taken over the total area. */
  lemma AssembleFaithful(plants: seq<PvPlant>)
    requires forall i :: 0 <= i < |plants| ==>
      Stored(plants[i])
    requires Aligned(Outcomes(plants))
    requires |plants| > 0 && forall i :: 0 <= i < |plants| ==> Reportable(plants[i])
    ensures Assemble(plants) == Success(ExpectedResults(Outcomes(plants), ByTotalArea))
  {
    var outcomes := Outcomes(plants);
    forall i | 0 <= i < |plants| ensures AreaDivisible(outcomes[i]) {
      AreaColumnIsAreaProperty(plants[i]);
    }
    ResultsFaithful(outcomes, ByTotalArea);
  }

  /** `simulate_pv_plants`: pre-process the weather, compute every plant, then
      build the tables and the result structure. */
  function Simulate(input: SimulationInput, collab: Collaborators, model: DniModel): (r: Result<SimulationOutput, PyError>)
    requires Valid(input.weather)
    ensures var c := Computed(input, collab, model);
      r.Success? <==> c.Success? && |input.plants| > 0 && forall i :: 0 <= i < |c.value| ==> Reportable(c.value[i])
    ensures r.Success? ==> r.value.plants == Computed(input, collab, model).value
    ensures r.Success? ==> (r.value.warned <==> input.weather.recalculateDNI && !input.weather.adjustTimestamp)
    ensures Computed(input, collab, model).Failure? ==> r == Failure(Computed(input, collab, model).error)
    ensures var c := Computed(input, collab, model);
      c.Success? && (exists i :: 0 <= i < |c.value| && !Reportable(c.value[i])) ==> r == Failure(ZeroDivisionError)
    ensures Computed(input, collab, model).Success? && |input.plants| == 0 ==> r == Failure(AxisError)
    ensures r.Success? ==>
      (forall i :: 0 <= i < |r.value.plants| ==> Stored(r.value.plants[i])) && Aligned(Outcomes(r.value.plants))
  {
    var prepped :- PreProcess(input.weather, model);
    var w := prepped.weather;
    var plants :- Computed(input, collab, model);
    ComputedPlantsAligned(input.plants, ColumnsOf(w), w.latitude, w.longitude, collab, plants);
    var results :- Assemble(plants);
    Success(SimulationOutput(results, plants, prepped.warned))
  }

  /** A computed plant's area-specific profile can be formed: a zero area only
      goes with an empty profile. */
  predicate Divisible(r: PowerResult) {
    r.area != 0.0 || |r.energy| == 0
  }

  /** The simulation succeeds exactly when the pre-processing succeeds, there is
      a plant, and every plant's computation on the pre-processed weather
      succeeds with a non-zero area or an empty profile. */
  lemma SimulateSucceeds(input: SimulationInput, collab: Collaborators, model: DniModel)
    requires Valid(input.weather)
    ensures Simulate(input, collab, model).Success? <==>
      && PreProcess(input.weather, model).Success?
      && |input.plants| > 0
      && var w := PreProcess(input.weather, model).value.weather;
        forall i :: 0 <= i < |input.plants| ==>
          var c := PlantCalc(input.plants[i], ColumnsOf(w), w.latitude, w.longitude, collab);
          c.Success? && Divisible(c.value)
  {
    var pre := PreProcess(input.weather, model);
    if pre.Success? {
      var w := pre.value.weather;
      ComputedReportable(input, collab, model, w);
    } else {
      assert Computed(input, collab, model).Failure?;
    }
  }

  /** On the pre-processed weather `w`, the plants are computed and reportable
      exactly when every plant's calculation succeeds with a divisible area. */
  lemma ComputedReportable(input: SimulationInput, collab: Collaborators, model: DniModel, w: WeatherData)
    requires Valid(input.weather)
    requires PreProcess(input.weather, model).Success? && PreProcess(input.weather, model).value.weather == w
    ensures var c := Computed(input, collab, model);
      (c.Success? && forall i :: 0 <= i < |c.value| ==> Reportable(c.value[i])) <==>
      forall i :: 0 <= i < |input.plants| ==>
        var r := PlantCalc(input.plants[i], ColumnsOf(w), w.latitude, w.longitude, collab);
        r.Success? && Divisible(r.value)
  {
    var cols := ColumnsOf(w);
    var run := SimulatePlants(input.plants, cols, w.latitude, w.longitude, collab, |input.plants|);
    assert Computed(input, collab, model) == run;
    if run.Success? {
      forall i | 0 <= i < |input.plants|
        ensures Reportable(run.value[i]) <==> Divisible(PlantCalc(input.plants[i], cols, w.latitude, w.longitude, collab).value)
      {
        var c := PlantCalc(input.plants[i], cols, w.latitude, w.longitude, collab);
        assert run.value[i] == Store(input.plants[i], c.value);
        StoreReportable(input.plants[i], c.value);
      }
    }
  }

  /** A stored plant's area-specific profile can be read exactly when the
      computation's area divides its profile. */
  lemma StoreReportable(p: PvPlant, r: PowerResult)
    ensures Reportable(Store(p, r)) <==> Divisible(r)
  {
  }

  /** On success, the result structure holds what the stored plants promise. */
  lemma SimulateFaithful(input: SimulationInput, collab: Collaborators, model: DniModel)
    requires Valid(input.weather)
    requires Simulate(input, collab, model).Success?
    ensures var out := Simulate(input, collab, model).value;
      var o := Outcomes(out.plants);
      && Aligned(o)
      && out.results == ExpectedResults(o, ByTotalArea)
  {
    var w := PreProcess(input.weather, model).value.weather;
    var plants := Computed(input, collab, model).value;
    ComputedPlantsAligned(input.plants, ColumnsOf(w), w.latitude, w.longitude, collab, plants);
    AssembleFaithful(plants);
  }

  // ---------------------------------------------------------------------------
  // The systemKWP quirk
  // ---------------------------------------------------------------------------

  /** Since `systemKWP` holds the annual energy in kWh, a plant's energy per kWp
      is 1000 whenever it produced anything, and not a number otherwise: the
      figure says nothing about the plant. */
  lemma PlantYieldPerKwpIsConstant(p: PvPlant, r: PowerResult)
    ensures var total := Sum(r.energy);
      var perKwp := ExpectedPlant(OutcomeOf(Store(p, r))).workSpecificEnergyPerYear;
      (total != 0.0 ==> perKwp == Some(1000.0)) && (total == 0.0 ==> perKwp == None)
  {
    var total := Sum(r.energy);
    if total != 0.0 {
      ThousandfoldQuot(total);
    }
  }

  /** Dividing a non-zero amount by its thousandth gives 1000. */
  lemma ThousandfoldQuot(total: real)
    requires total != 0.0
    ensures Quot(total, total / 1000.0) == Some(1000.0)
  {
    var q := Quot(total, total / 1000.0);
    ThousandfoldShare(total, q.value);
  }

  lemma ThousandfoldShare(total: real, v: real)
    requires total != 0.0 && v * (total / 1000.0) == total
    ensures v == 1000.0
  {
    calc {
      v * total;
      1000.0 * (v * (total / 1000.0));
      1000.0 * total;
    }
  }

  /** The same holds for the fleet: the sum of the stored `systemKWP` values is
      the fleet total over 1000. */
  lemma FleetYieldPerKwpIsConstant(plants: seq<PlantOutcome>)
    requires Aligned(plants)
    requires forall i :: 0 <= i < |plants| ==> plants[i].kwp * 1000.0 == Sum(plants[i].energy)
    ensures var total := FleetTotal(plants);
      var perKwp := ExpectedFleet(plants, ByTotalArea).workSpecificEnergyPerYear;
      (total != 0.0 ==> perKwp == Some(1000.0)) && (total == 0.0 ==> perKwp == None)
  {
    var totals := Totals(Energies(plants));
    FleetTotalIsSumOfPlants(plants);
    assert Powers(plants) == DivideBy(totals, 1000.0);
    SumDivideBy(totals, 1000.0);
    var total := FleetTotal(plants);
    assert Sum(Powers(plants)) == total / 1000.0;
    if total != 0.0 {
      ThousandfoldQuot(total);
    }
  }

  /** Every plant the simulation returns carries the quirk. */
  lemma SimulatedPlantsStoreEnergy(input: SimulationInput, collab: Collaborators, model: DniModel, out: SimulationOutput)
    requires Valid(input.weather)
    requires Simulate(input, collab, model) == Success(out)
    ensures forall i :: 0 <= i < |out.plants| ==>
      out.plants[i].systemKWP.Some? && out.plants[i].energyProfile.Some?
      && out.plants[i].systemKWP.value * 1000.0 == Sum(out.plants[i].energyProfile.value)
  {
    var w := PreProcess(input.weather, model).value.weather;
    SimulatedPlantsComputed(input, collab, model, out);
    StoredEnergy(input.plants, ColumnsOf(w), w.latitude, w.longitude, collab, out.plants);
  }

  /** The plants a successful simulation returns are those the plant loop computed. */
  lemma SimulatedPlantsComputed(input: SimulationInput, collab: Collaborators, model: DniModel, out: SimulationOutput)
    requires Valid(input.weather)
    requires Simulate(input, collab, model) == Success(out)
    ensures PreProcess(input.weather, model).Success?
    ensures var w := PreProcess(input.weather, model).value.weather;
      SimulatePlants(input.plants, ColumnsOf(w), w.latitude, w.longitude, collab, |input.plants|) == Success(out.plants)
  {
    assert Computed(input, collab, model) == Success(out.plants);
  }
}
