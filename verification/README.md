# SoDeLe photovoltaic simulation — a Dafny model

SoDeLe simulates the yearly energy yield of a fleet of photovoltaic plants
from a year of hourly weather data. This project models the core of the
program as pure Dafny functions and proves properties about them:

- **Weather reading.** This covers the TRY `.dat` reader: the metadata header
  scan, the `***` sentinel, the column names and the 8760-row check. It also
  covers the synthetic calendar columns and the EPW wrapper
  (`TryHeader`, `TryReader`, `Calendar`). The weather operations are the
  time-stamp shift and the DNI recalculation (`Weather`).
- **The modern pipeline** in `src/sodele/core/pv_simulation.py`. It covers the
  per-plant power calculation (`PowerModel`) and its orchestration (`Simulation`).
  It also covers the aggregation into the energy frame, the summary frame and
  the result object (`Aggregation`), and the plant properties of
  `interfaces/pv_specifics.py` (`PvSpecifics`).
- **The legacy pipeline** in `src/sodele/PVSImulation.py` (`LegacySimulation`).
  It has its own objects:
  - the source-tree plant with its sixteen settings (`LegacyPlant`);
  - the weather object with its dictionary round trip (`LegacyWeather`);
  - the two input objects (`LegacyInput`);
  - the root package's plant and configuration objects (`RootObjects`).
- **Helpers.** This covers the dotted-path lookup `dictor` with its float
  coercion (`Dictor`, `PyValue`), `strToBool`, the environment lookup and the
  numpy encoder (`Helper`). It also covers the option-description builders
  (`Options`) and database path selection (`Database`).
- **The database generators** of `src/sodele/generatePVDatabase.py` and
  `bin/generatePVDatabase.py` (`PvDatabase`). They move the name column to the
  front, add units to the column names and write the result.

Python values appear as the `PyValue.Value` datatype. Exceptions are the
`Failure` side of `Wrappers.Result`, and the model names which exception is
raised. A numpy float that may be infinite or NaN is `Floats.Num`, an
`Option<real>`. Two divisions are kept apart. Dividing plain Python floats
raises `ZeroDivisionError` on a zero divisor (`Floats.Div`, `Floats.DivEach`):
this is how the plant properties and the legacy plant metrics divide.
Dividing numpy values yields a non-finite value instead of raising
(`Floats.Quot`): this is how the summary tables divide. The photovoltaic
library is passed in as function parameters, and so are the map projection,
the time-stamp parser and the DNI model. The contracts state what the code
does for every behaviour of those functions.

## Where the model follows the code rather than its description

- The legacy weather object stores the bound methods `adjustTimeStamp` and
  `recalculateDNI` under the names of its flags. The flags are therefore always
  truthy after a dictionary round trip. The legacy pre-processing calls
  `adjustTimeStamp(timeshift)` on a method that takes no argument, which raises
  `TypeError`. So a legacy run with both flags set always fails
  (`LegacySimulation.RoundTripInputCannotRun`), and the model says so rather
  than shifting the stamps.
- The modern pipeline stores the plant's yearly energy as `systemKWP`, so the
  per-kWp yield it reports is the constant 1000
  (`Simulation.PlantYieldPerKwpIsConstant`). The legacy pipeline stores the
  rated power in kW instead.
- The two pipelines compute the fleet's per-area profile differently. The modern
  one divides the fleet profile by the total area. The legacy one averages the
  plants' per-area profiles. The two agree only when all areas are equal
  (`Aggregation.RulesOnEqualAreas`, `Aggregation.RulesDifferOnUnequalAreas`).
- Renaming the database columns assigns a list of names to the table's
  columns. With fewer units than columns this raises `ValueError("Length
  mismatch")`, the behaviour of assigning to `DataFrame.columns`, rather than
  truncating.
- The advertised option default of `modulesDatabaseType` is 1. The source-tree
  plant reads 2 when the key is missing (`LegacyPlant.AdvertisedDatabaseTypeDiffers`).
- For database type 2 the root package's plant reads the CEC inverter file as
  its module file (`Database.ObjectPathsDiverge`).

- A plant whose module area is zero, as happens with the default of zero
  inverters, makes both pipelines raise `ZeroDivisionError`. The modern one
  raises it when the energy table reads the plant's per-area profile
  (`Simulation.Assemble`). The legacy one raises it when the plant's metrics are
  computed (`LegacySimulation.Store`). Both properties divide plain floats.

## Model

| member | source | states |
|---|---|---|
| PowerModel.Attribute | src/sodele/core/pv_simulation.py:147-152 | reading a module attribute succeeds exactly when the record has it, and otherwise raises AttributeError naming it |
| PowerModel.ThermalClass | src/sodele/core/pv_simulation.py:44-46 | installations 1–4 map to the four SAPM temperature-model classes; any other value raises KeyError |
| PowerModel.DcModel | src/sodele/core/pv_simulation.py:86-91 | database type 1 selects the `sapm` DC model and 2 selects `cec`; anything else raises KeyError |
| PowerModel.ChainWeather | src/sodele/core/pv_simulation.py:100-118 | one model-chain row per weather row; the three irradiances are reduced by the irradiation loss, and the temperature, wind, precipitable water and albedo are passed through |
| PowerModel.AcPower | src/sodele/core/pv_simulation.py:127-134 | AC power is the inverter model's output or `p_mp` times the efficiency, times the number of inverters; a non-finite DC power stays non-finite |
| PowerModel.PostProcess | src/sodele/core/pv_simulation.py:136-141 | NaN becomes 0, and negative power becomes 0 unless stand-by consumption is kept; other values are unchanged |
| PowerModel.PostProcessSettles | src/sodele/core/pv_simulation.py:139-141 | without stand-by power the result is non-negative, and post-processing an already processed profile changes nothing |
| PowerModel.EnergyProfile | src/sodele/core/pv_simulation.py:157 | each step's energy is its power rescaled so that the profile represents 8760 hours |
| PowerModel.EnergyKeepsSign | src/sodele/core/pv_simulation.py:157 | rescaling keeps non-negative power non-negative |
| PowerModel.EnergyProfileOfYear | src/sodele/core/pv_simulation.py:157 | on a full hourly year the energy profile equals the power profile |
| PowerModel.EnergyProfileSum | src/sodele/core/pv_simulation.py:157-162 | total energy is total power scaled by 8760 over the number of steps |
| PowerModel.RatedAndArea | src/sodele/core/pv_simulation.py:143-154 | rated power is Impo·Vmpo (SAPM) or I_mp_ref·V_mp_ref (CEC) times the module count, and the area is Area or A_c times the module count; a missing attribute raises AttributeError; other database types raise ValueError |
| PowerModel.PlantPower | src/sodele/core/pv_simulation.py:121-141 | one power value per weather row, non-negative unless stand-by power is kept |
| PowerModel.Prepare | src/sodele/core/pv_simulation.py:42-121 | the failures come in the source's order: database lookup, temperature class, DC model, model-chain construction, weather, model run; each stage's error is the one raised, and success carries the lookup's records, the weather and the run's DC output |
| PowerModel.Finish | src/sodele/core/pv_simulation.py:121-163 | after a successful preparation the calculation fails only as the rated power and area do; its energy is the energy profile of the plant power on the prepared chain and its rated power and area are those of the module data |
| PowerModel.CalcPower | src/sodele/core/pv_simulation.py:32-163 | preparation errors propagate and afterwards only a missing module attribute can fail; on success the energy is the energy profile of the plant power computed from the prepared chain, has one value per weather row, is non-negative without stand-by power, and the rated power and area are the module data times the module count |
| Floats.Quot | src/sodele/core/pv_simulation.py:255 | the numpy quotient is non-finite exactly when the divisor is zero, and otherwise times the divisor gives back the dividend |
| Floats.Div | src/sodele/interfaces/pv_specifics.py:50 | a plain float division raises ZeroDivisionError exactly when the divisor is zero, and otherwise its quotient times the divisor is the dividend and agrees with the numpy quotient |
| Floats.DivEach | src/sodele/interfaces/pv_specifics.py:42 | dividing each list item raises ZeroDivisionError exactly when the divisor is zero and the list is non-empty, and otherwise agrees item by item with the numpy quotient |
| Floats.SkipNaNSum | src/sodele/PVSImulation.py:199 | the NaN-skipping row sum equals the plain sum whenever every entry is finite |
| Floats.NaNCountsAsZero | src/sodele/PVSImulation.py:199 | replacing a NaN entry by zero leaves the NaN-skipping sum unchanged |
| Aggregation.PerPlantLabel | src/sodele/core/pv_simulation.py:215-220 | a per-plant label is `PV-Anlage <i>` followed by nothing or by a `:` suffix, so its first digit run is the plant number |
| Aggregation.LabelInjective | src/sodele/core/pv_simulation.py:215-272 | distinct columns of the energy and summary frames never share a label |
| Aggregation.FindColumn | src/sodele/core/pv_simulation.py:216 | finds the first column with the key, or reports that none has it |
| Aggregation.Assign | src/sodele/core/pv_simulation.py:216 | assigning a new column appends it; assigning an existing one replaces its values in place |
| Aggregation.Lookup | src/sodele/core/pv_simulation.py:302-304 | indexing a frame by a missing label raises KeyError with that label; otherwise it returns the first matching column |
| Aggregation.At | src/sodele/core/pv_simulation.py:305-307 | positional access succeeds exactly inside the sequence and raises IndexError outside it |
| Aggregation.Energies | src/sodele/core/pv_simulation.py:243-247 | the plants' energy profiles, in plant order |
| Aggregation.Areas | src/sodele/core/pv_simulation.py:243-247 | the plants' surface areas, in plant order |
| Aggregation.Powers | src/sodele/core/pv_simulation.py:243-247 | the plants' system kWp, in plant order |
| Aggregation.FleetProfile | src/sodele/core/pv_simulation.py:225 | the fleet profile at each step is the sum over plants of that step's energy |
| Aggregation.AreaRow | src/sodele/core/pv_simulation.py:255 | one step's per-area energy of each plant |
| Aggregation.RowMean | src/sodele/PVSImulation.py:199 | the row mean is always a number, since the sum skips NaN entries; when every entry is finite it times the row length is the row's sum |
| Aggregation.RowMeanSkipsNaN | src/sodele/PVSImulation.py:199 | a NaN entry contributes as a zero would, so the mean counts it in the length but not in the sum |
| Aggregation.FleetAreaProfile | src/sodele/core/pv_simulation.py:224-227 | the fleet per-area profile is the fleet profile over the total area (modern) or the mean of the plants' per-area profiles (legacy) |
| Aggregation.RulesOnEqualAreas | src/sodele/PVSImulation.py:199 | when all plants have the same non-zero area the two fleet per-area rules agree |
| Aggregation.RulesDifferOnUnequalAreas | src/sodele/PVSImulation.py:199 | with two plants of areas 1 and 3 the rules give different values |
| Aggregation.PlantColumn | src/sodele/core/pv_simulation.py:214-222 | even positions hold a plant's energy profile; odd positions hold its per-area profile, and a zero area under a non-empty profile raises ZeroDivisionError |
| Aggregation.AreaColumnOf | src/sodele/core/pv_simulation.py:220-221 | a plant's per-area column exists iff its area is non-zero or its profile empty, otherwise ZeroDivisionError; it carries the plant's per-area label and profile |
| Aggregation.AreaColumnIsDivision | src/sodele/core/pv_simulation.py:221 | the per-area column is the plain-float division of the plant's energy profile by its area, and fails exactly when that division raises |
| Aggregation.PlantColumnsLayout | src/sodele/core/pv_simulation.py:214-222 | the loop over plants succeeds iff no plant divides a non-empty profile by a zero area (else ZeroDivisionError), and lays out two columns per plant in plant order |
| Aggregation.PlantAssignsAppend | src/sodele/core/pv_simulation.py:214-222 | each iteration's two column assignments use labels not yet in the table, so they append the plant's profile column and then its per-area column |
| Aggregation.EnergyFrame | src/sodele/core/pv_simulation.py:202-229 | the energy frame is built iff no plant divides a non-empty profile by a zero area (else ZeroDivisionError); it has the plants' column pairs, then the fleet profile, then the fleet per-area profile |
| Aggregation.ProfileKeys | src/sodele/core/pv_simulation.py:215-217 | the profile labels of plants 0..n-1, in order |
| Aggregation.AreaKeys | src/sodele/core/pv_simulation.py:220-222 | the per-area labels of plants 0..n-1, in order |
| Aggregation.SummaryKeys | src/sodele/core/pv_simulation.py:263-266 | the summary-column labels of plants 0..n-1, in order |
| Aggregation.Summary | src/sodele/core/pv_simulation.py:232-279 | with no plants the summary raises AxisError; otherwise it has the description column, one column per plant and the fleet column |
| Aggregation.FleetTotalIsSumOfPlants | src/sodele/core/pv_simulation.py:250-254 | the fleet's yearly energy equals the sum of the plants' yearly energies |
| Aggregation.ResultOf | src/sodele/core/pv_simulation.py:304-316 | a result is built exactly when the summary column has its three figures, which become the yearly energy, the energy per kWp and the energy per area, in that order |
| Aggregation.CollectAll | src/sodele/core/pv_simulation.py:301-317 | collecting k results succeeds iff every call succeeds, and then holds exactly the k values in call order |
| Aggregation.CollectAllFirstFailure | src/sodele/core/pv_simulation.py:301-317 | a failed collection raises the exception of the first call that raised, and every earlier call succeeded |
| Aggregation.PlantResults | src/sodele/core/pv_simulation.py:301-317 | the per-plant loop yields one result per plant |
| Aggregation.BuildResults | src/sodele/core/pv_simulation.py:282-341 | a built result holds one entry per plant; the fleet's profile and per-area profile are the energy frame's last two columns |
| Aggregation.LookupProfile | src/sodele/core/pv_simulation.py:302 | in the energy frame, plant i's profile label finds plant i's energy |
| Aggregation.LookupAreaProfile | src/sodele/core/pv_simulation.py:303 | in the energy frame, plant i's per-area label finds plant i's per-area profile |
| Aggregation.PlantResultFaithful | src/sodele/core/pv_simulation.py:301-317 | plant i's result carries plant i's profiles and summary figures |
| Aggregation.PlantResultsFaithful | src/sodele/core/pv_simulation.py:301-317 | every plant's result is that plant's own |
| Aggregation.ResultsFaithful | src/sodele/core/pv_simulation.py:282-341 | for a non-empty fleet whose areas can be divided by, both frames are built and the results hold each plant's own figures and the fleet's |
| Simulation.PreSteps | src/sodele/core/pv_simulation.py:352-358 | the shift runs iff requested and the recalculation iff requested, each at most once; the shift comes before the recalculation; the warning comes before the recalculation and only when the recalculation runs without the shift |
| Simulation.PreProcess | src/sodele/core/pv_simulation.py:352-358 | pre-processing raises IndexError exactly when a shift is requested on an empty time index; otherwise it changes only the weather table and its frame, warns exactly when DNI is recalculated without the shift, and leaves the weather alone when neither flag is set |
| Simulation.PreProcessFollowsPlan | src/sodele/core/pv_simulation.py:352-358 | pre-processing succeeds, yields its weather and raises its error exactly as running the planned steps in order does |
| Simulation.PreProcessBoth | src/sodele/core/pv_simulation.py:352-358 | with both flags and a non-empty index, pre-processing succeeds, the stamps are shifted and the DNI is recomputed at the shifted stamps |
| Simulation.ConfigOf | src/sodele/core/pv_simulation.py:59-124 | each of the plant's sixteen settings reaches the model chain's configuration unchanged, the integer ones as the numbers they equal |
| Simulation.ConfigOfKeepsSettings | src/sodele/core/pv_simulation.py:59-124 | two plants give the same configuration exactly when they agree on every setting; only the uid and stored results are not passed on |
| Simulation.ColumnsOf | src/sodele/core/pv_simulation.py:96-118 | without a weather frame the calculation raises "No weather data available!"; otherwise it reads the frame's index and its ghi, dni, dhi, air temperature, wind speed and humidity columns row for row |
| Simulation.Store | src/sodele/core/pv_simulation.py:363-367 | the plant keeps its energy profile and area, its systemKWP is the yearly energy over 1000, and nothing else changes |
| Simulation.SimulatePlants | src/sodele/core/pv_simulation.py:363-367 | the loop succeeds iff every plant's calculation succeeds, and then plant i is stored with its own result |
| Simulation.PlantStep | src/sodele/core/pv_simulation.py:364-367 | one plant step succeeds iff its calculation does, stores that result, and otherwise raises the calculation's error |
| Simulation.SimulatePlantsFirstFailure | src/sodele/core/pv_simulation.py:363-364 | a failing loop raises the error of the first plant whose calculation fails, and every earlier plant succeeded |
| Simulation.Outcomes | src/sodele/core/pv_simulation.py:243-247 | each stored plant's energy, area and kWp, in plant order |
| Simulation.ComputedPlantsAligned | src/sodele/core/pv_simulation.py:363-367 | after the loop every plant has results and all profiles have the weather's length, so they fit into one table |
| Simulation.StoredEnergy | src/sodele/core/pv_simulation.py:365-367 | after the loop every plant's systemKWP times 1000 is the sum of its own energy profile |
| Simulation.Assemble | src/sodele/core/pv_simulation.py:372-385 | assembling succeeds iff there are plants and every plant's per-area profile can be computed; a zero area under a non-empty profile raises ZeroDivisionError, and no plants raise AxisError |
| Simulation.AreaColumnIsAreaProperty | src/sodele/core/pv_simulation.py:221 | a stored plant's per-area property exists exactly when the energy frame can divide by its area, and then equals the frame's per-area column |
| Simulation.AssembleFaithful | src/sodele/core/pv_simulation.py:372-385 | with plants whose per-area profiles exist, every plant's result holds its stored profile, area profile and yields, and the fleet's area profile is taken over the total area |
| Simulation.Simulate | src/sodele/core/pv_simulation.py:344-387 | a run succeeds iff pre-processing and every plant's calculation succeed, there is a plant, and every stored plant's per-area profile exists; it reports the computed plants and warns per the pre-processing; earlier errors propagate, a zero area raises ZeroDivisionError and an empty fleet AxisError |
| Simulation.SimulateSucceeds | src/sodele/core/pv_simulation.py:344-387 | a run succeeds exactly when pre-processing succeeds, the fleet is non-empty, and every plant's calculation on the pre-processed weather succeeds with a non-zero area or an empty profile |
| Simulation.ComputedReportable | src/sodele/core/pv_simulation.py:362-372 | after pre-processing, every plant's calculation succeeds and every stored plant can be divided by its area exactly when each plant's calculation on the pre-processed weather succeeds with a non-zero area or an empty profile |
| Simulation.StoreReportable | src/sodele/core/pv_simulation.py:364-367 | storing a calculation's result gives a plant whose per-area profile exists exactly when the result has a non-zero area or an empty profile |
| Simulation.SimulateFaithful | src/sodele/core/pv_simulation.py:372-385 | each plant's reported result is that plant's own profile, total, per-kWp and per-area figures, and the fleet's report is the fleet's |
| Simulation.PlantYieldPerKwpIsConstant | src/sodele/core/pv_simulation.py:367 | because systemKWP is set to the yearly energy over 1000, a plant's reported energy per kWp is 1000 whenever its energy is non-zero |
| Simulation.FleetYieldPerKwpIsConstant | src/sodele/core/pv_simulation.py:258 | the fleet's energy per kWp is then also 1000 whenever the fleet's energy is non-zero |
| Simulation.SimulatedPlantsStoreEnergy | src/sodele/core/pv_simulation.py:365-367 | every plant of a successful run stores its own yearly energy as systemKWP |
| LegacySimulation.PreProcess | src/sodele/PVSImulation.py:329-335 | without recalculation the weather is untouched; with both flags the run raises TypeError; with recalculation alone the DNI is recomputed, or the missing column is reported |
| LegacySimulation.RoundTripWeatherCannotRun | src/sodele/PVSImulation.py:333-334 | a weather object that went through its dictionary form always fails pre-processing with TypeError |
| LegacySimulation.Number | src/sodele/PVSImulation.py:44-65 | a setting is accepted exactly when it is numeric, and otherwise raises TypeError |
| LegacySimulation.Numbers | src/sodele/PVSImulation.py:37-65 | a list of settings converts iff every one is numeric, and then gives their values in order |
| LegacySimulation.NumbersFirstFailure | src/sodele/PVSImulation.py:37-65 | a failed conversion raises TypeError naming the first non-numeric setting; every earlier one is numeric |
| LegacySimulation.ChainOf | src/sodele/PVSImulation.py:22-80 | the chain fails in the source's order: module lookup, installation class, location and system settings, DC model, chain construction; on success it carries the records, the converted settings and the setup |
| LegacySimulation.InputsOf | src/sodele/PVSImulation.py:83-100 | missing temperature or humidity columns raise the column read's KeyError first, then a non-numeric albedo and irradiation loss raise TypeError, then the other columns are read |
| LegacySimulation.ConfigFrom | src/sodele/PVSImulation.py:106-121 | the model configuration keeps the plant's installation and database type and its two inverter flags |
| LegacySimulation.EtaOf | src/sodele/PVSImulation.py:109-114 | the inverter efficiency is read, and must be numeric, only when the inverter database is not used |
| LegacySimulation.Configured | src/sodele/PVSImulation.py:22-114 | configuration fails in the source's order: chain, weather inputs, model run, number of inverters, efficiency; on success it holds the configuration and the run's output |
| LegacySimulation.EtaUnreadWithDatabase | src/sodele/PVSImulation.py:109-114 | with the inverter database in use the efficiency setting does not affect the calculation, whatever its value |
| LegacySimulation.Entry | src/sodele/Objects/PhotovoltaicPlant.py:260-261 | a module or inverter is found iff its name is a key of the catalogue, and otherwise KeyError |
| LegacySimulation.ModulesAndInverters | src/sodele/Objects/PhotovoltaicPlant.py:254-271 | type 1 reads the plant's two catalogue files and type 2 the shipped CEC libraries; a pair is returned iff both names are found; any other type returns None, and unpacking it raises TypeError |
| LegacySimulation.ColumnsOf | src/sodele/PVSImulation.py:83-98 | the weather columns are read iff the frame has all read columns, and otherwise KeyError names a missing one; the index and values pass through |
| LegacySimulation.ForPlant | src/sodele/PVSImulation.py:22 | the legacy calculation looks up the plant's own module and inverter |
| LegacySimulation.PlantCalc | src/sodele/PVSImulation.py:10-138 | configuration errors propagate in the source's order and afterwards only a missing module attribute can fail; on success the energy is the energy profile of the plant power from the configured chain, one value per weather row, non-negative without stand-by power, and rated power and area come from the module data |
| LegacySimulation.Store | src/sodele/PVSImulation.py:340-345 | storing succeeds iff the area and rated power are non-zero (else ZeroDivisionError); the stored profile is in kWh, systemKWP is the rated power in kW, the metrics hold the yearly energy and the per-area profile, and nothing else changes |
| LegacySimulation.StoredAreaProfile | src/sodele/PVSImulation.py:195 | the stored per-area profile is the stored profile over the area |
| LegacySimulation.Step | src/sodele/PVSImulation.py:341-345 | one plant step succeeds iff its calculation and the storing succeed; a calculation error propagates and a zero area or rated power raises ZeroDivisionError |
| LegacySimulation.SimulatePlants | src/sodele/PVSImulation.py:340-345 | the plant loop succeeds iff each plant's step succeeds, and then stores plant i with its own result |
| LegacySimulation.SimulatePlantsFirstFailure | src/sodele/PVSImulation.py:340-345 | a failing loop raises the error of the first plant whose step raises, and every earlier plant was computed |
| LegacySimulation.Outcomes | src/sodele/PVSImulation.py:216-220 | each computed plant's energy, area and kWp, in plant order |
| LegacySimulation.ComputedPlantsAligned | src/sodele/PVSImulation.py:340-345 | after the loop every plant is computed and every profile has the weather's length |
| LegacySimulation.Assemble | src/sodele/PVSImulation.py:177-315 | with no plants raises AxisError; with computed plants of non-zero area it succeeds |
| LegacySimulation.AssembleFaithful | src/sodele/PVSImulation.py:177-315 | with plants, every plant's result holds what the stored plant promises, and the fleet's area profile is the mean of the plants' |
| LegacySimulation.Simulate | src/sodele/PVSImulation.py:318-364 | pre-processing errors propagate; otherwise the run is the plant loop and the assembly on the pre-processed weather |
| LegacySimulation.SimulateFaithful | src/sodele/PVSImulation.py:350-362 | each plant's reported result is its own, and the fleet's per-area profile is the mean of the plants' |
| LegacySimulation.RoundTripInputCannotRun | src/sodele/PVSImulation.py:329-335 | an input read back from its own dictionary form cannot be simulated: its weather flags are truthy, so pre-processing raises TypeError |
| LegacySimulation.PlantYieldPerKwp | src/sodele/PVSImulation.py:230 | a stored legacy plant's reported energy per kWp is its yearly energy over its rated power |
| LegacyPlant.Setting | src/sodele/Objects/PhotovoltaicPlant.py:132-152 | a setting with a default reads the key or the default; a required setting reads the key or raises KeyError naming it |
| LegacyPlant.FirstRequiredMissing | src/sodele/Objects/PhotovoltaicPlant.py:142-154 | finds the first required key that is absent, or reports that all are present |
| LegacyPlant.ReadSettings | src/sodele/Objects/PhotovoltaicPlant.py:142-154 | reading the settings fails on the first missing required key, and otherwise yields each setting's value in order |
| LegacyPlant.Construct | src/sodele/Objects/PhotovoltaicPlant.py:85-121 | a plant is constructed iff its database type is 1 or 2, and otherwise raises; it keeps its uid and settings and has no results yet |
| LegacyPlant.Deserialize | src/sodele/Objects/PhotovoltaicPlant.py:123-163 | a non-dictionary raises TypeError; a missing `moduleName`, then a missing `inverterName`, raises KeyError; a success is a constructed plant |
| LegacyPlant.RequiredSettings | src/sodele/Objects/PhotovoltaicPlant.py:143-149 | `moduleName` and `inverterName` are the only required settings, checked in that order |
| LegacyPlant.Serialize | src/sodele/Objects/PhotovoltaicPlant.py:165-188 | the dictionary holds exactly the sixteen settings with their values, and no uid |
| LegacyPlant.SerializeRoundTrip | src/sodele/Objects/PhotovoltaicPlant.py:123-188 | reading back a serialized plant constructs a plant with the same settings and a fresh uid |
| LegacyPlant.SettingIsDictor | src/sodele/Objects/PhotovoltaicPlant.py:132-152 | each defaulted setting is exactly a `dictor` lookup with its default |
| LegacyPlant.DeserializeDict | src/sodele/Objects/PhotovoltaicPlant.py:123-163 | when every setting reads, deserializing constructs the plant from those values and the given or fresh uid |
| LegacyPlant.DefaultsRead | src/sodele/Objects/PhotovoltaicPlant.py:132-152 | a dictionary with only the two names reads every other setting's default |
| LegacyPlant.DeserializeDefaults | src/sodele/Objects/PhotovoltaicPlant.py:132-163 | such a dictionary deserializes to the plant with the default settings |
| LegacyPlant.ConstructDefaults | src/sodele/Objects/PhotovoltaicPlant.py:85-121 | the default settings construct a plant |
| LegacyPlant.AdvertisedDatabaseTypeDiffers | src/sodele/Objects/PhotovoltaicPlant.py:140 | the option description advertises database type 1 while reading falls back to 2 |
| LegacyPlant.ProfileMetrics | src/sodele/Objects/PhotovoltaicPlant.py:238-252 | missing profile, area or kWp raise TypeError and a zero area or kWp raises ZeroDivisionError, in the source's order; on success the sum, the per-area profile and the two specific sums follow from the inputs |
| LegacyPlant.MetricsAgree | src/sodele/Objects/PhotovoltaicPlant.py:238-252 | for a non-zero area and kWp the per-area sum is the sum of the per-area profile |
| LegacyPlant.CalculateProfileMetrics | src/sodele/Objects/PhotovoltaicPlant.py:238-252 | recomputing the metrics succeeds iff they can be computed, raises their error otherwise, and changes only the metrics |
| LegacyWeather.FirstMissing | src/sodele/Objects/WeatherData.py:60-89 | finds the first absent key, or reports that all are present |
| LegacyWeather.ReadKeys | src/sodele/Objects/WeatherData.py:60-89 | reading keys in order raises KeyError for the first missing one and otherwise yields their values |
| LegacyWeather.FrameFromDict | src/sodele/Objects/WeatherData.py:81-84 | a frame is built only from a dictionary with a `timeStamps` list; its index is the parsed stamps and its columns are exactly the other keys, read as numbers |
| LegacyWeather.Deserialize | src/sodele/Objects/WeatherData.py:60-89 | a non-dictionary raises TypeError; the first missing key raises KeyError; a success carries the metadata and frame read from the dictionary |
| LegacyWeather.TimedeltaMinutes | src/sodele/Objects/WeatherData.py:98 | a time delta in minutes is made only from an int that is not a bool or from a float, and then has the value's number |
| LegacyWeather.AdjustTimeStamp | src/sodele/Objects/WeatherData.py:91-103 | the shift succeeds iff the shift is an int or a float (a bool or anything else raises TypeError) and the index is non-empty (an empty index raises IndexError); only the index changes, by the shift at every stamp |
| LegacyWeather.AdjustKeepsSpacing | src/sodele/Objects/WeatherData.py:91-103 | shifting keeps the gap between consecutive stamps |
| LegacyWeather.AdjustTimeStampWith | src/sodele/Objects/WeatherData.py:91 | calling the shift with an argument always raises TypeError |
| LegacyWeather.RecalculateDni | src/sodele/Objects/WeatherData.py:105-123 | the recalculation needs pressure, GHI and DHI (else KeyError); it replaces only the `dni` column, at every stamp, from the model |
| LegacyWeather.FrameToDict | src/sodele/Objects/WeatherData.py:125-150 | the dictionary holds the rendered stamps under `timeStamps` and one float list per column, and nothing else |
| LegacyWeather.Serialize | src/sodele/Objects/WeatherData.py:125-150 | the dictionary holds every read key, the metadata values, the frame's dictionary, and the two bound methods under the flag names |
| LegacyWeather.SerializeRoundTrip | src/sodele/Objects/WeatherData.py:60-150 | reading back a serialized weather object gives the same metadata and frame, with the flags replaced by the methods |
| LegacyWeather.ReadsBack | src/sodele/Objects/WeatherData.py:60-89 | a dictionary holding an object's metadata and frame reads back to that object |
| LegacyWeather.FrameRoundTrip | src/sodele/Objects/WeatherData.py:60-150 | when stamps parse back, a frame survives its dictionary form |
| LegacyWeather.RoundTripFlagsTruthy | src/sodele/Objects/WeatherData.py:146-147 | after a round trip both pre-processing flags are truthy, whatever they were |
| LegacyInput.ReadEach | src/sodele/Objects/SodeleInput.py:34 | reading a list succeeds iff every item reads, and then holds each item's value in order |
| LegacyInput.ReadEachFirstFailure | src/sodele/Objects/SodeleInput.py:34 | a failing read raises the error of the first item that fails to read; every earlier item reads |
| LegacyInput.ReadPlants | src/sodele/Objects/SodeleInput.py:34 | a list reads item by item, a string reads character by character, and a dictionary reads iff it is empty |
| LegacyInput.StringPlantsFail | src/sodele/Objects/PhotovoltaicPlant.py:132 | a plant given as a string raises TypeError in both plant readers |
| LegacyInput.DeserializeSrc | src/sodele/Objects/SodeleInput.py:24-37 | a non-dictionary raises TypeError and missing plants raise KeyError; a success holds the plants read item by item and the weather read from its dictionary |
| LegacyInput.DeserializeSrcShowPlots | src/sodele/Objects/SodeleInput.py:36 | the source-tree input's plot flag defaults to true |
| LegacyInput.SerializeSrc | src/sodele/Objects/SodeleInput.py:39-50 | the dictionary holds exactly the plants, the plot flag and the weather, each serialized |
| LegacyInput.SrcRoundTrip | src/sodele/Objects/SodeleInput.py:24-50 | reading back a serialized input gives the same plants with fresh uids, the same plot flag and the round-tripped weather |
| LegacyInput.SrcOptions | src/sodele/Objects/SodeleInput.py:52-64 | the options describe exactly the keys the serializer writes |
| LegacyInput.DeserializeRoot | sodele/Objects/SodeleInput.py:29-43 | a non-dictionary raises TypeError, a missing or invalid configuration raises; a success holds the configuration, the plants read item by item and the weather read from its dictionary |
| LegacyInput.DeserializeRootShowPlots | sodele/Objects/SodeleInput.py:42 | the root input's plot flag defaults to false |
| LegacyInput.SerializeRoot | sodele/Objects/SodeleInput.py:45-57 | the dictionary holds exactly configuration, plants, plot flag and weather, each serialized |
| LegacyInput.RootRoundTrip | sodele/Objects/SodeleInput.py:29-57 | reading back a serialized root input gives the same configuration and plants (fresh uids), plot flag and round-tripped weather |
| LegacyInput.RootOptions | sodele/Objects/SodeleInput.py:59-72 | the options describe the four top-level keys |
| LegacyInput.RootOptionsMirrorSerialize | sodele/Objects/SodeleInput.py:59-72 | the options' keys are exactly the serializer's keys |
| LegacyInput.ShowPlotsDefaultsDiffer | sodele/Objects/SodeleInput.py:42 | without `showPlots`, the root input reads false while the source-tree input reads true |
| RootObjects.DeserializePlant | sodele/Objects/PhotovoltaicPlant.py:73-93 | a non-dictionary raises TypeError; a read plant has no results yet |
| RootObjects.DeserializePlantDict | sodele/Objects/PhotovoltaicPlant.py:73-93 | a dictionary always reads, each setting being the document's value or its default, with the given or fresh uid |
| RootObjects.DeserializePlantDefaults | sodele/Objects/PhotovoltaicPlant.py:73-93 | an empty dictionary reads the default settings |
| RootObjects.SerializePlant | sodele/Objects/PhotovoltaicPlant.py:95-109 | the dictionary holds exactly the seven settings with their values, and no uid |
| RootObjects.PlantRoundTrip | sodele/Objects/PhotovoltaicPlant.py:73-109 | reading back a serialized plant gives the same settings with a fresh uid |
| RootObjects.SharedWithSourcePlant | src/sodele/Objects/PhotovoltaicPlant.py:132-139 | the root plant's seven settings are the first seven of the source-tree plant, with the same defaults |
| RootObjects.PlantOptionParts | sodele/Objects/PhotovoltaicPlant.py:111-126 | one option description per setting, each declaring that setting's type and default |
| RootObjects.PlantOptionsAgree | sodele/Objects/PhotovoltaicPlant.py:111-126 | the merged options describe exactly the plant's settings, with the defaults the reader uses |
| RootObjects.CalculatePlantMetrics | sodele/Objects/PhotovoltaicPlant.py:128-142 | recomputing the metrics succeeds iff profile, area and kWp are set and the area and kWp are non-zero, and changes only the metrics |
| RootObjects.NewConfig | sodele/Objects/PhotovoltaicConfig.py:18-22 | a configuration exists iff the database type is 1 or 2 (otherwise it raises), with that type's two paths |
| RootObjects.DeserializeConfig | sodele/Objects/PhotovoltaicConfig.py:24-35 | a non-dictionary raises TypeError |
| RootObjects.DeserializeConfigDict | sodele/Objects/PhotovoltaicConfig.py:24-35 | a dictionary reads its coerced database type, defaulting to 1, and builds the configuration from it |
| RootObjects.SerializeConfig | sodele/Objects/PhotovoltaicConfig.py:38-46 | the dictionary holds exactly the database type |
| RootObjects.ConfigRoundTrip | sodele/Objects/PhotovoltaicConfig.py:24-46 | reading back a serialized configuration gives it back |
| RootObjects.ConfigOptionsAgree | sodele/Objects/PhotovoltaicConfig.py:70-78 | the options declare exactly the database type as an integer with default 1, the default the reader uses |
| Weather.MakeWeatherData | src/sodele/interfaces/weather_data.py:31-56 | a weather object is built iff all columns have the time stamps' length; it keeps the entry, the flags, the shift and the time zone, and its frame is indexed by the stamps |
| Weather.Shift | src/sodele/interfaces/weather_data.py:67 | every stamp moves by exactly the given minutes |
| Weather.AdjustTimeStamp | src/sodele/interfaces/weather_data.py:58-72 | a frame with an empty time index raises IndexError; without a frame nothing changes; otherwise every stamp moves by the configured shift and nothing else changes |
| Weather.AdjustKeepsSpacing | src/sodele/interfaces/weather_data.py:58-72 | with at least two stamps the shift succeeds and keeps the gap between consecutive stamps |
| Weather.AdjustTwice | src/sodele/interfaces/weather_data.py:58-72 | on a non-empty index shifting twice moves the stamps by twice the shift, so a non-zero shift is not idempotent |
| Weather.ModelDni | src/sodele/interfaces/weather_data.py:74-98 | the DNI model gives one value per row |
| Weather.RecalculateDni | src/sodele/interfaces/weather_data.py:74-102 | without a frame nothing changes; otherwise only the DNI column changes, to the model's value at each row or 0 where the model gives none |
| Weather.RecalculateReadsShiftedStamps | src/sodele/interfaces/weather_data.py:74-102 | after a shift the DNI is computed at the shifted stamps |
| PvSpecifics.NewPlant | src/sodele/interfaces/pv_specifics.py:7-28 | a new plant has the given names, the documented defaults and no results |
| PvSpecifics.EnergyProfileSum | src/sodele/interfaces/pv_specifics.py:30-34 | the yearly energy is the profile's sum, or 0 before a simulation |
| PvSpecifics.EnergyProfileArea | src/sodele/interfaces/pv_specifics.py:36-42 | the per-area profile divides each value by the area, raises ZeroDivisionError for a zero area under a non-empty profile, and is empty before a simulation |
| PvSpecifics.EnergyProfileAreaSum | src/sodele/interfaces/pv_specifics.py:44-50 | the per-area yield is the yearly energy over the area, raises ZeroDivisionError for a zero area, and is 0 before a simulation |
| PvSpecifics.EnergyKWPSum | src/sodele/interfaces/pv_specifics.py:52-58 | the per-kWp yield is the yearly energy over systemKWP, raises ZeroDivisionError for a zero systemKWP, and is 0 before a simulation |
| PvSpecifics.AreaSumIsSumOfAreaProfile | src/sodele/interfaces/pv_specifics.py:36-50 | when both exist the per-area yield equals the sum of the per-area profile; for a zero area the yield raises, and the profile raises iff it is non-empty |
| PvSpecifics.PropertiesFollowUpdates | src/sodele/interfaces/pv_specifics.py:30-58 | after storing results the four properties are computed from the new values |
| PvSpecifics.DatabasePaths | src/sodele/interfaces/pv_specifics.py:60-66 | type 1 gives the Sandia module and CEC inverter files, type 2 the CEC module and inverter files, and any other type an error naming it |
| PvSpecifics.NewPlantPaths | src/sodele/interfaces/pv_specifics.py:20 | a new plant reads the Sandia modules and the CEC inverters |
| TryHeader.FieldText | src/sodele/core/weather_data_reader.py:132-133 | the text after the first ':' up to the next one; a line without ':' is an error |
| TryHeader.FieldTextOf | src/sodele/core/weather_data_reader.py:132-133 | for `key:value` followed by nothing or another ':' field, the field text is the value |
| TryHeader.IntField | src/sodele/core/weather_data_reader.py:93-108 | a numeric header field is the first run of digits, and a field without digits is unreadable |
| TryHeader.ApplyHeaderLine | src/sodele/core/weather_data_reader.py:129-138 | lines without a known key change nothing; `Rechtswert`, `Hochwert` and `Hoehenlage` set only their field to the first number, `Art des TRY` sets the trimmed kind; errors are an unreadable field or a missing ':' |
| TryHeader.ScanFrom | src/sodele/core/weather_data_reader.py:115-141 | the header scan fails only with an unreadable field or a missing separator |
| TryHeader.ScanHeader | src/sodele/core/weather_data_reader.py:115-141 | the loop over the lines computes the header scan |
| TryHeader.ScanStopsAtSentinel | src/sodele/core/weather_data_reader.py:115-127 | the scan reads the header lines before the first `***` line and takes the column names as the letter runs of the line before it |
| TryHeader.ScanWithoutSentinel | src/sodele/core/weather_data_reader.py:115-141 | without a `***` line no column names are found |
| TryReader.Lookup | src/sodele/core/weather_data_reader.py:177-185 | a column is found iff its name is present, and is that column's values; otherwise the missing name is reported |
| TryReader.Stamps | src/sodele/core/weather_data_reader.py:166-169 | 8760 stamps, one hour (60 minutes) apart, from 0 |
| TryReader.Months | src/sodele/core/weather_data_reader.py:199-201 | each hour's month in a non-leap year |
| TryReader.Days | src/sodele/core/weather_data_reader.py:199-201 | each hour's day of the month in a non-leap year |
| TryReader.Hours | src/sodele/core/weather_data_reader.py:199-201 | each hour's hour of day |
| TryReader.DatEntry | src/sodele/core/weather_data_reader.py:171-212 | the weather entry has 8760 rows of equal length with the stamps and the calendar columns of 2015 |
| TryReader.DatEntryColumns | src/sodele/core/weather_data_reader.py:171-212 | pressure is `p` converted from hPa to Pa, the other columns are the TRY columns (`B` as DNI, `D` as DHI), and GHI is diffuse plus direct unless the file has its own `ghi` column |
| TryReader.BuildDat | src/sodele/core/weather_data_reader.py:143-213 | a missing `Hochwert`, then `Rechtswert`, then the column names is an error; a success has 8760 rows, the projected coordinates, the altitude and kind read or defaulted, year 2015, time zone 1, both flags set and a 30-minute shift |
| TryReader.ReadDatCalendar | src/sodele/core/weather_data_reader.py:166-201 | a read TRY file's rows are the hours of the year in order, each with a valid date whose hour index is the row |
| TryReader.ReadDatRowCount | src/sodele/core/weather_data_reader.py:162-164 | a data block of any length other than 8760 is rejected, and a row-count error reports the count |
| TryReader.ReadEpw | src/sodele/core/weather_data_reader.py:216-251 | an EPW entry becomes weather iff its columns are aligned, with kind `epw`, one year, both flags set and a 30-minute shift |
| Calendar.DateOfHour | src/sodele/core/weather_data_reader.py:199-201 | hour i of the year has a valid date whose hour index is i |
| Calendar.DateOfHourIndex | src/sodele/core/weather_data_reader.py:199-201 | every valid date is the date of its hour index, so dates and hours of the year correspond one to one |
| Dictor.Walk | sodele/Helper/dictor.py:3-12 | an empty path yields the value; a walk never ends on a string that parses as a float |
| Dictor.CatchKeyError | sodele/Helper/dictor.py:13-14 | a KeyError becomes the default, and everything else passes through |
| Dictor.Dictor | sodele/Helper/dictor.py:1-14 | a lookup never raises KeyError, and a non-dictionary raises TypeError |
| Dictor.DictorSegments | sodele/Helper/dictor.py:1-14 | a dotted path is the walk along its segments, with KeyError replaced by the default |
| Dictor.DictorKey | sodele/Helper/dictor.py:1-14 | a single key yields the coerced entry or the default |
| Dictor.DictorMissingInner | sodele/Helper/dictor.py:5-14 | a missing inner key yields the default |
| Dictor.DictorThroughCoercedFloat | sodele/Helper/dictor.py:5-9 | walking into a string that was coerced to a float raises TypeError |
| PyValue.Coerce | sodele/Helper/dictor.py:7-11 | only strings change; a string becomes a float iff it parses as one, and otherwise stays as it is |
| PyValue.CoerceIdempotent | sodele/Helper/dictor.py:7-11 | coercing twice is coercing once |
| Helper.StrToBool | src/sodele/Helper/__init__.py:33-47 | true for `True` or any casing of "true", false for `False` or any casing of "false", otherwise ValueError |
| Helper.StrToBoolOfText | src/sodele/Helper/__init__.py:33-47 | a boolean, its text and its lower-cased text all read back as that boolean |
| Helper.StrToBoolIgnoresCase | src/sodele/Helper/__init__.py:33-47 | lower-casing the text never changes the answer |
| Helper.GetValueForKey | src/sodele/Helper/__init__.py:60-73 | a set, non-empty variable gives its text, and otherwise the default |
| Helper.NpEncode | src/sodele/Helper/__init__.py:7-22 | numpy integers, booleans and floats become Python values, NaN becomes None, arrays become lists of the same length, and anything else raises TypeError |
| Helper.NpEncodeNaN | src/sodele/Helper/__init__.py:15-20 | a NaN scalar encodes as None, while a NaN inside an array stays NaN |
| Options.GetDefault | sodele/Helper/optionsConcstructor.py:1-9 | the description has the one option name, holding exactly its type, default, description and required flag |
| Options.ScalarBuilderDefaults | sodele/Helper/optionsConcstructor.py:12-25 | the boolean, integer, float and string builders default to false, 0, 0.0 and "" and are not required |
| Options.GetList | sodele/Helper/optionsConcstructor.py:28-37 | one list-typed, required description per parameter, in order |
| Options.GetListAppend | sodele/Helper/optionsConcstructor.py:28-37 | describing two parameter lists is describing their concatenation |
| Options.ListEntryLacksRequiredFlag | sodele/Helper/optionsConcstructor.py:28-37 | a list description has `required` instead of `_required`, so reading `_required` raises KeyError |
| Options.MergeKeys | src/sodele/Objects/PhotovoltaicPlant.py:197-214 | merging one-option descriptions describes exactly their names |
| Options.MergeDistinct | src/sodele/Objects/PhotovoltaicPlant.py:197-214 | with distinct names each merged option is its own description |
| Database.GetDatabasePaths | src/sodele/misc/database.py:4-22 | type 1 gives the Sandia modules and CEC inverters, type 2 the CEC modules and inverters; any other type is an error naming it |
| Database.ObjectDatabasePaths | src/sodele/Objects/PhotovoltaicPlant.py:216-236 | type 1 gives the Sandia modules and CEC inverters, and type 2 gives the CEC inverter file twice; any other type raises |
| Database.ObjectPathsDiverge | src/sodele/Objects/PhotovoltaicPlant.py:230-233 | the plant's selection agrees with the shared one for type 1 but reads the inverter file as modules for type 2, for an integer or a float type |
| PvDatabase.SetNameColumn | src/sodele/generatePVDatabase.py:22-23 | the index becomes the `Name` column, appended when absent and replacing the old one in place otherwise |
| PvDatabase.Others | src/sodele/generatePVDatabase.py:30-31 | the columns other than `Name`, in order |
| PvDatabase.OthersOfSetName | src/sodele/generatePVDatabase.py:22-31 | setting the name column leaves the other columns as they were |
| PvDatabase.Reorder | src/sodele/generatePVDatabase.py:22-31 | the name column comes first, followed by every other column in order |
| PvDatabase.GenerateName | src/sodele/generatePVDatabase.py:36-37 | without a unit the header is unchanged; otherwise the unit follows the header in brackets |
| PvDatabase.UnitRoundTrip | src/sodele/generatePVDatabase.py:36-37 | a bracket-free header and its unit can be read back from the generated name |
| PvDatabase.Rename | src/sodele/generatePVDatabase.py:40-41 | renaming succeeds iff there are at least as many units as columns (else "Length mismatch"); each column keeps its cells and gets its unit |
| PvDatabase.RenameRecoverable | src/sodele/generatePVDatabase.py:40-41 | every renamed header reads back as the original header and its unit |
| PvDatabase.Generate | src/sodele/generatePVDatabase.py:15-41 | the table becomes the names column followed by the other columns, each with its unit, provided there are enough units |
| PvDatabase.Child | src/sodele/generatePVDatabase.py:52-53 | a file name is joined to the base path with one '/' |
| PvDatabase.GenerateInto | src/sodele/generatePVDatabase.py:6-57 | transformation errors propagate; a base that is not a directory raises; otherwise the two tables are written comma-separated below the base and no directory is created |
| PvDatabase.EntryPointWritesTypeTwoFiles | src/sodele/generatePVDatabase.py:60-61 | run from its entry point, the generator writes exactly the two files the program reads for database type 2 |
| PvDatabase.GenerateFixed | bin/generatePVDatabase.py:9-41 | the script writes the two transformed tables, semicolon-separated, to fixed paths below the root package |
| PvDatabase.GeneratorsAgree | bin/generatePVDatabase.py:9-41 | whenever the package generator succeeds the script does too, with the same columns but a different separator |
| PvDatabase.ScriptInvertersAreTypeOneInverters | bin/generatePVDatabase.py:41 | the script's inverter file is the one the root package's plant reads for database type 1 |
| Text.LetterRunsSeparator | src/sodele/core/weather_data_reader.py:89-124 | the letter runs of a line split at a non-letter are the runs of the two parts |
| Text.FirstDigitRunOf | src/sodele/core/weather_data_reader.py:93-108 | the first digit run of a text is the value of its first maximal block of digits |
| Text.TrimOf | src/sodele/core/weather_data_reader.py:109-111 | stripping removes the longest white-space prefix and suffix, with white space as `str.isspace` defines it, and leaves the rest |
| Text.JoinSplit | sodele/Helper/dictor.py:3 | splitting a path at '.' and joining the parts gives the path back |
| Text.SplitJoin | sodele/Helper/dictor.py:3 | joining dot-free segments and splitting again gives the segments back |
| Text.LowerIdempotent | src/sodele/Helper/__init__.py:41 | lower-casing twice is lower-casing once |

## Left out

- The photovoltaic library is not modelled: its model chain, solar position, `retrieve_sam`, `gueymard94_pw` and the Sandia inverter model. Nor is the map projection. Each enters the model as a function parameter.
- The weather modules' time-stamp parsing (`to_datetime`) and the EPW file reader are function parameters. So is the tokenising that turns a TRY file's data block into numbers: the model takes the rows as given.
- File and Excel/CSV input and output, logging, temporary files, the Docker environment switch and `uuid4` are left out. The environment becomes a map parameter and fresh uids a function parameter.
- The PVGIS weather source is left out because the code raises `NotImplementedError`. The command-line entry point `bin/app.py` is left out as a thin wrapper.
- Floating-point rounding is left out. Reals stand for finite floats. `Floats.Num` adds one value, `None`, that stands for NaN and for both infinities alike, so the model cannot tell them apart.
- The TRY reference years ("Bezugszeitraum") are not read from the header: the code uses 2015 whatever the file says.
- Duplicate column labels are not modelled in the database tables, and neither is pathlib's normalisation of paths.
- Aggregation.PlantResults: states only the number of results; `Aggregation.PlantResultsFaithful` states which result each plant gets.
- Dictor.Dictor: states only the error behaviour; the values are stated by `Dictor.DictorSegments` and `Dictor.DictorKey`.
- Dictor.Walk: states only the empty path and the coercion; the values come out of `Dictor.DictorSegments`.
- TryHeader.ScanFrom: states only the error kinds; `TryHeader.ScanStopsAtSentinel` and `TryHeader.ScanWithoutSentinel` state the result.
- RootObjects.DeserializePlant: states only the non-dictionary error; `RootObjects.DeserializePlantDict` states the dictionary case.
- RootObjects.DeserializeConfig: states only the non-dictionary error; `RootObjects.DeserializeConfigDict` states the dictionary case.
- Weather.ModelDni: states only the length; `Weather.RecalculateDni` states the values.
- PowerModel.PlantPower: states the length and sign, not the values the model chain computes, since the chain is a parameter.
- Aggregation.RowMean: `None` stands for infinity as well as NaN, so an infinite entry is skipped like a NaN, where pandas would give an infinite mean.
- Series.FillMissing: an infinite value becomes 0 like a NaN. This affects PowerModel.PostProcess, where `fillna(0)` keeps infinity, and Weather.RecalculateDni and LegacyWeather.RecalculateDni, where `np.nan_to_num` turns infinity into the largest float.
- Helper.NpEncode: an infinite numpy float cannot be expressed, so the model never returns `float('inf')` as the source does.
- PyValue.Coerce: the float parser accepts optional signs, digits and one decimal point. Python's `float()` also accepts exponents (`"2e-1"`), `inf`, `nan` and digit-group underscores. Such strings stay strings in the model, so a setting given that way raises TypeError where the source reads a number.
- LegacyWeather.FrameFromDict: the frame holds only numeric columns of equal-length lists. `DataFrame.from_dict` is more lenient, and the model differs from it in four ways. A column list holding `null` or NaN raises ValueError, where pandas reads NaN. A string item raises ValueError, where pandas keeps an object column. A scalar entry next to the lists raises ValueError, where pandas broadcasts it. A list of records raises TypeError, where pandas reads it. Integer and boolean columns are also read as reals.
- LegacyWeather.Deserialize: inherits every FrameFromDict difference above, so a document pandas reads can fail here with ValueError or TypeError.
- LegacyWeather.FrameToDict: every column is written as a list of floats, because the frame holds only reals. The source's `tolist()` gives ints for an integer column and bools for a boolean one; those values compare equal to the floats written here but have another type.
- PowerModel.ThermalClass, PowerModel.DcModel and LegacySimulation.Entry: the KeyError they raise carries the setting's name, such as `KeyError("moduleInstallation")`. Python's dict lookup carries the missing key itself, such as `KeyError(5)`. Only the error kind and the failing setting are modelled.
- Text.IsDigit: only ASCII digits count. Python's `\d` in a str pattern matches every Unicode decimal digit, and `int()` reads them all. This affects TryHeader.IntField and Text.FirstDigitRunOf only on non-ASCII header lines.
- PvSpecifics.EnergyKWPSum: a zero systemKWP raises ZeroDivisionError, as for a plain float. The modern pipeline stores systemKWP as a numpy float, and dividing by a numpy zero gives infinity instead. The pipeline itself never calls this property, so this affects only direct callers.
- LegacySimulation.ChainOf: each setting handed to `Location` and `PVSystem` must be numeric when the chain is built, and a non-numeric one raises TypeError there. pvlib itself may store such a value and fail only later, with another error.
- Simulation.Simulate: the source updates the input in place: it shifts and recomputes the weather and stores each plant's results. The model returns only the outcome. After a failure at plant k, the caller's plants before k already hold results and the weather is already shifted in the source; the model's `Failure` does not carry those partial updates, and a successful output does not carry the updated weather.
- LegacySimulation.Simulate: the same in-place updates are not returned, on success or after a partial failure.
