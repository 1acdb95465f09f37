# technoeconomics, modelled in Dafny

A model of the bookkeeping and exact arithmetic of `technoeconomics`. This is a
Python techno-economic model of hydrogen-based and plasma steelmaking. A steel
plant is a `System` of devices, joined by named mass and energy flows.

- **Mass and energy balance.** Each device's balance is computed from the ore
  composition, the chemistry of iron oxide reduction, the slag and flux
  targets, and hydrogen electrolysis and storage.
- **Solver.** A retry loop adjusts the plant's variables whenever a device
  signals that a balance cannot be met.
- **Costing.** The plant is then costed per tonne of steel:
  - operating costs come from a price table;
  - capital costs come from device capex labels, hydrogen storage sizing and
    electrolyser sizing;
  - the two combine into a levelised cost of production.
- **Around the model.** A sensitivity analysis reruns plants with one parameter
  varied. A CSV configuration overrides plant variables. Plot helpers gather
  the labels of stacked histograms.

Every Python exception is a value here:
- functions return `Result` (`Ok(value)` or `Err(message)`);
- state-changing methods return an `Outcome` (`Pass` or `Fail(message)`).

Python dicts are `Dicts.Dict`: a map plus the insertion order of its keys, with
the ordering rules of `d[k] = v` and `d.pop(k)`. Floats are exact `real`s.

## Modules

The modules follow the files of the program:
- `Units` (`utils.py`, `technoeconomics/utils.py`);
- `Thermo` (`thermo.py`);
- `Species` (`technoeconomics/species.py`);
- `FlowSystem` (`technoeconomics/system.py`);
- `Ore`, `OreTables`, `MassFlow`, `Solver` and `SlagFlux` (`mass_energy_flow.py`,
  its low-emission copy and `examples/steel_mass_energy.py`);
- `Prices`, `Capex`, `LiteratureCapex` and `Levelised` (`plant_costs.py`, its
  low-emission copy and `examples/steel_plant_capex.py`);
- `Sensitivity` (both `sensitivity.py` files);
- `Config` (`tea_main.py`);
- `PlotHelpers` (`plot_helpers.py` and the copy in the low-emission
  `mass_energy_flow.py`).

`Base`, `Dicts`, `Text` and `Sorting` hold what they share: outcomes, dicts,
ASCII case mapping, stripping of white space, and a stable sort.

State the source changes in place is modelled with classes and methods:
- the `Species` and `Mixture` objects;
- the devices and the system of `FlowSystem`;
- the capex devices and plants;
- the sensitivity indicators;
- the `ThermoData` lists, sorted in place;
- the configuration loops over plants.

Each of these methods is proved against a function that specifies it. That
function's own properties are then proved as lemmas.

Several functions appear in two or three copies of the program with the same
body. One member models them all:
- `hematite_normalise` (`mass_energy_flow.py:282-295` and low-emission
  284-297). The iron-to-hematite ratio is a parameter: written out in one copy,
  computed from molar masses in the other. The error message follows the copy;
- `add_h2_storage_flows` (`mass_energy_flow.py:1317-1348` and low-emission
  1126-1157);
- the three `calculate_*` formulas (`sensitivity.py:138-159` and low-emission
  71-89). The spider-plot message is the root copy's, whose backslash
  continuation keeps the next line's indentation; the low-emission copy
  writes it on one line;
- `capex_direct_and_indirect` (`plant_costs.py:212-217` and low-emission
  136-141);
- `histogram_labels_from_datasets`.

Where the copies differ, each copy has its own member, named after it
(`LowEmission…`, `…Checked`, `…Unchecked`, `Fixed…`, `Example…`).

Where the code has a bug (see "## Findings"), the operation is modelled as
written and the corrected definition sits beside it:
- `Thermo.DeltaH` computes `DeltaHAsWritten`, with the range check of
  `ClampAsWritten`;
- the slag passes take a `FluxRule`, and the furnace flows use `AsWritten`;
- `Prices.OperatingCostPerTonne` stores the cheap spot entry under the
  misspelt key;
- the low-emission LCOP uses the annuity factor as written;
- `OreTables.AddOreCompositionAsWritten` keeps the hematite line as written.

## Model

| member | source | states |
|---|---|---|
| Units.CelsiusToKelvin | technoeconomics/utils.py:3-7 | succeeds exactly when t ≥ −273.15 and then returns a non-negative Kelvin value exactly 273.15 above t; below absolute zero it is the ValueError (utils.py:3-7 is the same code) |
| Units.KelvinToCelsius | technoeconomics/utils.py:9-12 | succeeds exactly when t ≥ 0 (0 K accepted) and then returns t − 273.15; a negative Kelvin value is the ValueError (utils.py:10-13 is the same code) |
| Units.ConversionRoundTrips | utils.py:3-13 | kelvin_to_celsius(celsius_to_kelvin(c)) == c wherever the first call succeeds, and the other way round |
| Units.ConversionExamples | test.py:16-17 | celsius_to_kelvin(0) == 273.15 and kelvin_to_celsius(3000) == 2726.85 |
| Units.SecondCentralDifference | utils.py:16-20 | the central second difference raises (division by zero) exactly when h == 0 |
| Units.SecondDifferenceOfQuadratic | utils.py:16-20 | on f(y) = a·y² + b·y + c the difference is 2a at every x and every non-zero h |
| Units.SecondDifferenceSymmetric | utils.py:16-20 | steps h and −h give the same outcome |
| Units.SecondDifferenceOfLinear | utils.py:16-20 | on a linear f the difference is 0 for every non-zero h |
| Thermo.NewShomate | thermo.py:15-20 | construction succeeds exactly when min_kelvin < max_kelvin and there are 8 coefficients, and then stores the three arguments unchanged |
| Thermo.NewSimpleHeatCapacity | thermo.py:58-65 | construction succeeds exactly when min_kelvin < max_kelvin, and then stores the three arguments unchanged |
| Thermo.SegmentDeltaH | thermo.py:27-41 | a segment's delta_h raises exactly when a temperature is outside [min, max] (or, for Shomate, is 0 K, where t**-1 raises), and otherwise is the segment's enthalpy formula; the exception names its class and method ('ShomateEquation::delta_h: …', 'SimpleHeatCapacity::delta_h: …', thermo.py:33, 76); for a constant cp that is moles × cp × (t_final − t_initial) (thermo.py:74-77) |
| Thermo.EnthalpyZeroSpan | thermo.py:70-77 | a segment gives no enthalpy change between equal temperatures |
| Thermo.EnthalpyAdditive | thermo.py:27-41 | a segment's enthalpy changes chain: a→b plus b→c equals a→c, for both the constant and the Shomate formula |
| Thermo.SegmentCp | thermo.py:43-51 | a segment's cp raises exactly when t is out of range (or 0 K for Shomate), with the 'ShomateEquation::cp: …' or 'SimpleHeatCapacity::cp: …' message (thermo.py:48, 84); a constant segment returns its cp (thermo.py:79-85) |
| Thermo.BuildAccepts | thermo.py:186-204 | ThermoData construction succeeds exactly when the segments, sorted by min_kelvin, are non-empty without gap or overlap and every latent heat lies in [first.min, last.max]; the result is sorted, contiguous, spans first.min..last.max and holds a permutation of both input lists |
| Thermo.CheckContiguous | thermo.py:188-191 | the loop over consecutive sorted segments accepts exactly when each segment ends where the next begins |
| Thermo.CheckLatentWithin | thermo.py:200-202 | the loop over the latent heats accepts exactly when each lies within [min_kelvin, max_kelvin] |
| Thermo.NewThermoData | thermo.py:165-204 | the constructor returns the specified Build outcome, leaves the caller's segment list sorted by min_kelvin, and sorts the caller's latent-heat list by temperature only when it gets that far (a non-empty list after accepted segments) |
| Thermo.Clamp | thermo.py:213-224 | the corrected range check: a result lies within [min_kelvin, max_kelvin], a temperature already in range is never moved, and when both are in range it agrees with the check as written |
| Thermo.ClampAsWritten | thermo.py:213-224 | the range check as written accepts exactly when both temperatures are in range, or when min_kelvin lies in the 298-300 K window and one of the temperatures does; it moves at most one temperature, and only when min_kelvin lies in that window |
| Thermo.DeltaHAsWritten | thermo.py:209-256 | delta_h as written raises whenever its range check does |
| Thermo.DeltaHAsWrittenAgrees | thermo.py:213-224 | when min_kelvin lies outside the 298-300 K window, or both temperatures are in range, the check as written and the corrected check agree, and so do the two delta_h |
| Thermo.DeltaHAsWrittenAntisymmetric | thermo.py:209-256 | on data whose range does not start in the 298-300 K window, delta_h as written gives opposite results in opposite directions, an exception one way being raised the other way too |
| Thermo.DeltaH | thermo.py:209-256 | the method (range check as written, zero-moles shortcut, swap, latent loop, segment loop, negation) computes DeltaHAsWritten, and on data whose range does not start in the 298-300 K window it computes DeltaHSpec |
| Thermo.AddLatentHeats | thermo.py:237-240 | the latent loop adds m × latent_heat for exactly those latent heats with lo ≤ T < hi |
| Thermo.AddSegments | thermo.py:242-252 | the segment loop adds the walk from the lower to the higher temperature, passing on a segment's exception |
| Thermo.Cp | thermo.py:258-265 | ThermoData.cp returns the cp of the first segment covering t and raises when none does |
| Thermo.LatentSumEmpty | thermo.py:238-240 | between equal temperatures no latent heat is added |
| Thermo.LatentSumSplit | thermo.py:238-240 | splitting a path at any intermediate temperature counts each latent heat exactly once |
| Thermo.WalkEmptySpan | thermo.py:242-252 | walking an empty interval adds nothing when it succeeds |
| Thermo.DeltaHAntisymmetric | thermo.py:229-233 | delta_h(m, a, b) == −delta_h(m, b, a) for all temperatures, an exception raised one way being raised the other way too |
| Thermo.DeltaHZeroMoles | thermo.py:226-227 | zero moles give 0 from delta_h as written for every pair of temperatures its range check accepts |
| Thermo.WalkIsOverlapSum | thermo.py:242-252 | over contiguous segments the walk from t to hi is the sum of each segment's enthalpy change over its overlap with [t, hi] |
| Thermo.DeltaHIsOverlapSum | thermo.py:235-256 | for valid data and a ≤ b in range, delta_h as written is the latent heats in [a, b) plus each segment's enthalpy over its overlap with [a, b] |
| Thermo.CpCovered | thermo.py:262-265 | contiguous data has a heat capacity at every temperature of its range |
| Thermo.DeltaHAsWrittenNotAntisymmetric | thermo.py:213-224 | with one segment of constant cp 10 J/(mol K) on [299 K, 1000 K], delta_h as written gives 5 J from 298.5 K to 299.5 K and 0 J back, while the corrected check keeps the two opposite |
| Species.HeatEnergyOf | technoeconomics/species.py:48-56 | heat_energy raises when the species' temperature is unset or zero and otherwise is ThermoData.delta_h as written from that temperature, with the species' moles |
| Species.HeatEnergyToOwnTemperature | technoeconomics/species.py:48-56 | heating a species to the temperature it already has takes no energy, whenever it is accepted and that temperature is in range or the range does not start in the 298-300 K window |
| Species.HeatEnergyOfNothing | technoeconomics/species.py:48-56 | a species with 0 mols takes no energy to heat, whenever it is accepted |
| Species.Species.constructor | technoeconomics/species.py:29-43 | a new species holds 0 mols and no temperature, with the given name, molar mass, thermo data and enthalpy of formation |
| Species.Species.SetMols | technoeconomics/species.py:87-91 | the mols setter raises exactly on a negative value, leaving mols unchanged; otherwise mols becomes the value |
| Species.Species.SetMass | technoeconomics/species.py:93-101 | the mass setter raises on a negative mass (and, as a division by zero, on a zero molar mass); otherwise mols = mass / mm and reading mass gives the value back |
| Species.Species.SetTemp | technoeconomics/species.py:107-111 | the temp_kelvin setter raises exactly on a negative value, leaving the temperature unchanged; otherwise stores it |
| Species.Species.DeltaHFormation | technoeconomics/species.py:117-121 | the property raises exactly when no enthalpy of formation was given, and otherwise returns it |
| Species.Species.HeatEnergy | technoeconomics/species.py:48-56 | heat_energy on the object returns HeatEnergySpec of its fields (delta_h as written) and changes nothing |
| Species.Species.Set | technoeconomics/species.py:136-142 | set copies name, mols, temperature, molar mass, thermo data and enthalpy of formation from the other species |
| Species.MixtureTempShared | technoeconomics/species.py:179-188 | the getter yields a non-zero t exactly when some species has t, every later species has t too, and every earlier one is unset or at 0 (the getter skips falsy temperatures) |
| Species.UniformTemp | technoeconomics/species.py:179-188 | a non-empty mixture whose species all have the non-zero temperature t has temperature t |
| Species.NoTemp | technoeconomics/species.py:179-188 | a mixture whose species have no temperature, an empty one included, has temperature None |
| Species.MergeCheckOf | technoeconomics/species.py:236-243 | the per-species checks of merge raise on an unset temperature, on one below 298 K, on a failing cooling to 298 K and (division by zero) at exactly 298 K |
| Species.MergeLoop | technoeconomics/species.py:230-243 | the loop over self's and the other's species returns the specified MergeSpec: the combined list, or the first exception in loop order |
| Species.MergeIsCombine | technoeconomics/species.py:230-245 | the loop succeeds exactly when combining by name succeeds and every species passes the checks, and then yields the combined list |
| Species.CombineNamesUnique | technoeconomics/species.py:230-234 | after combining, each name appears once |
| Species.CombineKeepsNames | technoeconomics/species.py:230-234 | the combined list holds exactly the names of the input |
| Species.CombineSumsMols | technoeconomics/species.py:230-234 | each name's moles in the combined list are the sum of that name's moles in the input |
| Species.CombineMolarMassFrom | technoeconomics/species.py:230-234 | every combined entry has the molar mass of an input species of its name (the first one, deep-copied) |
| Species.CombineConservesMass | technoeconomics/species.py:230-245 | when same-named species share a molar mass, the combined mass equals the input mass (test.py:97-107) |
| Species.CombineNonNegative | technoeconomics/species.py:230-234 | combining species with non-negative moles never trips the mols setter and keeps moles non-negative |
| Species.MergeNeedsWarmSpecies | technoeconomics/species.py:236-243 | merge raises when any species is unset, below 298 K or exactly at 298 K |
| Species.Mixture.constructor | technoeconomics/species.py:150-154 | a mixture holds fresh copies (deepcopy) of the given species, in order, under the given name |
| Species.Mixture.Mass | technoeconomics/species.py:195-200 | mass is the sum of the species' masses (0 for an empty mixture) |
| Species.Mixture.FindSpecies | technoeconomics/species.py:204-208 | species(name) returns the first species object with that name, and raises exactly when none has it |
| Species.Mixture.Temp | technoeconomics/species.py:179-188 | the getter loop returns the specified MixtureTemp |
| Species.Mixture.SetTemp | technoeconomics/species.py:190-193 | the setter raises exactly on a negative value with species present, changing nothing; otherwise every species gets the temperature and a non-zero one becomes the mixture's |
| Species.Mixture.Merge | technoeconomics/species.py:213-245 | a zero-mass argument leaves the mixture unchanged; otherwise the species become MergeSpec of self + other when it succeeds, and on an exception the species list is untouched |
| Species.Mixture.MergeSpecies | technoeconomics/species.py:223-226 | merging a single species behaves as merging a one-species mixture |
| Species.Mixture.Set | technoeconomics/species.py:294-296 | set takes over the other mixture's name and fresh copies of its species |
| Species.CreateAirMixture | technoeconomics/species.py:630-638 | create_air_mixture raises exactly on a negative mass; otherwise the mixture is N2, O2, Ar (78.12 / 20.95 / 0.93 % by mass), totals the given mass and has no temperature |
| FlowSystem.Flow.constructor | technoeconomics/system.py:14-17 | a flow holds its name, mass and energy as given |
| FlowSystem.Device.constructor | technoeconomics/system.py:47-50 | a new device has its name and empty input and output tables |
| FlowSystem.Device.AddInput | technoeconomics/system.py:78-79 | inputs[flow.name] = flow: a flow of a name already present replaces the earlier one in its place, a new name goes last |
| FlowSystem.Device.AddOutput | technoeconomics/system.py:81-82 | outputs[flow.name] = flow, with the same replace-in-place rule |
| FlowSystem.System.constructor | technoeconomics/system.py:93-98 | a new system has its name and empty device, flow and system-variable tables |
| FlowSystem.System.AddDevice | technoeconomics/system.py:116-119 | add_device raises exactly when the name is already registered, changing nothing; otherwise the device is registered under its name, last |
| FlowSystem.System.RemoveDevice | technoeconomics/system.py:126-127 | remove_device forgets the device (nothing when absent) and keeps the table consistent |
| FlowSystem.System.AddFlow | technoeconomics/system.py:134-170 | add_flow raises when both endpoints are None; a None endpoint becomes the boundary device "<dev> __dummyinput__" / "<dev> __dummyoutput__", registered fresh, with empty inputs and outputs, only when absent; it then succeeds exactly when both endpoints are registered and the (from, to, name) triple is new, storing the one flow object in the flow table, adding it under its name to the destination's inputs and the source's outputs with their other entries kept; every other device's inputs and outputs are unchanged; on failure the flow table is unchanged |
| FlowSystem.System.AddBoundary | technoeconomics/system.py:138-145 | the endpoints are resolved, and only a boundary device that is absent is created and registered, with no inputs or outputs |
| FlowSystem.System.Connect | technoeconomics/system.py:147-170 | with both endpoints named: success exactly when both are registered and the triple is new; on success the flow is appended to the flow table and added under its name to the destination's inputs and the source's outputs, their other entries kept; no other device's inputs or outputs change |
| FlowSystem.System.Wire | technoeconomics/system.py:168-170 | the flow joins the destination's inputs and the source's outputs under its name |
| FlowSystem.System.AddInput | technoeconomics/system.py:172-173 | add_input succeeds exactly when the device is registered and the boundary triple is new, and get_input then returns the same flow object |
| FlowSystem.System.AddOutput | technoeconomics/system.py:175-176 | add_output succeeds exactly when the device is registered and the boundary triple is new, and get_output then returns the same flow object |
| FlowSystem.System.GetFlow | technoeconomics/system.py:178-182 | get_flow raises exactly for an unregistered triple and otherwise returns the stored flow |
| FlowSystem.System.GetInput | technoeconomics/system.py:184-186 | get_input looks up the triple from the device's input boundary device |
| FlowSystem.System.GetOutput | technoeconomics/system.py:188-190 | get_output looks up the triple to the device's output boundary device |
| FlowSystem.BoundaryIsNew | technoeconomics/system.py:90-91 | a boundary device's name never equals the name of the device it serves |
| FlowSystem.SharedFlowScenario | test.py:53-64 | after connecting two devices with a flow of mass 1, setting the mass to 2 through the source device's outputs makes get_flow return 2: one shared object |
| Ore.RatiosAgree | mass_energy_flow.py:287 | the iron-to-hematite ratio from the molar masses (0.055845 / (0.5 × (2 × 0.055845 + 1.5 × 0.0319988)), technoeconomics/species.py:409-420 and 465-467) is 186150/266147, and the written-out 0.6994255054537529 agrees with it to within 1e-15 |
| Ore.Normalised | mass_energy_flow.py:282-295 | hematite_normalise succeeds exactly when 'gangue' and 'Fe' are present and Fe lies within one point of (100 − gangue − LOI) × ratio; it then rewrites only 'Fe', in place, to that iron (examples/low_emission_steel/mass_energy_flow.py:284-297 uses the molar-mass ratio) |
| Ore.NormalisedIdempotent | mass_energy_flow.py:282-295 | normalising a normalised composition gives it back unchanged |
| Ore.NormalisedUnchecked | examples/steel_mass_energy.py:87-100 | the older hematite_normalise needs only 'gangue' and always sets Fe = (100 − gangue) × ratio, every other part untouched |
| Ore.NormalisedUncheckedIdempotent | examples/steel_mass_energy.py:87-100 | applying the older normalisation twice equals applying it once |
| Ore.OreDict.HematiteNormalise | mass_energy_flow.py:282-295 | the in-place method succeeds exactly when Normalised does and then holds its result; when it raises the dict is unchanged |
| Ore.OreDict.HematiteNormaliseUnchecked | examples/steel_mass_energy.py:87-100 | the in-place older normalisation holds NormalisedUnchecked's result, or is unchanged when 'gangue' is missing |
| Ore.Fill | mass_energy_flow.py:309-312 | the loop over the template fills the copy of the ore as FillFrom specifies |
| Ore.FillFromEntries | mass_energy_flow.py:309-312 | the fill keeps every given entry, adds exactly the template's other keys scaled by gangue_in_ore / gangue_in_template, and nothing else |
| Ore.FillFromFails | mass_energy_flow.py:310-312 | the fill raises (division by zero) exactly when the template's gangue is zero and some template key is missing from the ore |
| Ore.FeContentToHematite | mass_energy_flow.py:298-319 | the method returns FeContentSpec |
| Ore.FeContentAccepts | mass_energy_flow.py:298-319 | fe_content_to_hematite succeeds exactly when Fe and LOI are given, the template has Fe, the scaling is possible, and Fe ≤ 0.6994… × (100 − LOI) |
| Ore.FeContentKeepsGiven | mass_energy_flow.py:309-312 | the given Fe, LOI and any other given part are kept as they are |
| Ore.FeContentScalesTemplate | mass_energy_flow.py:306-312 | each other template part is the template's value × gangue_in_ore / gangue_in_template |
| Ore.FeContentNothingElse | mass_energy_flow.py:309-312 | no part outside the ore and the template appears |
| Ore.RescaleFromMaps | mass_energy_flow.py:504-506 | the rescaling loop maps every part through the same factor, keys in the same order |
| Ore.FromHematite | mass_energy_flow.py:508-513 | the last step succeeds exactly when the rescaled parts sum to 100 and hold 'hematite', and sets gangue = 100 − hematite and Fe = hematite × 0.6994… |
| Ore.Rescale | mass_energy_flow.py:504-506 | the rescaling loop computes RescaleFrom from an empty dict |
| Ore.RemoveLoi | mass_energy_flow.py:491-515 | remove_LOI_from_ore_composition returns RemoveLoiSpec, working on a copy |
| Ore.SetHematite | mass_energy_flow.py:508-513 | the final check and the gangue and Fe assignments compute FromHematite |
| Ore.RescaledSum | mass_energy_flow.py:502-509 | parts scaled by 100 over their own non-zero total sum to 100, so the second sum check always passes |
| Ore.PartsAccepted | mass_energy_flow.py:502-513 | the rescaling and the last step both succeed exactly when the parts' total is not zero and hematite is among them |
| Ore.RemoveLoiAccepts | mass_energy_flow.py:491-513 | with LOI present the function succeeds exactly when Fe and gangue are present, the other parts (LOI included) sum to 100, the parts without LOI do not sum to zero and hematite is among them |
| Ore.RemoveLoiWithoutLoi | mass_energy_flow.py:492-494 | a composition without LOI comes back unchanged |
| Ore.RemoveLoiRescales | mass_energy_flow.py:495-513 | an accepted composition with LOI is its parts other than Fe, gangue and LOI rescaled to 100, finished by the hematite step |
| Ore.RemoveLoiHematite | mass_energy_flow.py:501-513 | the result has no LOI, gangue + hematite = 100 and Fe is the hematite iron |
| Ore.RemoveLoiScalesParts | mass_energy_flow.py:501-506 | every other part is kept exactly when present, scaled by 100 over the total of those parts |
| OreTables.OreTable | examples/low_emission_steel/mass_energy_flow.py:308-374 | the ore name is matched in upper case against IOA..IOE; any other name gets the default table |
| OreTables.OreTablesAreDry | examples/low_emission_steel/mass_energy_flow.py:313-374 | every table has distinct keys, an 'Fe' entry and no 'gangue' or 'hematite' entry yet |
| OreTables.WithGangueAnd | examples/low_emission_steel/mass_energy_flow.py:377-378 | the table gains gangue = sum − Fe − LOI and the given hematite, nothing else changing |
| OreTables.SumWithGangueAnd | examples/low_emission_steel/mass_energy_flow.py:377-378 | adding the two entries raises the table's total by both |
| OreTables.ComplexBalances | examples/low_emission_steel/mass_energy_flow.py:377-379 | with the hematite line corrected, the complex composition is accepted exactly when Fe lies within a point of the hematite iron, and then hematite + gangue + LOI = 100, gangue = total − Fe − LOI and all the iron is in the hematite |
| OreTables.ComplexAsWrittenOverflows | examples/low_emission_steel/mass_energy_flow.py:378 | as written (100 − gangue − − LOI), hematite + gangue + LOI = 100 + 2 × LOI |
| OreTables.AsWrittenSameCheck | examples/low_emission_steel/mass_energy_flow.py:378-379 | the hematite line does not decide acceptance: as written and corrected are accepted alike, since hematite_normalise recomputes the iron from gangue and LOI |
| OreTables.NormalisedWith | examples/low_emission_steel/mass_energy_flow.py:379 | normalising the table with gangue and hematite succeeds exactly when Fe is within a point of the hematite iron, and then only Fe changes |
| OreTables.IodHematiteAsWritten | examples/low_emission_steel/mass_energy_flow.py:343-378 | ore IOD (LOI 8.2) is accepted as written and its hematite, gangue and LOI then make 116.4 percent |
| OreTables.OxideTable | examples/low_emission_steel/mass_energy_flow.py:384-397 | the simple table keeps Fe, drops LOI and shares the trace parts equally among SiO2, Al2O3, CaO and MgO, so the oxides gain exactly the neglected mass |
| OreTables.SimpleTable | examples/low_emission_steel/mass_energy_flow.py:393-399 | the simple table carries the LOI over when the ore has one |
| OreTables.SimpleWithGangue | examples/low_emission_steel/mass_energy_flow.py:401-402 | the simple table gains gangue and hematite = 100 − gangue − LOI |
| OreTables.SimpleGangueIsOxides | examples/low_emission_steel/mass_energy_flow.py:384-401 | the simple gangue is the four oxides plus the trace parts |
| OreTables.ComplexNeglected | examples/low_emission_steel/mass_energy_flow.py:384-392 | in the corrected complex composition the trace parts are what the gangue holds besides the four oxides |
| OreTables.SimpleOfBalanced | examples/low_emission_steel/mass_energy_flow.py:393-403 | from a balanced complex composition the simple one is accepted and has the same Fe, gangue, hematite and LOI |
| OreTables.SimpleAgrees | examples/low_emission_steel/mass_energy_flow.py:377-403 | with the corrected hematite line the simple composition is accepted, shares Fe, gangue, hematite and LOI with the complex one, and its four oxides make up that gangue |
| OreTables.TableAccepted | examples/low_emission_steel/mass_energy_flow.py:313-379 | every ore name's table passes the corrected complex step |
| OreTables.AddOreCompositionAccepts | examples/low_emission_steel/mass_energy_flow.py:302-406 | add_ore_composition (corrected) yields both compositions for every ore name |
| OreTables.Compositions | examples/low_emission_steel/mass_energy_flow.py:377-406 | with the corrected hematite line, an accepted dry table gives a complex composition whose hematite, gangue and LOI make 100 percent with all the iron in the hematite, and a simple composition with the same iron, gangue, hematite and LOI whose four oxides make up the gangue |
| OreTables.AddOreComposition | examples/low_emission_steel/mass_energy_flow.py:302-406 | the compositions of the named ore's table, agreeing as Compositions states |
| OreTables.CompositionsAsWritten | examples/low_emission_steel/mass_energy_flow.py:377-406 | with the hematite line as written, a dry table is accepted exactly when the corrected line accepts it and gets the same simple composition; the complex composition's hematite, gangue and LOI make 100 percent plus twice the LOI |
| OreTables.AddOreCompositionAsWritten | examples/low_emission_steel/mass_energy_flow.py:302-406 | add_ore_composition as written accepts exactly the ore names the corrected one accepts and stores the same simple composition; only the complex one overshoots 100 percent by twice the LOI |
| OreTables.ComplexAsWrittenIsComplexWith | examples/low_emission_steel/mass_energy_flow.py:377-379 | the complex composition as written is the corrected one with only its hematite entry changed |
| OreTables.SimpleIgnoresHematite | examples/low_emission_steel/mass_energy_flow.py:381-406 | the simple composition does not depend on the complex composition's hematite entry |
| OreTables.AddOreCompositionFixed | examples/steel_mass_energy.py:103-137 | when accepted, the complex and the written-out simple composition each have hematite and gangue making 100 percent, with all the iron in the hematite |
| OreTables.WithGangueUncheckedBalances | examples/steel_mass_energy.py:119-121 | in the older copy gangue = total − Fe and hematite = 100 − gangue, so hematite + gangue = 100 and all the iron is in the hematite |
| OreTables.SameTotalsAgree | examples/steel_mass_energy.py:119-134 | tables with the same Fe and total get the same gangue, hematite and hematite iron |
| OreTables.FixedCompositionsAgree | examples/steel_mass_energy.py:103-137 | the written-out simple table agrees with the default ore on gangue, hematite and Fe |
| OreTables.WithGangueUncheckedKeeps | examples/steel_mass_energy.py:119-121 | adding gangue and hematite leaves every other part alone |
| OreTables.WithGangueUncheckedIron | examples/steel_mass_energy.py:119-121 | a table whose non-iron parts make less than 100 percent gets positive hematite iron |
| OreTables.FixedSimpleOre | examples/steel_mass_energy.py:126-134 | the simple composition keeps SiO2 3.91375, Al2O3 2.53675, CaO 0.13175 and MgO 0.18475 and gets positive Fe |
| OreTables.FixedSimpleStored | examples/steel_mass_energy.py:136-137 | add_ore_composition stores that simple composition |
| MassFlow.NumVar | mass_energy_flow.py:261-262 | reading a system variable as a number raises KeyError exactly for a missing key and TypeError for a non-numeric value (a bool counts as 0 or 1) |
| MassFlow.SteelSplit | mass_energy_flow.py:268-270 | Fe + C + scrap = 1000 kg exactly, scrap = 10 × scrap%, and C is carbon% of the non-scrap steel |
| MassFlow.AddSteelOut | mass_energy_flow.py:258-270 | add_steel_out succeeds exactly when both percentages are numeric system variables, and then gives 1000 kg with scrap = 10 × scrap% |
| MassFlow.AddSteelOutChecked | examples/low_emission_steel/mass_energy_flow.py:260-272 | in the low-emission copy the mass setter refuses a negative share: when it succeeds it gives the same split with all three masses non-negative, and it raises only when some share is negative |
| MassFlow.SteelOutAccepted | examples/low_emission_steel/mass_energy_flow.py:268-272 | with both percentages in [0, 100] the checked split succeeds with the 1000 kg split |
| MassFlow.SteelOutFixed | examples/steel_mass_energy.py:67-79 | the older copy gives Fe 985 kg, C 15 kg and no scrap |
| MassFlow.IronSpeciesAt | mass_energy_flow.py:732-745 | for R in [0, 1] every regime keeps all the iron and exactly the oxygen not yet removed; in [1/3, 1] only Fe and FeO are non-zero with FeO = 3·n_hem·(1−R) and Fe + FeO = n_Fe; in [1/9, 1/3) only Fe3O4 and FeO; in [0, 1/9) only Fe2O3 and Fe3O4; outside [0, 1] all four are zero |
| MassFlow.RegimesMeet | mass_energy_flow.py:732-743 | for an all-hematite ore the regimes agree at R = 1/3 and R = 1/9, so the amounts do not jump |
| MassFlow.IronSpeciesNonNegative | mass_energy_flow.py:732-743 | for an all-hematite ore no amount is negative anywhere in [0, 1] |
| MassFlow.IronSpeciesFromReductionDegree | mass_energy_flow.py:713-745 | the function raises KeyError exactly when 'hematite' or 'Fe' is missing, and otherwise conserves the ore's iron moles for R in [0, 1] |
| MassFlow.NormalisedOreHasTwoIronPerHematite | mass_energy_flow.py:726-727 | an ore whose Fe is its hematite's iron has two moles of Fe per mole of Fe2O3 |
| MassFlow.IronSpeciesChecked | examples/low_emission_steel/mass_energy_flow.py:578-591 | the low-emission copy sets mols through the setter: it succeeds exactly when no amount is negative, and then gives the same regimes |
| MassFlow.IronSpeciesFromReductionDegreeChecked | examples/low_emission_steel/mass_energy_flow.py:559-591 | when it succeeds, the low-emission copy agrees with the root one |
| MassFlow.NormalisedOreReduces | examples/low_emission_steel/mass_energy_flow.py:572-591 | for a normalised ore and R in [0, 1] the low-emission copy never meets a negative amount |
| MassFlow.StorageMethodOf | mass_energy_flow.py:1334-1344 | the method string is accepted exactly when it lower-cases to 'salt caverns' or 'compressed gas vessels', and anything else raises |
| MassFlow.H2StorageFlows | mass_energy_flow.py:1317-1348 | no 'h2 storage' device means no change; otherwise the hydrogen passes through, stored mass × 24 = hours × inflow, compressor energy = 0.06 (salt caverns) or 0.07 (gas vessels) × stored mass × 142e6 J/kg, the cheap-electricity input equals the losses output; a missing or non-numeric 'h2 storage hours of operation' raises first (KeyError or TypeError), then a missing 'h2 storage method' raises KeyError and an unknown method raises 'Error: Unknown h2 storage device' (examples/low_emission_steel/mass_energy_flow.py:1126-1157 is the same) |
| MassFlow.H2Consumed | examples/low_emission_steel/mass_energy_flow.py:1066-1084 | the loop over the consuming devices sums input − output H2 moles when every term is ≥ 0 and raises (assert) otherwise |
| MassFlow.ConsumedNonNegative | examples/low_emission_steel/mass_energy_flow.py:1082-1084 | a sum of asserted non-negative consumptions is non-negative |
| MassFlow.Oversize | examples/low_emission_steel/mass_energy_flow.py:1098-1105 | the oversize factor is 1 without storage and 24 / cheap hours with it, asserted ≥ 1; any cheap hours in (0, 24] pass |
| MassFlow.EnergiesFor | examples/low_emission_steel/mass_energy_flow.py:1107-1117 | electricity = H2 mass × 120e6 / efficiency, losses = electricity × (1 − efficiency), chemical = H2 mass × 120e6, so electricity = chemical + losses; a zero efficiency divides by zero |
| MassFlow.ElectrolysisFlows | examples/low_emission_steel/mass_energy_flow.py:1085-1117 | O2 = H2 / 2 and H2O = H2 in moles, the H2 mass is asserted in (20, 60) kg, electricity = chemical + losses, the source is cheap electricity exactly when there is storage; the valid inputs always succeed; the electricity is that of the electrolysis alone, without the thermal balance of lines 1122-1123 |
| MassFlow.SlagComposition | mass_energy_flow.py:1745-1760 | None when the device or its slag output is missing; otherwise each species' mass over the slag mass keyed by name (a later same-named species replacing the earlier), an empty slag giving {}, and a zero-mass non-empty slag dividing by zero |
| MassFlow.FractionsSum | mass_energy_flow.py:1756-1758 | with distinct names the fractions sum to the slag mass over the total |
| MassFlow.SlagFractionsSumToOne | mass_energy_flow.py:1756-1760 | the slag fractions of distinct species sum to 1 |
| Solver.Times | mass_energy_flow.py:130 | `v *= factor` scales a number (a bool counting as 0 or 1) and raises TypeError on anything else |
| Solver.Adjusted | mass_energy_flow.py:129-151 | each signal changes exactly its own variable, keeping the others and their order: plasma H2, fluidized-bed H2 and hot-metal C are multiplied by 1.05, Si by 0.95; a falsy O2 injection becomes 0.1 kg and a set one is multiplied by 1.05; a missing variable raises |
| Solver.GaveUpIffAllRetry | mass_energy_flow.py:112-119 | from any attempt on, the loop gives up exactly when every remaining attempt up to 1000 asks for another one |
| Solver.GivesUpAfterMaxIter | mass_energy_flow.py:112-119 | the loop raises "Max iterations reached" exactly when 1000 attempts in a row ask for another one |
| Solver.SolveMassEnergyFlow | mass_energy_flow.py:108-163 | the retry loop computes SolveFrom: the system's variables change only after a run completes, to the variables that run left and then the final run's; after the final run the energy and the mass balance checks run in that order, a failing one raising; when it gives up or an attempt raises anything else the variables are untouched |
| Solver.ValidatedPassIff | mass_energy_flow.py:159-163 | the root loop ends well exactly when the final run completes and the variables it leaves pass both balance checks; a failing final run raises its own exception, and a failing energy check raises before the mass check runs |
| Solver.LowEmissionPropagates | examples/low_emission_steel/mass_energy_flow.py:155-160 | any signal other than IncreaseExcessHydrogenPlasma propagates out of the low-emission loop |
| Solver.LowEmissionRetryScales | examples/low_emission_steel/mass_energy_flow.py:158-159 | on IncreaseExcessHydrogenPlasma the low-emission loop retries with the plasma excess ratio multiplied by 1.1 and nothing else changed |
| Solver.LowEmissionFuelMonotone | examples/low_emission_steel/mass_energy_flow.py:148-160 | the attempt bound of the model never changes an outcome the unbounded loop reaches: more attempts give the same result |
| Solver.SolveMassEnergyFlowLowEmission | examples/low_emission_steel/mass_energy_flow.py:142-166 | the low-emission loop computes SolveLowEmission: the variables are replaced only after convergence, and an exception leaves them untouched |
| SlagFlux.SetMass | technoeconomics/species.py:97-101 | the mass setter accepts exactly the non-negative masses |
| SlagFlux.OxideMass | examples/steel_mass_energy.py:174-177 | a gangue oxide's mass is ore mass × percentage × 0.01, refused when the key is missing or the mass negative |
| SlagFlux.FluxesAsWritten | examples/steel_mass_energy.py:179-180 | as written, the fluxes are accepted exactly when the CaO flux and the MgO flux are non-negative; the CaO flux brings the slag's CaO to B2 × SiO2, and the slag's CaO + MgO then exceeds B4 × (SiO2 + Al2O3) by exactly the gangue's CaO |
| SlagFlux.FluxesAsWrittenMissB4 | examples/steel_mass_energy.py:179-180 | 1 kg SiO2 and 0.5 kg gangue CaO with B4 = 1.8 give fluxes 1.5 and 0.3 kg, so the slag holds 2.3 kg of CaO + MgO instead of 1.8 |
| SlagFlux.Fluxes | examples/steel_mass_energy.py:179-180 | the corrected fluxes succeed exactly when both are non-negative and then meet both basicities: CaO = B2 × SiO2 and CaO + MgO = B4 × (SiO2 + Al2O3) |
| SlagFlux.FluxesAsWrittenExceedIntended | examples/steel_mass_energy.py:179-180 | whenever the corrected fluxes are accepted (and the gangue CaO is not negative) so are the fluxes as written, with the same CaO flux and an MgO flux larger by the gangue CaO |
| SlagFlux.FluxesBy | examples/steel_mass_energy.py:179-180 | under either rule the fluxes are accepted exactly when both are non-negative, and meet the B2 target and the B4 target plus the rule's excess (the gangue CaO as written, nothing as intended) |
| SlagFlux.GangueOf | examples/steel_mass_energy.py:174-177 | the four gangue oxides are the ore mass's shares of SiO2, Al2O3, CaO and MgO, each non-negative |
| SlagFlux.SlagPass | examples/steel_mass_energy.py:169-184 | one pass, with the MgO flux as written or as intended, sets FeO = slag × FeO% × 0.01 and leaves a balanced state: non-negative masses, CaO at B2 × SiO2, CaO + MgO at B4 × (SiO2 + Al2O3) plus the rule's excess (the gangue CaO as written), and slag = SiO2 + Al2O3 + CaO + MgO (gangue and flux) + FeO |
| SlagFlux.PassesBalanced | examples/steel_mass_energy.py:168-184 | after at least one pass the state is balanced under the rule the passes use: as written, CaO + MgO overshoots the B4 target by the gangue CaO |
| SlagFlux.SlagLoop | examples/steel_mass_energy.py:167-184 | the loop starts from 0.4 × Fe mass and runs exactly 10 passes of the given rule |
| SlagFlux.AddFlowsInitial | examples/steel_mass_energy.py:140-203 | the furnace flows are those of the state after 10 passes as written: flux CaO and MgO, slag CaO = gangue + flux and MgO = gangue + flux, 5.5 kg electrode for the EAF only; an exception in the loop propagates |
| SlagFlux.BalancedMeetsTargets | examples/steel_mass_energy.py:186-203 | from a balanced state the flows meet the B2 target and the B4 target plus the rule's excess over the gangue CaO, the slag parts add up to the slag mass and only the EAF consumes electrode |
| SlagFlux.FlowsMeetTargets | examples/steel_mass_energy.py:150-267 | the flows after 10 successful passes meet the B2 target, with B4 = 1.8 for the EAF and 2.1 for the plasma smelter; as written CaO + MgO exceed the B4 target by the gangue CaO, as intended they meet it |
| SlagFlux.PassSucceeds | examples/steel_mass_energy.py:169-184 | over an ore whose percentages give non-negative fluxes under the rule, a pass from a non-negative estimate succeeds and leaves a non-negative estimate |
| SlagFlux.PassesSucceed | examples/steel_mass_energy.py:168-184 | over such an ore every number of passes of that rule succeeds |
| SlagFlux.FixedOreFluxable | examples/steel_mass_energy.py:126-134 | the simple ore the older copy writes out gives the flows of either furnace, under either rule, for any non-negative iron mass and FeO target |
| Prices.LowerAll | plant_costs.py:91 | lower-casing a list of names keeps its length and lowers each name in place |
| Prices.LowerFoldKeys | plant_costs.py:91-93 | the dict comprehension keeps each lowered key once, and it has as many keys as the dict exactly when no two keys lower to the same name |
| Prices.LowerFoldDistinct | plant_costs.py:91 | without a clash, the comprehension lists the lowered keys in the dict's order, each holding the value of the key it came from |
| Prices.LowerKeys | plant_costs.py:91-97 | lower-casing the keys succeeds exactly when the lowered names are distinct, and otherwise raises the key-clash message |
| Prices.LowerKeysOk | plant_costs.py:91-97 | without a clash, the lowered dict keeps the key order and each lowered key holds its key's value |
| Prices.LowerKeysValid | plant_costs.py:91-97 | without a clash, the lowered dict is well formed |
| Prices.LowerKeysClash | plant_costs.py:92-97 | lower-casing raises exactly when two different keys differ only in letter case |
| Prices.LowerKeysLookup | plant_costs.py:91-97 | after lower-casing, a name is found exactly when it is the lower-case form of a key, and it holds that key's value |
| Prices.BlendedBetween | plant_costs.py:102 | for 0 to 24 cheap hours the blended price lies between the two spot prices, equal to the cheap one for 24 hours and the expensive one for none |
| Prices.SpotPrices | plant_costs.py:99-110 | the electricity step succeeds exactly when both spot prices or a base price are given, else raises its message; with both spot prices it stores the blended 'Base Electricity' entry in the caller's table and 'base electricity' in the lowered one |
| Prices.SpotPricesKeepProducts | plant_costs.py:99-117 | the inserted electricity entries are per megawatt-hour, so every price per tonne of product comes from the lowered table |
| Prices.Charge | plant_costs.py:121-132 | an input is charged amount × price divided by 1 per kg or per tonne of product, 1000 per tonne and 3.6e9 per megawatt-hour; any other unit raises the message naming it |
| Prices.ChargeConsistent | plant_costs.py:123-130 | one unit of what a price is quoted for costs exactly that price, and charges add up over amounts |
| Prices.ProductCostsAt | plant_costs.py:113-117 | the first loop gives a name a cost exactly when its price is quoted per tonne of product, and that cost is the price |
| Prices.ProductCostsValid | plant_costs.py:113-117 | the first loop builds a well-formed dict |
| Prices.InputCostsFailIff | plant_costs.py:119-132 | the second loop raises exactly when a priced input has units that are not for consumables |
| Prices.InputCostsAt | plant_costs.py:119-135 | after the second loop a name has a cost exactly when it had one before or is a priced input; a priced input costs what its price charges and an unpriced one adds nothing |
| Prices.InputCostsValid | plant_costs.py:119-135 | the second loop keeps the dict well formed |
| Prices.InputCostsFailureSticks | plant_costs.py:119-132 | a raise in the first inputs ends the loop with that error whatever follows |
| Prices.ChargeInputs | plant_costs.py:119-135 | the loop over the inputs computes the cost dict the InputCosts definition gives |
| Prices.MisspeltKeyDiffers | plant_costs.py:108 | the key the base-only branch writes, 'cheap spot clectricity', is not 'cheap spot electricity' |
| Prices.KeyedSteps | plant_costs.py:87-137 | a successful costing went through both lower-casings, the electricity step and the two loops |
| Prices.ChargeProducts | plant_costs.py:113-117 | the loop over the prices computes the ProductCosts dict |
| Prices.OperatingCostPerTonne | plant_costs.py:87-137 | the method returns the OperatingCostsAsWritten result, with the cheap spot entry stored under the misspelt key, and leaves the caller's prices as PricesAfter describes |
| Prices.OperatingCostsAsWritten | plant_costs.py:87-137 | a key clash in either table raises the key-clash message first; without one, a table with neither both spot prices nor a base price raises the missing-electricity message |
| Prices.AsWrittenAgreesWithSpotPrices | plant_costs.py:99-110 | when the prices quote both spot prices the misspelt key is never written, and the costs as written equal the corrected ones |
| Prices.OperatingCostsCover | plant_costs.py:113-135 | every cost is named after a consumed input or a price per tonne of product, in lower case |
| Prices.CostsNamedAfterInputsOrProducts | plant_costs.py:113-135 | the two loops name every cost after a lowered input or a lowered price per tonne of product |
| Prices.ChargePerMegaWattHour | plant_costs.py:127-128 | energy priced per megawatt-hour is charged per 3.6e9 joules |
| Prices.ChargedAt | plant_costs.py:119-130 | after both loops a priced input has the cost its price charges |
| Prices.ChargedPerMegaWattHourAt | plant_costs.py:119-128 | a consumed input whose lowered name is priced per megawatt-hour is charged amount × price / 3.6e9 |
| Prices.UnchargedAt | plant_costs.py:119-135 | a name without a price gets no cost |
| Prices.BaseElectricityBlended | plant_costs.py:99-128 | with both spot prices, an input named 'base electricity' in any case is charged, as written, at the blend of the spot prices over the cheap hours |
| Prices.CheapSpotAsWrittenUncharged | plant_costs.py:105-108 | as written, with only a base price an input named 'cheap spot electricity' gets no cost, because the entry is stored under the misspelt key |
| Prices.CheapSpotChargedAtBase | plant_costs.py:105-108 | stored under its intended key, the cheap spot entry charges such an input at the base price per megawatt-hour |
| Prices.WithLowEmissionElectricity | examples/low_emission_steel/plant_costs.py:70-74 | the low-emission copy first stores 'Base Electricity' at the blend of the fixed prices 54.5 and 93.1 USD/MWh in the caller's table |
| Prices.LowEmissionSteps | examples/low_emission_steel/plant_costs.py:67-102 | a successful low-emission costing lowered both tables after storing that entry and ran only the loop over the inputs, from an empty dict |
| Prices.OperatingCostsLowEmission | examples/low_emission_steel/plant_costs.py:67-102 | a key clash in the inputs or in the prices after storing the base entry raises the key-clash message; otherwise it raises exactly when a priced input is quoted in units that are not for consumables |
| Prices.OperatingCostPerTonneLowEmission | examples/low_emission_steel/plant_costs.py:67-102 | the method returns the OperatingCostsLowEmission result and leaves the caller's prices with the stored base entry |
| Prices.ClashAfterPut | examples/low_emission_steel/plant_costs.py:74-82 | storing a key next to another spelling of it makes lower-casing raise the key clash |
| Prices.LowEmissionBaseClashes | examples/low_emission_steel/plant_costs.py:74-82 | a caller table that already holds another spelling of 'Base Electricity' always makes the low-emission costing raise the key clash |
| Prices.LowEmissionBaseCharge | examples/low_emission_steel/plant_costs.py:71-94 | an input named 'base electricity' in any case is charged per megawatt-hour at the blend of the two fixed spot prices |
| Capex.CapexDevice.constructor | plant_costs.py:152-164 | a new device as the capex code reads it has its name, capex label and hydrogen output, the given capex and empty device vars |
| Capex.CapexDevice.SetState | plant_costs.py:182-191 | the device's capex and device vars become the given state |
| Capex.Plant.constructor | plant_costs.py:140-164 | a new plant as the capex code reads it has its name, annual capacity, system vars and devices |
| Capex.Plant.InfoValid | plant_costs.py:151 | the plant as the capex code reads it lists every device once, in order |
| Capex.Plant.AddH2StorageCapex | plant_costs.py:167-193 | only the storage device changes, to the state StorageCapex gives, and the outcome is StorageCapex's |
| Capex.Plant.AddElectrolyserCapex | plant_costs.py:196-210 | only the electrolyser changes, to the state ElectrolyserCapex gives |
| Capex.Plant.AddSteelPlantCapex | plant_costs.py:140-164 | the devices end in the states SteelPlantCapex gives from the old ones, with its outcome |
| Capex.Plant.SizeStorageAndElectrolyser | plant_costs.py:145-149 | the storage and electrolyser steps run, each only when its device is present, as AfterSizing gives |
| Capex.Plant.ApplyRule | plant_costs.py:159-164 | one loop body changes only that device's capex, by its rule |
| Capex.Plant.PriceLabelledDevices | plant_costs.py:151-164 | the device loop computes LabelPass over all devices in order |
| Capex.StorageSizeCoversHours | plant_costs.py:180-181 | the storage holds the hydrogen of the given hours of production, at the annual capacity spread over 8766 hours |
| Capex.Ceil | plant_costs.py:191 | int(math.ceil(x)) is the least integer not below x |
| Capex.VesselsHoldStorage | plant_costs.py:191 | the 300 kg vessels hold the stored hydrogen with less than one vessel to spare |
| Capex.StoreAndCost | plant_costs.py:182-193 | the size and type are recorded first; the step succeeds exactly for a salt-cavern or vessel method in any case, and otherwise raises with the capex unchanged |
| Capex.StoreAndCostKinds | plant_costs.py:185-191 | each kind costs size × its price per kilogram, and only vessels record a vessel count |
| Capex.StoreAndCostAt | plant_costs.py:182-193 | the storage step on a device object gives the StoreAndCost state |
| Capex.H2Mass | plant_costs.py:179 | the hydrogen mass is found exactly when the electrolyser is present and has an output containing 'h2' |
| Capex.StoragePrice | plant_costs.py:175-177 | the storage price is found exactly under a lowered capex label quoted per kilogram of capacity |
| Capex.StorageCapex | plant_costs.py:167-193 | missing method or hours raises first; a missing or wrongly quoted price raises with the device unchanged; success costs the size from annual capacity, output and hours |
| Capex.ElectrolyserMeetsDailyDemand | plant_costs.py:201-209 | running for the cheap hours at its efficiency, the electrolyser delivers the heating value of a day's hydrogen |
| Capex.NumVarOr | plant_costs.py:201 | a system variable with a default when absent |
| Capex.ElectrolyserCost | plant_costs.py:196-210 | the cost exists only with a label priced per kW of capacity, a nonzero efficiency and cheap hours, and the output; it is kW × price |
| Capex.ElectrolyserCapex | plant_costs.py:196-210 | only the capex changes, and only on success, to ElectrolyserCost |
| Capex.RuleOf | plant_costs.py:152-164 | an unlabelled device keeps its capex; an unpriced label raises naming it; a per-device price sets the capex to the price; a per-annual-tonne price to price × capacity; other units keep it |
| Capex.Rules | plant_costs.py:151-164 | every device has a rule |
| Capex.ApplyIdempotent | plant_costs.py:161-164 | applying a device's rule twice gives what applying it once gave |
| Capex.LabelPassNext | plant_costs.py:151-164 | one more loop step applies the next device's rule or raises for its unpriced label |
| Capex.LabelPassFailureSticks | plant_costs.py:156-157 | once the loop has raised, later devices are not visited |
| Capex.LabelPassFailIff | plant_costs.py:151-157 | the loop raises exactly when a visited device has a label without a price |
| Capex.LabelPassAt | plant_costs.py:151-164 | without a raise, each visited device has its own rule applied and the others are untouched; device vars never change |
| Capex.AfterSizing | plant_costs.py:145-149 | sizing keeps the set of devices |
| Capex.SteelPlantCapex | plant_costs.py:140-143 | a key clash among the price names raises before any device changes |
| LiteratureCapex.SaltCavernCapexLord2014 | examples/low_emission_steel/plant_costs.py:173-183 | 1.61 USD per kg in 2014, inflated by 1.29, is 2.0769 USD per kg |
| LiteratureCapex.CompressedGasVesselElberry2021 | examples/low_emission_steel/plant_costs.py:191-200 | 350 USD per kg in 2016, inflated by 1.27, is 444.5 USD per kg |
| LiteratureCapex.LowEmissionStorageCapex | examples/low_emission_steel/plant_costs.py:111-133 | the step succeeds exactly when method, hours and output are set and the method is 'salt caverns' or 'compressed gas vessels' in any case, costing the size at 2.0769 or 444.5 USD per kg |
| LiteratureCapex.LowEmissionSteelPlantCapex | examples/low_emission_steel/plant_costs.py:105-108 | only the storage device is costed, only when present; every other device is untouched |
| LiteratureCapex.AddH2StorageCapexLowEmission | examples/low_emission_steel/plant_costs.py:111-133 | only the storage device changes, to the LowEmissionStorageCapex state |
| LiteratureCapex.AddSteelPlantCapexLowEmission | examples/low_emission_steel/plant_costs.py:105-108 | the devices end in the LowEmissionSteelPlantCapex states |
| LiteratureCapex.ExampleSteelPlantCapex | examples/steel_plant_capex.py:19-37 | the storage hours default to 12; the electrolyser output is read before the storage device, each missing one raising; only the storage device changes |
| LiteratureCapex.ExampleDefaultHours | examples/steel_plant_capex.py:19-32 | a call without hours succeeds on a plant with an electrolyser output, a storage device and no method set, and its salt cavern holds 12 hours of production at 2.0769 USD per kg (capex × 8766 = annual capacity × H2 per tonne × 12 × 2.0769) |
| LiteratureCapex.ExampleDefaultsToSaltCavern | examples/steel_plant_capex.py:21-32 | without a method set, the storage is a salt cavern costed at 2.0769 USD per kg and recorded as 'salt cavern' |
| LiteratureCapex.ExampleRejectsPluralNames | examples/steel_plant_capex.py:31-37 | the plural names the main plant code accepts make the example raise 'h2 storage method not recognised' |
| LiteratureCapex.AddSteelPlantCapexExample | examples/steel_plant_capex.py:19-37 | the storage hours default to 12; the devices end in the ExampleSteelPlantCapex states |
| Levelised.CapexDirectAndIndirect | plant_costs.py:212-217 | the purchase cost with 10 % contingency and 9 % construction on top is 1.199 times the purchase cost |
| Levelised.CapexDirectAndIndirectLinear | plant_costs.py:212-217 | the gross-up is linear in the purchase cost |
| Levelised.CapexDirectAndIndirectMonotone | plant_costs.py:212-217 | a dearer purchase never costs less once grossed up, and a non-negative cost is never reduced |
| Levelised.RealRate | plant_costs.py:221-223 | the real discount rate (1 + 0.07) / (1 + 0.025) - 1 is 9/205 |
| Levelised.PowAboveOne | plant_costs.py:225 | growth above 1 compounds to more than 1 after a year or more |
| Levelised.GrowthAboveOne | plant_costs.py:225 | at a positive rate a life of a year or more grows a unit above 1, so the denominator is not zero |
| Levelised.CostRecoveryFactor | plant_costs.py:220-226 | the factor raises division by zero exactly for a life of zero years |
| Levelised.BalanceClosedForm | plant_costs.py:225 | the debt left after k payments of r q / (q - 1) is (q - (1 + r)^k) / (q - 1) |
| Levelised.BalanceStep | plant_costs.py:225 | one year of that closed form |
| Levelised.CostRecoveryFactorRepays | plant_costs.py:220-226 | paying the cost recovery factor each year clears a unit of capital exactly at the end of the plant's life |
| Levelised.AnnuityFactorAsWritten | examples/low_emission_steel/plant_costs.py:144-152 | as written, r (1 + r^n) / ((1 + r)^n - 1) raises division by zero exactly for zero years |
| Levelised.AnnuityFactorAsWrittenUndercharges | examples/low_emission_steel/plant_costs.py:151 | over two years the factor as written is below the repaying factor and leaves part of the capital unpaid |
| Levelised.LcopCapexOnly | plant_costs.py:229-230 | the capital part raises exactly for zero years or zero production; times production it is the factor × 1.199 × capex plus the fixed opex |
| Levelised.LcopVariableOpexOnly | plant_costs.py:233-234 | the variable part raises exactly for zero production; times production it is the cost |
| Levelised.LcopTotal | plant_costs.py:237-241 | the total times production is every yearly cost, fixed and variable |
| Levelised.LcopTotalMonotoneInCapex | plant_costs.py:237-241 | with positive production, a costlier plant never has a lower levelised cost |
| Levelised.LowEmissionLcopCapexOnly | examples/low_emission_steel/plant_costs.py:144-156 | raises exactly when the life is 0 years or the production is 0; otherwise, times production, it is the annuity factor as written × capex, without the gross-up or fixed opex |
| Levelised.LowEmissionLcopTotal | examples/low_emission_steel/plant_costs.py:155-166 | raises exactly when the life is 0 years or the production is 0; otherwise, times production, it is the annuity factor as written × capex plus the operating cost |
| Levelised.LowEmissionLcopUndercharges | examples/low_emission_steel/plant_costs.py:144-166 | over two years, any positive capex and production, both low-emission LCOPs times production fall short of what the cost recovery factor would charge |
| Sensitivity.MinMaxIndex | sensitivity.py:138-142 | raises unless there are two parameters and two results; otherwise the result is non-finite exactly when the first result is 0, and the second result is the first grown by the index |
| Sensitivity.Elasticity | sensitivity.py:149-152 | the elasticity is non-finite exactly when the two parameters are equal or the results sum to 0 |
| Sensitivity.ElasticityIndex | sensitivity.py:145-152 | raises unless there are two parameters and two results, and is non-finite exactly as Elasticity is |
| Sensitivity.SpiderPlotIndex | sensitivity.py:155-159 | raises unless parameters and results pair up, and then returns the results |
| Sensitivity.MinMaxScaleFree | sensitivity.py:142 | the min-max index is a relative change: scaling the results by any nonzero factor leaves it unchanged |
| Sensitivity.ElasticityIsArcElasticity | sensitivity.py:149-152 | the elasticity is the change of the result over the mean result per change of the parameter over the mean parameter |
| Sensitivity.ElasticityOfProportional | sensitivity.py:145-152 | a result proportional to its parameter has elasticity 1 |
| Sensitivity.Linspace | sensitivity.py:244 | np.linspace gives num values from start to stop inclusive, and refuses a negative count |
| Sensitivity.LinspaceEvenlySpaced | sensitivity.py:244 | consecutive values are (stop - start) / (num - 1) apart |
| Sensitivity.LinspaceWithin | sensitivity.py:244 | from a lower start to a higher stop every value lies between the two |
| Sensitivity.CreateSensitivityIndicators | sensitivity.py:213-249 | a case for another plant, unless it is for 'ALL' in any case, gives no indicator; at most one indicator is made |
| Sensitivity.CreateMissingOrInvalid | sensitivity.py:217-240 | a variable the plant lacks gives no indicator; a missing price raises KeyError; a non-numeric system variable raises ValueError |
| Sensitivity.CreateNamesPlantAndParameter | sensitivity.py:221-247 | every indicator names this plant and parameter, with the plant's levelised cost as its base result |
| Sensitivity.CreateBooleanMinMax | sensitivity.py:217-228 | a boolean variable the plant has gets one BooleanMinMax indicator over False and True, based at its value |
| Sensitivity.CreateSpiderPlot | sensitivity.py:229-249 | otherwise the indicator is a SpiderPlot over np.linspace of the case's range, based at the numeric price or variable |
| Sensitivity.SpiderPlotWithinRange | sensitivity.py:244 | a case with an ordered range sweeps only values inside it |
| Sensitivity.PriceValue | sensitivity.py:280-281 | a number becomes the price as it is |
| Sensitivity.Attempts | sensitivity.py:277-291 | each parameter value is solved on its own copy of the plant and prices, in order |
| Sensitivity.Trial | sensitivity.py:277-292 | a system-variable parameter is stored in the plant's variables for the solve, leaving the prices; a price parameter replaces only that entry's price (a bool as 0 or 1), raises KeyError when the price is absent and raises when the value is not a number |
| Sensitivity.RunStops | sensitivity.py:294-297 | once a solve has failed, later values are not run |
| Sensitivity.RunAllSolved | sensitivity.py:289-293 | while every solve succeeds the results are their levelised costs in parameter order and success is True |
| Sensitivity.RunFirstFailure | sensitivity.py:294-297 | the first failed solve ends the run: earlier results are kept, success is False and its message is recorded |
| Sensitivity.RunSucceedsIff | sensitivity.py:277-297 | an indicator ends successful exactly when it has values and every solve succeeded; with no values success stays None |
| Sensitivity.SensitivityIndicator.constructor | sensitivity.py:21-41 | a new indicator has its setup and no results, no success and an empty error message |
| Sensitivity.SensitivityIndicator.RunParameters | sensitivity.py:277-297 | running the parameter values leaves the indicator in the state RunPrefix gives for the solves |
| Sensitivity.CollectFailureSticks | sensitivity.py:275-276 | an exception while creating the indicators of one case ends the collection |
| Sensitivity.CollectEachParts | sensitivity.py:273-276 | each plant's part of a successful collection is that plant's own |
| Sensitivity.AllSetups | sensitivity.py:273-300 | one list of setups per plant, or the first exception |
| Sensitivity.AllSetupsPerPlant | sensitivity.py:273-300 | each plant's list is its own setups |
| Sensitivity.RunSetups | sensitivity.py:276-299 | each indicator of a case, in order, is run over its parameter values |
| Sensitivity.RunCases | sensitivity.py:275-299 | the loop over cases raises exactly when creating one raises, and otherwise runs every created indicator |
| Sensitivity.RunAll | sensitivity.py:273-302 | the loop over plants gives one list per plant, each holding that plant's setups, all run |
| Sensitivity.Run | sensitivity.py:269-302 | run raises exactly when setting up raises; otherwise each plant's list holds its setups, each run against that plant and the prices |
| Sensitivity.CreatedMinMaxHasTwo | sensitivity.py:223-224 | a min-max indicator has exactly two parameter values |
| Sensitivity.SucceededRunComputes | sensitivity.py:113-117 | a successful run has one result per parameter value, so an indicator of the right shape computes without raising |
| Sensitivity.SucceededIndicatorComputes | sensitivity.py:113-117 | every indicator the runner reports successful can compute its index without raising |
| Sensitivity.Calculate | sensitivity.py:117 | the indicator's own function computes its index: a min-max index raises unless there are two parameters and two results and is then the relative change of the result, a spider plot raises unless the counts match and is then the results |
| Sensitivity.ParameterTypeNamed | sensitivity.py:14-17 | ParameterType[name] finds exactly Price, SystemVar and BoolSystemVar and raises KeyError otherwise |
| Sensitivity.ParameterTypeNamedRoundTrip | sensitivity.py:14-17 | every member is found under its own name |
| Sensitivity.Field | sensitivity.py:316 | row[k] is found exactly when the row is long enough |
| Sensitivity.FieldNumber | sensitivity.py:323 | a number field is the parse of row[k], or raises IndexError for a short row |
| Sensitivity.CaseFromRow | sensitivity.py:315-329 | a row gives a case of its plant, parameter and type; a boolean case keeps the defaults; otherwise the range is ordered as min and max of columns 3 and 4 |
| Sensitivity.ReadCases | sensitivity.py:305-332 | reading succeeds exactly when there is a header and every later row reads; the cases are those rows in order; otherwise the first bad row's error |
| Sensitivity.ReadRangesOrdered | sensitivity.py:323-326 | every case read with a range has it in order, so its spider plot stays inside it |
| Sensitivity.LowEmissionParameterTypeNamed | examples/low_emission_steel/sensitivity.py:26-28 | the low-emission ParameterType has only Price and SystemVar |
| Sensitivity.LowEmissionCaseFromRow | examples/low_emission_steel/sensitivity.py:192-201 | a low-emission row reads exactly when it has seven fields that parse, stored as written with no reordering |
| Config.TypedValue | tea_main.py:174-181 | a 'string' value is the text; a 'number' is its float, raising as float does; a 'boolean' is True exactly when the text is 'true' in any case; any other type raises naming it and the file |
| Config.RowEntry | tea_main.py:169-181 | a row shorter than four fields raises IndexError; otherwise the plant and variable are the stripped, lower-cased first two fields and the value is column 2 read as column 3's type |
| Config.RowTypeCaseInsensitive | tea_main.py:172-178 | the type name is matched whatever its case and surrounding blanks |
| Config.ParseAll | tea_main.py:169-181 | each row parsed in order, or the exception of the first row that raises |
| Config.ParseAllFailureSticks | tea_main.py:169-181 | the first row that raises decides the exception, whatever follows |
| Config.LoadConfigFromCsv | tea_main.py:164-188 | the title row is skipped and each later row stored under its plant and variable, as ConfigFromRows gives |
| Config.ConfigFromRows | tea_main.py:164-188 | no title row raises; otherwise the result raises exactly when a row after the title raises, with that row's message, and is a well-formed table of well-formed plant tables |
| Config.GroupRows | tea_main.py:169-186 | the loop raises exactly when some row raises, and otherwise builds the grouped tables |
| Config.InsertLookup | tea_main.py:183-186 | one more row sets its plant's variable to its value and leaves every other lookup as it was |
| Config.GroupSystems | tea_main.py:183-186 | a plant has a table exactly when some row names it |
| Config.GroupVariables | tea_main.py:183-186 | a plant's table holds a variable exactly when some row sets it for that plant |
| Config.GroupLastRowWins | tea_main.py:183-186 | a plant's variable holds the value of the last row that sets it |
| Config.GroupValid | tea_main.py:183-186 | every table the rows build is a well-formed dict |
| Config.GroupWellFormed | tea_main.py:183-186 | the tables list exactly the keys they hold |
| Config.TableOf | tea_main.py:194-195 | config.get(name, {}) is the plant's table, or an empty one |
| Config.Setting | tea_main.py:197-215 | a setting is the plant's own value, else the value for all plants, else the default |
| Config.ImportantConfigEntries | tea_main.py:191-217 | the four settings are looked up under the lower-cased plant name, with defaults False, 'salt caverns', 1.5e6 tonnes and 20 years |
| Config.ImportantDefaults | tea_main.py:197-215 | with neither a plant table nor a shared one the four defaults are returned |
| Config.ImportantCaseInsensitive | tea_main.py:192 | plant names that differ only in case get the same settings |
| Config.PutAllLookup | tea_main.py:148-155 | after the assignments a key has the table's value when the table has it, and keeps its old value otherwise |
| Config.OverriddenPrecedence | tea_main.py:146-157 | a plant's own setting wins over the shared one, which wins over the value the plant was built with |
| Config.ImportantAgreesWithOverrides | tea_main.py:146-215 | the four settings the plant is built from are the ones the overrides leave in its variables whenever the configuration sets them |
| Config.AssignToEach | tea_main.py:149-150 | one shared entry is assigned to every plant and nothing else changes |
| Config.AssignAll | tea_main.py:154-155 | every entry of a table, in order, is assigned to one plant and nothing else changes |
| Config.ApplyOverrides | tea_main.py:146-157 | every plant's variables end as the shared then own settings override them, and nothing else changes |
| Config.ApplyOwn | tea_main.py:152-155 | one plant's own settings, found under its lower-cased name, are assigned to it |
| Config.ApplyShared | tea_main.py:147-150 | each shared entry in order is assigned to every plant |
| Text.Lower | tea_main.py:170-171 | s.lower() on ASCII letters: the length is kept and each character lowered in place (A-Z only) |
| Text.LowerIdempotent | tea_main.py:170-178 | lower-casing twice changes nothing more than lower-casing once |
| Text.Upper | examples/low_emission_steel/mass_energy_flow.py:313 | ore_name.upper() on ASCII letters: the length is kept and each character raised in place (a-z only) |
| Text.Strip | tea_main.py:170-173 | s.strip() is the part of s left when the white space at both ends, as str.isspace() defines it, is removed; it neither starts nor ends with white space |
| Sorting.SortBy | thermo.py:187 | the sort keeps length and contents: its result is a permutation of its input |
| Sorting.SortBySorted | thermo.py:187 | the result of the sort is ordered by the key |
| Sorting.SortByStable | thermo.py:187 | the sort is stable: for every key value, the elements with that key come out in the order they went in |
| Sorting.SortInPlace | thermo.py:187 | the array's contents become their stable sort |
| PlotHelpers.AllKeys | plot_helpers.py:8-10 | the gathered labels are exactly the keys of some dataset |
| PlotHelpers.InsertLabel | plot_helpers.py:11 | one label added to an ascending list keeps it ascending and adds exactly that label |
| PlotHelpers.SortedSet | plot_helpers.py:11 | sorted(set(labels)) is ascending and holds exactly the labels |
| PlotHelpers.HistogramLabels | plot_helpers.py:7-11 | the labels are every key of every dataset, once each, in ascending order; no datasets give no labels |
| PlotHelpers.LabelsFromDatasets | examples/low_emission_steel/mass_energy_flow.py:1517-1521 | the loop gathering keys dataset by dataset and sorting their set computes HistogramLabels |
| PlotHelpers.AscendingDistinct | plot_helpers.py:11 | no label appears twice in an ascending list |
| PlotHelpers.HistogramLabelsDistinct | plot_helpers.py:11 | the labels have no duplicates |
| PlotHelpers.AscendingUnique | plot_helpers.py:11 | only one strictly ascending list holds a given set of labels |
| PlotHelpers.HistogramLabelsUnique | plot_helpers.py:7-11 | any ascending list of exactly the datasets' keys is the list of labels |
| PlotHelpers.LabelHeights | plot_helpers.py:19 | a label's heights are each dataset's value times the scale, or KeyError when a dataset lacks it |
| PlotHelpers.Zeros | plot_helpers.py:17 | the first bottom is all zeros |
| PlotHelpers.Add | plot_helpers.py:21 | bottoms are added element by element |
| PlotHelpers.BottomsAreTotals | plot_helpers.py:17-21 | after the stacked labels, each column's bottom is the scaled sum of its dataset over them |
| PlotHelpers.Bars | plot_helpers.py:18-21 | the bars are drawn exactly when every dataset has every label, one per label |
| PlotHelpers.BarsContents | plot_helpers.py:18-21 | bar j is label j's scaled values on the bottoms the labels before it leave |
| PlotHelpers.BarsMissing | plot_helpers.py:19 | drawing stops at the first label some dataset lacks, with that label's KeyError |
| PlotHelpers.StackedBars | plot_helpers.py:14-21 | the loop of add_stacked_histogram_data_to_axis computes Bars |
| PlotHelpers.BarsStopAt | plot_helpers.py:18-21 | once a prefix of the labels fails, the whole drawing fails the same way |
| OreTables.ComplexAccepted | examples/low_emission_steel/mass_energy_flow.py:377-379 | a dry table of known total is accepted when its iron lies within a point of the iron of what its gangue and LOI leave |
| OreTables.ComplexSum | examples/low_emission_steel/mass_energy_flow.py:377-379 | the corrected complex composition sums to the table plus its gangue and hematite, with the iron replaced |
| OreTables.OreTableIOD | examples/low_emission_steel/mass_energy_flow.py:343-355 | ore name 'IOD' selects the IOD table, whose LOI is 8.2 |
| OreTables.IODAcceptedAsWritten | examples/low_emission_steel/mass_energy_flow.py:343-379 | ore IOD passes the complex step as written |
| OreTables.DefaultSimpleOxides | examples/low_emission_steel/mass_energy_flow.py:384-403 | the default simple ore has SiO2 3.91375, Al2O3 2.53675, CaO 0.13175 and MgO 0.18475, and its parts besides Fe make less than 100 percent |
| SlagFlux.FluxesScale | examples/steel_mass_energy.py:174-180 | for any ore mass, the fluxes of that mass's share of the gangue succeed under a rule when the percentages alone give non-negative fluxes under it |
| SlagFlux.GangueScaled | examples/steel_mass_energy.py:174-177 | an ore with the four oxides, none negative, yields for any non-negative ore mass the four shares of its gangue |
| MassFlow.Fractions | mass_energy_flow.py:1756-1759 | the slag fractions are keyed by exactly the species' names |
| Species.MergeWithIsCombine | technoeconomics/species.py:230-245 | for any per-species check, the loop succeeds exactly when combining succeeds and every species passes, and then yields the combined list |
| Species.ColdFails | technoeconomics/species.py:236-243 | a species with no temperature, or not above 298 K, fails the checks |
| Species.CopyAll | technoeconomics/species.py:234 | copy.deepcopy gives fresh, distinct species with the same states, in order |
| Species.NewGas | technoeconomics/species.py:93-101 | a new species set through the mass setter has the given name, molar mass and mass, and no temperature |
| Species.TempFoldFromTruthy | technoeconomics/species.py:181-188 | once a non-zero temperature is held, the getter returns it exactly when every later species has it, and raises otherwise |
| Species.TempFoldFromFalsy | technoeconomics/species.py:181-188 | from an unset or zero temperature, the getter returns t exactly when t is taken up at some species and every later one matches it |
| Species.TempFoldUnset | technoeconomics/species.py:181-188 | species with no temperatures give a mixture with none |

## Left out

- Cantera (the `CanteraSolution` wrapper and the plasma composition). It is a foreign library.
- Graphviz nodes, edges and rendering in `technoeconomics/system.py`. Only the device and flow maps are modelled.
- The iterative floating-point temperature loops, which run to a tolerance:
  - the `Mixture.merge` temperature loop (only its species-combining part and its checks are modelled);
  - the fluidized-bed, plasma off-gas and heat-exchanger temperature loops;
  - the FeO saturation loop.
- The device balances inside `solve_mass_energy_flow`. They are a function parameter that either completes or raises one of the signals.
- `steelsurface_radiation_losses` (a fourth power and pi) and `Species.cp` / `Mixture.cp`, which only sum segment values. They are non-polynomial or outside the modelled core. The Shomate segment's enthalpy and heat capacity are modelled exactly over the reals.
- The data tables of the `create_*_species` factories and `compute_reaction_enthalpy`. They are constants.
- The root `species.py` and `reactions.py`, which are unfinished stubs.
- The plant builders in `create_plants.py` and both `steel_plants.py` files, which only wire constants together.
- The root `system.py` that `mass_energy_flow.py` and `plant_costs.py` import is not part of this model. The flow objects that the `add_*` functions of `mass_energy_flow.py` write are therefore modelled as the numbers written into them, not as shared `Flow` objects.
- File reading, argparse, printing and matplotlib:
  - the price and ore CSV readers and the reports;
  - the `main`s and `render_systems`;
  - the `ax.bar` calls and axis titles. Each drawn bar is modelled as a value: its label, heights and bottoms.
- The CSV readers take their rows as lists of strings. Python's `float()` and `int()` are function parameters.
- Python floats and `math.isclose`. Quantities are exact reals, and `isclose` is exact equality. numpy's inf and nan from a division by zero are an explicit `NonFinite` or `Err` result.
- Sensitivity.Run: the plant's solve and levelised cost, and the `copy.deepcopy` of the plant and prices per run, are one function parameter from parameter value to result or exception. The `_SA_` renaming of the copy is not modelled.
- Sensitivity: `SensitivityCase` is a value, not a property bag, and its unused `elasticity_perc_change` is only carried. The low-emission `create_sensitivity_indicators` and `run` are not modelled: they call the classes with the wrong arity and `run` has no body.
- Sensitivity.PriceValue: a value that is not a number or a bool makes the cost arithmetic raise. This is modelled as one `Err`, without the exact Python error.
- Solver.SolveMassEnergyFlowLowEmission: the low-emission loop has no attempt cap. The model bounds it with a `fuel` count. `LowEmissionFuelMonotone` shows that more fuel never changes an outcome the loop reaches.
- Levelised.CostRecoveryFactor: the plant life is a whole number of years, so `(1 + r) ** n` is a product. The source accepts a real exponent.
- Config.AssignAll: it loops over a local copy of the variables and assigns the plant's field once at the end. The source assigns the field entry by entry; nothing else reads it in between.
- Capex: `first_output_containing_name('h2')` of the electrolyser is given as the plant's data (its mass, or none).
- Thermo.Clamp and Thermo.ClampAsWritten: the error message keeps the 'ThermoData::delta_h: ' prefix but leaves out the range and the temperatures that the source formats into it.
- MassFlow.ElectrolysisFlows: the electricity it gives is the electrolysis at 25 C only. The source then adds the electrolyser's `thermal_energy_balance()` to the same input (examples/low_emission_steel/mass_energy_flow.py:1122-1123); that balance needs the enthalpies of every flow of the device and is not part of this member.
- Text.Lower / Text.Upper / Text.Strip: lower and upper map the ASCII letters only. Python's `str.lower()` and `str.upper()` map all of Unicode ('É' lowers to 'é', and 'ß' uppers to 'SS', which changes the length), so the key-clash check of `Prices.LowerKeys`, `Config.RowEntry` and `OreTables.OreTable` follow Python only on names whose letters are ASCII. Strip removes exactly the characters `str.isspace()` accepts, non-ASCII ones such as '\xa0' and '\u2028' included.
- FlowSystem: devices and systems are distinct objects, and each flow belongs to one system.

## Findings

| source | as written | input that shows it | evidently intended | confidence | as-written member | corrected member |
|---|---|---|---|---|---|---|
| thermo.py:213-224 | when either temperature is out of range, t_initial is moved to min_kelvin whenever it lies in the 298-300 K window, even when t_final is the one out of range; the pair is not checked again | one segment of cp 10 J/(mol K) on [299, 1000] K: heating 1 mol from 298.5 K to 299.5 K gives 5 J, cooling it back gives 0 J | each temperature is clamped or refused on its own, so delta_h(m, a, b) = -delta_h(m, b, a) | not executed | Thermo.DeltaHAsWrittenNotAntisymmetric | Thermo.DeltaHAntisymmetric |
| examples/low_emission_steel/mass_energy_flow.py:378 | hematite = 100 - gangue - - LOI (the LOI is added) | ore IOD (LOI 8.2): hematite, gangue and LOI make 116.4 percent | hematite = 100 - gangue - LOI | not executed | OreTables.IodHematiteAsWritten | OreTables.ComplexBalances |
| examples/steel_mass_energy.py:180 | the MgO flux subtracts the CaO flux but not the gangue CaO | 1 kg SiO2 and 0.5 kg gangue CaO with B4 = 1.8: fluxes 1.5 and 0.3 kg, so CaO + MgO = 2.3 kg instead of 1.8 kg | MgO flux = B4 × (SiO2 + Al2O3) - (gangue CaO + CaO flux) - gangue MgO | not executed | SlagFlux.FluxesAsWrittenMissB4 | SlagFlux.Fluxes |
| plant_costs.py:108 | the cheap spot entry is stored in the lowered table under 'cheap spot clectricity' | prices with only 'Base Electricity' and an input 'Cheap Spot Electricity': that input gets no cost | the key 'cheap spot electricity', so the input is charged at the base price | not executed | Prices.CheapSpotAsWrittenUncharged | Prices.CheapSpotChargedAtBase |
| examples/low_emission_steel/plant_costs.py:151 | r (1 + r ** n) / ((1 + r) ** n - 1): the power is applied to r alone | n = 2: the factor is below the cost recovery factor, and paying it for two years leaves part of the capital unpaid | r (1 + r) ** n / ((1 + r) ** n - 1), as in plant_costs.py:225 | not executed | Levelised.AnnuityFactorAsWrittenUndercharges | Levelised.CostRecoveryFactorRepays |
