/** The hydrogen-storage capex of examples/low_emission_steel/plant_costs.py
    and of examples/steel_plant_capex.py. Both size the storage as the main
    plant_costs.py does, but cost it with fixed literature prices per
    kilogram instead of a price table, and no other device is priced. */
module LiteratureCapex {
  import opened Base
  import opened Dicts
  import opened Text
  import MassFlow
  import opened Capex

  /** Cost per kilogram of usable hydrogen in a salt cavern: the 2014 price
      of 1.61 USD inflated by 1.29 to 2023. */
  function SaltCavernCapexLord2014(): (r: real)
    ensures r == 2.0769
  {
    var inflation20142023 := 1.29;
    var storedCostPerKg2014 := 1.61;
    storedCostPerKg2014 * inflation20142023
  }

  /** Cost per kilogram of hydrogen in compressed gas vessels: the 2016
      price of 350 USD inflated by 1.27 to 2023. */
  function CompressedGasVesselElberry2021(): (r: real)
    ensures r == 444.5
  {
    var inflation20162023 := 1.27;
    var storedCostPerKg2016 := 350.0;
    storedCostPerKg2016 * inflation20162023
  }

  // ---------------------------------------------------------------------
  // examples/low_emission_steel/plant_costs.py

  /** `add_h2_storage_capex` of the low-emission copy: both storage
      variables must be set; the size is the one the main plant uses and
      the cost per kilogram is the literature price of the kind named in
      the plural. */
  function LowEmissionStorageCapex(info: PlantInfo, s: DeviceState): (r: Step)
    ensures StorageMethodKey !in info.vars.entries || StorageHoursKey !in info.vars.entries ==> r == Step(Fail(MissingStorageVars), s)
    ensures H2Mass(info).Err? ==> r.outcome.Fail? && r.state == s
    ensures r.outcome.Pass? <==>
              StorageMethodKey in info.vars.entries && StorageHoursKey in info.vars.entries
              && H2Mass(info).Ok? && MassFlow.NumVar(info.vars, StorageHoursKey).Ok?
              && info.vars.entries[StorageMethodKey].StrV?
              && (Lower(info.vars.entries[StorageMethodKey].s) == "salt caverns"
                  || Lower(info.vars.entries[StorageMethodKey].s) == "compressed gas vessels")
    ensures r.outcome.Pass? && Lower(info.vars.entries[StorageMethodKey].s) == "salt caverns" ==>
              r.state.capex == StorageSize(info.annual, H2Mass(info).value, MassFlow.NumVar(info.vars, StorageHoursKey).value) * 2.0769
    ensures r.outcome.Pass? && Lower(info.vars.entries[StorageMethodKey].s) == "compressed gas vessels" ==>
              r.state.capex == StorageSize(info.annual, H2Mass(info).value, MassFlow.NumVar(info.vars, StorageHoursKey).value) * 444.5
  {
    if StorageMethodKey !in info.vars.entries || StorageHoursKey !in info.vars.entries then Step(Fail(MissingStorageVars), s)
    else
      var mass := H2Mass(info);
      var hours := MassFlow.NumVar(info.vars, StorageHoursKey);
      if mass.Err? then Step(Fail(mass.msg), s)
      else if hours.Err? then Step(Fail(hours.msg), s)
      else
        var size := StorageSize(info.annual, mass.value, hours.value);
        StoreAndCost(size, info.vars.entries[StorageMethodKey], PluralNames,
                     SaltCavernCapexLord2014(), CompressedGasVesselElberry2021(), s)
  }

  /** `add_steel_plant_capex` of the low-emission copy: only the storage
      device is costed, and only when the plant has one. */
  function LowEmissionSteelPlantCapex(info: PlantInfo, states: map<string, DeviceState>): (r: PlantStep)
    requires states.Keys == info.devices.Keys
    ensures StorageDevice !in info.devices ==> r == PlantStep(Pass, states)
    ensures r.states.Keys == states.Keys
    ensures forall k :: k in states && k != StorageDevice ==> r.states[k] == states[k]
  {
    if StorageDevice !in info.devices then PlantStep(Pass, states)
    else
      var st := LowEmissionStorageCapex(info, states[StorageDevice]);
      PlantStep(st.outcome, states[StorageDevice := st.state])
  }

  /** The low-emission `add_h2_storage_capex` on the plant's devices. */
  method AddH2StorageCapexLowEmission(plant: Plant) returns (r: Outcome)
    requires plant.Valid() && StorageDevice in plant.devices.entries
    modifies plant.devices.entries[StorageDevice]
    ensures Step(r, plant.devices.entries[StorageDevice].State())
            == LowEmissionStorageCapex(plant.Info(), old(plant.devices.entries[StorageDevice].State()))
    ensures plant.States() == old(plant.States())[StorageDevice := plant.devices.entries[StorageDevice].State()]
  {
    var device := plant.devices.entries[StorageDevice];
    if StorageMethodKey !in plant.systemVars.entries || StorageHoursKey !in plant.systemVars.entries {
      return Fail(MissingStorageVars);
    }
    var kind := plant.systemVars.entries[StorageMethodKey];
    var mass := H2Mass(plant.Info());
    if mass.Err? {
      return Fail(mass.msg);
    }
    var hours := MassFlow.NumVar(plant.systemVars, StorageHoursKey);
    if hours.Err? {
      return Fail(hours.msg);
    }
    r := StoreAndCostAt(device, StorageSize(plant.annualCapacity, mass.value, hours.value), kind, PluralNames,
                        SaltCavernCapexLord2014(), CompressedGasVesselElberry2021());
    plant.OneDeviceChanged(StorageDevice);
  }

  /** The low-emission `add_steel_plant_capex` on the plant's devices. */
  method AddSteelPlantCapexLowEmission(plant: Plant) returns (r: Outcome)
    requires plant.Valid()
    modifies plant.Objects()
    ensures PlantStep(r, plant.States()) == LowEmissionSteelPlantCapex(plant.Info(), old(plant.States()))
  {
    r := Pass;
    if StorageDevice in plant.devices.entries {
      r := AddH2StorageCapexLowEmission(plant);
    }
  }

  // ---------------------------------------------------------------------
  // examples/steel_plant_capex.py

  /** The storage method used when the plant does not set one. */
  const DefaultStorageMethod: string := "salt cavern"

  /** The hours of production the storage holds when the caller gives none. */
  const DefaultStorageHours: real := 12.0

  /** `add_steel_plant_capex` of examples/steel_plant_capex.py: the method
      defaults to a salt cavern, the hours to 12, the kinds are
      named in the singular, and both the electrolyser and the storage
      device must exist (the electrolyser is looked up first). */
  function ExampleSteelPlantCapex(info: PlantInfo, states: map<string, DeviceState>, hours: real := DefaultStorageHours): (r: PlantStep)
    requires states.Keys == info.devices.Keys
    ensures H2Mass(info).Err? ==> r == PlantStep(Fail(H2Mass(info).msg), states)
    ensures H2Mass(info).Ok? && StorageDevice !in info.devices ==> r == PlantStep(Fail(KeyError(StorageDevice)), states)
    ensures r.states.Keys == states.Keys
    ensures forall k :: k in states && k != StorageDevice ==> r.states[k] == states[k]
  {
    var kind := if StorageMethodKey in info.vars.entries then info.vars.entries[StorageMethodKey] else StrV(DefaultStorageMethod);
    var mass := H2Mass(info);
    if mass.Err? then PlantStep(Fail(mass.msg), states)
    else if StorageDevice !in states then PlantStep(Fail(KeyError(StorageDevice)), states)
    else
      var st := StoreAndCost(StorageSize(info.annual, mass.value, hours), kind, SingularNames,
                             SaltCavernCapexLord2014(), CompressedGasVesselElberry2021(), states[StorageDevice]);
      PlantStep(st.outcome, states[StorageDevice := st.state])
  }

  /** Without a storage method set, a plant with an electrolyser output and
      a storage device gets a salt cavern sized for the given hours. */
  lemma {:induction false} ExampleDefaultsToSaltCavern(info: PlantInfo, states: map<string, DeviceState>, hours: real)
    requires states.Keys == info.devices.Keys
    requires StorageMethodKey !in info.vars.entries && H2Mass(info).Ok? && StorageDevice in info.devices
    ensures ExampleSteelPlantCapex(info, states, hours).outcome.Pass?
    ensures ExampleSteelPlantCapex(info, states, hours).states[StorageDevice].capex
            == StorageSize(info.annual, H2Mass(info).value, hours) * 2.0769
    ensures TypeKey in ExampleSteelPlantCapex(info, states, hours).states[StorageDevice].vars.entries
            && ExampleSteelPlantCapex(info, states, hours).states[StorageDevice].vars.entries[TypeKey] == StrV(DefaultStorageMethod)
  {
    LowerLowerCase(DefaultStorageMethod);
    var size := StorageSize(info.annual, H2Mass(info).value, hours);
    var st := StoreAndCost(size, StrV(DefaultStorageMethod), SingularNames, SaltCavernCapexLord2014(), CompressedGasVesselElberry2021(),
                           states[StorageDevice]);
    assert st.outcome.Pass? && st.state.capex == size * 2.0769;
    assert ExampleSteelPlantCapex(info, states, hours) == PlantStep(st.outcome, states[StorageDevice := st.state]);
  }

  /** A call that gives no hours sizes the storage for 12 hours of
      production: without a storage method set, the salt cavern holds
      12 hours of hydrogen at 2.0769 USD per kilogram. */
  lemma {:induction false} ExampleDefaultHours(info: PlantInfo, states: map<string, DeviceState>)
    requires states.Keys == info.devices.Keys
    requires StorageMethodKey !in info.vars.entries && H2Mass(info).Ok? && StorageDevice in info.devices
    ensures ExampleSteelPlantCapex(info, states).outcome.Pass?
    ensures ExampleSteelPlantCapex(info, states).states[StorageDevice].capex * 8766.0
            == info.annual * H2Mass(info).value * 12.0 * 2.0769
  {
    ExampleDefaultsToSaltCavern(info, states, DefaultStorageHours);
    StorageSizeCoversHours(info.annual, H2Mass(info).value, DefaultStorageHours);
  }

  /** The plural names the main plant code and the configuration default
      use are not recognised by the example, which raises for them. */
  lemma {:induction false} ExampleRejectsPluralNames(info: PlantInfo, states: map<string, DeviceState>, hours: real)
    requires states.Keys == info.devices.Keys
    requires StorageMethodKey in info.vars.entries && H2Mass(info).Ok? && StorageDevice in info.devices
    requires info.vars.entries[StorageMethodKey] == StrV(PluralNames.salt) || info.vars.entries[StorageMethodKey] == StrV(PluralNames.vessels)
    ensures ExampleSteelPlantCapex(info, states, hours).outcome == Fail(MethodNotRecognised)
  {
    var kind := info.vars.entries[StorageMethodKey];
    assert Lower(kind.s) != SingularNames.salt && Lower(kind.s) != SingularNames.vessels by {
      assert |kind.s| == 12 || |kind.s| == 22;
    }
    var size := StorageSize(info.annual, H2Mass(info).value, hours);
    assert StoreAndCost(size, kind, SingularNames, SaltCavernCapexLord2014(), CompressedGasVesselElberry2021(), states[StorageDevice]).outcome
           == Fail(MethodNotRecognised);
  }

  /** examples/steel_plant_capex.py's `add_steel_plant_capex` on the
      plant's devices. */
  method AddSteelPlantCapexExample(plant: Plant, hours: real := DefaultStorageHours) returns (r: Outcome)
    requires plant.Valid()
    modifies plant.Objects()
    ensures PlantStep(r, plant.States()) == ExampleSteelPlantCapex(plant.Info(), old(plant.States()), hours)
  {
    var kind := StrV(DefaultStorageMethod);
    if StorageMethodKey in plant.systemVars.entries {
      kind := plant.systemVars.entries[StorageMethodKey];
    }
    var mass := H2Mass(plant.Info());
    if mass.Err? {
      return Fail(mass.msg);
    }
    if StorageDevice !in plant.devices.entries {
      return Fail(KeyError(StorageDevice));
    }
    var device := plant.devices.entries[StorageDevice];
    r := StoreAndCostAt(device, StorageSize(plant.annualCapacity, mass.value, hours), kind, SingularNames,
                        SaltCavernCapexLord2014(), CompressedGasVesselElberry2021());
    plant.OneDeviceChanged(StorageDevice);
  }
}
