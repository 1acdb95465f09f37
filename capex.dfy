/** The capital costs of plant_costs.py, of its low-emission copy and of
    examples/steel_plant_capex.py: hydrogen storage sized from the
    electrolyser's output, the electrolyser sized for the cheap-electricity
    hours, and every other device priced through its capex label. The
    devices are objects whose `capex` and `device_vars` the code assigns. */
module Capex {
  import opened Base
  import opened Dicts
  import opened Text
  import opened Prices
  import MassFlow

  type Vars = Dict<string, Value>

  const StorageDevice: string := "h2 storage"
  const ElectrolysisDevice: string := "water electrolysis"

  const StorageMethodKey: string := "h2 storage method"
  const StorageHoursKey: string := "h2 storage hours of operation"
  const CheapHoursKey: string := "cheap electricity hours"
  const EfficiencyKey: string := "electrolysis lhv efficiency percent"

  const SizeKey: string := "h2 storage size [kg]"
  const TypeKey: string := "h2 storage type"
  const VesselsKey: string := "num h2 storage vessels"

  const MissingStorageVars: string := "ValueError: h2 storage method or h2 storage hours of operation not defined"
  const MethodNotRecognised: string := "ValueError: h2 storage method not recognised"
  const NoneHasNoLower: string := "AttributeError: 'NoneType' object has no attribute 'lower'"
  const NoH2Output: string := "AttributeError: 'NoneType' object has no attribute 'mass'"

  function OnlyUnits(u: PriceUnits, what: string): string {
    "Only PriceUnits of " + UnitsName(u) + " are supported for " + what + "."
  }

  function UnknownLabel(capexLabel: string, device: string, system: string): string {
    "No entry in price csv with label " + capexLabel + ". Expected for device " + device + " in system " + system
  }

  // ---------------------------------------------------------------------
  // Devices and plants

  /** The part of a device the capex code changes. */
  datatype DeviceState = DeviceState(capex: real, vars: Vars)

  /** A device as the capex code reads it: its capex label and the mass of
      its first output whose name contains 'h2', if any. */
  datatype DeviceInfo = DeviceInfo(capexLabel: Option<string>, h2Output: Option<real>)

  /** A plant as the capex code reads it. */
  datatype PlantInfo = PlantInfo(name: string, annual: real, vars: Vars, order: seq<string>, devices: map<string, DeviceInfo>) {
    /** Every listed name is a device. */
    predicate Listed() {
      forall k :: k in order ==> k in devices
    }

    ghost predicate Valid() {
      vars.Valid() && Distinct(order) && Listed() && forall k :: k in devices ==> k in order
    }
  }

  /** The outcome of one assignment step and the device's state after it. */
  datatype Step = Step(outcome: Outcome, state: DeviceState)

  /** The outcome of a whole pass and the state of every device after it. */
  datatype PlantStep = PlantStep(outcome: Outcome, states: map<string, DeviceState>)

  class CapexDevice {
    const name: string
    const capexLabel: Option<string>
    const h2Output: Option<real>
    var capex: real
    var deviceVars: Vars

    constructor(name: string, capexLabel: Option<string>, h2Output: Option<real>, capex: real)
      ensures this.name == name && this.capexLabel == capexLabel && this.h2Output == h2Output
      ensures this.capex == capex && deviceVars == Empty()
    {
      this.name := name;
      this.capexLabel := capexLabel;
      this.h2Output := h2Output;
      this.capex := capex;
      deviceVars := Empty();
    }

    function State(): DeviceState
      reads this
    {
      DeviceState(capex, deviceVars)
    }

    /** Records a new state. */
    method SetState(s: DeviceState)
      modifies this
      ensures State() == s
    {
      capex := s.capex;
      deviceVars := s.vars;
    }
  }

  class Plant {
    const name: string
    const annualCapacity: real
    const systemVars: Vars
    const devices: Dict<string, CapexDevice>

    constructor(name: string, annualCapacity: real, systemVars: Vars, devices: Dict<string, CapexDevice>)
      ensures this.name == name && this.annualCapacity == annualCapacity
      ensures this.systemVars == systemVars && this.devices == devices
    {
      this.name := name;
      this.annualCapacity := annualCapacity;
      this.systemVars := systemVars;
      this.devices := devices;
    }

    /** Every device is registered under its own name, so no two names share
        a device. */
    ghost predicate Valid() {
      systemVars.Valid() && devices.Valid() && forall k :: k in devices.entries ==> devices.entries[k].name == k
    }

    function Objects(): set<CapexDevice> {
      set k | k in devices.entries :: devices.entries[k]
    }

    function Info(): PlantInfo {
      PlantInfo(name, annualCapacity, systemVars, devices.order,
        map k | k in devices.entries :: DeviceInfo(devices.entries[k].capexLabel, devices.entries[k].h2Output))
    }

    function States(): (r: map<string, DeviceState>)
      reads Objects()
      ensures r.Keys == devices.entries.Keys
    {
      map k | k in devices.entries :: devices.entries[k].State()
    }

    lemma InfoValid()
      requires Valid()
      ensures Info().Valid()
    {
    }

    /** Changing one device changes the plant's states at its name only. */
    twostate lemma OneDeviceChanged(k: string)
      requires Valid() && k in devices.entries
      requires forall o :: o in Objects() && o != devices.entries[k] ==> unchanged(o)
      ensures States() == old(States())[k := devices.entries[k].State()]
    {
      forall j | j in devices.entries
        ensures States()[j] == old(States())[k := devices.entries[k].State()][j]
      {
        if j != k {
          assert devices.entries[j] in Objects();
          assert devices.entries[j].name != devices.entries[k].name;
        }
      }
    }

    /** `add_h2_storage_capex` of plant_costs.py. */
    method AddH2StorageCapex(pl: PriceTable) returns (r: Outcome)
      requires Valid() && StorageDevice in devices.entries
      modifies devices.entries[StorageDevice]
      ensures Step(r, devices.entries[StorageDevice].State()) == StorageCapex(Info(), pl, old(devices.entries[StorageDevice].State()))
      ensures States() == old(States())[StorageDevice := devices.entries[StorageDevice].State()]
    {
      var device := devices.entries[StorageDevice];
      if StorageMethodKey !in systemVars.entries || StorageHoursKey !in systemVars.entries {
        return Fail(MissingStorageVars);
      }
      var kind := systemVars.entries[StorageMethodKey];
      var price := StoragePrice(device.capexLabel, pl);
      if price.Err? {
        return Fail(price.msg);
      }
      var mass := H2Mass(Info());
      if mass.Err? {
        return Fail(mass.msg);
      }
      var hours := MassFlow.NumVar(systemVars, StorageHoursKey);
      if hours.Err? {
        return Fail(hours.msg);
      }
      r := StoreAndCostAt(device, StorageSize(annualCapacity, mass.value, hours.value), kind, PluralNames, price.value, price.value);
      OneDeviceChanged(StorageDevice);
    }

    /** `add_electrolyser_capex` of plant_costs.py. */
    method AddElectrolyserCapex(pl: PriceTable) returns (r: Outcome)
      requires Valid() && ElectrolysisDevice in devices.entries
      modifies devices.entries[ElectrolysisDevice]
      ensures Step(r, devices.entries[ElectrolysisDevice].State())
              == ElectrolyserCapex(Info(), pl, old(devices.entries[ElectrolysisDevice].State()))
      ensures States() == old(States())[ElectrolysisDevice := devices.entries[ElectrolysisDevice].State()]
    {
      var device := devices.entries[ElectrolysisDevice];
      var cost := ElectrolyserCost(Info(), pl);
      if cost.Err? {
        return Fail(cost.msg);
      }
      device.capex := cost.value;
      r := Pass;
      OneDeviceChanged(ElectrolysisDevice);
    }

    /** `add_steel_plant_capex` of plant_costs.py. */
    method AddSteelPlantCapex(prices: PriceTable) returns (r: Outcome)
      requires Valid() && prices.Valid()
      modifies Objects()
      ensures PlantStep(r, States()) == SteelPlantCapex(Info(), prices, old(States()))
    {
      var pl := LowerKeys(prices);
      if pl.Err? {
        return Fail(pl.msg);
      }
      r := SizeStorageAndElectrolyser(pl.value);
      if r.Fail? {
        return;
      }
      r := PriceLabelledDevices(pl.value);
    }

    /** The storage and electrolyser steps of `add_steel_plant_capex`, each
        taken only when the plant has that device. */
    method SizeStorageAndElectrolyser(pl: PriceTable) returns (r: Outcome)
      requires Valid()
      modifies Objects()
      ensures PlantStep(r, States()) == AfterSizing(Info(), pl, old(States()))
    {
      InfoValid();
      r := Pass;
      if StorageDevice in devices.entries {
        r := AddH2StorageCapex(pl);
        if r.Fail? {
          return;
        }
      }
      if ElectrolysisDevice in devices.entries {
        r := AddElectrolyserCapex(pl);
      }
    }

    /** The body of the device loop for a device whose label has a price:
        only that device's capex changes. */
    method ApplyRule(k: string, rule: PriceRule)
      requires Valid() && k in devices.entries && !rule.Missing?
      modifies devices.entries[k]
      ensures States() == old(States())[k := old(States())[k].(capex := Apply(rule, old(States())[k].capex))]
    {
      var device := devices.entries[k];
      if rule.SetTo? {
        device.capex := rule.capex;
      }
      OneDeviceChanged(k);
    }

    /** The device loop of `add_steel_plant_capex`. */
    method PriceLabelledDevices(pl: PriceTable) returns (r: Outcome)
      requires Valid()
      modifies Objects()
      ensures PlantStep(r, States()) == LabelPass(devices.order, Rules(Info(), pl), name, old(States()), |devices.order|)
    {
      ghost var start := old(States());
      ghost var rules := Rules(Info(), pl);
      assert Covered(devices.order, rules, start) by {
        InfoValid();
      }
      var i := 0;
      while i < |devices.order|
        invariant 0 <= i <= |devices.order|
        invariant PlantStep(Pass, States()) == LabelPass(devices.order, rules, name, start, i)
        decreases |devices.order| - i
      {
        var k := devices.order[i];
        var device := devices.entries[k];
        var rule := RuleOf(device.capexLabel, pl, annualCapacity);
        assert rule == rules[k];
        LabelPassNext(devices.order, rules, name, start, i);
        if rule.Missing? {
          r := Fail(UnknownLabel(rule.capexLabel, k, name));
          LabelPassFailureSticks(devices.order, rules, name, start, i + 1, |devices.order|);
          return;
        }
        ApplyRule(k, rule);
        i := i + 1;
      }
      r := Pass;
    }
  }

  // ---------------------------------------------------------------------
  // Storage size and cost

  /** Tonnes of steel per hour over a year of 365.25 days. */
  function TonnesPerHour(annual: real): real {
    annual / (365.25 * 24.0)
  }

  /** The hydrogen to store: the electrolyser's output per tonne of steel
      for the tonnes made during the hours of operation. */
  function StorageSize(annual: real, h2PerTonne: real, hours: real): real {
    TonnesPerHour(annual) * h2PerTonne * hours
  }

  /** Over a year of 8766 hours, the storage holds the hydrogen of `hours`
      hours of production. */
  lemma StorageSizeCoversHours(annual: real, h2PerTonne: real, hours: real)
    ensures StorageSize(annual, h2PerTonne, hours) * 8766.0 == annual * h2PerTonne * hours
  {
    var t := TonnesPerHour(annual);
    assert t * 8766.0 == annual;
    calc {
      StorageSize(annual, h2PerTonne, hours) * 8766.0;
      (t * 8766.0) * (h2PerTonne * hours);
      annual * h2PerTonne * hours;
    }
  }

  /** `int(math.ceil(x))`. */
  function Ceil(x: real): (r: int)
    ensures r as real - 1.0 < x <= r as real
  {
    if x == x.Floor as real then x.Floor else x.Floor + 1
  }

  /** The vessels of 300 kg each hold the stored hydrogen, with less than a
      vessel to spare. */
  lemma VesselsHoldStorage(size: real)
    ensures (Ceil(size / 300.0) - 1) as real * 300.0 < size <= Ceil(size / 300.0) as real * 300.0
  {
  }

  /** The names the storage method is matched against after lower-casing. */
  datatype StorageNames = StorageNames(salt: string, vessels: string)

  const PluralNames: StorageNames := StorageNames("salt caverns", "compressed gas vessels")
  const SingularNames: StorageNames := StorageNames("salt cavern", "compressed gas vessel")

  /** Size and type are recorded first; then the method is matched against
      the names, case-insensitively, and the device costs the storage size
      times the cost per kilogram of the matched kind (vessels also record
      how many are needed); any other method, or one that is not a string,
      raises with the recorded vars kept and the capex unchanged. */
  function StoreAndCost(size: real, kind: Value, names: StorageNames, saltCost: real, vesselCost: real, s: DeviceState): (r: Step)
    ensures SizeKey in r.state.vars.entries && r.state.vars.entries[SizeKey] == NumV(size)
    ensures TypeKey in r.state.vars.entries && r.state.vars.entries[TypeKey] == kind
    ensures r.outcome.Pass? <==> kind.StrV? && (Lower(kind.s) == names.salt || Lower(kind.s) == names.vessels)
    ensures r.outcome.Fail? ==> r.state.capex == s.capex
  {
    var recorded := Put(Put(s.vars, SizeKey, NumV(size)), TypeKey, kind);
    if !kind.StrV? then Step(Fail("AttributeError: object has no attribute 'lower'"), DeviceState(s.capex, recorded))
    else if Lower(kind.s) == names.salt then Step(Pass, DeviceState(size * saltCost, recorded))
    else if Lower(kind.s) == names.vessels then
      Step(Pass, DeviceState(size * vesselCost, Put(recorded, VesselsKey, NumV(Ceil(size / 300.0) as real))))
    else Step(Fail(MethodNotRecognised), DeviceState(s.capex, recorded))
  }

  /** The matched kind of storage sets the capex per kilogram stored, and
      only compressed gas vessels record a vessel count. */
  lemma StoreAndCostKinds(size: real, m: string, names: StorageNames, saltCost: real, vesselCost: real, s: DeviceState)
    requires names.salt != names.vessels
    ensures Lower(m) == names.salt ==>
              StoreAndCost(size, StrV(m), names, saltCost, vesselCost, s).state.capex == size * saltCost
              && StoreAndCost(size, StrV(m), names, saltCost, vesselCost, s).state.vars.entries.Keys == s.vars.entries.Keys + {SizeKey, TypeKey}
    ensures Lower(m) == names.vessels ==>
              StoreAndCost(size, StrV(m), names, saltCost, vesselCost, s).state.capex == size * vesselCost
              && StoreAndCost(size, StrV(m), names, saltCost, vesselCost, s).state.vars.entries[VesselsKey] == NumV(Ceil(size / 300.0) as real)
  {
  }

  /** The storage step applied to a device object. */
  method StoreAndCostAt(device: CapexDevice, size: real, kind: Value, names: StorageNames, saltCost: real, vesselCost: real)
    returns (r: Outcome)
    modifies device
    ensures Step(r, device.State()) == StoreAndCost(size, kind, names, saltCost, vesselCost, old(device.State()))
  {
    device.deviceVars := Put(device.deviceVars, SizeKey, NumV(size));
    device.deviceVars := Put(device.deviceVars, TypeKey, kind);
    if !kind.StrV? {
      return Fail("AttributeError: object has no attribute 'lower'");
    }
    var m := Lower(kind.s);
    if m == names.salt {
      device.capex := size * saltCost;
    } else if m == names.vessels {
      device.capex := size * vesselCost;
      device.deviceVars := Put(device.deviceVars, VesselsKey, NumV(Ceil(size / 300.0) as real));
    } else {
      return Fail(MethodNotRecognised);
    }
    r := Pass;
  }

  /** `system.devices['water electrolysis'].first_output_containing_name('h2').mass`. */
  function H2Mass(info: PlantInfo): (r: Result<real>)
    ensures r.Ok? <==> ElectrolysisDevice in info.devices && info.devices[ElectrolysisDevice].h2Output.Some?
  {
    if ElectrolysisDevice !in info.devices then Err(KeyError(ElectrolysisDevice))
    else if info.devices[ElectrolysisDevice].h2Output.None? then Err(NoH2Output)
    else Ok(info.devices[ElectrolysisDevice].h2Output.value)
  }

  /** The storage price, looked up under the lower-cased label; it must be
      quoted per kilogram of capacity. */
  function StoragePrice(capexLabel: Option<string>, pl: PriceTable): (r: Result<real>)
    ensures r.Ok? <==> capexLabel.Some? && Lower(capexLabel.value) in pl.entries && pl.entries[Lower(capexLabel.value)].units == PerKilogramOfCapacity
    ensures r.Ok? ==> r.value == pl.entries[Lower(capexLabel.value)].priceUsd
  {
    if capexLabel.None? then Err(NoneHasNoLower)
    else if Lower(capexLabel.value) !in pl.entries then Err(KeyError(Lower(capexLabel.value)))
    else if pl.entries[Lower(capexLabel.value)].units != PerKilogramOfCapacity then
      Err("ValueError: " + OnlyUnits(PerKilogramOfCapacity, "H2 storage"))
    else Ok(pl.entries[Lower(capexLabel.value)].priceUsd)
  }

  /** `add_h2_storage_capex` of plant_costs.py: both storage variables must
      be set, the price is the storage device's, and the cost per kilogram
      is that price for either kind. Up to the method match nothing is
      changed on failure. */
  function StorageCapex(info: PlantInfo, pl: PriceTable, s: DeviceState): (r: Step)
    requires StorageDevice in info.devices
    ensures StorageMethodKey !in info.vars.entries || StorageHoursKey !in info.vars.entries ==> r == Step(Fail(MissingStorageVars), s)
    ensures StoragePrice(info.devices[StorageDevice].capexLabel, pl).Err? ==> r.outcome.Fail? && r.state == s
    ensures r.outcome.Pass? ==>
              StorageMethodKey in info.vars.entries && StorageHoursKey in info.vars.entries
              && StoragePrice(info.devices[StorageDevice].capexLabel, pl).Ok? && H2Mass(info).Ok?
              && MassFlow.NumVar(info.vars, StorageHoursKey).Ok?
              && r.state.capex == StorageSize(info.annual, H2Mass(info).value, MassFlow.NumVar(info.vars, StorageHoursKey).value)
                                  * StoragePrice(info.devices[StorageDevice].capexLabel, pl).value
  {
    if StorageMethodKey !in info.vars.entries || StorageHoursKey !in info.vars.entries then Step(Fail(MissingStorageVars), s)
    else
      var price := StoragePrice(info.devices[StorageDevice].capexLabel, pl);
      var mass := H2Mass(info);
      var hours := MassFlow.NumVar(info.vars, StorageHoursKey);
      if price.Err? then Step(Fail(price.msg), s)
      else if mass.Err? then Step(Fail(mass.msg), s)
      else if hours.Err? then Step(Fail(hours.msg), s)
      else
        var size := StorageSize(info.annual, mass.value, hours.value);
        StoreAndCost(size, info.vars.entries[StorageMethodKey], PluralNames, price.value, price.value, s)
  }

  // ---------------------------------------------------------------------
  // Electrolyser

  /** Lower heating value of hydrogen, in kWh per kg. */
  const H2LowerHeatingValue: real := 33.33

  /** The electrolyser's capacity in kW: the power that turns a tonne's
      hydrogen into steel-rate production, oversized so that the day's
      hydrogen is made during the cheap hours. */
  function ElectrolyserKilowatts(efficiencyPercent: real, h2PerTonne: real, annual: real, hours: real): real
    requires efficiencyPercent != 0.0 && hours != 0.0
  {
    H2LowerHeatingValue / (efficiencyPercent * 0.01) * h2PerTonne * TonnesPerHour(annual) * (24.0 / hours)
  }

  /** Running for `hours` a day at its efficiency, the electrolyser delivers
      the heating value of a day's hydrogen. */
  lemma ElectrolyserMeetsDailyDemand(efficiencyPercent: real, h2PerTonne: real, annual: real, hours: real)
    requires efficiencyPercent != 0.0 && hours != 0.0
    ensures ElectrolyserKilowatts(efficiencyPercent, h2PerTonne, annual, hours) * hours * (efficiencyPercent * 0.01)
            == H2LowerHeatingValue * (h2PerTonne * annual / 365.25)
  {
    var e := efficiencyPercent * 0.01;
    var perKg := H2LowerHeatingValue / e;
    assert perKg * e == H2LowerHeatingValue;
    var rate := h2PerTonne * TonnesPerHour(annual);
    assert rate * 24.0 == h2PerTonne * annual / 365.25;
    var oversize := 24.0 / hours;
    assert oversize * hours == 24.0;
    calc {
      ElectrolyserKilowatts(efficiencyPercent, h2PerTonne, annual, hours) * hours * e;
      (perKg * rate * oversize) * hours * e;
      (perKg * e) * rate * (oversize * hours);
      H2LowerHeatingValue * (rate * 24.0);
    }
  }

  /** A number read from the plant's variables, with a default when absent. */
  function NumVarOr(vars: Vars, key: string, default: real): (r: Result<real>)
    ensures key !in vars.entries ==> r == Ok(default)
    ensures key in vars.entries ==> r == MassFlow.NumVar(vars, key)
  {
    if key in vars.entries then MassFlow.NumVar(vars, key) else Ok(default)
  }

  /** The electrolyser's capex: its price per kW of capacity times the
      capacity for the efficiency and the cheap-electricity hours (24 when
      unset). */
  function ElectrolyserCost(info: PlantInfo, pl: PriceTable): (r: Result<real>)
    requires ElectrolysisDevice in info.devices
    ensures r.Ok? ==>
              var capexLabel := info.devices[ElectrolysisDevice].capexLabel;
              capexLabel.Some? && Lower(capexLabel.value) in pl.entries && pl.entries[Lower(capexLabel.value)].units == PerKiloWattOfCapacity
              && MassFlow.NumVar(info.vars, EfficiencyKey).Ok? && MassFlow.NumVar(info.vars, EfficiencyKey).value != 0.0
              && NumVarOr(info.vars, CheapHoursKey, 24.0).Ok? && NumVarOr(info.vars, CheapHoursKey, 24.0).value != 0.0
              && H2Mass(info).Ok?
              && r.value == ElectrolyserKilowatts(MassFlow.NumVar(info.vars, EfficiencyKey).value, H2Mass(info).value,
                              info.annual, NumVarOr(info.vars, CheapHoursKey, 24.0).value)
                            * pl.entries[Lower(capexLabel.value)].priceUsd
    ensures info.devices[ElectrolysisDevice].capexLabel.Some?
            && Lower(info.devices[ElectrolysisDevice].capexLabel.value) in pl.entries
            && pl.entries[Lower(info.devices[ElectrolysisDevice].capexLabel.value)].units != PerKiloWattOfCapacity
            ==> r == Err("ValueError: " + OnlyUnits(PerKiloWattOfCapacity, "electrolysers"))
  {
    var capexLabel := info.devices[ElectrolysisDevice].capexLabel;
    if capexLabel.None? then Err(NoneHasNoLower)
    else if Lower(capexLabel.value) !in pl.entries then Err(KeyError(Lower(capexLabel.value)))
    else
      var price := pl.entries[Lower(capexLabel.value)];
      if price.units != PerKiloWattOfCapacity then Err("ValueError: " + OnlyUnits(PerKiloWattOfCapacity, "electrolysers"))
      else
        var hours := NumVarOr(info.vars, CheapHoursKey, 24.0);
        var eff :- MassFlow.NumVar(info.vars, EfficiencyKey);
        if eff == 0.0 then Err(DivisionByZero)
        else
          var mass :- H2Mass(info);
          var h :- hours;
          if h == 0.0 then Err(DivisionByZero)
          else Ok(ElectrolyserKilowatts(eff, mass, info.annual, h) * price.priceUsd)
  }

  /** `add_electrolyser_capex`: only the capex changes, and only on success. */
  function ElectrolyserCapex(info: PlantInfo, pl: PriceTable, s: DeviceState): (r: Step)
    requires ElectrolysisDevice in info.devices
    ensures r.state.vars == s.vars
    ensures r.outcome.Pass? <==> ElectrolyserCost(info, pl).Ok?
    ensures r.outcome.Pass? ==> r.state.capex == ElectrolyserCost(info, pl).value
    ensures r.outcome.Fail? ==> r.state == s
  {
    match ElectrolyserCost(info, pl)
    case Ok(c) => Step(Pass, s.(capex := c))
    case Err(msg) => Step(Fail(msg), s)
  }

  // ---------------------------------------------------------------------
  // Devices priced through their capex label

  /** What a device's capex label makes of its capex. */
  datatype PriceRule = Keep | SetTo(capex: real) | Missing(capexLabel: string)

  /** Without a label the capex is kept; an unknown label has no price (the
      loop raises); a price per device is the capex, a price per tonne of
      annual capacity is scaled by the annual capacity, and any other units
      keep the capex. */
  function RuleOf(capexLabel: Option<string>, pl: PriceTable, annual: real): (r: PriceRule)
    ensures r.Missing? <==> capexLabel.Some? && Lower(capexLabel.value) !in pl.entries
    ensures r.Missing? ==> r.capexLabel == capexLabel.value
    ensures capexLabel.Some? && Lower(capexLabel.value) in pl.entries && pl.entries[Lower(capexLabel.value)].units == PerDevice ==>
              r == SetTo(pl.entries[Lower(capexLabel.value)].priceUsd)
    ensures capexLabel.Some? && Lower(capexLabel.value) in pl.entries && pl.entries[Lower(capexLabel.value)].units == PerTonneOfAnnualCapacity ==>
              r == SetTo(pl.entries[Lower(capexLabel.value)].priceUsd * annual)
    ensures (capexLabel.None?
             || (Lower(capexLabel.value) in pl.entries
                 && pl.entries[Lower(capexLabel.value)].units != PerDevice
                 && pl.entries[Lower(capexLabel.value)].units != PerTonneOfAnnualCapacity)) ==> r == Keep
  {
    if capexLabel.None? then Keep
    else if Lower(capexLabel.value) !in pl.entries then Missing(capexLabel.value)
    else
      var price := pl.entries[Lower(capexLabel.value)];
      if price.units == PerDevice then SetTo(price.priceUsd)
      else if price.units == PerTonneOfAnnualCapacity then SetTo(price.priceUsd * annual)
      else Keep
  }

  /** The rule of every device of the plant. */
  function Rules(info: PlantInfo, pl: PriceTable): (r: map<string, PriceRule>)
    ensures r.Keys == info.devices.Keys
  {
    map k | k in info.devices :: RuleOf(info.devices[k].capexLabel, pl, info.annual)
  }

  /** A device's capex once its rule is applied. */
  function Apply(rule: PriceRule, capex: real): real
    requires !rule.Missing?
  {
    if rule.SetTo? then rule.capex else capex
  }

  /** Applying a rule twice gives what applying it once gave. */
  lemma ApplyIdempotent(rule: PriceRule, capex: real)
    requires !rule.Missing?
    ensures Apply(rule, Apply(rule, capex)) == Apply(rule, capex)
  {
  }

  /** Every listed device has a rule and a state. */
  predicate Covered(order: seq<string>, rules: map<string, PriceRule>, states: map<string, DeviceState>) {
    forall k :: k in order ==> k in rules && k in states
  }

  /** The loop over the first `n` devices, in registration order. */
  function LabelPass(order: seq<string>, rules: map<string, PriceRule>, system: string, states: map<string, DeviceState>, n: nat): (r: PlantStep)
    requires Covered(order, rules, states) && n <= |order|
  {
    if n == 0 then PlantStep(Pass, states)
    else
      var prev := LabelPass(order, rules, system, states, n - 1);
      if prev.outcome.Fail? then prev
      else
        var k := order[n - 1];
        var rule := rules[k];
        if rule.Missing? then PlantStep(Fail(UnknownLabel(rule.capexLabel, k, system)), prev.states)
        // the pass keeps every device (LabelPassAt), so this branch is never taken
        else if k !in prev.states then prev
        else PlantStep(Pass, prev.states[k := prev.states[k].(capex := Apply(rule, prev.states[k].capex))])
  }

  /** One more device visited by a pass that has not raised. */
  lemma LabelPassNext(order: seq<string>, rules: map<string, PriceRule>, system: string,
                      states: map<string, DeviceState>, n: nat)
    requires Covered(order, rules, states) && n < |order|
    requires LabelPass(order, rules, system, states, n).outcome.Pass?
    requires order[n] in LabelPass(order, rules, system, states, n).states
    ensures var prev := LabelPass(order, rules, system, states, n);
            var k := order[n];
            LabelPass(order, rules, system, states, n + 1)
            == if rules[k].Missing? then PlantStep(Fail(UnknownLabel(rules[k].capexLabel, k, system)), prev.states)
               else PlantStep(Pass, prev.states[k := prev.states[k].(capex := Apply(rules[k], prev.states[k].capex))])
  {
  }

  /** Once the loop has raised, later devices are not visited. */
  lemma {:induction false} LabelPassFailureSticks(order: seq<string>, rules: map<string, PriceRule>, system: string,
                                                  states: map<string, DeviceState>, n: nat, m: nat)
    requires Covered(order, rules, states) && n <= m <= |order|
    requires LabelPass(order, rules, system, states, n).outcome.Fail?
    ensures LabelPass(order, rules, system, states, m) == LabelPass(order, rules, system, states, n)
    decreases m - n
  {
    if n < m {
      LabelPassFailureSticks(order, rules, system, states, n, m - 1);
    }
  }

  /** The loop raises exactly when a device among those visited has a label
      without a price. */
  lemma {:induction false} LabelPassFailIff(order: seq<string>, rules: map<string, PriceRule>, system: string,
                                            states: map<string, DeviceState>, n: nat)
    requires Covered(order, rules, states) && n <= |order|
    ensures LabelPass(order, rules, system, states, n).outcome.Fail? <==> exists i :: 0 <= i < n && rules[order[i]].Missing?
  {
    if n > 0 {
      LabelPassFailIff(order, rules, system, states, n - 1);
    }
  }

  /** Without a failure, each visited device has its own rule applied to its
      own capex and the others are untouched; device vars never change. */
  lemma {:induction false} LabelPassAt(order: seq<string>, rules: map<string, PriceRule>, system: string,
                                       states: map<string, DeviceState>, n: nat, k: string)
    requires Covered(order, rules, states) && Distinct(order) && n <= |order| && k in states
    requires LabelPass(order, rules, system, states, n).outcome.Pass?
    ensures k in LabelPass(order, rules, system, states, n).states
    ensures LabelPass(order, rules, system, states, n).states[k].vars == states[k].vars
    ensures k in order[..n] ==>
              !rules[k].Missing? && LabelPass(order, rules, system, states, n).states[k].capex == Apply(rules[k], states[k].capex)
    ensures k !in order[..n] ==> LabelPass(order, rules, system, states, n).states[k] == states[k]
  {
    if n > 0 {
      LabelPassAt(order, rules, system, states, n - 1, k);
      assert order[..n] == order[..n - 1] + [order[n - 1]];
      if k == order[n - 1] {
        DistinctLast(order, n);
      }
    }
  }

  /** In a list without repeats, the element at `n - 1` is not among the
      ones before it. */
  lemma DistinctLast(s: seq<string>, n: nat)
    requires Distinct(s) && 0 < n <= |s|
    ensures s[n - 1] !in s[..n - 1]
  {
    forall j | 0 <= j < n - 1
      ensures s[j] != s[n - 1]
    {
    }
    assert forall j :: 0 <= j < n - 1 ==> s[..n - 1][j] == s[j];
  }

  // ---------------------------------------------------------------------
  // add_steel_plant_capex

  /** The storage and electrolyser steps that precede the device loop, each
      only when its device is present. */
  function AfterSizing(info: PlantInfo, pl: PriceTable, states: map<string, DeviceState>): (r: PlantStep)
    requires info.Valid() && states.Keys == info.devices.Keys
    ensures r.states.Keys == states.Keys
  {
    var afterStorage :=
      if StorageDevice in info.devices then
        var st := StorageCapex(info, pl, states[StorageDevice]);
        PlantStep(st.outcome, states[StorageDevice := st.state])
      else PlantStep(Pass, states);
    if afterStorage.outcome.Fail? || ElectrolysisDevice !in info.devices then afterStorage
    else
      var el := ElectrolyserCapex(info, pl, afterStorage.states[ElectrolysisDevice]);
      PlantStep(el.outcome, afterStorage.states[ElectrolysisDevice := el.state])
  }

  /** `add_steel_plant_capex` of plant_costs.py. */
  function SteelPlantCapex(info: PlantInfo, prices: PriceTable, states: map<string, DeviceState>): (r: PlantStep)
    requires info.Valid() && prices.Valid() && states.Keys == info.devices.Keys
    ensures LowerKeys(prices).Err? ==> r == PlantStep(Fail(KeyClash), states)
  {
    match LowerKeys(prices)
    case Err(msg) => PlantStep(Fail(msg), states)
    case Ok(pl) =>
      var sized := AfterSizing(info, pl, states);
      if sized.outcome.Fail? then sized
      else LabelPass(info.order, Rules(info, pl), info.name, sized.states, |info.order|)
  }
}
