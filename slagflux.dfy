/** The slag and flux calculation of `add_eaf_flows_initial` and
    `add_plasma_flows_initial` in steel_mass_energy.py: ten passes that
    size the FeO in the slag, the ore gangue that comes with the iron and the
    CaO and MgO flux that bring the slag to its target basicities. */
module SlagFlux {
  import opened Base
  import opened Dicts
  import Ore
  import OreTables
  import Species

  /** FeO as one Fe and half an O2, as the species factory builds it. */
  const FeOMolarMass: real := Ore.FeMolarMass + Species.O2MolarMass * 0.5

  /** CaO over SiO2 in the slag. */
  const B2Basicity: real := 2.0

  datatype Furnace = Eaf | PlasmaSmelter

  /** CaO plus MgO over SiO2 plus Al2O3 in the slag: the plasma smelter aims
      higher, MgO being harder to saturate there. */
  function B4Basicity(f: Furnace): real {
    match f
    case Eaf => 1.8
    case PlasmaSmelter => 2.1
  }

  /** The masses after a pass, in kg: the slag estimate it produced, the FeO
      in the slag, the gangue oxides of the ore and the two fluxes. */
  datatype SlagState = SlagState(
    slag: real, feo: real, sio2: real, al2o3: real,
    caoGangue: real, mgoGangue: real, caoFlux: real, mgoFlux: real)

  const NegativeMass := "Species::mass: Cannot set mass to a negative value"

  /** The species' mass setter, which refuses a negative mass. */
  function SetMass(x: real): (r: Result<real>)
    ensures r.Ok? <==> x >= 0.0
    ensures r.Ok? ==> r.value == x
  {
    if x < 0.0 then Err(NegativeMass) else Ok(x)
  }

  /** `perc` percent of `oreMass`. */
  function Share(oreMass: real, perc: real): real {
    oreMass * perc * 0.01
  }

  /** `ore_mass * ore_composition_simple[key] * 0.01`, set as a mass. */
  function OxideMass(ore: Ore.Composition, key: string, oreMass: real): (r: Result<real>)
    ensures r.Ok? <==> key in ore.entries && Share(oreMass, ore.entries[key]) >= 0.0
    ensures r.Ok? ==> r.value == Share(oreMass, ore.entries[key])
  {
    if key !in ore.entries then Err("KeyError: '" + key + "'")
    else SetMass(Share(oreMass, ore.entries[key]))
  }

  /** Which MgO flux a pass computes: the one both furnace functions write
      (`AsWritten`), or the one that meets the B4 target (`Intended`; see
      FluxesAsWrittenMissB4). */
  datatype FluxRule = AsWritten | Intended

  /** How far the slag's CaO and MgO lie above the B4 target under `rule`,
      given the CaO the gangue brings: as written, by exactly that CaO. */
  function B4Excess(rule: FluxRule, caoGangue: real): real {
    if rule == AsWritten then caoGangue else 0.0
  }

  /** What a pass leaves: all masses set, CaO at B2 times SiO2, CaO and MgO
      at B4 times SiO2 and Al2O3 plus the rule's excess, and the slag made of
      exactly these. */
  ghost predicate Balanced(s: SlagState, b4: real, rule: FluxRule) {
    s.feo >= 0.0 && s.sio2 >= 0.0 && s.al2o3 >= 0.0 && s.caoGangue >= 0.0
    && s.mgoGangue >= 0.0 && s.caoFlux >= 0.0 && s.mgoFlux >= 0.0
    && s.caoGangue + s.caoFlux == B2Basicity * s.sio2
    && s.caoGangue + s.caoFlux + s.mgoGangue + s.mgoFlux == b4 * (s.al2o3 + s.sio2) + B4Excess(rule, s.caoGangue)
    && s.slag == s.sio2 + s.al2o3 + s.caoGangue + s.caoFlux + s.mgoGangue + s.mgoFlux + s.feo
  }

  /** The ore needed for `feMass` kg of iron plus the iron bound in `feo` kg
      of FeO, at `fePerc` percent iron. */
  function OreMass(feMass: real, feo: real, fePerc: real): real
    requires fePerc != 0.0
  {
    (feMass + feo * Ore.FeMolarMass / FeOMolarMass) / (fePerc * 0.01)
  }

  /** The fluxes as the two furnace functions compute them: the CaO flux
      that brings the slag's CaO to B2 times its SiO2, then an MgO flux that
      subtracts only the CaO flux, not the gangue's CaO, from the B4
      target, so that the slag's CaO and MgO overshoot that target by
      exactly the CaO the gangue brings. */
  function FluxesAsWritten(b4: real, sio2: real, al2o3: real, cao: real, mgo: real): (r: Result<(real, real)>)
    ensures r.Ok? <==> B2Basicity * sio2 - cao >= 0.0 && b4 * (al2o3 + sio2) - (B2Basicity * sio2 - cao) - mgo >= 0.0
    ensures r.Ok? ==> r.value.0 >= 0.0 && r.value.1 >= 0.0
                      && cao + r.value.0 == B2Basicity * sio2
                      && cao + r.value.0 + mgo + r.value.1 == b4 * (al2o3 + sio2) + cao
  {
    var caoFlux :- SetMass(B2Basicity * sio2 - cao);
    var mgoFlux :- SetMass(b4 * (al2o3 + sio2) - caoFlux - mgo);
    Ok((caoFlux, mgoFlux))
  }

  /** For 1 kg of SiO2 and 0.5 kg of CaO in the gangue and the EAF target
      1.8, the slag holds 2.3 kg of CaO and MgO instead of 1.8. */
  lemma FluxesAsWrittenMissB4()
    ensures FluxesAsWritten(1.8, 1.0, 0.0, 0.5, 0.0) == Ok((1.5, 0.3))
    ensures 0.5 + 1.5 + 0.0 + 0.3 != 1.8 * (0.0 + 1.0)
  {
  }

  /** The fluxes that meet both basicities: the MgO flux makes up what the
      slag's CaO (gangue and flux) and the gangue's MgO leave of the B4
      target. */
  function Fluxes(b4: real, sio2: real, al2o3: real, cao: real, mgo: real): (r: Result<(real, real)>)
    ensures r.Ok? <==> B2Basicity * sio2 - cao >= 0.0 && b4 * (al2o3 + sio2) - B2Basicity * sio2 - mgo >= 0.0
    ensures r.Ok? ==> r.value.0 >= 0.0 && r.value.1 >= 0.0
                      && cao + r.value.0 == B2Basicity * sio2
                      && cao + r.value.0 + mgo + r.value.1 == b4 * (al2o3 + sio2)
  {
    var caoFlux :- SetMass(B2Basicity * sio2 - cao);
    var mgoFlux :- SetMass(b4 * (al2o3 + sio2) - (cao + caoFlux) - mgo);
    Ok((caoFlux, mgoFlux))
  }

  /** Where the intended fluxes exist, the written ones do too: the same CaO
      flux, and an MgO flux larger by the gangue's CaO. */
  lemma FluxesAsWrittenExceedIntended(b4: real, sio2: real, al2o3: real, cao: real, mgo: real)
    requires cao >= 0.0 && Fluxes(b4, sio2, al2o3, cao, mgo).Ok?
    ensures FluxesAsWritten(b4, sio2, al2o3, cao, mgo).Ok?
    ensures FluxesAsWritten(b4, sio2, al2o3, cao, mgo).value.0 == Fluxes(b4, sio2, al2o3, cao, mgo).value.0
    ensures FluxesAsWritten(b4, sio2, al2o3, cao, mgo).value.1 == Fluxes(b4, sio2, al2o3, cao, mgo).value.1 + cao
  {
  }

  /** The fluxes under `rule`. */
  function FluxesBy(rule: FluxRule, b4: real, sio2: real, al2o3: real, cao: real, mgo: real): (r: Result<(real, real)>)
    ensures r.Ok? <==> B2Basicity * sio2 - cao >= 0.0 && b4 * (al2o3 + sio2) - B2Basicity * sio2 - mgo + B4Excess(rule, cao) >= 0.0
    ensures r.Ok? ==> r.value.0 >= 0.0 && r.value.1 >= 0.0
                      && cao + r.value.0 == B2Basicity * sio2
                      && cao + r.value.0 + mgo + r.value.1 == b4 * (al2o3 + sio2) + B4Excess(rule, cao)
  {
    match rule
    case AsWritten => FluxesAsWritten(b4, sio2, al2o3, cao, mgo)
    case Intended => Fluxes(b4, sio2, al2o3, cao, mgo)
  }

  /** The gangue oxides in `oreMass` kg of ore: SiO2, Al2O3, CaO, MgO. */
  function GangueOf(ore: Ore.Composition, oreMass: real): (r: Result<(real, real, real, real)>)
    ensures r.Ok? ==> r.value.0 >= 0.0 && r.value.1 >= 0.0 && r.value.2 >= 0.0 && r.value.3 >= 0.0
    ensures r.Ok? ==> "SiO2" in ore.entries && "Al2O3" in ore.entries && "CaO" in ore.entries && "MgO" in ore.entries
    ensures r.Ok? ==> r.value.0 == Share(oreMass, ore.entries["SiO2"])
    ensures r.Ok? ==> r.value.1 == Share(oreMass, ore.entries["Al2O3"])
    ensures r.Ok? ==> r.value.2 == Share(oreMass, ore.entries["CaO"])
    ensures r.Ok? ==> r.value.3 == Share(oreMass, ore.entries["MgO"])
  {
    var sio2 :- OxideMass(ore, "SiO2", oreMass);
    var al2o3 :- OxideMass(ore, "Al2O3", oreMass);
    var cao :- OxideMass(ore, "CaO", oreMass);
    var mgo :- OxideMass(ore, "MgO", oreMass);
    Ok((sio2, al2o3, cao, mgo))
  }

  /** One pass of the loop from the previous slag estimate `slagMass`. */
  function SlagPass(rule: FluxRule, slagMass: real, feMass: real, feoPerc: real, b4: real, ore: Ore.Composition): (r: Result<SlagState>)
    ensures r.Ok? ==> Balanced(r.value, b4, rule)
    ensures r.Ok? ==> r.value.feo == slagMass * feoPerc * 0.01
  {
    var feo :- SetMass(slagMass * feoPerc * 0.01);
    if "Fe" !in ore.entries then Err("KeyError: 'Fe'")
    else if ore.entries["Fe"] * 0.01 == 0.0 then Err(DivisionByZero)
    else
      var g :- GangueOf(ore, OreMass(feMass, feo, ore.entries["Fe"]));
      var fl :- FluxesBy(rule, b4, g.0, g.1, g.2, g.3);
      Ok(SlagState(g.0 + g.1 + g.2 + fl.0 + g.3 + fl.1 + feo, feo, g.0, g.1, g.2, g.3, fl.0, fl.1))
  }

  /** Before the first pass: the slag estimated at 0.4 of the iron, every
      species fresh at zero. */
  function Start(feMass: real): SlagState {
    SlagState(0.4 * feMass, 0.0, 0.0, 0.0, 0.0, 0.0, 0.0, 0.0)
  }

  /** `k` more passes from `s`. */
  function Passes(rule: FluxRule, k: nat, s: SlagState, feMass: real, feoPerc: real, b4: real, ore: Ore.Composition): Result<SlagState>
    decreases k
  {
    if k == 0 then Ok(s)
    else
      var next :- SlagPass(rule, s.slag, feMass, feoPerc, b4, ore);
      Passes(rule, k - 1, next, feMass, feoPerc, b4, ore)
  }

  /** After at least one pass the state is balanced. */
  lemma {:induction false} PassesBalanced(rule: FluxRule, k: nat, s: SlagState, feMass: real, feoPerc: real, b4: real, ore: Ore.Composition)
    requires k >= 1 && Passes(rule, k, s, feMass, feoPerc, b4, ore).Ok?
    ensures Balanced(Passes(rule, k, s, feMass, feoPerc, b4, ore).value, b4, rule)
    decreases k
  {
    var next := SlagPass(rule, s.slag, feMass, feoPerc, b4, ore);
    if k > 1 {
      PassesBalanced(rule, k - 1, next.value, feMass, feoPerc, b4, ore);
    }
  }

  /** The fixed ten passes. */
  method SlagLoop(rule: FluxRule, feMass: real, feoPerc: real, b4: real, ore: Ore.Composition) returns (r: Result<SlagState>)
    ensures r == Passes(rule, 10, Start(feMass), feMass, feoPerc, b4, ore)
  {
    var s := Start(feMass);
    for i := 0 to 10
      invariant Passes(rule, 10 - i, s, feMass, feoPerc, b4, ore) == Passes(rule, 10, Start(feMass), feMass, feoPerc, b4, ore)
    {
      var next := SlagPass(rule, s.slag, feMass, feoPerc, b4, ore);
      if next.Err? {
        return Err(next.msg);
      }
      s := next.value;
    }
    r := Ok(s);
  }

  /** The species a steelmaking furnace takes in and gives off besides the
      steel, in kg: the flux, the slag, and the electrode consumed (EAF
      only). */
  datatype FurnaceFlows = FurnaceFlows(
    fluxCaO: real, fluxMgO: real,
    slagFeO: real, slagSiO2: real, slagAl2O3: real, slagCaO: real, slagMgO: real,
    electrode: Option<real>)

  const ElectrodeConsumption: real := 5.5

  /** The flows from the state the loop ends in: the slag's CaO and MgO are
      the gangue's plus the flux. */
  function FlowsFrom(f: Furnace, s: SlagState): FurnaceFlows {
    FurnaceFlows(s.caoFlux, s.mgoFlux, s.feo, s.sio2, s.al2o3,
                 s.caoGangue + s.caoFlux, s.mgoGangue + s.mgoFlux,
                 if f == Eaf then Some(ElectrodeConsumption) else None)
  }

  function SlagTotal(fl: FurnaceFlows): real {
    fl.slagFeO + fl.slagSiO2 + fl.slagAl2O3 + fl.slagCaO + fl.slagMgO
  }

  /** `add_eaf_flows_initial` / `add_plasma_flows_initial`, from the iron in
      the steel and the simple ore composition, with the fluxes as written. */
  method AddFlowsInitial(f: Furnace, feMass: real, feoPerc: real, ore: Ore.Composition) returns (r: Result<FurnaceFlows>)
    ensures Passes(AsWritten, 10, Start(feMass), feMass, feoPerc, B4Basicity(f), ore).Err? ==> r.Err?
    ensures Passes(AsWritten, 10, Start(feMass), feMass, feoPerc, B4Basicity(f), ore).Ok? ==>
              r == Ok(FlowsFrom(f, Passes(AsWritten, 10, Start(feMass), feMass, feoPerc, B4Basicity(f), ore).value))
  {
    var s := SlagLoop(AsWritten, feMass, feoPerc, B4Basicity(f), ore);
    if s.Err? {
      return Err(s.msg);
    }
    r := Ok(FlowsFrom(f, s.value));
  }

  /** The slag meets the B2 target, and its CaO and MgO the B4 target plus
      the rule's excess over the gangue's CaO (the slag's CaO less the flux);
      its parts add up to `slag`; the fluxes are not negative, and only the
      EAF consumes electrode. */
  ghost predicate MeetsTargets(f: Furnace, fl: FurnaceFlows, slag: real, rule: FluxRule) {
    fl.slagCaO == B2Basicity * fl.slagSiO2
    && fl.slagCaO + fl.slagMgO == B4Basicity(f) * (fl.slagSiO2 + fl.slagAl2O3) + B4Excess(rule, fl.slagCaO - fl.fluxCaO)
    && SlagTotal(fl) == slag
    && fl.fluxCaO >= 0.0 && fl.fluxMgO >= 0.0
    && (fl.electrode.Some? <==> f == Eaf)
  }

  lemma BalancedMeetsTargets(f: Furnace, s: SlagState, rule: FluxRule)
    requires Balanced(s, B4Basicity(f), rule)
    ensures MeetsTargets(f, FlowsFrom(f, s), s.slag, rule)
  {
  }

  /** The flows the furnace functions produce meet the B2 target and
      overshoot the B4 target by the gangue's CaO; with the intended MgO flux
      they would meet it exactly. */
  lemma FlowsMeetTargets(rule: FluxRule, f: Furnace, feMass: real, feoPerc: real, ore: Ore.Composition)
    requires Passes(rule, 10, Start(feMass), feMass, feoPerc, B4Basicity(f), ore).Ok?
    ensures MeetsTargets(f, FlowsFrom(f, Passes(rule, 10, Start(feMass), feMass, feoPerc, B4Basicity(f), ore).value),
                         Passes(rule, 10, Start(feMass), feMass, feoPerc, B4Basicity(f), ore).value.slag, rule)
  {
    var s := Passes(rule, 10, Start(feMass), feMass, feoPerc, B4Basicity(f), ore).value;
    PassesBalanced(rule, 10, Start(feMass), feMass, feoPerc, B4Basicity(f), ore);
    BalancedMeetsTargets(f, s, rule);
  }

  /** An ore from which the fluxes under `rule` come out non-negative
      whatever the ore mass: positive iron, no negative oxide, enough SiO2
      for the CaO it brings, and enough SiO2 and Al2O3 for the MgO flux. */
  predicate Fluxable(ore: Ore.Composition, b4: real, rule: FluxRule) {
    "Fe" in ore.entries && "SiO2" in ore.entries && "Al2O3" in ore.entries
    && "CaO" in ore.entries && "MgO" in ore.entries
    && ore.entries["Fe"] > 0.0 && ore.entries["SiO2"] >= 0.0 && ore.entries["Al2O3"] >= 0.0
    && ore.entries["CaO"] >= 0.0 && ore.entries["MgO"] >= 0.0
    && B2Basicity * ore.entries["SiO2"] - ore.entries["CaO"] >= 0.0
    && b4 * (ore.entries["Al2O3"] + ore.entries["SiO2"]) - B2Basicity * ore.entries["SiO2"] - ore.entries["MgO"]
       + B4Excess(rule, ore.entries["CaO"]) >= 0.0
  }

  /** The fluxes of `oreMass` kg of ore are that mass's share of the fluxes
      per percent. */
  lemma FluxesScale(rule: FluxRule, m: real, si: real, al: real, ca: real, mg: real, b4: real)
    requires m >= 0.0 && si >= 0.0 && al >= 0.0 && ca >= 0.0 && mg >= 0.0
    requires B2Basicity * si - ca >= 0.0 && b4 * (al + si) - B2Basicity * si - mg + B4Excess(rule, ca) >= 0.0
    ensures FluxesBy(rule, b4, Share(m, si), Share(m, al), Share(m, ca), Share(m, mg)).Ok?
  {
    var k := m * 0.01;
    var caoFlux := B2Basicity * si - ca;
    var mgoFlux := b4 * (al + si) - B2Basicity * si - mg + B4Excess(rule, ca);
    MulNonNegative(k, caoFlux);
    MulNonNegative(k, mgoFlux);
    assert B2Basicity * Share(m, si) - Share(m, ca) >= 0.0 by {
      assert B2Basicity * Share(m, si) - Share(m, ca) == k * caoFlux;
    }
    assert b4 * (Share(m, al) + Share(m, si)) - B2Basicity * Share(m, si) - Share(m, mg) + B4Excess(rule, Share(m, ca)) >= 0.0 by {
      assert B4Excess(rule, Share(m, ca)) == k * B4Excess(rule, ca);
      assert b4 * (Share(m, al) + Share(m, si)) == k * (b4 * (al + si));
      assert b4 * (Share(m, al) + Share(m, si)) - B2Basicity * Share(m, si) - Share(m, mg) + B4Excess(rule, Share(m, ca))
          == k * mgoFlux;
    }
  }

  /** The gangue of a non-negative ore mass, over an ore without negative oxides. */
  lemma GangueScaled(ore: Ore.Composition, m: real)
    requires "SiO2" in ore.entries && "Al2O3" in ore.entries && "CaO" in ore.entries && "MgO" in ore.entries
    requires ore.entries["SiO2"] >= 0.0 && ore.entries["Al2O3"] >= 0.0
    requires ore.entries["CaO"] >= 0.0 && ore.entries["MgO"] >= 0.0
    requires m >= 0.0
    ensures GangueOf(ore, m) == Ok((Share(m, ore.entries["SiO2"]), Share(m, ore.entries["Al2O3"]),
                                    Share(m, ore.entries["CaO"]), Share(m, ore.entries["MgO"])))
  {
    MulNonNegative(m * 0.01, ore.entries["SiO2"]);
    MulNonNegative(m * 0.01, ore.entries["Al2O3"]);
    MulNonNegative(m * 0.01, ore.entries["CaO"]);
    MulNonNegative(m * 0.01, ore.entries["MgO"]);
  }

  /** From a non-negative slag estimate, a pass over a fluxable ore succeeds
      and leaves a non-negative estimate. */
  lemma PassSucceeds(rule: FluxRule, slagMass: real, feMass: real, feoPerc: real, b4: real, ore: Ore.Composition)
    requires Fluxable(ore, b4, rule) && slagMass >= 0.0 && feMass >= 0.0 && feoPerc >= 0.0
    ensures SlagPass(rule, slagMass, feMass, feoPerc, b4, ore).Ok?
    ensures SlagPass(rule, slagMass, feMass, feoPerc, b4, ore).value.slag >= 0.0
  {
    var feo := slagMass * feoPerc * 0.01;
    assert feo >= 0.0 by { MulNonNegative(slagMass, feoPerc * 0.01); }
    var m := OreMass(feMass, feo, ore.entries["Fe"]);
    assert m >= 0.0 by { MulNonNegative(feo, Ore.FeMolarMass / FeOMolarMass); }
    var si, al, ca, mg := ore.entries["SiO2"], ore.entries["Al2O3"], ore.entries["CaO"], ore.entries["MgO"];
    GangueScaled(ore, m);
    FluxesScale(rule, m, si, al, ca, mg, b4);
  }

  /** Over a fluxable ore every number of passes succeeds. */
  lemma {:induction false} PassesSucceed(rule: FluxRule, k: nat, s: SlagState, feMass: real, feoPerc: real, b4: real, ore: Ore.Composition)
    requires Fluxable(ore, b4, rule) && s.slag >= 0.0 && feMass >= 0.0 && feoPerc >= 0.0
    ensures Passes(rule, k, s, feMass, feoPerc, b4, ore).Ok?
    decreases k
  {
    if k > 0 {
      PassSucceeds(rule, s.slag, feMass, feoPerc, b4, ore);
      PassesSucceed(rule, k - 1, SlagPass(rule, s.slag, feMass, feoPerc, b4, ore).value, feMass, feoPerc, b4, ore);
    }
  }

  /** The simple ore steel_mass_energy.py writes is fluxable in both
      furnaces under either rule, so the flows of either come out for any
      iron mass and FeO target that are not negative. */
  lemma FixedOreFluxable(rule: FluxRule, feMass: real, feoPerc: real, f: Furnace)
    requires feMass >= 0.0 && feoPerc >= 0.0
    ensures OreTables.AddOreCompositionFixed().Ok?
    ensures Passes(rule, 10, Start(feMass), feMass, feoPerc, B4Basicity(f), OreTables.AddOreCompositionFixed().value.1).Ok?
  {
    OreTables.FixedSimpleOre();
    OreTables.FixedSimpleStored();
    var ore := OreTables.WithGangueUnchecked(OreTables.DefaultSimpleOre()).value;
    SimpleOreFluxable(ore, B4Basicity(f), rule);
    PassesSucceed(rule, 10, Start(feMass), feMass, feoPerc, B4Basicity(f), ore);
  }

  /** An ore with the percentages of that simple ore is fluxable at either
      furnace's B4 target. */
  lemma SimpleOreFluxable(ore: Ore.Composition, b4: real, rule: FluxRule)
    requires "Fe" in ore.entries && ore.entries["Fe"] > 0.0
    requires "SiO2" in ore.entries && ore.entries["SiO2"] == 3.91375
    requires "Al2O3" in ore.entries && ore.entries["Al2O3"] == 2.53675
    requires "CaO" in ore.entries && ore.entries["CaO"] == 0.13175
    requires "MgO" in ore.entries && ore.entries["MgO"] == 0.18475
    requires b4 >= 1.8
    ensures Fluxable(ore, b4, rule)
  {
    assert b4 * (2.53675 + 3.91375) >= 1.8 * (2.53675 + 3.91375);
  }
}
