/** The device-level mass balances of mass_energy_flow.py and its two older
    copies, on the numbers they compute: the 1000 kg steel split, the iron
    oxides at a reduction degree, hydrogen storage, electrolysis and the slag
    composition. Flow objects and species factories are replaced by the
    masses and moles they carry. */
module MassFlow {
  import opened Base
  import opened Dicts
  import Text
  import Ore

  type Vars = Dict<string, Value>

  /** `system.system_vars[key]` used as a number: a missing key raises
      KeyError, a bool counts as 0 or 1, anything else raises TypeError. */
  function NumVar(vars: Vars, key: string): (r: Result<real>)
    ensures r.Ok? <==> key in vars.entries && (vars.entries[key].NumV? || vars.entries[key].BoolV?)
    ensures r.Ok? && vars.entries[key].NumV? ==> r.value == vars.entries[key].x
    ensures key !in vars.entries ==> r == Err(KeyError(key))
  {
    if key !in vars.entries then Err(KeyError(key))
    else match vars.entries[key]
      case NumV(x) => Ok(x)
      case BoolV(b) => Ok(if b then 1.0 else 0.0)
      case _ => Err("TypeError: unsupported operand type(s)")
  }

  const NegativeMass := "Species::mass: Cannot set mass to a negative value"
  const NegativeMols := "Species::mols: Cannot set mols to a negative value"

  // ---------------------------------------------------------------------
  // add_steel_out

  /** The masses of the steel leaving the steelmaking device, in kg. */
  datatype Steel = Steel(fe: real, c: real, scrap: real)

  const SteelTargetMass: real := 1000.0

  /** One tonne of steel: the scrap share first, then the carbon share of the
      rest, and iron for the remainder. */
  function SteelSplit(carbonPerc: real, scrapPerc: real): (s: Steel)
    ensures s.fe + s.c + s.scrap == SteelTargetMass
    ensures s.scrap == 10.0 * scrapPerc
    ensures s.c == carbonPerc * 0.01 * (s.fe + s.c)
  {
    var rest := SteelTargetMass * (1.0 - scrapPerc * 0.01);
    assert rest * (1.0 - carbonPerc * 0.01) + rest * carbonPerc * 0.01 == rest;
    Steel(rest * (1.0 - carbonPerc * 0.01), rest * carbonPerc * 0.01, SteelTargetMass * scrapPerc * 0.01)
  }

  /** `add_steel_out` of mass_energy_flow.py, whose species are plain
      attributes: the percentages come from the system variables. */
  function AddSteelOut(vars: Vars): (r: Result<Steel>)
    ensures r.Ok? <==> NumVar(vars, "steel carbon perc").Ok? && NumVar(vars, "scrap perc").Ok?
    ensures r.Ok? ==> r.value.fe + r.value.c + r.value.scrap == SteelTargetMass
    ensures r.Ok? && vars.entries["scrap perc"].NumV? ==> r.value.scrap == 10.0 * vars.entries["scrap perc"].x
  {
    var carbon :- NumVar(vars, "steel carbon perc");
    var scrap :- NumVar(vars, "scrap perc");
    Ok(SteelSplit(carbon, scrap))
  }

  /** `add_steel_out` of the low-emission copy: the same split, but the
      species' mass setter refuses a negative mass (Fe, then C, then scrap). */
  function AddSteelOutChecked(vars: Vars): (r: Result<Steel>)
    ensures r.Ok? ==> r == AddSteelOut(vars)
    ensures r.Ok? ==> r.value.fe >= 0.0 && r.value.c >= 0.0 && r.value.scrap >= 0.0
    ensures AddSteelOut(vars).Ok? && r.Err? ==>
              AddSteelOut(vars).value.fe < 0.0 || AddSteelOut(vars).value.c < 0.0 || AddSteelOut(vars).value.scrap < 0.0
  {
    var s :- AddSteelOut(vars);
    if s.fe < 0.0 || s.c < 0.0 || s.scrap < 0.0 then Err(NegativeMass) else Ok(s)
  }

  /** With both percentages between 0 and 100 the checked split succeeds. */
  lemma SteelOutAccepted(vars: Vars, carbonPerc: real, scrapPerc: real)
    requires "steel carbon perc" in vars.entries && vars.entries["steel carbon perc"] == NumV(carbonPerc)
    requires "scrap perc" in vars.entries && vars.entries["scrap perc"] == NumV(scrapPerc)
    requires 0.0 <= carbonPerc <= 100.0 && 0.0 <= scrapPerc <= 100.0
    ensures AddSteelOutChecked(vars) == Ok(SteelSplit(carbonPerc, scrapPerc))
  {
    var rest := SteelTargetMass * (1.0 - scrapPerc * 0.01);
    assert rest >= 0.0;
    MulNonNegative(rest, 1.0 - carbonPerc * 0.01);
    MulNonNegative(rest, carbonPerc * 0.01);
  }

  /** `add_steel_out` of steel_mass_energy.py: 1.5 percent carbon and no
      scrap. */
  function SteelOutFixed(): (s: Steel)
    ensures s == Steel(985.0, 15.0, 0.0)
  {
    SteelSplit(1.5, 0.0)
  }

  // ---------------------------------------------------------------------
  // iron_species_from_reduction_degree

  /** Moles of Fe, FeO, Fe3O4 and Fe2O3 in the reduced ore. */
  datatype IronSpecies = IronSpecies(fe: real, feo: real, fe3o4: real, fe2o3: real)

  function IronAtoms(s: IronSpecies): real {
    s.fe + s.feo + 3.0 * s.fe3o4 + 2.0 * s.fe2o3
  }

  function OxygenAtoms(s: IronSpecies): real {
    s.feo + 4.0 * s.fe3o4 + 3.0 * s.fe2o3
  }

  /** The oxygen still bound to iron at reduction degree `r`: three atoms per
      hematite at the start, less the fraction removed. */
  function OxygenLeft(nHem: real, r: real): real {
    3.0 * nHem * (1.0 - r)
  }

  /** The three regimes, each as a function of the oxygen left `o` and the
      iron `nFe`: hematite turns into magnetite, then magnetite into
      wustite, then wustite into metallic iron. */
  function WustiteAndIron(o: real, nFe: real): IronSpecies {
    IronSpecies(nFe - o, o, 0.0, 0.0)
  }

  function MagnetiteAndWustite(o: real, nFe: real): IronSpecies {
    IronSpecies(0.0, o - 4.0 * (o - nFe), o - nFe, 0.0)
  }

  function HematiteAndMagnetite(o: real, nFe: real): IronSpecies {
    IronSpecies(0.0, 0.0, (o - 3.0 * (3.0 * o - 4.0 * nFe)) / 4.0, 3.0 * o - 4.0 * nFe)
  }

  /** The iron oxides at reduction degree `r` from `nHem` moles of hematite
      and `nFe` moles of iron. Inside [0, 1] every regime keeps the iron and
      leaves exactly the oxygen not yet removed; outside it nothing is set. */
  function IronSpeciesAt(r: real, nHem: real, nFe: real): (s: IronSpecies)
    ensures 0.0 <= r <= 1.0 ==> IronAtoms(s) == nFe && OxygenAtoms(s) == OxygenLeft(nHem, r)
    ensures 1.0 / 3.0 <= r <= 1.0 ==>
              s.fe3o4 == 0.0 && s.fe2o3 == 0.0 && s.feo == 3.0 * nHem * (1.0 - r) && s.fe + s.feo == nFe
    ensures 1.0 / 9.0 <= r < 1.0 / 3.0 ==> s.fe == 0.0 && s.fe2o3 == 0.0
    ensures 0.0 <= r < 1.0 / 9.0 ==> s.fe == 0.0 && s.feo == 0.0
    ensures !(0.0 <= r <= 1.0) ==> s == IronSpecies(0.0, 0.0, 0.0, 0.0)
  {
    var o := OxygenLeft(nHem, r);
    if 1.0 / 3.0 <= r <= 1.0 then WustiteAndIron(o, nFe)
    else if 1.0 / 9.0 <= r < 1.0 / 3.0 then MagnetiteAndWustite(o, nFe)
    else if 0.0 <= r < 1.0 / 9.0 then HematiteAndMagnetite(o, nFe)
    else IronSpecies(0.0, 0.0, 0.0, 0.0)
  }

  /** For an ore whose iron is all in hematite (two Fe per Fe2O3) the regimes
      meet at the boundaries: the amounts do not jump at 1/3 or 1/9. */
  lemma RegimesMeet(nHem: real)
    ensures MagnetiteAndWustite(OxygenLeft(nHem, 1.0 / 3.0), 2.0 * nHem)
            == WustiteAndIron(OxygenLeft(nHem, 1.0 / 3.0), 2.0 * nHem)
    ensures HematiteAndMagnetite(OxygenLeft(nHem, 1.0 / 9.0), 2.0 * nHem)
            == MagnetiteAndWustite(OxygenLeft(nHem, 1.0 / 9.0), 2.0 * nHem)
  {
    assert OxygenLeft(nHem, 1.0 / 3.0) == 2.0 * nHem;
    assert OxygenLeft(nHem, 1.0 / 9.0) == 8.0 * nHem / 3.0;
  }

  /** For such an ore no amount is negative anywhere in [0, 1]. */
  lemma IronSpeciesNonNegative(r: real, nHem: real)
    requires 0.0 <= r <= 1.0 && nHem >= 0.0
    ensures var s := IronSpeciesAt(r, nHem, 2.0 * nHem);
            s.fe >= 0.0 && s.feo >= 0.0 && s.fe3o4 >= 0.0 && s.fe2o3 >= 0.0
  {
    var s := IronSpeciesAt(r, nHem, 2.0 * nHem);
    MulNonNegative(nHem, 1.0 - r);
    if 1.0 / 3.0 <= r {
      assert s.fe == nHem * (3.0 * r - 1.0);
      MulNonNegative(nHem, 3.0 * r - 1.0);
    } else if 1.0 / 9.0 <= r {
      assert s.fe3o4 == nHem * (1.0 - 3.0 * r);
      assert s.feo == nHem * (9.0 * r - 1.0);
      MulNonNegative(nHem, 1.0 - 3.0 * r);
      MulNonNegative(nHem, 9.0 * r - 1.0);
    } else {
      assert s.fe2o3 == nHem * (1.0 - 9.0 * r);
      assert s.fe3o4 == 6.0 * nHem * r;
      MulNonNegative(nHem, 1.0 - 9.0 * r);
      MulNonNegative(nHem, r);
    }
  }

  /** Moles of hematite and of iron in `oreMass` kg of ore with the given
      weight percentages. */
  function HematiteMoles(oreMass: real, hematitePerc: real): real {
    oreMass * hematitePerc * 0.01 / Ore.Fe2O3MolarMass
  }

  function IronMoles(oreMass: real, fePerc: real): real {
    oreMass * fePerc * 0.01 / Ore.FeMolarMass
  }

  /** `iron_species_from_reduction_degree` of mass_energy_flow.py: the
      composition must name its hematite and its iron. */
  function IronSpeciesFromReductionDegree(r: real, oreMass: real, comp: Ore.Composition): (s: Result<IronSpecies>)
    ensures s.Ok? <==> "hematite" in comp.entries && "Fe" in comp.entries
    ensures s.Ok? && 0.0 <= r <= 1.0 ==> IronAtoms(s.value) == IronMoles(oreMass, comp.entries["Fe"])
  {
    if "hematite" !in comp.entries then Err("KeyError: 'hematite'")
    else if "Fe" !in comp.entries then Err("KeyError: 'Fe'")
    else Ok(IronSpeciesAt(r, HematiteMoles(oreMass, comp.entries["hematite"]), IronMoles(oreMass, comp.entries["Fe"])))
  }

  /** An ore whose Fe is the iron of its hematite (what hematite_normalise
      writes) has two moles of iron per mole of hematite. */
  lemma NormalisedOreHasTwoIronPerHematite(oreMass: real, hematitePerc: real)
    ensures IronMoles(oreMass, Ore.IronIn(hematitePerc, Ore.FromMolarMasses)) == 2.0 * HematiteMoles(oreMass, hematitePerc)
  {
    Ore.RatiosAgree();
    var k := oreMass * hematitePerc * 0.01;
    assert Ore.IronIn(hematitePerc, Ore.FromMolarMasses) == hematitePerc * (Ore.FeMolarMass / (0.5 * Ore.Fe2O3MolarMass));
    assert IronMoles(oreMass, Ore.IronIn(hematitePerc, Ore.FromMolarMasses))
        == k * (Ore.FeMolarMass / (0.5 * Ore.Fe2O3MolarMass)) / Ore.FeMolarMass;
  }

  /** The low-emission copy sets `mols`, whose setter refuses a negative
      value; the amounts are set in the order the regime writes them. */
  function IronSpeciesChecked(r: real, nHem: real, nFe: real): (s: Result<IronSpecies>)
    ensures s.Ok? <==> var t := IronSpeciesAt(r, nHem, nFe);
                       t.fe >= 0.0 && t.feo >= 0.0 && t.fe3o4 >= 0.0 && t.fe2o3 >= 0.0
    ensures s.Ok? ==> s.value == IronSpeciesAt(r, nHem, nFe)
  {
    var t := IronSpeciesAt(r, nHem, nFe);
    if t.fe < 0.0 || t.feo < 0.0 || t.fe3o4 < 0.0 || t.fe2o3 < 0.0 then Err(NegativeMols) else Ok(t)
  }

  /** `iron_species_from_reduction_degree` of the low-emission copy. */
  function IronSpeciesFromReductionDegreeChecked(r: real, oreMass: real, comp: Ore.Composition): (s: Result<IronSpecies>)
    ensures s.Ok? ==> s == IronSpeciesFromReductionDegree(r, oreMass, comp)
  {
    if "hematite" !in comp.entries then Err("KeyError: 'hematite'")
    else if "Fe" !in comp.entries then Err("KeyError: 'Fe'")
    else IronSpeciesChecked(r, HematiteMoles(oreMass, comp.entries["hematite"]), IronMoles(oreMass, comp.entries["Fe"]))
  }

  /** For a normalised ore and a reduction degree in [0, 1] the low-emission
      copy never meets a negative amount. */
  lemma NormalisedOreReduces(r: real, oreMass: real, comp: Ore.Composition)
    requires 0.0 <= r <= 1.0 && oreMass >= 0.0
    requires "hematite" in comp.entries && comp.entries["hematite"] >= 0.0
    requires "Fe" in comp.entries && comp.entries["Fe"] == Ore.IronIn(comp.entries["hematite"], Ore.FromMolarMasses)
    ensures IronSpeciesFromReductionDegreeChecked(r, oreMass, comp).Ok?
  {
    var h := comp.entries["hematite"];
    NormalisedOreHasTwoIronPerHematite(oreMass, h);
    MulNonNegative(oreMass, h);
    IronSpeciesNonNegative(r, HematiteMoles(oreMass, h));
  }

  // ---------------------------------------------------------------------
  // add_h2_storage_flows

  datatype StorageMethod = SaltCaverns | CompressedGasVessels

  /** The share of the hydrogen's higher heating value spent on compression. */
  function CompressionShare(m: StorageMethod): real {
    match m
    case SaltCaverns => 0.06
    case CompressedGasVessels => 0.07
  }

  const H2HigherHeatingValue: real := 142000000.0

  /** The storage method, matched after lower-casing. */
  function StorageMethodOf(v: Value): (r: Result<StorageMethod>)
    ensures r.Ok? <==> v.StrV? && Text.Lower(v.s) in {"salt caverns", "compressed gas vessels"}
    ensures r.Ok? ==> (r.value == SaltCaverns <==> Text.Lower(v.s) == "salt caverns")
  {
    match v
    case StrV(s) =>
      if Text.Lower(s) == "salt caverns" then Ok(SaltCaverns)
      else if Text.Lower(s) == "compressed gas vessels" then Ok(CompressedGasVessels)
      else Err("ValueError: Error: Unknown h2 storage device")
    case _ => Err("AttributeError: object has no attribute 'lower'")
  }

  /** The flows of the 'h2 storage' device, in kg and J. */
  datatype Storage =
    | NoStorage
    | Stored(h2Out: real, storedMass: real, compressorEnergy: real, cheapElectricity: real, losses: real)

  /** `add_h2_storage_flows` (the same in mass_energy_flow.py and the
      low-emission copy): the hydrogen passes through, the hours of operation
      out of 24 are stored, and compressing them takes a share of their
      heating value, drawn as cheap electricity and lost again. */
  function H2StorageFlows(hasStorage: bool, inflowMass: real, vars: Vars): (r: Result<Storage>)
    ensures !hasStorage ==> r == Ok(NoStorage)
    ensures hasStorage && r.Ok? ==>
              r.value.Stored? && r.value.h2Out == inflowMass
              && r.value.cheapElectricity == r.value.compressorEnergy == r.value.losses
              && "h2 storage method" in vars.entries && StorageMethodOf(vars.entries["h2 storage method"]).Ok?
              && r.value.compressorEnergy
                 == CompressionShare(StorageMethodOf(vars.entries["h2 storage method"]).value)
                    * r.value.storedMass * H2HigherHeatingValue
    ensures hasStorage && r.Ok? && NumVar(vars, "h2 storage hours of operation").Ok?
            && vars.entries["h2 storage hours of operation"].NumV? ==>
              r.value.storedMass * 24.0 == vars.entries["h2 storage hours of operation"].x * inflowMass
    ensures hasStorage && NumVar(vars, "h2 storage hours of operation").Ok? && "h2 storage method" in vars.entries ==>
              (r.Ok? <==> StorageMethodOf(vars.entries["h2 storage method"]).Ok?)
    ensures hasStorage && "h2 storage hours of operation" !in vars.entries ==>
              r == Err(KeyError("h2 storage hours of operation"))
    ensures hasStorage && NumVar(vars, "h2 storage hours of operation").Err? ==>
              r == Err(NumVar(vars, "h2 storage hours of operation").msg)
    ensures hasStorage && NumVar(vars, "h2 storage hours of operation").Ok? && "h2 storage method" !in vars.entries ==>
              r == Err(KeyError("h2 storage method"))
    ensures hasStorage && NumVar(vars, "h2 storage hours of operation").Ok? && "h2 storage method" in vars.entries
            && StorageMethodOf(vars.entries["h2 storage method"]).Err? ==>
              r == Err(StorageMethodOf(vars.entries["h2 storage method"]).msg)
  {
    if !hasStorage then Ok(NoStorage)
    else
      var hours :- NumVar(vars, "h2 storage hours of operation");
      var stored := hours / 24.0 * inflowMass;
      if "h2 storage method" !in vars.entries then Err(KeyError("h2 storage method"))
      else
        var m :- StorageMethodOf(vars.entries["h2 storage method"]);
        var energy := CompressionShare(m) * stored * H2HigherHeatingValue;
        Ok(Stored(inflowMass, stored, energy, energy, energy))
  }

  // ---------------------------------------------------------------------
  // add_electrolysis_flows (low-emission copy)

  /** The hydrogen each consuming device takes: moles in, less moles out. */
  function Consumed(pairs: seq<(real, real)>): real {
    if |pairs| == 0 then 0.0
    else Consumed(pairs[..|pairs| - 1]) + (pairs[|pairs| - 1].0 - pairs[|pairs| - 1].1)
  }

  predicate AllConsume(pairs: seq<(real, real)>) {
    forall i :: 0 <= i < |pairs| ==> pairs[i].0 - pairs[i].1 >= 0.0
  }

  /** A sum of non-negative terms is non-negative. */
  lemma {:induction false} ConsumedNonNegative(pairs: seq<(real, real)>)
    requires AllConsume(pairs)
    ensures Consumed(pairs) >= 0.0
  {
    if |pairs| > 0 {
      ConsumedNonNegative(pairs[..|pairs| - 1]);
    }
  }

  /** The loop over the consuming devices, asserting each takes hydrogen
      rather than giving it back. */
  method H2Consumed(pairs: seq<(real, real)>) returns (r: Result<real>)
    ensures AllConsume(pairs) ==> r == Ok(Consumed(pairs))
    ensures !AllConsume(pairs) ==> r.Err?
  {
    var h2 := 0.0;
    var i := 0;
    while i < |pairs|
      invariant 0 <= i <= |pairs|
      invariant AllConsume(pairs[..i]) && h2 == Consumed(pairs[..i])
    {
      var consumed := pairs[i].0 - pairs[i].1;
      if consumed < 0.0 {
        return Err("AssertionError");
      }
      assert pairs[..i + 1][..i] == pairs[..i];
      h2 := h2 + consumed;
      i := i + 1;
    }
    assert pairs[..i] == pairs;
    r := Ok(h2);
  }

  const H2MolarMass: real := 0.00201588
  const H2LowerHeatingValue: real := 120000000.0

  /** The electrolyser's flows for `h2Mols` moles of hydrogen. */
  datatype Electrolysis = Electrolysis(
    h2Mols: real, o2Mols: real, h2oMols: real, h2Mass: real,
    source: string, oversizeFactor: real,
    electricalEnergy: real, losses: real, chemicalEnergy: real)

  /** The electrolyser's size relative to running all day on base
      electricity: with storage, 24 hours over the cheap hours, asserted to
      be at least 1. */
  function Oversize(hasStorage: bool, cheapHours: real): (r: Result<real>)
    ensures r.Ok? ==> r.value >= 1.0
    ensures r.Ok? && hasStorage ==> r.value * cheapHours == 24.0
    ensures !hasStorage ==> r == Ok(1.0)
    ensures hasStorage && 0.0 < cheapHours <= 24.0 ==> r.Ok?
  {
    if !hasStorage then Ok(1.0)
    else if cheapHours == 0.0 then Err(DivisionByZero)
    else
      var f := 24.0 / cheapHours;
      if f < 1.0 then Err("AssertionError: Error: Oversize factor should be >= 1.0") else Ok(f)
  }

  /** The electricity, losses and chemical energy for `mass` kg of hydrogen
      at the given efficiency: what is not lost ends up as the hydrogen's
      lower heating value. */
  datatype Energies = Energies(electrical: real, losses: real, chemical: real)

  function EnergiesFor(mass: real, efficiencyPerc: real): (r: Result<Energies>)
    ensures r.Ok? <==> efficiencyPerc != 0.0
    ensures r.Ok? ==> r.value.chemical == mass * H2LowerHeatingValue
                      && r.value.electrical == r.value.chemical + r.value.losses
                      && r.value.electrical * efficiencyPerc * 0.01 == r.value.chemical
  {
    var efficiency := efficiencyPerc * 0.01;
    if efficiency == 0.0 then Err(DivisionByZero)
    else
      var chemical := mass * H2LowerHeatingValue;
      var e := chemical / efficiency;
      assert e * efficiency == chemical;
      Ok(Energies(e, e * (1.0 - efficiency), chemical))
  }

  /** 2 H2O -> 2 H2 + O2, with the electricity the efficiency asks for; with
      storage the electrolyser runs on cheap electricity only.
      `electricalEnergy` is the electricity of the electrolysis at 25 C
      alone: the source then adds the electrolyser's thermal energy
      balance (the heat to bring the species to their temperatures) to the
      same electricity input, which needs the species' enthalpies of the
      whole device and is not part of this member. */
  function ElectrolysisFlows(h2Mols: real, hasStorage: bool, cheapHours: real, efficiencyPerc: real): (r: Result<Electrolysis>)
    ensures r.Ok? ==> r.value.h2oMols == r.value.h2Mols == h2Mols && 2.0 * r.value.o2Mols == r.value.h2Mols
    ensures r.Ok? ==> 20.0 < r.value.h2Mass < 60.0 && r.value.h2Mass == h2Mols * H2MolarMass
    ensures r.Ok? ==> r.value.electricalEnergy == r.value.chemicalEnergy + r.value.losses
    ensures r.Ok? ==> Oversize(hasStorage, cheapHours) == Ok(r.value.oversizeFactor)
    ensures r.Ok? ==> r.value.source == if hasStorage then "cheap electricity" else "base electricity"
    ensures 20.0 < h2Mols * H2MolarMass < 60.0 && efficiencyPerc != 0.0 && Oversize(hasStorage, cheapHours).Ok?
            ==> r.Ok?
  {
    var mass := h2Mols * H2MolarMass;
    if !(20.0 < mass < 60.0) then Err("AssertionError: Expect around 55kg of H2, but can be lower if scrap is used.")
    else
      var oversize :- Oversize(hasStorage, cheapHours);
      var e :- EnergiesFor(mass, efficiencyPerc);
      Ok(Electrolysis(h2Mols, h2Mols * 0.5, h2Mols, mass,
                      if hasStorage then "cheap electricity" else "base electricity", oversize,
                      e.electrical, e.losses, e.chemical))
  }

  // ---------------------------------------------------------------------
  // get_slag_composition

  /** The species of a slag: name and mass. */
  type Part = (string, real)

  function SlagMass(parts: seq<Part>): real {
    if |parts| == 0 then 0.0 else SlagMass(parts[..|parts| - 1]) + parts[|parts| - 1].1
  }

  function Names(parts: seq<Part>): (ns: seq<string>)
    ensures |ns| == |parts|
  {
    if |parts| == 0 then [] else Names(parts[..|parts| - 1]) + [parts[|parts| - 1].0]
  }

  /** Each species' share of `total`, keyed by name; a later species of the
      same name replaces the earlier one. */
  function Fractions(parts: seq<Part>, total: real): (d: Dict<string, real>)
    requires total != 0.0
    ensures forall n :: n in d.entries <==> n in Names(parts)
  {
    if |parts| == 0 then Empty()
    else
      Put(Fractions(parts[..|parts| - 1], total), parts[|parts| - 1].0, parts[|parts| - 1].1 / total)
  }

  /** `get_slag_composition`: None when the device or its slag output is
      missing (`slag` is None), otherwise each species' mass over the slag's
      mass; a slag of mass 0 with species in it divides by zero. */
  method SlagComposition(slag: Option<seq<Part>>) returns (r: Result<Option<Dict<string, real>>>)
    ensures slag.None? ==> r == Ok(None)
    ensures slag.Some? && |slag.value| == 0 ==> r == Ok(Some(Empty()))
    ensures slag.Some? && |slag.value| > 0 && SlagMass(slag.value) == 0.0 ==> r.Err?
    ensures slag.Some? && SlagMass(slag.value) != 0.0 ==> r == Ok(Some(Fractions(slag.value, SlagMass(slag.value))))
  {
    if slag.None? {
      return Ok(None);
    }
    var parts := slag.value;
    var composition: Dict<string, real> := Empty();
    if |parts| == 0 {
      return Ok(Some(composition));
    }
    var total := SlagMass(parts);
    if total == 0.0 {
      return Err(DivisionByZero);
    }
    var i := 0;
    while i < |parts|
      invariant 0 <= i <= |parts|
      invariant composition == Fractions(parts[..i], total)
    {
      assert parts[..i + 1][..i] == parts[..i];
      composition := Put(composition, parts[i].0, parts[i].1 / total);
      i := i + 1;
    }
    assert parts[..i] == parts;
    r := Ok(Some(composition));
  }

  lemma DistinctInit(s: seq<string>, k: string)
    requires Distinct(s + [k])
    ensures Distinct(s) && k !in s
  {
    assert forall i :: 0 <= i < |s| ==> (s + [k])[i] == s[i];
    assert (s + [k])[|s|] == k;
  }

  /** A sum of shares of `total` is the share of the sum. */
  lemma AddShares(sum: real, x: real, y: real, mass: real, a: real, b: real, total: real)
    requires total != 0.0 && x == a / total && y == b / total
    requires sum == x + y && mass == a + b
    ensures sum == mass / total
  {
  }

  /** With distinct species names the shares add up to the slag's mass over
      the total. */
  lemma {:induction false} FractionsSum(parts: seq<Part>, total: real)
    requires total != 0.0 && Distinct(Names(parts))
    ensures Fractions(parts, total).Valid()
    ensures SumValues(Fractions(parts, total)) == SlagMass(parts) / total
  {
    if |parts| > 0 {
      var init := parts[..|parts| - 1];
      var last := parts[|parts| - 1];
      assert Distinct(Names(init)) && last.0 !in Names(init) by {
        assert Names(parts) == Names(init) + [last.0];
        DistinctInit(Names(init), last.0);
      }
      FractionsSum(init, total);
      FractionsStep(parts, total);
    }
  }

  /** Adding a species of a new name adds its share to the sum. */
  lemma FractionsStep(parts: seq<Part>, total: real)
    requires total != 0.0 && |parts| > 0
    requires parts[|parts| - 1].0 !in Names(parts[..|parts| - 1])
    requires Fractions(parts[..|parts| - 1], total).Valid()
    requires SumValues(Fractions(parts[..|parts| - 1], total)) == SlagMass(parts[..|parts| - 1]) / total
    ensures Fractions(parts, total).Valid()
    ensures SumValues(Fractions(parts, total)) == SlagMass(parts) / total
  {
    var init := parts[..|parts| - 1];
    var last := parts[|parts| - 1];
    var d := Fractions(init, total);
    var share := last.1 / total;
    assert Fractions(parts, total) == Put(d, last.0, share);
    PutKeepsValid(d, last.0, share);
    assert SumValues(Put(d, last.0, share)) == SumValues(d) + share by {
      assert last.0 !in d.entries;
      SumAfterPut(d, last.0, share);
    }
    assert SlagMass(parts) == SlagMass(init) + last.1;
    AddShares(SumValues(Put(d, last.0, share)), SumValues(d), share, SlagMass(parts), SlagMass(init), last.1, total);
  }

  /** The slag fractions of distinct species sum to 1. */
  lemma SlagFractionsSumToOne(parts: seq<Part>)
    requires SlagMass(parts) != 0.0 && Distinct(Names(parts))
    ensures SumValues(Fractions(parts, SlagMass(parts))) == 1.0
  {
    var m := SlagMass(parts);
    FractionsSum(parts, m);
    DivideBySelf(m);
  }

  lemma DivideBySelf(x: real)
    requires x != 0.0
    ensures x / x == 1.0
  {
  }
}
