/** Chemical species and mixtures of them (technoeconomics/species.py): a
    species carries its moles, an optional temperature, its molar mass and its
    thermodynamic data; a mixture is an ordered list of species objects. */
module Species {
  import opened Base
  import opened Thermo
  import Dicts

  /** The temperature `merge` cools every species to, in kelvin. */
  const ReferenceKelvin: real := 298.0

  /** Every field of a `Species`, as a value. */
  datatype SpeciesState = SpeciesState(name: string, mols: real, temp: Option<real>, mm: real,
                                       thermo: ThermoData, deltaHFormation: Option<real>)

  function MassOf(s: SpeciesState): real {
    s.mols * s.mm
  }

  /** Python truthiness of an optional temperature: None and 0.0 are false. */
  predicate Truthy(t: Option<real>) {
    t.Some? && t.value != 0.0
  }

  /** `Species.heat_energy`: the enthalpy change from the species' own
      temperature to tFinal; refused when that temperature is unset or zero. */
  function HeatEnergySpec(s: SpeciesState, tFinal: real): Result<real> {
    if !Truthy(s.temp) then Err("Species::heat_energy: initial temperature is not set")
    else DeltaHAsWritten(s.thermo, s.mols, s.temp.value, tFinal)
  }

  method HeatEnergyOf(s: SpeciesState, tFinal: real) returns (r: Result<real>)
    ensures r == HeatEnergySpec(s, tFinal)
  {
    if !Truthy(s.temp) {
      return Err("Species::heat_energy: initial temperature is not set");
    }
    r := DeltaH(s.thermo, s.mols, s.temp.value, tFinal);
  }

  /** Heating a species to the temperature it already has takes no energy,
      unless that temperature lies below a range that starts in the clamp
      window, where `delta_h` as written moves only one of the two. */
  lemma HeatEnergyToOwnTemperature(s: SpeciesState)
    requires s.temp.Some?
    requires InThermoRange(s.thermo, s.temp.value) || !InClampWindow(s.thermo.minKelvin)
    ensures HeatEnergySpec(s, s.temp.value).Ok? ==> HeatEnergySpec(s, s.temp.value) == Ok(0.0)
  {
    DeltaHAsWrittenAgrees(s.thermo, s.mols, s.temp.value, s.temp.value);
    DeltaHAntisymmetric(s.thermo, s.mols, s.temp.value, s.temp.value);
  }

  /** A species without moles takes no energy to heat, whenever heating it is accepted. */
  lemma HeatEnergyOfNothing(s: SpeciesState, tFinal: real)
    requires s.mols == 0.0
    ensures HeatEnergySpec(s, tFinal).Ok? ==> HeatEnergySpec(s, tFinal) == Ok(0.0)
  {
    if HeatEnergySpec(s, tFinal).Ok? {
      DeltaHZeroMoles(s.thermo, s.temp.value, tFinal);
    }
  }

  class Species {
    var name: string
    var mols: real
    var temp: Option<real>
    var mm: real
    var thermo: ThermoData
    var deltaHFormation: Option<real>

    function State(): SpeciesState
      reads this
    {
      SpeciesState(name, mols, temp, mm, thermo, deltaHFormation)
    }

    /** A new species holds no moles and has no temperature yet. */
    constructor(name: string, mm: real, thermo: ThermoData, deltaHFormation: Option<real>)
      ensures State() == SpeciesState(name, 0.0, None, mm, thermo, deltaHFormation)
    {
      this.name := name;
      this.mols := 0.0;
      this.temp := None;
      this.mm := mm;
      this.thermo := thermo;
      this.deltaHFormation := deltaHFormation;
    }

    /** `copy.deepcopy` of a species. */
    constructor FromState(s: SpeciesState)
      ensures State() == s
    {
      name := s.name;
      mols := s.mols;
      temp := s.temp;
      mm := s.mm;
      thermo := s.thermo;
      deltaHFormation := s.deltaHFormation;
    }

    /** The `mass` property. */
    function Mass(): real
      reads this
    {
      MassOf(State())
    }

    /** The `mols` setter: a negative amount is refused and nothing changes. */
    method SetMols(value: real) returns (o: Outcome)
      modifies this`mols
      ensures o.Fail? <==> value < 0.0
      ensures mols == if value < 0.0 then old(mols) else value
    {
      if value < 0.0 {
        return Fail("Species::mols: Cannot set mols to a negative value");
      }
      mols := value;
      o := Pass;
    }

    /** The `mass` setter: stores value / mm moles, so that the mass read back
        is the mass set; a negative mass is refused, a zero molar mass divides
        by zero. */
    method SetMass(value: real) returns (o: Outcome)
      modifies this`mols
      ensures o.Fail? <==> value < 0.0 || mm == 0.0
      ensures o.Pass? ==> mols == value / mm && Mass() == value
      ensures o.Fail? ==> mols == old(mols)
    {
      if value < 0.0 {
        return Fail("Species::mass: Cannot set mass to a negative value");
      }
      if mm == 0.0 {
        return Fail("float division by zero");
      }
      mols := value / mm;
      o := Pass;
    }

    /** The `temp_kelvin` setter: a negative temperature is refused. */
    method SetTemp(value: real) returns (o: Outcome)
      modifies this`temp
      ensures o.Fail? <==> value < 0.0
      ensures temp == if value < 0.0 then old(temp) else Some(value)
    {
      if value < 0.0 {
        return Fail("Species::temp: Cannot set temp to a negative value");
      }
      temp := Some(value);
      o := Pass;
    }

    /** The `delta_h_formation` property: refused when it was never given. */
    function DeltaHFormation(): (r: Result<real>)
      reads this
      ensures r.Err? <==> deltaHFormation.None?
      ensures r.Ok? ==> Some(r.value) == deltaHFormation
    {
      if deltaHFormation.None? then Err("Species::enthalpy_formation: enthalpy of formation is not set")
      else Ok(deltaHFormation.value)
    }

    /** `heat_energy`: does not change the species. */
    method HeatEnergy(tFinal: real) returns (r: Result<real>)
      ensures r == HeatEnergySpec(State(), tFinal)
    {
      r := HeatEnergyOf(State(), tFinal);
    }

    /** `set`: takes over every field of the other species. */
    method Set(other: Species)
      modifies this
      ensures State() == old(other.State())
    {
      var s := other.State();
      name := s.name;
      mols := s.mols;
      temp := s.temp;
      mm := s.mm;
      thermo := s.thermo;
      deltaHFormation := s.deltaHFormation;
    }
  }

  /** No object occurs twice. */
  predicate Distinct(ss: seq<Species>) {
    forall i, j :: 0 <= i < j < |ss| ==> ss[i] != ss[j]
  }

  function StatesOf(ss: seq<Species>): (r: seq<SpeciesState>)
    reads ss
    ensures |r| == |ss|
    ensures forall i :: 0 <= i < |ss| ==> r[i] == ss[i].State()
  {
    if ss == [] then [] else [ss[0].State()] + StatesOf(ss[1..])
  }

  function NamesOf(vs: seq<SpeciesState>): (r: seq<string>)
    ensures |r| == |vs|
    ensures forall i :: 0 <= i < |vs| ==> r[i] == vs[i].name
  {
    if vs == [] then [] else [vs[0].name] + NamesOf(vs[1..])
  }

  /** The total mass of a list of species. */
  function TotalMass(vs: seq<SpeciesState>): real {
    if vs == [] then 0.0 else MassOf(vs[0]) + TotalMass(vs[1..])
  }

  /** The moles of all species named n. */
  function MolsOf(vs: seq<SpeciesState>, n: string): real {
    if vs == [] then 0.0 else (if vs[0].name == n then vs[0].mols else 0.0) + MolsOf(vs[1..], n)
  }

  lemma {:induction false} TotalMassAppend(a: seq<SpeciesState>, b: seq<SpeciesState>)
    ensures TotalMass(a + b) == TotalMass(a) + TotalMass(b)
  {
    if a == [] {
      assert a + b == b;
    } else {
      assert (a + b)[0] == a[0] && (a + b)[1..] == a[1..] + b;
      TotalMassAppend(a[1..], b);
    }
  }

  lemma {:induction false} MolsOfAppend(a: seq<SpeciesState>, b: seq<SpeciesState>, n: string)
    ensures MolsOf(a + b, n) == MolsOf(a, n) + MolsOf(b, n)
  {
    if a == [] {
      assert a + b == b;
    } else {
      assert (a + b)[0] == a[0] && (a + b)[1..] == a[1..] + b;
      MolsOfAppend(a[1..], b, n);
    }
  }

  /** Fresh copies of the given species, in order (`copy.deepcopy` of a list). */
  method CopyAll(vs: seq<SpeciesState>) returns (r: seq<Species>)
    ensures StatesOf(r) == vs
    ensures forall s :: s in r ==> fresh(s)
    ensures Distinct(r)
  {
    r := [];
    for k := 0 to |vs|
      invariant |r| == k
      invariant forall i :: 0 <= i < k ==> r[i].State() == vs[i]
      invariant forall s :: s in r ==> fresh(s)
      invariant Distinct(r)
    {
      var s := new Species.FromState(vs[k]);
      r := r + [s];
    }
    assert StatesOf(r) == vs;
  }

  // ---- The mixture temperature ----

  /** The loop of the `temp_kelvin` getter from the value cur onwards: a
      falsy value is replaced by the next species' temperature, a truthy one
      must match every later species' temperature. */
  function TempFold(ts: seq<Option<real>>, cur: Option<real>): Result<Option<real>> {
    if ts == [] then Ok(cur)
    else if !Truthy(cur) then TempFold(ts[1..], ts[0])
    else if ts[0] != cur then Err("Mixture::temp: temperatures of species do not match")
    else TempFold(ts[1..], cur)
  }

  function TempsOf(vs: seq<SpeciesState>): (r: seq<Option<real>>)
    ensures |r| == |vs|
    ensures forall i :: 0 <= i < |vs| ==> r[i] == vs[i].temp
  {
    if vs == [] then [] else [vs[0].temp] + TempsOf(vs[1..])
  }

  /** The `temp_kelvin` getter of a mixture. */
  function MixtureTemp(vs: seq<SpeciesState>): Result<Option<real>> {
    TempFold(TempsOf(vs), None)
  }

  /** The temperatures agree from index j on, at the non-zero value t, and
      every earlier one is unset or zero. */
  predicate SharedFrom(ts: seq<Option<real>>, j: int, t: real) {
    0 <= j < |ts| && ts[j] == Some(t)
    && (forall i :: 0 <= i < j ==> !Truthy(ts[i]))
    && (forall i :: j < i < |ts| ==> ts[i] == Some(t))
  }

  lemma {:induction false} TempFoldFromTruthy(ts: seq<Option<real>>, t: real)
    requires t != 0.0
    ensures TempFold(ts, Some(t)) == Ok(Some(t)) <==> forall i :: 0 <= i < |ts| ==> ts[i] == Some(t)
    ensures TempFold(ts, Some(t)).Err? <==> !(forall i :: 0 <= i < |ts| ==> ts[i] == Some(t))
  {
    if ts != [] {
      TempFoldFromTruthy(ts[1..], t);
      if ts[0] == Some(t) {
        assert forall i :: 0 < i < |ts| ==> ts[i] == ts[1..][i - 1];
      }
    }
  }

  lemma {:induction false} TempFoldFromFalsy(ts: seq<Option<real>>, cur: Option<real>, t: real)
    requires !Truthy(cur) && t != 0.0
    ensures TempFold(ts, cur) == Ok(Some(t)) <==> exists j :: SharedFrom(ts, j, t)
  {
    if ts != [] {
      if Truthy(ts[0]) {
        TempFoldFromTruthy(ts[1..], ts[0].value);
        if TempFold(ts, cur) == Ok(Some(t)) {
          assert ts[0] == Some(t);
          assert forall i :: 0 < i < |ts| ==> ts[i] == ts[1..][i - 1];
          assert SharedFrom(ts, 0, t);
        }
        if j :| SharedFrom(ts, j, t) {
          assert j == 0;
          assert forall i :: 0 <= i < |ts[1..]| ==> ts[1..][i] == ts[i + 1];
        }
      } else {
        TempFoldFromFalsy(ts[1..], ts[0], t);
        if j :| SharedFrom(ts[1..], j, t) {
          assert SharedFrom(ts, j + 1, t);
        }
        if j :| SharedFrom(ts, j, t) {
          assert j > 0 && SharedFrom(ts[1..], j - 1, t);
        }
      }
    }
  }

  /** The getter yields a non-zero temperature t exactly when some species has
      temperature t, every species after it has t too, and every species
      before it is unset or at zero. */
  lemma MixtureTempShared(vs: seq<SpeciesState>, t: real)
    requires t != 0.0
    ensures MixtureTemp(vs) == Ok(Some(t)) <==> exists j :: SharedFrom(TempsOf(vs), j, t)
  {
    var unset: Option<real> := None;
    TempFoldFromFalsy(TempsOf(vs), unset, t);
    assert MixtureTemp(vs) == TempFold(TempsOf(vs), unset);
  }

  /** A mixture whose species all have the non-zero temperature t has temperature t. */
  lemma UniformTemp(vs: seq<SpeciesState>, t: real)
    requires t != 0.0 && |vs| > 0
    requires forall i :: 0 <= i < |vs| ==> vs[i].temp == Some(t)
    ensures MixtureTemp(vs) == Ok(Some(t))
  {
    assert SharedFrom(TempsOf(vs), 0, t);
    MixtureTempShared(vs, t);
  }

  lemma {:induction false} TempFoldUnset(ts: seq<Option<real>>)
    requires forall i :: 0 <= i < |ts| ==> ts[i].None?
    ensures TempFold(ts, None) == Ok(None)
  {
    if ts != [] {
      TempFoldUnset(ts[1..]);
    }
  }

  /** A mixture none of whose species has a temperature (an empty one among
      them) has no temperature. */
  lemma NoTemp(vs: seq<SpeciesState>)
    requires forall i :: 0 <= i < |vs| ==> vs[i].temp.None?
    ensures MixtureTemp(vs) == Ok(None)
  {
    TempFoldUnset(TempsOf(vs));
  }

  // ---- Merging by name ----

  /** `new_species[s.name].mols += s.mols` or `new_species[s.name] =
      copy.deepcopy(s)`: the first species of a name is kept, in place, with
      the later ones' moles added through the `mols` setter. */
  function AddTo(acc: seq<SpeciesState>, s: SpeciesState): Result<seq<SpeciesState>> {
    if acc == [] then Ok([s])
    else if acc[0].name == s.name then
      var m := acc[0].mols + s.mols;
      if m < 0.0 then Err("Species::mols: Cannot set mols to a negative value")
      else Ok([acc[0].(mols := m)] + acc[1..])
    else
      var rest :- AddTo(acc[1..], s);
      Ok([acc[0]] + rest)
  }

  /** The checks `merge` makes on each species it passes: an unset
      temperature cannot be compared, one below 298 K is refused, the species
      must be coolable to 298 K, and one at exactly 298 K divides by zero. */
  function MergeCheck(s: SpeciesState): Outcome {
    CheckGiven(s, HeatEnergySpec(s, ReferenceKelvin))
  }

  /** MergeCheck, given what cooling the species to 298 K yields. */
  function CheckGiven(s: SpeciesState, cooling: Result<real>): Outcome {
    if s.temp.None? then Fail("'<' not supported between instances of 'NoneType' and 'float'")
    else if s.temp.value < ReferenceKelvin then
      Fail("Mixture::merge: Thermodynamic mix calc. cannot handle temp of species less than reference temperature.")
    else match cooling
      case Err(m) => Fail(m)
      case Ok(_) => if s.temp.value - ReferenceKelvin == 0.0 then Fail("float division by zero") else Pass
  }

  /** The species-combining loop of `merge` over the list vs, making the
      checks `check` on each species: the first exception in loop order is
      the one raised. */
  function MergeWith(vs: seq<SpeciesState>, check: SpeciesState -> Outcome): Result<seq<SpeciesState>> {
    if vs == [] then Ok([])
    else
      var s := vs[|vs| - 1];
      var acc :- MergeWith(vs[..|vs| - 1], check);
      var r :- AddTo(acc, s);
      if check(s).Fail? then Err(check(s).msg) else Ok(r)
  }

  /** The species-combining loop of `merge`, with the checks it makes. */
  function MergeSpec(vs: seq<SpeciesState>): Result<seq<SpeciesState>> {
    MergeWith(vs, MergeCheck)
  }

  /** The checks of MergeCheck, in the order `merge` makes them. */
  method MergeCheckOf(s: SpeciesState) returns (o: Outcome)
    ensures o == MergeCheck(s)
  {
    // The cooling is computed only for a species warm enough to reach it.
    var cooling: Result<real> := Err("not computed");
    if s.temp.Some? && s.temp.value >= ReferenceKelvin {
      cooling := HeatEnergyOf(s, ReferenceKelvin);
    }
    o := CheckGiven(s, cooling);
  }

  /** Once the loop has raised on a prefix, the whole loop raises the same. */
  lemma {:induction false} MergePrefixErr(vs: seq<SpeciesState>, k: nat)
    requires k <= |vs| && MergeSpec(vs[..k]).Err?
    ensures MergeSpec(vs) == MergeSpec(vs[..k])
  {
    if k < |vs| {
      assert vs[..|vs| - 1][..k] == vs[..k];
      MergePrefixErr(vs[..|vs| - 1], k);
    } else {
      assert vs[..k] == vs;
    }
  }

  /** The loop of `merge` that builds the `new_species` dict. */
  method MergeLoop(vs: seq<SpeciesState>) returns (r: Result<seq<SpeciesState>>)
    ensures r == MergeSpec(vs)
  {
    var acc: seq<SpeciesState> := [];
    for k := 0 to |vs|
      invariant MergeSpec(vs[..k]) == Ok(acc)
    {
      var s := vs[k];
      assert vs[..k + 1][..k] == vs[..k];
      var added := AddTo(acc, s);
      if added.Err? {
        MergePrefixErr(vs, k + 1);
        return Err(added.msg);
      }
      var check := MergeCheckOf(s);
      if check.Fail? {
        MergePrefixErr(vs, k + 1);
        return Err(check.msg);
      }
      acc := added.value;
    }
    assert vs[..|vs|] == vs;
    r := Ok(acc);
  }

  /** The combining alone, without the checks on temperatures. */
  function Combine(vs: seq<SpeciesState>): Result<seq<SpeciesState>> {
    if vs == [] then Ok([])
    else
      var acc :- Combine(vs[..|vs| - 1]);
      AddTo(acc, vs[|vs| - 1])
  }

  predicate ChecksPass(vs: seq<SpeciesState>, check: SpeciesState -> Outcome) {
    forall i :: 0 <= i < |vs| ==> check(vs[i]).Pass?
  }

  /** The loop succeeds exactly when combining succeeds and every species
      passes the checks, and then yields the combined list. */
  lemma {:induction false} MergeWithIsCombine(vs: seq<SpeciesState>, check: SpeciesState -> Outcome)
    ensures MergeWith(vs, check).Ok? <==> Combine(vs).Ok? && ChecksPass(vs, check)
    ensures MergeWith(vs, check).Ok? ==> MergeWith(vs, check).value == Combine(vs).value
  {
    if vs != [] {
      var init := vs[..|vs| - 1];
      MergeWithIsCombine(init, check);
      assert forall i :: 0 <= i < |init| ==> init[i] == vs[i];
    }
  }

  /** `merge` succeeds exactly when combining succeeds and every species
      passes the temperature checks, and then yields the combined list. */
  lemma MergeIsCombine(vs: seq<SpeciesState>)
    ensures MergeSpec(vs).Ok? <==> Combine(vs).Ok? && ChecksPass(vs, MergeCheck)
    ensures MergeSpec(vs).Ok? ==> MergeSpec(vs).value == Combine(vs).value
  {
    MergeWithIsCombine(vs, MergeCheck);
  }

  /** An error in combining a prefix is an error in combining the whole. */
  lemma {:induction false} CombinePrefixErr(vs: seq<SpeciesState>, k: nat)
    requires k <= |vs| && Combine(vs[..k]).Err?
    ensures Combine(vs).Err?
  {
    if k < |vs| {
      assert vs[..|vs| - 1][..k] == vs[..k];
      CombinePrefixErr(vs[..|vs| - 1], k);
    } else {
      assert vs[..k] == vs;
    }
  }

  lemma {:induction false} AddToNames(acc: seq<SpeciesState>, s: SpeciesState)
    requires AddTo(acc, s).Ok?
    ensures NamesOf(AddTo(acc, s).value)
            == if s.name in NamesOf(acc) then NamesOf(acc) else NamesOf(acc) + [s.name]
  {
    if acc != [] {
      var r := AddTo(acc, s).value;
      if acc[0].name != s.name {
        AddToNames(acc[1..], s);
        assert r[1..] == AddTo(acc[1..], s).value;
        assert NamesOf(acc) == [acc[0].name] + NamesOf(acc[1..]);
        assert NamesOf(r) == [acc[0].name] + NamesOf(r[1..]);
      } else {
        assert NamesOf(r) == NamesOf(acc);
      }
    }
  }

  lemma {:induction false} AddToMols(acc: seq<SpeciesState>, s: SpeciesState, n: string)
    requires AddTo(acc, s).Ok?
    ensures MolsOf(AddTo(acc, s).value, n) == MolsOf(acc, n) + (if n == s.name then s.mols else 0.0)
  {
    if acc != [] {
      var r := AddTo(acc, s).value;
      if acc[0].name != s.name {
        AddToMols(acc[1..], s, n);
        assert r[1..] == AddTo(acc[1..], s).value;
      } else {
        assert r[1..] == acc[1..];
      }
    }
  }

  /** What AddTo leaves at each position: the old entry with changed moles,
      or the added species at the end. */
  lemma {:induction false} AddToEntry(acc: seq<SpeciesState>, s: SpeciesState, i: nat)
    requires AddTo(acc, s).Ok? && i < |AddTo(acc, s).value|
    ensures i < |acc| ==> AddTo(acc, s).value[i] == acc[i].(mols := AddTo(acc, s).value[i].mols)
    ensures i >= |acc| ==> AddTo(acc, s).value[i] == s
  {
    AddToNames(acc, s);
    if acc != [] && acc[0].name != s.name && i > 0 {
      AddToEntry(acc[1..], s, i - 1);
    }
  }

  /** Adding a species whose molar mass agrees with the entry of its name adds its mass. */
  lemma {:induction false} AddToMass(acc: seq<SpeciesState>, s: SpeciesState)
    requires AddTo(acc, s).Ok?
    requires forall i :: 0 <= i < |acc| && acc[i].name == s.name ==> acc[i].mm == s.mm
    ensures TotalMass(AddTo(acc, s).value) == TotalMass(acc) + MassOf(s)
  {
    if acc != [] {
      var r := AddTo(acc, s).value;
      if acc[0].name != s.name {
        AddToMass(acc[1..], s);
        assert r[1..] == AddTo(acc[1..], s).value;
      } else {
        assert r[1..] == acc[1..];
        var a := acc[0];
        assert (a.mols + s.mols) * a.mm == a.mols * a.mm + s.mols * a.mm;
      }
    }
  }

  /** The combined list names each species once. */
  lemma {:induction false} CombineNamesUnique(vs: seq<SpeciesState>)
    requires Combine(vs).Ok?
    ensures Dicts.Distinct(NamesOf(Combine(vs).value))
  {
    if vs != [] {
      var acc := Combine(vs[..|vs| - 1]).value;
      CombineNamesUnique(vs[..|vs| - 1]);
      AddToNames(acc, vs[|vs| - 1]);
    }
  }

  /** The last step of combining adds the last species' name, if new. */
  lemma AddedNames(vs: seq<SpeciesState>, acc: seq<SpeciesState>, s: SpeciesState, n: string)
    requires vs != [] && Combine(vs).Ok? && s == vs[|vs| - 1]
    requires Combine(vs[..|vs| - 1]) == Ok(acc)
    ensures n in NamesOf(Combine(vs).value) <==> n in NamesOf(acc) || n == s.name
  {
    assert Combine(vs) == AddTo(acc, s);
    AddToNames(acc, s);
  }

  /** The combined list holds exactly the names of the input. */
  lemma {:induction false} CombineKeepsNames(vs: seq<SpeciesState>, n: string)
    requires Combine(vs).Ok?
    ensures n in NamesOf(Combine(vs).value) <==> n in NamesOf(vs)
  {
    if vs != [] {
      var init, s := vs[..|vs| - 1], vs[|vs| - 1];
      var acc := Combine(init).value;
      CombineKeepsNames(init, n);
      AddedNames(vs, acc, s, n);
      assert n in NamesOf(vs) <==> n in NamesOf(init) || n == s.name by {
        assert vs == init + [s];
        NamesOfSnoc(init, s);
      }
    }
  }

  lemma NamesOfSnoc(vs: seq<SpeciesState>, s: SpeciesState)
    ensures NamesOf(vs + [s]) == NamesOf(vs) + [s.name]
  {
    var l, r := NamesOf(vs + [s]), NamesOf(vs) + [s.name];
    assert |l| == |r|;
    forall i | 0 <= i < |l|
      ensures l[i] == r[i]
    {
      if i < |vs| {
        assert (vs + [s])[i] == vs[i];
      }
    }
  }

  /** Each name's moles in the combined list are the sum of its moles in the input. */
  lemma {:induction false} CombineSumsMols(vs: seq<SpeciesState>, n: string)
    requires Combine(vs).Ok?
    ensures MolsOf(Combine(vs).value, n) == MolsOf(vs, n)
  {
    if vs != [] {
      var init, s := vs[..|vs| - 1], vs[|vs| - 1];
      CombineSumsMols(init, n);
      AddToMols(Combine(init).value, s, n);
      assert vs == init + [s];
      MolsOfAppend(init, [s], n);
    }
  }

  /** Species of the same name have the same molar mass. */
  predicate ConsistentMolarMass(vs: seq<SpeciesState>) {
    forall i, j :: 0 <= i < |vs| && 0 <= j < |vs| && vs[i].name == vs[j].name ==> vs[i].mm == vs[j].mm
  }

  /** Every combined entry keeps the molar mass of an input species of its name. */
  lemma {:induction false} CombineMolarMassFrom(vs: seq<SpeciesState>, i: nat)
    requires Combine(vs).Ok? && i < |Combine(vs).value|
    ensures exists j :: 0 <= j < |vs| && vs[j].name == Combine(vs).value[i].name
                        && vs[j].mm == Combine(vs).value[i].mm
  {
    var init, s := vs[..|vs| - 1], vs[|vs| - 1];
    var acc := Combine(init).value;
    var r := Combine(vs).value;
    AddToNames(acc, s);
    AddToEntry(acc, s, i);
    if i < |acc| {
      CombineMolarMassFrom(init, i);
      var j :| 0 <= j < |init| && init[j].name == acc[i].name && init[j].mm == acc[i].mm;
      assert vs[j] == init[j];
    } else {
      assert r[i].name == s.name && r[i].mm == s.mm;
    }
  }

  /** Combining conserves mass when species of the same name have the same
      molar mass. */
  lemma {:induction false} CombineConservesMass(vs: seq<SpeciesState>)
    requires Combine(vs).Ok? && ConsistentMolarMass(vs)
    ensures TotalMass(Combine(vs).value) == TotalMass(vs)
  {
    if vs != [] {
      var init, s := vs[..|vs| - 1], vs[|vs| - 1];
      var acc := Combine(init).value;
      assert ConsistentMolarMass(init);
      CombineConservesMass(init);
      forall i | 0 <= i < |acc| && acc[i].name == s.name
        ensures acc[i].mm == s.mm
      {
        CombineMolarMassFrom(init, i);
        var j :| 0 <= j < |init| && init[j].name == acc[i].name && init[j].mm == acc[i].mm;
        assert vs[j] == init[j];
      }
      AddToMass(acc, s);
      assert vs == init + [s];
      TotalMassAppend(init, [s]);
    }
  }

  /** Combining species that all hold non-negative moles never fails. */
  lemma {:induction false} CombineNonNegative(vs: seq<SpeciesState>)
    requires forall i :: 0 <= i < |vs| ==> vs[i].mols >= 0.0
    ensures Combine(vs).Ok?
    ensures forall i :: 0 <= i < |Combine(vs).value| ==> Combine(vs).value[i].mols >= 0.0
  {
    if vs != [] {
      var init, s := vs[..|vs| - 1], vs[|vs| - 1];
      CombineNonNegative(init);
      AddToNonNegative(Combine(init).value, s);
    }
  }

  lemma {:induction false} AddToNonNegative(acc: seq<SpeciesState>, s: SpeciesState)
    requires s.mols >= 0.0 && forall i :: 0 <= i < |acc| ==> acc[i].mols >= 0.0
    ensures AddTo(acc, s).Ok?
    ensures forall i :: 0 <= i < |AddTo(acc, s).value| ==> AddTo(acc, s).value[i].mols >= 0.0
  {
    if acc != [] && acc[0].name != s.name {
      AddToNonNegative(acc[1..], s);
    }
  }

  /** `merge` raises unless every species is strictly above 298 K: one with no
      temperature or below 298 K is refused, and one at exactly 298 K divides
      by zero. */
  lemma MergeNeedsWarmSpecies(vs: seq<SpeciesState>, i: nat)
    requires i < |vs|
    requires vs[i].temp.None? || vs[i].temp.value <= ReferenceKelvin
    ensures MergeSpec(vs).Err?
  {
    MergeIsCombine(vs);
    ColdFails(vs[i]);
  }

  /** A species with no temperature, or not above 298 K, fails the checks. */
  lemma ColdFails(s: SpeciesState)
    requires s.temp.None? || s.temp.value <= ReferenceKelvin
    ensures MergeCheck(s).Fail?
  {
    if s.temp.Some? && s.temp.value == ReferenceKelvin {
      match HeatEnergySpec(s, ReferenceKelvin)
      case Err(_) =>
      case Ok(_) => assert s.temp.value - ReferenceKelvin == 0.0;
    }
  }

  class Mixture {
    var name: string
    var species: seq<Species>

    function States(): seq<SpeciesState>
      reads this, species
    {
      StatesOf(species)
    }

    /** The species are distinct objects: the mixture only ever holds copies. */
    predicate Valid()
      reads this
    {
      Distinct(species)
    }

    /** A mixture holds copies of the species it is given. */
    constructor(name: string, species: seq<Species>)
      ensures this.name == name
      ensures States() == StatesOf(species)
      ensures forall s :: s in this.species ==> fresh(s)
      ensures Valid()
    {
      var vs := StatesOf(species);
      var copies := CopyAll(vs);
      this.name := name;
      this.species := copies;
      new;
      assert States() == StatesOf(copies) == vs;
    }

    /** The `mass` property: the sum of the species' masses. */
    method Mass() returns (m: real)
      ensures m == TotalMass(States())
    {
      var vs := States();
      m := 0.0;
      for k := 0 to |species|
        invariant m == TotalMass(vs[..k])
      {
        assert vs[..k + 1] == vs[..k] + [vs[k]];
        TotalMassAppend(vs[..k], [vs[k]]);
        m := m + species[k].Mass();
      }
      assert vs[..|species|] == vs;
    }

    /** `species(name)`: the first species of that name, the object itself. */
    method FindSpecies(speciesName: string) returns (r: Result<Species>)
      ensures r.Err? <==> forall i :: 0 <= i < |species| ==> species[i].name != speciesName
      ensures r.Ok? ==> exists i :: 0 <= i < |species| && species[i] == r.value
                                    && r.value.name == speciesName
                                    && forall j :: 0 <= j < i ==> species[j].name != speciesName
    {
      for k := 0 to |species|
        invariant forall j :: 0 <= j < k ==> species[j].name != speciesName
      {
        if species[k].name == speciesName {
          return Ok(species[k]);
        }
      }
      r := Err("Mixture::species: species not found");
    }

    /** The `temp_kelvin` getter. */
    method Temp() returns (r: Result<Option<real>>)
      ensures r == MixtureTemp(States())
    {
      var ts := TempsOf(States());
      var cur: Option<real> := None;
      for k := 0 to |species|
        invariant TempFold(ts, None) == TempFold(ts[k..], cur)
      {
        assert ts[k..][1..] == ts[k + 1..];
        var t := species[k].temp;
        if !Truthy(cur) {
          cur := t;
        } else if t != cur {
          return Err("Mixture::temp: temperatures of species do not match");
        }
      }
      r := Ok(cur);
    }

    /** The `temp_kelvin` setter: every species gets the value; a negative
        value is refused by the first species, before any change. */
    method SetTemp(value: real) returns (o: Outcome)
      requires Valid()
      modifies species
      ensures o.Fail? <==> value < 0.0 && |species| > 0
      ensures o.Fail? ==> forall i :: 0 <= i < |species| ==> species[i].State() == old(species[i].State())
      ensures o.Pass? ==> forall i :: 0 <= i < |species| ==> species[i].State() == old(species[i].State()).(temp := Some(value))
      ensures o.Pass? && value != 0.0 && |species| > 0 ==> MixtureTemp(States()) == Ok(Some(value))
    {
      o := Pass;
      for k := 0 to |species|
        invariant o.Pass?
        invariant k > 0 ==> value >= 0.0
        invariant forall i :: 0 <= i < k ==> species[i].State() == old(species[i].State()).(temp := Some(value))
        invariant forall i :: k <= i < |species| ==> species[i].State() == old(species[i].State())
      {
        o := species[k].SetTemp(value);
        if o.Fail? {
          return;
        }
      }
      if value != 0.0 && |species| > 0 {
        UniformTemp(States(), value);
      }
    }

    /** The species-combining part of `merge`: nothing happens when the other
        mixture has no mass; otherwise the species of both are combined by
        name, and on any exception the species list is left as it was. */
    method Merge(other: Mixture) returns (o: Outcome)
      modifies this
      ensures TotalMass(old(other.States())) == 0.0 ==> o.Pass? && species == old(species)
      ensures TotalMass(old(other.States())) != 0.0 ==>
                var spec := MergeSpec(old(States()) + old(other.States()));
                (o.Pass? <==> spec.Ok?)
                && (o.Pass? ==> States() == spec.value && forall s :: s in species ==> fresh(s))
                && (o.Fail? ==> species == old(species))
      ensures name == old(name)
      ensures old(Valid()) ==> Valid()
    {
      var otherMass := other.Mass();
      if otherMass == 0.0 {
        return Pass;
      }
      var vs := States() + other.States();
      var r := MergeLoop(vs);
      if r.Err? {
        return Fail(r.msg);
      }
      var merged := CopyAll(r.value);
      species := merged;
      o := Pass;
    }

    /** `merge` with a single species, which is first wrapped in a mixture. */
    method MergeSpecies(s: Species) returns (o: Outcome)
      modifies this
      ensures MassOf(old(s.State())) == 0.0 ==> o.Pass? && species == old(species)
      ensures MassOf(old(s.State())) != 0.0 ==>
                var spec := MergeSpec(old(States()) + [old(s.State())]);
                (o.Pass? <==> spec.Ok?)
                && (o.Pass? ==> States() == spec.value)
                && (o.Fail? ==> species == old(species))
    {
      if s.Mass() == 0.0 {
        return Pass;
      }
      ghost var before := States();
      var tmp := new Mixture("tmp", [s]);
      assert tmp.States() == [s.State()];
      assert TotalMass(tmp.States()) == MassOf(s.State()) + TotalMass([]);
      assert States() == before;
      o := Merge(tmp);
    }

    /** `set`: takes over the other mixture's name and copies of its species. */
    method Set(other: Mixture)
      modifies this
      ensures name == old(other.name)
      ensures States() == old(other.States())
      ensures forall s :: s in species ==> fresh(s)
      ensures Valid()
    {
      var copies := CopyAll(other.States());
      name := other.name;
      species := copies;
    }
  }

  /** Molar masses of the species in air, in kg/mol. */
  const N2MolarMass: real := 0.0280134
  const O2MolarMass: real := 0.0319988
  const ArMolarMass: real := 0.039948

  /** `create_air_mixture`: N2, O2 and Ar in the mass fractions 0.7812,
      0.2095 and 0.0093 of the given mass; a negative mass is refused by the
      mass setter. The thermodynamic tables of the three gases are parameters. */
  method CreateAirMixture(massKg: real, n2Thermo: ThermoData, o2Thermo: ThermoData, arThermo: ThermoData)
    returns (r: Result<Mixture>)
    ensures r.Err? <==> massKg < 0.0
    ensures r.Ok? ==> NamesOf(r.value.States()) == ["N2", "O2", "Ar"]
    ensures r.Ok? ==> TotalMass(r.value.States()) == massKg
    ensures r.Ok? ==> MixtureTemp(r.value.States()) == Ok(None)
  {
    if massKg < 0.0 {
      return Err("Species::mass: Cannot set mass to a negative value");
    }
    var n2 := NewGas("N2", N2MolarMass, n2Thermo, None, massKg * 0.7812);
    var o2 := NewGas("O2", O2MolarMass, o2Thermo, Some(0.0), massKg * 0.2095);
    var ar := NewGas("Ar", ArMolarMass, arThermo, None, massKg * 0.0093);
    var m := new Mixture("Air", [n2, o2, ar]);
    assert m.States() == [n2.State(), o2.State(), ar.State()];
    AirStates(n2.State(), o2.State(), ar.State(), massKg);
    r := Ok(m);
  }

  /** Air's three gases, split 78.12 / 20.95 / 0.93 percent by mass, make
      up the whole mass and have no temperature. */
  lemma AirStates(n2: SpeciesState, o2: SpeciesState, ar: SpeciesState, massKg: real)
    requires n2.name == "N2" && o2.name == "O2" && ar.name == "Ar"
    requires n2.temp.None? && o2.temp.None? && ar.temp.None?
    requires MassOf(n2) == massKg * 0.7812 && MassOf(o2) == massKg * 0.2095 && MassOf(ar) == massKg * 0.0093
    ensures NamesOf([n2, o2, ar]) == ["N2", "O2", "Ar"]
    ensures TotalMass([n2, o2, ar]) == massKg
    ensures MixtureTemp([n2, o2, ar]) == Ok(None)
  {
    var vs := [n2, o2, ar];
    assert TotalMass(vs[2..]) == MassOf(vs[2]) + TotalMass([]);
    assert TotalMass(vs[1..]) == MassOf(vs[1]) + MassOf(vs[2]);
    NoTemp(vs);
  }

  /** A new species of the given mass, set through the `mass` setter. */
  method NewGas(name: string, mm: real, thermo: ThermoData, deltaHFormation: Option<real>, massKg: real)
    returns (s: Species)
    requires massKg >= 0.0 && mm > 0.0
    ensures fresh(s)
    ensures s.name == name && s.temp.None? && s.mm == mm && s.Mass() == massKg
  {
    s := new Species(name, mm, thermo, deltaHFormation);
    var o := s.SetMass(massKg);
  }
}
