/** Ore compositions in weight percent (mass_energy_flow.py and its two older
    copies): putting all the iron in hematite, deriving a composition from an
    iron grade and a template ore, and removing the loss on ignition (LOI). */
module Ore {
  import opened Base
  import opened Dicts
  import Species

  /** Parts of an ore by name, in weight percent. */
  type Composition = Dict<string, real>

  const FeMolarMass: real := 0.055845

  /** Fe2O3 as two Fe and one and a half O2, as the species factories build it. */
  const Fe2O3MolarMass: real := FeMolarMass * 2.0 + Species.O2MolarMass * 1.5

  /** The two iron-to-hematite mass ratios: mass_energy_flow.py writes the
      ratio out, the older copies compute it from the molar masses. */
  datatype IronRatio = WrittenOut | FromMolarMasses

  /** The iron in `hematitePerc` percent of hematite. */
  function IronIn(hematitePerc: real, ratio: IronRatio): real {
    match ratio
    case WrittenOut => hematitePerc * 0.6994255054537529
    case FromMolarMasses => hematitePerc * 186150.0 / 266147.0
  }

  /** The molar ratio is 186150/266147, and the written-out ratio agrees with
      it to within 1e-15. */
  lemma RatiosAgree()
    ensures FeMolarMass / (0.5 * Fe2O3MolarMass) == 186150.0 / 266147.0
    ensures IronIn(1.0, FromMolarMasses) - IronIn(1.0, WrittenOut) < 0.000000000000001
    ensures IronIn(1.0, WrittenOut) - IronIn(1.0, FromMolarMasses) < 0.000000000000001
  {
    assert 0.5 * Fe2O3MolarMass == 0.0798441;
    assert 0.0798441 * (186150.0 / 266147.0) == 0.055845;
  }

  function Abs(x: real): real { if x < 0.0 then -x else x }

  /** The iron percentage of an ore whose iron is all in hematite: what the
      gangue and the LOI leave, times the mass ratio. */
  function HematiteIron(d: Composition, ratio: IronRatio): real
    requires "gangue" in d.entries
  {
    IronIn(100.0 - d.entries["gangue"] - GetOr(d, "LOI", 0.0), ratio)
  }

  /** `hematite_normalise`: replaces Fe by the hematite iron, refusing an ore
      whose Fe is more than one percentage point away from it. The copy that
      computes the ratio from molar masses raises with its own message. */
  function Normalised(d: Composition, ratio: IronRatio): (r: Result<Composition>)
    ensures r.Ok? <==> "gangue" in d.entries && "Fe" in d.entries
                       && Abs(d.entries["Fe"] - HematiteIron(d, ratio)) <= 1.0
    ensures r.Ok? ==> r.value.order == d.order
                      && r.value.entries == d.entries["Fe" := HematiteIron(d, ratio)]
  {
    if "gangue" !in d.entries then Err("KeyError: 'gangue'")
    else
      var iron := HematiteIron(d, ratio);
      if "Fe" !in d.entries then Err("KeyError: 'Fe'")
      else if Abs(d.entries["Fe"] - iron) > 1.0 then
        Err(if ratio.WrittenOut? then "Ore composition is not hematite, goethite or limonite. Cannot perform mass flow calculation."
            else "Ore composition may not be pure hematite! Cannot safetly normalise")
      else Ok(Put(d, "Fe", iron))
  }

  /** Normalising a normalised ore changes nothing. */
  lemma NormalisedIdempotent(d: Composition, ratio: IronRatio)
    requires Normalised(d, ratio).Ok?
    ensures Normalised(Normalised(d, ratio).value, ratio) == Normalised(d, ratio)
  {
    var n := Normalised(d, ratio).value;
    assert HematiteIron(n, ratio) == HematiteIron(d, ratio) by {
      assert n.entries["gangue"] == d.entries["gangue"];
      assert GetOr(n, "LOI", 0.0) == GetOr(d, "LOI", 0.0);
    }
    assert n.entries["Fe" := HematiteIron(d, ratio)] == n.entries;
  }

  /** `hematite_normalise` of examples/steel_mass_energy.py: no LOI and no
      tolerance check; Fe is always replaced, or added last. */
  function NormalisedUnchecked(d: Composition): (r: Result<Composition>)
    ensures r.Ok? <==> "gangue" in d.entries
    ensures r.Ok? ==> r.value.entries == d.entries["Fe" := IronIn(100.0 - d.entries["gangue"], FromMolarMasses)]
                      && r.value.order == if "Fe" in d.entries then d.order else d.order + ["Fe"]
  {
    if "gangue" !in d.entries then Err("KeyError: 'gangue'")
    else
      var iron := IronIn(100.0 - d.entries["gangue"], FromMolarMasses);
      Ok(Put(d, "Fe", iron))
  }

  lemma NormalisedUncheckedIdempotent(d: Composition)
    requires NormalisedUnchecked(d).Ok?
    ensures NormalisedUnchecked(NormalisedUnchecked(d).value) == NormalisedUnchecked(d)
  {
    var n := NormalisedUnchecked(d).value;
    assert n.entries["gangue"] == d.entries["gangue"];
    assert n.entries["Fe" := n.entries["Fe"]] == n.entries;
  }

  /** A composition dict that `hematite_normalise` rewrites in place. */
  class OreDict {
    var parts: Composition

    constructor(parts: Composition)
      ensures this.parts == parts
    {
      this.parts := parts;
    }

    /** `hematite_normalise(ore_comp)` of mass_energy_flow.py (ratio
        IronToHematiteRatio) and of the low-emission copy (ratio
        MolarIronToHematiteRatio): the dict is changed only when no error is
        raised. */
    method HematiteNormalise(ratio: IronRatio) returns (o: Outcome)
      modifies this
      ensures o.Pass? <==> Normalised(old(parts), ratio).Ok?
      ensures o.Pass? ==> parts == Normalised(old(parts), ratio).value
      ensures o.Fail? ==> parts == old(parts)
    {
      var r := Normalised(parts, ratio);
      if r.Err? {
        return Fail(r.msg);
      }
      parts := r.value;
      o := Pass;
    }

    /** `hematite_normalise(ore_comp)` of examples/steel_mass_energy.py. */
    method HematiteNormaliseUnchecked() returns (o: Outcome)
      modifies this
      ensures o.Pass? <==> NormalisedUnchecked(old(parts)).Ok?
      ensures o.Pass? ==> parts == NormalisedUnchecked(old(parts)).value
      ensures o.Fail? ==> parts == old(parts)
    {
      var r := NormalisedUnchecked(parts);
      if r.Err? {
        return Fail(r.msg);
      }
      parts := r.value;
      o := Pass;
    }
  }

  // ---------------------------------------------------------------------
  // fe_content_to_hematite

  /** The template's gangue: everything but its Fe, LOI and gangue entries. */
  function TemplateGangue(template: Composition): real
    requires "Fe" in template.entries
  {
    SumValues(template) - template.entries["Fe"] - GetOr(template, "LOI", 0.0)
      - GetOr(template, "gangue", 0.0)
  }

  /** `v * num / den` for every `v`: the scaling both loops below apply
      (the second writes it `v / den * num`, the same over the reals).
      The callers refuse a zero `den` before any value is scaled, so the zero
      branch is never taken. */
  function ScaleBy(num: real, den: real): real -> real {
    v => Scaled(v, num, den)
  }

  /** `v * num / den`, and 0 for a zero `den`. */
  function Scaled(v: real, num: real, den: real): real {
    if den == 0.0 then 0.0 else v * num / den
  }

  /** The loop of `fe_content_to_hematite` from `ore`, over the template's
      keys from position `i` on: each key not yet in `ore` is added with its
      value scaled by `f`; scaling raises when `divisible` is false. */
  function FillFrom<V>(ore: Dict<string, V>, template: Dict<string, V>, i: nat, divisible: bool, f: V -> V)
    : Result<Dict<string, V>>
    decreases |template.order| - i
  {
    if i >= |template.order| then Ok(ore)
    else
      var k := template.order[i];
      if k in ore.entries || k !in template.entries then FillFrom(ore, template, i + 1, divisible, f)
      else if !divisible then Err("float division by zero")
      else FillFrom(Put(ore, k, f(template.entries[k])), template, i + 1, divisible, f)
  }

  /** The loop of `fe_content_to_hematite`: fills `ore` from `template`. */
  method Fill<V>(ore: Dict<string, V>, template: Dict<string, V>, divisible: bool, f: V -> V)
    returns (r: Result<Dict<string, V>>)
    ensures r == FillFrom(ore, template, 0, divisible, f)
  {
    var filled := ore;
    var i := 0;
    while i < |template.order|
      invariant i <= |template.order|
      invariant FillFrom(filled, template, i, divisible, f) == FillFrom(ore, template, 0, divisible, f)
    {
      var k := template.order[i];
      if k in template.entries && k !in filled.entries {
        if !divisible {
          return Err("float division by zero");
        }
        filled := Put(filled, k, f(template.entries[k]));
      }
      i := i + 1;
    }
    r := Ok(filled);
  }

  /** The fill keeps every entry already present, and adds exactly the
      template's other keys, each scaled by `f`. */
  lemma {:induction false} FillFromEntries<V>(ore: Dict<string, V>, template: Dict<string, V>, i: nat,
                                               divisible: bool, f: V -> V)
    requires template.Valid() && FillFrom(ore, template, i, divisible, f).Ok?
    ensures var r := FillFrom(ore, template, i, divisible, f).value;
            (forall k :: k in ore.entries ==> k in r.entries && r.entries[k] == ore.entries[k])
            && (forall k :: k !in ore.entries && k in KeysFrom(template, i) ==>
                  divisible && k in r.entries && r.entries[k] == f(template.entries[k]))
            && (forall k :: k !in ore.entries && k !in KeysFrom(template, i) ==> k !in r.entries)
    decreases |template.order| - i
  {
    if i < |template.order| {
      var k := template.order[i];
      if k in ore.entries || k !in template.entries {
        FillFromEntries(ore, template, i + 1, divisible, f);
      } else {
        FillFromEntries(Put(ore, k, f(template.entries[k])), template, i + 1, divisible, f);
      }
    }
  }

  /** The fill fails exactly when some template key from position `i` on is
      missing from `ore` and scaling is impossible. */
  lemma {:induction false} FillFromFails<V>(ore: Dict<string, V>, template: Dict<string, V>, i: nat,
                                             divisible: bool, f: V -> V)
    requires template.Valid()
    ensures FillFrom(ore, template, i, divisible, f).Err? <==>
              !divisible && exists k :: k in KeysFrom(template, i) && k !in ore.entries
    decreases |template.order| - i
  {
    if i < |template.order| {
      var k := template.order[i];
      if k in ore.entries || k !in template.entries {
        FillFromFails(ore, template, i + 1, divisible, f);
      } else if divisible {
        FillFromFails(Put(ore, k, f(template.entries[k])), template, i + 1, divisible, f);
      }
    }
  }

  /** The ore's own gangue: what its hematite (from the Fe grade) and its LOI
      leave of 100 percent. */
  function OreGangue(feAndLoi: Composition): real
    requires "Fe" in feAndLoi.entries && "LOI" in feAndLoi.entries
  {
    100.0 - feAndLoi.entries["Fe"] / 0.6994255054537529 - feAndLoi.entries["LOI"]
  }

  /** `fe_content_to_hematite`, as a whole. */
  function FeContentSpec(feAndLoi: Composition, template: Composition): Result<Composition>
  {
    if "Fe" !in feAndLoi.entries then Err("KeyError: 'Fe'")
    else if "LOI" !in feAndLoi.entries then Err("KeyError: 'LOI'")
    else if "Fe" !in template.entries then Err("KeyError: 'Fe'")
    else
      var gt := TemplateGangue(template);
      var filled :- FillFrom(feAndLoi, template, 0, gt != 0.0, ScaleBy(OreGangue(feAndLoi), gt));
      if feAndLoi.entries["Fe"] > IronIn(100.0 - feAndLoi.entries["LOI"], WrittenOut) then
        Err("Selected iron ore grade exceeds maximum possible Fe% for hematite")
      else Ok(filled)
  }

  /** `fe_content_to_hematite(fe_and_loi_weight_perc, template_ore_composition)`. */
  method FeContentToHematite(feAndLoi: Composition, template: Composition)
    returns (r: Result<Composition>)
    ensures r == FeContentSpec(feAndLoi, template)
  {
    if "Fe" !in feAndLoi.entries {
      return Err("KeyError: 'Fe'");
    }
    if "LOI" !in feAndLoi.entries {
      return Err("KeyError: 'LOI'");
    }
    if "Fe" !in template.entries {
      return Err("KeyError: 'Fe'");
    }
    var gangueInOre := OreGangue(feAndLoi);
    var gangueInTemplate := TemplateGangue(template);
    r := Fill(feAndLoi, template, gangueInTemplate != 0.0, ScaleBy(gangueInOre, gangueInTemplate));
    if r.Err? {
      return;
    }
    if feAndLoi.entries["Fe"] > IronIn(100.0 - feAndLoi.entries["LOI"], WrittenOut) {
      return Err("Selected iron ore grade exceeds maximum possible Fe% for hematite");
    }
  }

  /** `fe_content_to_hematite` refuses an ore without Fe or LOI, a template
      without Fe, a template with no gangue when some part must be scaled from
      it, and an Fe grade above what pure hematite allows; nothing else. */
  lemma FeContentAccepts(feAndLoi: Composition, template: Composition)
    requires template.Valid()
    ensures FeContentSpec(feAndLoi, template).Ok? <==>
              "Fe" in feAndLoi.entries && "LOI" in feAndLoi.entries && "Fe" in template.entries
              && (TemplateGangue(template) != 0.0
                  || forall k :: k in template.entries ==> k in feAndLoi.entries)
              && feAndLoi.entries["Fe"] <= IronIn(100.0 - feAndLoi.entries["LOI"], WrittenOut)
  {
    if "Fe" in feAndLoi.entries && "LOI" in feAndLoi.entries && "Fe" in template.entries {
      var gt := TemplateGangue(template);
      var fill := FillFrom(feAndLoi, template, 0, gt != 0.0, ScaleBy(OreGangue(feAndLoi), gt));
      var rich := feAndLoi.entries["Fe"] > IronIn(100.0 - feAndLoi.entries["LOI"], WrittenOut);
      assert FeContentSpec(feAndLoi, template).Ok? <==> fill.Ok? && !rich;
      FillFromFails(feAndLoi, template, 0, gt != 0.0, ScaleBy(OreGangue(feAndLoi), gt));
      AllKeys(template);
    }
  }

  /** The given Fe and LOI (and any other given part) are kept as they are. */
  lemma FeContentKeepsGiven(feAndLoi: Composition, template: Composition, k: string)
    requires template.Valid() && FeContentSpec(feAndLoi, template).Ok?
    requires k in feAndLoi.entries
    ensures k in FeContentSpec(feAndLoi, template).value.entries
    ensures FeContentSpec(feAndLoi, template).value.entries[k] == feAndLoi.entries[k]
  {
    var gt := TemplateGangue(template);
    FillFromEntries(feAndLoi, template, 0, gt != 0.0, ScaleBy(OreGangue(feAndLoi), gt));
  }

  /** Every other template part is scaled by the ratio of the ore's gangue to
      the template's. */
  lemma FeContentScalesTemplate(feAndLoi: Composition, template: Composition, k: string)
    requires template.Valid() && FeContentSpec(feAndLoi, template).Ok?
    requires k !in feAndLoi.entries && k in template.entries
    ensures TemplateGangue(template) != 0.0 && k in FeContentSpec(feAndLoi, template).value.entries
    ensures FeContentSpec(feAndLoi, template).value.entries[k]
            == template.entries[k] * OreGangue(feAndLoi) / TemplateGangue(template)
  {
    var gt := TemplateGangue(template);
    FillFromEntries(feAndLoi, template, 0, gt != 0.0, ScaleBy(OreGangue(feAndLoi), gt));
    AllKeys(template);
  }

  /** No part outside the ore and the template appears. */
  lemma FeContentNothingElse(feAndLoi: Composition, template: Composition, k: string)
    requires template.Valid() && FeContentSpec(feAndLoi, template).Ok?
    requires k !in feAndLoi.entries && k !in template.entries
    ensures k !in FeContentSpec(feAndLoi, template).value.entries
  {
    var gt := TemplateGangue(template);
    FillFromEntries(feAndLoi, template, 0, gt != 0.0, ScaleBy(OreGangue(feAndLoi), gt));
    AllKeys(template);
  }

  // ---------------------------------------------------------------------
  // remove_LOI_from_ore_composition

  /** The rescaling loop of `remove_LOI_from_ore_composition`, from the dict
      built so far over the keys of `parts` from position `i` on: each value
      is stored scaled by `f`; scaling raises when `divisible` is false. */
  function RescaleFrom<V>(acc: Dict<string, V>, parts: Dict<string, V>, i: nat, divisible: bool, f: V -> V)
    : Result<Dict<string, V>>
    decreases |parts.order| - i
  {
    if i >= |parts.order| then Ok(acc)
    else if !divisible then Err("float division by zero")
    else
      var k := parts.order[i];
      if k !in parts.entries then RescaleFrom(acc, parts, i + 1, divisible, f)
      else RescaleFrom(Put(acc, k, f(parts.entries[k])), parts, i + 1, divisible, f)
  }

  /** Every value of `acc` is `f` of the value `parts` has under that key. */
  ghost predicate ScaledFrom<V>(acc: Dict<string, V>, parts: Dict<string, V>, f: V -> V) {
    forall k :: k in acc.entries ==> k in parts.entries && acc.entries[k] == f(parts.entries[k])
  }

  lemma ScaledFromPut<V>(acc: Dict<string, V>, parts: Dict<string, V>, k: string, f: V -> V)
    requires ScaledFrom(acc, parts, f) && k in parts.entries
    ensures ScaledFrom(Put(acc, k, f(parts.entries[k])), parts, f)
  {
  }

  /** Once the first `i` keys are rescaled, the loop ends with every value of
      `parts` scaled by `f`, keys in the same order. */
  lemma {:induction false} RescaleFromMaps<V>(acc: Dict<string, V>, parts: Dict<string, V>, i: nat, f: V -> V)
    requires parts.Valid() && acc.Valid() && i <= |parts.order|
    requires acc.order == parts.order[..i] && ScaledFrom(acc, parts, f)
    ensures RescaleFrom(acc, parts, i, true, f) == Ok(MapValues(parts, f))
    decreases |parts.order| - i
  {
    if i == |parts.order| {
      assert acc.order == parts.order;
      assert acc.entries == MapValues(parts, f).entries;
    } else {
      var k := parts.order[i];
      assert k !in acc.entries by {
        forall j | 0 <= j < i ensures parts.order[j] != k {}
      }
      var acc' := Put(acc, k, f(parts.entries[k]));
      PutKeepsValid(acc, k, f(parts.entries[k]));
      ScaledFromPut(acc, parts, k, f);
      assert acc'.order == parts.order[..i + 1];
      RescaleFromMaps(acc', parts, i + 1, f);
    }
  }

  /** Scaling distributes over a sum. */
  lemma ScaleAdds(x: real, y: real, num: real, den: real)
    ensures Scaled(x, num, den) + Scaled(y, num, den) == Scaled(x + y, num, den)
  {
    if den != 0.0 {
      assert x * num / den + y * num / den == (x + y) * num / den;
    }
  }

  /** Scaling every value scales the total. */
  lemma {:induction false} SumFromScaled(d: Composition, i: nat, num: real, den: real)
    ensures SumFrom(MapValues(d, ScaleBy(num, den)), i) == Scaled(SumFrom(d, i), num, den)
    decreases |d.order| - i
  {
    if i < |d.order| {
      SumFromScaled(d, i + 1, num, den);
      ScaleAdds(GetOr(d, d.order[i], 0.0), SumFrom(d, i + 1), num, den);
    }
  }

  /** `remove_LOI_from_ore_composition`, as a whole. */
  function RemoveLoiSpec(c: Composition): Result<Composition>
  {
    if "LOI" !in c.entries then Ok(c)
    else if "Fe" !in c.entries then Err("KeyError: 'Fe'")
    else if "gangue" !in c.entries then Err("KeyError: 'gangue'")
    else
      var totalWithLoi := SumValues(LoiParts(c));
      if totalWithLoi != 100.0 then Err("Ore composition does not sum to 100%")
      else
        var totalWithoutLoi := SumValues(LoiFreeParts(c));
        var rescaled :- RescaleFrom(Empty(), LoiFreeParts(c), 0, totalWithoutLoi != 0.0,
                                    ScaleBy(totalWithLoi, totalWithoutLoi));
        FromHematite(rescaled)
  }

  /** The end of `remove_LOI_from_ore_composition`: checks the rescaled
      parts sum to 100, then sets the gangue to what the hematite leaves and
      the Fe to the hematite iron. */
  function FromHematite(rescaled: Composition): (r: Result<Composition>)
    ensures r.Ok? <==> SumValues(rescaled) == 100.0 && "hematite" in rescaled.entries
    ensures r.Ok? ==> r.value.entries == rescaled.entries["gangue" := 100.0 - rescaled.entries["hematite"]]
                                          ["Fe" := IronIn(rescaled.entries["hematite"], WrittenOut)]
  {
    if SumValues(rescaled) != 100.0 then Err("Ore composition with LOI removed does not sum to 100%")
    else if "hematite" !in rescaled.entries then Err("KeyError: 'hematite'")
    else
      var hematite := rescaled.entries["hematite"];
      Ok(Put(Put(rescaled, "gangue", 100.0 - hematite), "Fe", IronIn(hematite, WrittenOut)))
  }

  /** The loop of `remove_LOI_from_ore_composition`: a new dict holding each
      entry of `parts` scaled by `f`. */
  method Rescale<V>(parts: Dict<string, V>, divisible: bool, f: V -> V) returns (r: Result<Dict<string, V>>)
    ensures r == RescaleFrom(Empty(), parts, 0, divisible, f)
  {
    var rescaled: Dict<string, V> := Empty();
    var i := 0;
    while i < |parts.order|
      invariant i <= |parts.order|
      invariant RescaleFrom(rescaled, parts, i, divisible, f) == RescaleFrom(Empty(), parts, 0, divisible, f)
    {
      if !divisible {
        return Err("float division by zero");
      }
      var k := parts.order[i];
      if k in parts.entries {
        rescaled := Put(rescaled, k, f(parts.entries[k]));
      }
      i := i + 1;
    }
    r := Ok(rescaled);
  }

  /** `remove_LOI_from_ore_composition(composition)`: works on a copy, so the
      argument is a value here. */
  method RemoveLoi(c: Composition) returns (r: Result<Composition>)
    ensures r == RemoveLoiSpec(c)
  {
    if "LOI" !in c.entries {
      return Ok(c);
    }
    if "Fe" !in c.entries {
      return Err("KeyError: 'Fe'");
    }
    var tmp := Remove(c, "Fe");
    if "gangue" !in tmp.entries {
      return Err("KeyError: 'gangue'");
    }
    tmp := Remove(tmp, "gangue");
    assert tmp == LoiParts(c);
    var totalWithLoi := SumValues(tmp);
    if totalWithLoi != 100.0 {
      return Err("Ore composition does not sum to 100%");
    }
    tmp := Remove(tmp, "LOI");
    assert tmp == LoiFreeParts(c);
    var totalWithoutLoi := SumValues(tmp);
    var scaled := Rescale(tmp, totalWithoutLoi != 0.0, ScaleBy(totalWithLoi, totalWithoutLoi));
    if scaled.Err? {
      return Err(scaled.msg);
    }
    r := SetHematite(scaled.value);
  }

  /** The last steps of `remove_LOI_from_ore_composition`, on the rescaled
      parts. */
  method SetHematite(rescaled: Composition) returns (r: Result<Composition>)
    ensures r == FromHematite(rescaled)
  {
    if SumValues(rescaled) != 100.0 {
      return Err("Ore composition with LOI removed does not sum to 100%");
    }
    if "hematite" !in rescaled.entries {
      return Err("KeyError: 'hematite'");
    }
    var withGangue := Put(rescaled, "gangue", 100.0 - rescaled.entries["hematite"]);
    r := Ok(Put(withGangue, "Fe", IronIn(rescaled.entries["hematite"], WrittenOut)));
  }

  /** The parts `remove_LOI_from_ore_composition` sums first: all but Fe
      and gangue. */
  function LoiParts(c: Composition): (r: Composition)
    ensures r.entries == c.entries - {"Fe", "gangue"}
  {
    Remove(Remove(c, "Fe"), "gangue")
  }

  /** The parts `remove_LOI_from_ore_composition` rescales: all but Fe,
      gangue and LOI. */
  function LoiFreeParts(c: Composition): (r: Composition)
    ensures r.entries == c.entries - {"Fe", "gangue", "LOI"}
  {
    Remove(LoiParts(c), "LOI")
  }

  lemma LoiFreePartsValid(c: Composition)
    requires c.Valid()
    ensures LoiFreeParts(c).Valid()
  {
    RemoveKeepsValid(c, "Fe");
    RemoveKeepsValid(Remove(c, "Fe"), "gangue");
    RemoveKeepsValid(LoiParts(c), "LOI");
  }

  lemma DividesToHundred(a: real)
    requires a != 0.0
    ensures Scaled(a, 100.0, a) == 100.0
  {
  }

  /** Parts whose total is not zero are rescaled to parts times 100 over
      that total, in the same order. */
  lemma RescaledParts(parts: Composition)
    requires parts.Valid() && SumValues(parts) != 0.0
    ensures var a := SumValues(parts);
            RescaleFrom(Empty(), parts, 0, true, ScaleBy(100.0, a))
              == Ok(MapValues(parts, ScaleBy(100.0, a)))
  {
    assert Empty<string, real>().Valid();
    RescaleFromMaps(Empty(), parts, 0, ScaleBy(100.0, SumValues(parts)));
  }

  /** The rescaled parts sum to 100. */
  lemma RescaledSum(parts: Composition)
    requires SumValues(parts) != 0.0
    ensures SumValues(MapValues(parts, ScaleBy(100.0, SumValues(parts)))) == 100.0
  {
    var a := SumValues(parts);
    SumFromScaled(parts, 0, 100.0, a);
    DividesToHundred(a);
  }

  /** Rescaling parts that sum to `a` up to 100, then finishing with the
      hematite step, succeeds exactly when `a` is not zero and hematite is
      among the parts. */
  lemma PartsAccepted(parts: Composition)
    requires parts.Valid()
    ensures var a := SumValues(parts);
            var rescaled := RescaleFrom(Empty(), parts, 0, a != 0.0, ScaleBy(100.0, a));
            (rescaled.Ok? && FromHematite(rescaled.value).Ok?) <==> a != 0.0 && "hematite" in parts.entries
  {
    var a := SumValues(parts);
    if a != 0.0 {
      RescaledParts(parts);
      RescaledSum(parts);
    } else if parts.order == [] {
      assert "hematite" !in parts.entries;
    }
  }

  /** Over exact reals the second "does not sum to 100%" check never fires:
      an ore with LOI is accepted exactly when it has Fe and gangue, its parts
      other than Fe and gangue sum to 100, the parts other than the LOI do not
      sum to zero, and hematite is among them. */
  lemma RemoveLoiAccepts(c: Composition)
    requires c.Valid() && "LOI" in c.entries
    ensures RemoveLoiSpec(c).Ok? <==>
              "Fe" in c.entries && "gangue" in c.entries
              && SumValues(LoiParts(c)) == 100.0
              && SumValues(LoiFreeParts(c)) != 0.0 && "hematite" in c.entries
  {
    if "Fe" in c.entries && "gangue" in c.entries && SumValues(LoiParts(c)) == 100.0 {
      LoiFreePartsValid(c);
      PartsAccepted(LoiFreeParts(c));
    }
  }

  /** An ore without LOI comes back unchanged. */
  lemma RemoveLoiWithoutLoi(c: Composition)
    requires "LOI" !in c.entries
    ensures RemoveLoiSpec(c) == Ok(c)
  {
  }

  /** An accepted ore with LOI is the rescaled parts other than Fe, gangue
      and LOI, finished by the hematite step. */
  lemma RemoveLoiRescales(c: Composition)
    requires c.Valid() && "LOI" in c.entries && RemoveLoiSpec(c).Ok?
    ensures SumValues(LoiFreeParts(c)) != 0.0
    ensures RemoveLoiSpec(c)
            == FromHematite(MapValues(LoiFreeParts(c), ScaleBy(100.0, SumValues(LoiFreeParts(c)))))
  {
    RemoveLoiAccepts(c);
    LoiFreePartsValid(c);
    RescaledParts(LoiFreeParts(c));
  }

  /** The result has no LOI, its gangue and hematite sum to 100, and its
      Fe is the hematite iron. */
  lemma RemoveLoiHematite(c: Composition)
    requires c.Valid() && "LOI" in c.entries && RemoveLoiSpec(c).Ok?
    ensures var r := RemoveLoiSpec(c).value;
            "LOI" !in r.entries && "hematite" in r.entries && "gangue" in r.entries && "Fe" in r.entries
            && r.entries["gangue"] + r.entries["hematite"] == 100.0
            && r.entries["Fe"] == IronIn(r.entries["hematite"], WrittenOut)
  {
    RemoveLoiRescales(c);
  }

  /** After the hematite step, every rescaled part other than gangue and
      Fe is the part times 100 over the parts' total. */
  lemma PartsScaled(parts: Composition, k: string)
    requires SumValues(parts) != 0.0 && k != "gangue" && k != "Fe"
    requires FromHematite(MapValues(parts, ScaleBy(100.0, SumValues(parts)))).Ok?
    ensures var r := FromHematite(MapValues(parts, ScaleBy(100.0, SumValues(parts)))).value;
            (k in parts.entries <==> k in r.entries)
            && (k in parts.entries ==> r.entries[k] == Scaled(parts.entries[k], 100.0, SumValues(parts)))
  {
  }

  /** Every part other than Fe, gangue and LOI is the ore's, scaled by 100
      over the total of those parts. */
  lemma RemoveLoiScalesParts(c: Composition, k: string)
    requires c.Valid() && "LOI" in c.entries && RemoveLoiSpec(c).Ok?
    requires k != "Fe" && k != "gangue" && k != "LOI"
    ensures SumValues(LoiFreeParts(c)) != 0.0
    ensures k in c.entries <==> k in RemoveLoiSpec(c).value.entries
    ensures k in c.entries ==>
              RemoveLoiSpec(c).value.entries[k] == Scaled(c.entries[k], 100.0, SumValues(LoiFreeParts(c)))
  {
    RemoveLoiRescales(c);
    PartsScaled(LoiFreeParts(c), k);
  }
}
