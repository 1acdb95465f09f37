/** Operating cost per tonne of steel (plant_costs.py and its low-emission
    copy): the price table and the consumed inputs are looked up by lower-cased
    name, the base electricity price is blended from the spot prices, and each
    priced input is charged according to the units of its price. */
module Prices {
  import opened Base
  import opened Dicts
  import opened Text

  /** `PriceUnits`. The low-emission copy names the first one `PerKilo` and
      has no capacity units; both are modelled by this one enumeration. */
  datatype PriceUnits =
    | PerKilogram
    | PerTonne
    | PerMegaWattHour
    | PerDevice
    | PerTonneOfAnnualCapacity
    | PerTonneOfProduct
    | PerKilogramOfCapacity
    | PerKiloWattOfCapacity

  /** `str(units)`, as it appears in an error message. */
  function UnitsName(u: PriceUnits): string {
    match u
    case PerKilogram => "PriceUnits.PerKilogram"
    case PerTonne => "PriceUnits.PerTonne"
    case PerMegaWattHour => "PriceUnits.PerMegaWattHour"
    case PerDevice => "PriceUnits.PerDevice"
    case PerTonneOfAnnualCapacity => "PriceUnits.PerTonneOfAnnualCapacity"
    case PerTonneOfProduct => "PriceUnits.PerTonneOfProduct"
    case PerKilogramOfCapacity => "PriceUnits.PerKilogramOfCapacity"
    case PerKiloWattOfCapacity => "PriceUnits.PerKiloWattOfCapacity"
  }

  datatype PriceEntry = PriceEntry(name: string, priceUsd: real, units: PriceUnits)

  /** Prices keyed by name, and amounts (kg or J per tonne of steel, or USD
      per tonne once costed) keyed by name. */
  type PriceTable = Dict<string, PriceEntry>
  type Amounts = Dict<string, real>

  const KeyClash: string := "Key clash detected after converting keys to lower case."
  const NoElectricity: string :=
    "No electricity prices set. Need either a 'Base Electricity' entry or both a "
    + "'Cheap Spot Electricity' and 'Expensive Spot Electricity' entry"

  // ---------------------------------------------------------------------
  // Lower-casing the keys of a dict, refusing a clash

  /** The lower-cased names, position by position. */
  function LowerAll(s: seq<string>): (r: seq<string>)
    ensures |r| == |s|
    ensures forall i {:trigger r[i]} :: 0 <= i < |s| ==> r[i] == Lower(s[i])
  {
    if s == [] then [] else LowerAll(s[..|s| - 1]) + [Lower(s[|s| - 1])]
  }

  /** `{k.lower(): v for k, v in d.items()}` over the first `n` keys: a later
      key that lowers to an earlier one overwrites its value in place. */
  function LowerFold<V>(d: Dict<string, V>, n: nat): Dict<string, V>
    requires d.Valid() && n <= |d.order|
  {
    if n == 0 then Empty()
    else Put(LowerFold(d, n - 1), Lower(d.order[n - 1]), d.entries[d.order[n - 1]])
  }

  lemma DistinctPrefix<T>(s: seq<T>, x: T)
    requires Distinct(s + [x])
    ensures Distinct(s) && x !in s
  {
    forall i | 0 <= i < |s| ensures s[i] != x {
      assert (s + [x])[i] == s[i] && (s + [x])[|s|] == x;
    }
    forall i, j | 0 <= i < j < |s| ensures s[i] != s[j] {
      assert (s + [x])[i] == s[i] && (s + [x])[j] == s[j];
    }
  }

  /** The dict has exactly these keys. */
  ghost predicate KeysAre<V>(d: Dict<string, V>, names: seq<string>) {
    forall y :: y in d.entries <==> y in names
  }

  /** One step of a comprehension that stores the names `names` in turn:
      storing one more name keeps the keys those of `names + [x]`, and the
      dict grows by one key exactly when the longer list has no repeats. */
  lemma PutStep<V>(prev: Dict<string, V>, names: seq<string>, x: string, v: V)
    requires prev.Valid() && |prev.order| <= |names|
    requires KeysAre(prev, names)
    requires |prev.order| == |names| <==> Distinct(names)
    ensures Put(prev, x, v).Valid() && |Put(prev, x, v).order| <= |names| + 1
    ensures KeysAre(Put(prev, x, v), names + [x])
    ensures |Put(prev, x, v).order| == |names| + 1 <==> Distinct(names + [x])
  {
    PutKeepsValid(prev, x, v);
    if x in prev.entries {
      var i :| 0 <= i < |names| && names[i] == x;
      assert (names + [x])[i] == (names + [x])[|names|];
    } else if Distinct(names) {
      AppendNewKeepsDistinct(names, x);
    } else if Distinct(names + [x]) {
      DistinctPrefix(names, x);
    }
  }

  /** The comprehension keeps every lowered key once, and it has as many
      keys as the dict exactly when no two keys lower to the same name. */
  lemma {:induction false} LowerFoldKeys<V>(d: Dict<string, V>, n: nat)
    requires d.Valid() && n <= |d.order|
    ensures LowerFold(d, n).Valid()
    ensures |LowerFold(d, n).order| <= n
    ensures KeysAre(LowerFold(d, n), LowerAll(d.order[..n]))
    ensures |LowerFold(d, n).order| == n <==> Distinct(LowerAll(d.order[..n]))
  {
    if n > 0 {
      LowerFoldKeys(d, n - 1);
      assert d.order[..n][..n - 1] == d.order[..n - 1];
      assert LowerAll(d.order[..n]) == LowerAll(d.order[..n - 1]) + [Lower(d.order[n - 1])];
      PutStep(LowerFold(d, n - 1), LowerAll(d.order[..n - 1]), Lower(d.order[n - 1]), d.entries[d.order[n - 1]]);
    }
  }

  /** Without a clash, the comprehension lists the lowered keys in order,
      each holding the value of the key it came from. */
  lemma {:induction false} LowerFoldDistinct<V>(d: Dict<string, V>, n: nat)
    requires d.Valid() && n <= |d.order| && Distinct(LowerAll(d.order[..n]))
    ensures LowerFold(d, n).order == LowerAll(d.order[..n])
    ensures forall i :: 0 <= i < n ==>
              Lower(d.order[i]) in LowerFold(d, n).entries
              && LowerFold(d, n).entries[Lower(d.order[i])] == d.entries[d.order[i]]
  {
    if n > 0 {
      var x := Lower(d.order[n - 1]);
      var lp := LowerAll(d.order[..n - 1]);
      var l := LowerAll(d.order[..n]);
      assert d.order[..n][..n - 1] == d.order[..n - 1];
      assert l == lp + [x];
      DistinctPrefix(lp, x);
      LowerFoldDistinct(d, n - 1);
      LowerFoldKeys(d, n - 1);
      var prev := LowerFold(d, n - 1);
      var entries := prev.entries[x := d.entries[d.order[n - 1]]];
      assert LowerFold(d, n).entries == entries;
      forall i | 0 <= i < n
        ensures l[i] in entries && entries[l[i]] == d.entries[d.order[i]]
      {
        if i < n - 1 {
          assert l[i] == lp[i] && l[i] != x;
        }
      }
      assert forall i :: 0 <= i < n ==> l[i] == Lower(d.order[i]);
    }
  }

  /** `{k.lower(): v for k, v in d.items()}` followed by the length check
      that raises on a clash: it raises exactly when two keys lower to the
      same name. */
  function LowerKeys<V>(d: Dict<string, V>): (r: Result<Dict<string, V>>)
    requires d.Valid()
    ensures r.Ok? <==> Distinct(LowerAll(d.order))
    ensures r.Err? ==> r.msg == KeyClash
  {
    LowerFoldKeys(d, |d.order|);
    assert d.order[..|d.order|] == d.order;
    var lowered := LowerFold(d, |d.order|);
    if |lowered.order| != |d.order| then Err(KeyClash) else Ok(lowered)
  }

  /** Without a clash, the lower-cased dict keeps the order of the keys it
      came from, and each lowered key holds that key's value. */
  lemma LowerKeysOk<V>(d: Dict<string, V>)
    requires d.Valid() && LowerKeys(d).Ok?
    ensures LowerKeys(d).value.Valid() && LowerKeys(d).value.order == LowerAll(d.order)
    ensures forall i :: 0 <= i < |d.order| ==>
              Lower(d.order[i]) in LowerKeys(d).value.entries && LowerKeys(d).value.entries[Lower(d.order[i])] == d.entries[d.order[i]]
  {
    LowerFoldKeys(d, |d.order|);
    assert d.order[..|d.order|] == d.order;
    LowerFoldDistinct(d, |d.order|);
  }

  /** Without a clash, the lower-cased dict is well formed. */
  lemma LowerKeysValid<V>(d: Dict<string, V>)
    requires d.Valid() && LowerKeys(d).Ok?
    ensures LowerKeys(d).value.Valid()
  {
    LowerKeysOk(d);
  }

  /** Lower-casing the keys raises exactly when two different keys differ
      only in letter case. */
  lemma LowerKeysClash<V>(d: Dict<string, V>)
    requires d.Valid()
    ensures LowerKeys(d).Err? <==>
              exists a, b :: a in d.entries && b in d.entries && a != b && Lower(a) == Lower(b)
  {
    if LowerKeys(d).Err? {
      ClashFromRepeat(d);
    } else {
      LowerKeysOk(d);
      forall a, b | a in d.entries && b in d.entries && a != b ensures Lower(a) != Lower(b) {
        NoClashAt(d, a, b);
      }
    }
  }

  lemma ClashFromRepeat<V>(d: Dict<string, V>)
    requires d.Valid() && !Distinct(LowerAll(d.order))
    ensures exists a, b :: a in d.entries && b in d.entries && a != b && Lower(a) == Lower(b)
  {
    var l := LowerAll(d.order);
    var i, j :| 0 <= i < j < |l| && l[i] == l[j];
    assert d.order[i] != d.order[j] && d.order[i] in d.entries && d.order[j] in d.entries;
  }

  lemma NoClashAt<V>(d: Dict<string, V>, a: string, b: string)
    requires d.Valid() && Distinct(LowerAll(d.order))
    requires a in d.entries && b in d.entries && a != b
    ensures Lower(a) != Lower(b)
  {
    var i :| 0 <= i < |d.order| && d.order[i] == a;
    var j :| 0 <= j < |d.order| && d.order[j] == b;
    assert LowerAll(d.order)[i] != LowerAll(d.order)[j];
  }

  /** After lower-casing without a clash, a name is found exactly when it is
      the lower-case form of a key, and it holds that key's value. */
  lemma LowerKeysLookup<V>(d: Dict<string, V>, k: string)
    requires d.Valid() && LowerKeys(d).Ok?
    ensures k in LowerKeys(d).value.entries <==> exists n :: n in d.entries && Lower(n) == k
    ensures forall n :: n in d.entries && Lower(n) == k ==> LowerKeys(d).value.entries[k] == d.entries[n]
  {
    LowerKeysOk(d);
    var r := LowerKeys(d).value;
    if k in r.entries {
      assert k in r.order;
      var i :| 0 <= i < |r.order| && r.order[i] == k;
      assert d.order[i] in d.entries && Lower(d.order[i]) == k;
    }
    forall n | n in d.entries && Lower(n) == k ensures k in r.entries && r.entries[k] == d.entries[n] {
      assert n in d.order;
      var i :| 0 <= i < |d.order| && d.order[i] == n;
      assert r.order[i] == k;
    }
  }

  // ---------------------------------------------------------------------
  // Electricity prices

  const CheapSpot: string := "cheap spot electricity"
  const ExpensiveSpot: string := "expensive spot electricity"
  const BaseElectricity: string := "base electricity"

  /** The price of electricity bought at the cheap spot price for `hours`
      hours a day and at the expensive price for the rest of the day. */
  function Blended(hours: real, cheap: real, expensive: real): real {
    (hours * cheap + (24.0 - hours) * expensive) / 24.0
  }

  /** Over a day of 0 to 24 cheap hours the blended price lies between the two
      spot prices, and it is the cheap price for a fully cheap day and the
      expensive price for a day without cheap hours. */
  lemma BlendedBetween(hours: real, cheap: real, expensive: real)
    requires 0.0 <= hours <= 24.0
    ensures Min(cheap, expensive) <= Blended(hours, cheap, expensive) <= Max(cheap, expensive)
    ensures Blended(24.0, cheap, expensive) == cheap && Blended(0.0, cheap, expensive) == expensive
  {
    var b := Blended(hours, cheap, expensive);
    assert b == cheap + (24.0 - hours) * (expensive - cheap) / 24.0;
    assert b == expensive - hours * (expensive - cheap) / 24.0;
    if cheap <= expensive {
      MulNonNegative(24.0 - hours, expensive - cheap);
      MulNonNegative(hours, expensive - cheap);
    } else {
      MulNonNegative(24.0 - hours, cheap - expensive);
      MulNonNegative(hours, cheap - expensive);
    }
  }

  /** The electricity entries of plant_costs.py. With both spot prices, a
      'Base Electricity' entry at the blended price is stored in the caller's
      table (`.0`) and under `base electricity` in the lower-cased one (`.1`);
      with only a base price, a 'Cheap Spot Electricity' entry at that price
      is stored in the caller's table and under `cheapKey` in the lower-cased
      one; with neither, it raises. */
  function SpotPrices(prices: PriceTable, pl: PriceTable, hours: real, cheapKey: string): (r: Result<(PriceTable, PriceTable)>)
    requires prices.Valid() && pl.Valid()
    ensures r.Ok? <==> (CheapSpot in pl.entries && ExpensiveSpot in pl.entries) || BaseElectricity in pl.entries
    ensures r.Err? ==> r.msg == NoElectricity
    ensures r.Ok? ==> r.value.0.Valid() && r.value.1.Valid()
    ensures CheapSpot in pl.entries && ExpensiveSpot in pl.entries ==>
              var base := PriceEntry("Base Electricity", Blended(hours, pl.entries[CheapSpot].priceUsd, pl.entries[ExpensiveSpot].priceUsd), PerMegaWattHour);
              r.value.0 == Put(prices, "Base Electricity", base)
              && r.value.1 == Put(pl, BaseElectricity, base.(name := BaseElectricity))
    ensures !(CheapSpot in pl.entries && ExpensiveSpot in pl.entries) && BaseElectricity in pl.entries ==>
              var base := pl.entries[BaseElectricity].priceUsd;
              r.value.0 == Put(prices, "Cheap Spot Electricity", PriceEntry("Cheap Spot Electricity", base, PerMegaWattHour))
              && r.value.1 == Put(pl, cheapKey, PriceEntry(cheapKey, base, PerMegaWattHour))
  {
    if CheapSpot in pl.entries && ExpensiveSpot in pl.entries then
      var base := Blended(hours, pl.entries[CheapSpot].priceUsd, pl.entries[ExpensiveSpot].priceUsd);
      var entry := PriceEntry("Base Electricity", base, PerMegaWattHour);
      PutKeepsValid(prices, "Base Electricity", entry);
      PutKeepsValid(pl, BaseElectricity, PriceEntry(BaseElectricity, base, PerMegaWattHour));
      Ok((Put(prices, "Base Electricity", entry), Put(pl, BaseElectricity, PriceEntry(BaseElectricity, base, PerMegaWattHour))))
    else if BaseElectricity in pl.entries then
      var base := pl.entries[BaseElectricity].priceUsd;
      var entry := PriceEntry("Cheap Spot Electricity", base, PerMegaWattHour);
      PutKeepsValid(prices, "Cheap Spot Electricity", entry);
      PutKeepsValid(pl, cheapKey, PriceEntry(cheapKey, base, PerMegaWattHour));
      Ok((Put(prices, "Cheap Spot Electricity", entry), Put(pl, cheapKey, PriceEntry(cheapKey, base, PerMegaWattHour))))
    else
      Err(NoElectricity)
  }

  /** The electricity entries are priced per megawatt-hour, so every price
      quoted per tonne of product comes from the lower-cased table. */
  lemma SpotPricesKeepProducts(prices: PriceTable, pl: PriceTable, hours: real, cheapKey: string, k: string)
    requires prices.Valid() && pl.Valid() && SpotPrices(prices, pl, hours, cheapKey).Ok?
    requires k in SpotPrices(prices, pl, hours, cheapKey).value.1.entries
    requires SpotPrices(prices, pl, hours, cheapKey).value.1.entries[k].units == PerTonneOfProduct
    ensures k in pl.entries && pl.entries[k].units == PerTonneOfProduct
  {
  }

  // ---------------------------------------------------------------------
  // Charging the inputs

  /** The units a consumed input can be priced in. */
  predicate Consumable(u: PriceUnits) {
    u == PerKilogram || u == PerTonne || u == PerMegaWattHour || u == PerTonneOfProduct
  }

  /** The size of one unit of a consumable price, in the unit the inputs are
      measured in: kilograms, or joules for a megawatt-hour. */
  function UnitSize(u: PriceUnits): real
    requires Consumable(u)
  {
    match u
    case PerTonne => 1000.0
    case PerMegaWattHour => 3.6e9
    case _ => 1.0
  }

  /** The unit dispatch: the cost of `amount` of an input priced by `p`. */
  function Charge(amount: real, p: PriceEntry): (r: Result<real>)
    ensures r.Ok? <==> Consumable(p.units)
    ensures r.Ok? ==> r.value == amount * p.priceUsd / UnitSize(p.units)
    ensures r.Err? ==> r.msg == "Price units not recognised or invalid for consumables: " + UnitsName(p.units)
  {
    if p.units == PerKilogram then Ok(amount * p.priceUsd)
    else if p.units == PerTonne then Ok(amount * p.priceUsd / 1000.0)
    else if p.units == PerMegaWattHour then Ok(amount * p.priceUsd / 3.6e9)
    else if p.units == PerTonneOfProduct then Ok(amount * p.priceUsd)
    else Err("Price units not recognised or invalid for consumables: " + UnitsName(p.units))
  }

  /** One unit of what a price is quoted for costs exactly that price, and
      charges add up over amounts. */
  lemma ChargeConsistent(p: PriceEntry, a: real, b: real)
    requires Consumable(p.units)
    ensures Charge(UnitSize(p.units), p) == Ok(p.priceUsd)
    ensures Charge(a + b, p).value == Charge(a, p).value + Charge(b, p).value
  {
    assert (a + b) * p.priceUsd == a * p.priceUsd + b * p.priceUsd;
  }

  /** The first loop: every price quoted per tonne of product is a cost of
      its own, over the first `n` lower-cased price names. */
  function ProductCosts(pl: PriceTable, n: nat): Amounts
    requires pl.Valid() && n <= |pl.order|
  {
    if n == 0 then Empty()
    else
      var k := pl.order[n - 1];
      var prev := ProductCosts(pl, n - 1);
      if pl.entries[k].units == PerTonneOfProduct then Put(prev, k, pl.entries[k].priceUsd) else prev
  }

  /** A name has a cost exactly when it is among the price names so far and
      quoted per tonne of product, and that cost is its price. */
  lemma {:induction false} ProductCostsAt(pl: PriceTable, n: nat, k: string)
    requires pl.Valid() && n <= |pl.order|
    ensures k in ProductCosts(pl, n).entries <==> k in pl.order[..n] && pl.entries[k].units == PerTonneOfProduct
    ensures k in ProductCosts(pl, n).entries ==> ProductCosts(pl, n).entries[k] == pl.entries[k].priceUsd
  {
    if n > 0 {
      ProductCostsAt(pl, n - 1, k);
      assert pl.order[..n] == pl.order[..n - 1] + [pl.order[n - 1]];
    }
  }

  lemma {:induction false} ProductCostsValid(pl: PriceTable, n: nat)
    requires pl.Valid() && n <= |pl.order|
    ensures ProductCosts(pl, n).Valid()
  {
    if n > 0 {
      ProductCostsValid(pl, n - 1);
      var k := pl.order[n - 1];
      PutKeepsValid(ProductCosts(pl, n - 1), k, pl.entries[k].priceUsd);
    }
  }

  /** The second loop over the first `n` lower-cased inputs, starting from
      `costs`: a priced input is charged, an unpriced one is skipped, and the
      first price in units that are not for consumables raises. */
  function InputCosts(il: Amounts, pl: PriceTable, n: nat, costs: Amounts): Result<Amounts>
    requires il.Valid() && n <= |il.order|
  {
    if n == 0 then Ok(costs)
    else
      var prev :- InputCosts(il, pl, n - 1, costs);
      var k := il.order[n - 1];
      if k in pl.entries then
        var c :- Charge(il.entries[k], pl.entries[k]);
        Ok(Put(prev, k, c))
      else Ok(prev)
  }

  /** The inputs raise exactly when one of them is priced in units that are
      not for consumables. */
  lemma {:induction false} InputCostsFailIff(il: Amounts, pl: PriceTable, n: nat, costs: Amounts)
    requires il.Valid() && n <= |il.order|
    ensures InputCosts(il, pl, n, costs).Err? <==>
              exists i :: 0 <= i < n && il.order[i] in pl.entries && !Consumable(pl.entries[il.order[i]].units)
  {
    if n > 0 {
      InputCostsFailIff(il, pl, n - 1, costs);
    }
  }

  /** Without a failure, a name has a cost exactly when it had one at the
      start or it is a priced input; a priced input is charged by its price,
      and any other starting cost is kept. */
  lemma {:induction false} InputCostsAt(il: Amounts, pl: PriceTable, n: nat, costs: Amounts, r: Amounts, k: string)
    requires il.Valid() && n <= |il.order| && InputCosts(il, pl, n, costs) == Ok(r)
    ensures k in r.entries <==> k in costs.entries || (k in il.order[..n] && k in pl.entries)
    ensures k in il.order[..n] && k in pl.entries ==> Charge(il.entries[k], pl.entries[k]) == Ok(r.entries[k])
    ensures k in costs.entries && k !in il.order[..n] ==> r.entries[k] == costs.entries[k]
  {
    if n > 0 {
      var prev := InputCosts(il, pl, n - 1, costs).value;
      InputCostsAt(il, pl, n - 1, costs, prev, k);
      assert il.order[..n] == il.order[..n - 1] + [il.order[n - 1]];
    }
  }

  lemma {:induction false} InputCostsValid(il: Amounts, pl: PriceTable, n: nat, costs: Amounts, r: Amounts)
    requires il.Valid() && costs.Valid() && n <= |il.order| && InputCosts(il, pl, n, costs) == Ok(r)
    ensures r.Valid()
  {
    if n > 0 {
      var prev := InputCosts(il, pl, n - 1, costs).value;
      InputCostsValid(il, pl, n - 1, costs, prev);
      var k := il.order[n - 1];
      if k in pl.entries {
        PutKeepsValid(prev, k, Charge(il.entries[k], pl.entries[k]).value);
      }
    }
  }

  /** A failure in a prefix of the inputs is the failure of every longer
      prefix. */
  lemma {:induction false} InputCostsFailureSticks(il: Amounts, pl: PriceTable, n: nat, m: nat, costs: Amounts)
    requires il.Valid() && n <= m <= |il.order| && InputCosts(il, pl, n, costs).Err?
    ensures InputCosts(il, pl, m, costs) == InputCosts(il, pl, n, costs)
    decreases m - n
  {
    if n < m {
      InputCostsFailureSticks(il, pl, n, m - 1, costs);
    }
  }

  /** The second loop of `operating_cost_per_tonne`, shared by both copies. */
  method ChargeInputs(il: Amounts, pl: PriceTable, costs: Amounts) returns (r: Result<Amounts>)
    requires il.Valid()
    ensures r == InputCosts(il, pl, |il.order|, costs)
  {
    var acc := costs;
    var i := 0;
    while i < |il.order|
      invariant 0 <= i <= |il.order|
      invariant InputCosts(il, pl, i, costs) == Ok(acc)
    {
      var k := il.order[i];
      if k in pl.entries {
        var c := Charge(il.entries[k], pl.entries[k]);
        if c.Err? {
          InputCostsFailureSticks(il, pl, i + 1, |il.order|, costs);
          return Err(c.msg);
        }
        acc := Put(acc, k, c.value);
      }
      i := i + 1;
    }
    r := Ok(acc);
  }

  // ---------------------------------------------------------------------
  // operating_cost_per_tonne, plant_costs.py

  /** The lower-case name the base-price branch stores its cheap spot entry
      under in plant_costs.py: misspelt there. */
  const CheapSpotAsWritten: string := "cheap spot clectricity"

  lemma MisspeltKeyDiffers()
    ensures CheapSpotAsWritten != CheapSpot
  {
    assert CheapSpotAsWritten[11] != CheapSpot[11];
  }

  /** `operating_cost_per_tonne` with the cheap spot entry of the base-price
      branch stored under `cheapKey` in the lower-cased prices. */
  function OperatingCostsKeyed(inputs: Amounts, prices: PriceTable, hours: real, cheapKey: string): Result<Amounts>
    requires inputs.Valid() && prices.Valid()
  {
    var il :- LowerKeys(inputs);
    var pl :- LowerKeys(prices);
    LowerKeysOk(inputs);
    LowerKeysOk(prices);
    var spot :- SpotPrices(prices, pl, hours, cheapKey);
    InputCosts(il, spot.1, |il.order|, ProductCosts(spot.1, |spot.1.order|))
  }

  /** `operating_cost_per_tonne` as written: a key clash in either table
      raises first, then a table without usable electricity prices. */
  function OperatingCostsAsWritten(inputs: Amounts, prices: PriceTable, hours: real): (r: Result<Amounts>)
    requires inputs.Valid() && prices.Valid()
    ensures LowerKeys(inputs).Err? || LowerKeys(prices).Err? ==> r == Err(KeyClash)
    ensures LowerKeys(inputs).Ok? && LowerKeys(prices).Ok?
            && !(CheapSpot in LowerKeys(prices).value.entries && ExpensiveSpot in LowerKeys(prices).value.entries)
            && BaseElectricity !in LowerKeys(prices).value.entries
            ==> r == Err(NoElectricity)
  {
    OperatingCostsKeyed(inputs, prices, hours, CheapSpotAsWritten)
  }

  /** `operating_cost_per_tonne` with the cheap spot entry stored under its
      own lower-case name. */
  function OperatingCosts(inputs: Amounts, prices: PriceTable, hours: real): Result<Amounts>
    requires inputs.Valid() && prices.Valid()
  {
    OperatingCostsKeyed(inputs, prices, hours, CheapSpot)
  }

  /** The misspelt key matters only in the base-price branch: with both
      spot prices quoted, the costs as written are those of the corrected
      key. */
  lemma AsWrittenAgreesWithSpotPrices(inputs: Amounts, prices: PriceTable, hours: real)
    requires inputs.Valid() && prices.Valid()
    requires LowerKeys(prices).Ok? ==>
               CheapSpot in LowerKeys(prices).value.entries && ExpensiveSpot in LowerKeys(prices).value.entries
    ensures OperatingCostsAsWritten(inputs, prices, hours) == OperatingCosts(inputs, prices, hours)
  {
  }

  /** The steps of a successful `operating_cost_per_tonne`: both
      lower-casings, the electricity entries and the two loops. */
  lemma KeyedSteps(inputs: Amounts, prices: PriceTable, hours: real, cheapKey: string, r: Amounts)
    returns (il: Amounts, pl: PriceTable, spot: PriceTable)
    requires inputs.Valid() && prices.Valid() && OperatingCostsKeyed(inputs, prices, hours, cheapKey) == Ok(r)
    ensures LowerKeys(inputs) == Ok(il) && il.Valid() && LowerKeys(prices) == Ok(pl) && pl.Valid()
    ensures SpotPrices(prices, pl, hours, cheapKey).Ok? && spot == SpotPrices(prices, pl, hours, cheapKey).value.1
    ensures spot.Valid() && InputCosts(il, spot, |il.order|, ProductCosts(spot, |spot.order|)) == Ok(r)
  {
    LowerKeysValid(inputs);
    LowerKeysValid(prices);
    il := LowerKeys(inputs).value;
    pl := LowerKeys(prices).value;
    spot := SpotPrices(prices, pl, hours, cheapKey).value.1;
  }

  /** The caller's price table after the call: the electricity entry is
      inserted once both lower-casings succeed, whatever happens next. */
  function PricesAfter(inputs: Amounts, prices: PriceTable, hours: real): PriceTable
    requires inputs.Valid() && prices.Valid()
  {
    var il := LowerKeys(inputs);
    var pl := LowerKeys(prices);
    if il.Err? || pl.Err? then prices
    else
      LowerKeysOk(prices);
      var spot := SpotPrices(prices, pl.value, hours, CheapSpot);
      if spot.Err? then prices else spot.value.0
  }

  /** The first loop of `operating_cost_per_tonne`. */
  method ChargeProducts(pl: PriceTable) returns (costs: Amounts)
    requires pl.Valid()
    ensures costs == ProductCosts(pl, |pl.order|)
  {
    costs := Empty();
    var i := 0;
    while i < |pl.order|
      invariant 0 <= i <= |pl.order|
      invariant costs == ProductCosts(pl, i)
    {
      var k := pl.order[i];
      if pl.entries[k].units == PerTonneOfProduct {
        costs := Put(costs, k, pl.entries[k].priceUsd);
      }
      i := i + 1;
    }
  }

  /** `operating_cost_per_tonne`: the result, and the caller's price table
      after the entries it inserts. */
  method OperatingCostPerTonne(inputs: Amounts, prices: PriceTable, hours: real)
    returns (r: Result<Amounts>, pricesAfter: PriceTable)
    requires inputs.Valid() && prices.Valid()
    ensures r == OperatingCostsAsWritten(inputs, prices, hours)
    ensures pricesAfter == PricesAfter(inputs, prices, hours)
  {
    pricesAfter := prices;
    var il := LowerKeys(inputs);
    if il.Err? {
      return Err(il.msg), pricesAfter;
    }
    var pl := LowerKeys(prices);
    if pl.Err? {
      return Err(pl.msg), pricesAfter;
    }
    LowerKeysOk(inputs);
    LowerKeysOk(prices);
    var spot := SpotPrices(prices, pl.value, hours, CheapSpotAsWritten);
    if spot.Err? {
      return Err(spot.msg), pricesAfter;
    }
    pricesAfter := spot.value.0;
    var costs := ChargeProducts(spot.value.1);
    r := ChargeInputs(il.value, spot.value.1, costs);
  }

  /** Every cost is named after a consumed input or after a price quoted per
      tonne of product (lower-cased either way), and every consumed input
      whose lower-case name is priced is charged by that price. */
  lemma OperatingCostsCover(inputs: Amounts, prices: PriceTable, hours: real, cheapKey: string, r: Amounts, k: string)
    requires inputs.Valid() && prices.Valid() && OperatingCostsKeyed(inputs, prices, hours, cheapKey) == Ok(r)
    requires k in r.entries
    ensures (exists n :: n in inputs.entries && Lower(n) == k)
            || (exists n :: n in prices.entries && Lower(n) == k && prices.entries[n].units == PerTonneOfProduct)
  {
    LowerKeysOk(inputs);
    LowerKeysOk(prices);
    var il := LowerKeys(inputs).value;
    var pl := LowerKeys(prices).value;
    var spot := SpotPrices(prices, pl, hours, cheapKey).value.1;
    CostsNamedAfterInputsOrProducts(il, spot, r, k);
    if k in il.order {
      LowerKeysLookup(inputs, k);
    } else {
      SpotPricesKeepProducts(prices, pl, hours, cheapKey, k);
      LowerKeysLookup(prices, k);
    }
  }

  /** The two loops name every cost after a consumed input or a price
      quoted per tonne of product. */
  lemma CostsNamedAfterInputsOrProducts(il: Amounts, pl: PriceTable, r: Amounts, k: string)
    requires il.Valid() && pl.Valid()
    requires InputCosts(il, pl, |il.order|, ProductCosts(pl, |pl.order|)) == Ok(r) && k in r.entries
    ensures k in il.order || (k in pl.entries && pl.entries[k].units == PerTonneOfProduct)
  {
    ProductCostsAt(pl, |pl.order|, k);
    InputCostsAt(il, pl, |il.order|, ProductCosts(pl, |pl.order|), r, k);
    assert il.order[..|il.order|] == il.order;
    assert pl.order[..|pl.order|] == pl.order;
  }

  /** A key of the dict is found under its lower-case form, with its value. */
  lemma LoweredAt<V>(d: Dict<string, V>, n: string)
    requires d.Valid() && LowerKeys(d).Ok? && n in d.entries
    ensures Lower(n) in LowerKeys(d).value.entries && LowerKeys(d).value.entries[Lower(n)] == d.entries[n]
  {
    LowerKeysLookup(d, Lower(n));
  }

  /** Energy priced per megawatt-hour is charged per 3.6e9 joules. */
  lemma ChargePerMegaWattHour(amount: real, p: PriceEntry, c: real, price: real)
    requires p.units == PerMegaWattHour && p.priceUsd == price && Charge(amount, p) == Ok(c)
    ensures c == amount * price / 3.6e9
  {
  }

  /** After both loops, a priced input has the cost its price charges. */
  lemma ChargedAt(il: Amounts, pl: PriceTable, costs: Amounts, r: Amounts, k: string)
    requires il.Valid() && k in il.entries && k in pl.entries && InputCosts(il, pl, |il.order|, costs) == Ok(r)
    ensures k in r.entries && Charge(il.entries[k], pl.entries[k]) == Ok(r.entries[k])
  {
    InputCostsAt(il, pl, |il.order|, costs, r, k);
    assert il.order[..|il.order|] == il.order;
  }

  /** A consumed input whose lower-case name is priced per megawatt-hour
      is charged per 3.6e9 joules at that price. */
  lemma ChargedPerMegaWattHourAt(inputs: Amounts, il: Amounts, pl: PriceTable, costs: Amounts, r: Amounts, n: string, price: real)
    requires inputs.Valid() && LowerKeys(inputs) == Ok(il) && il.Valid() && n in inputs.entries
    requires Lower(n) in pl.entries && pl.entries[Lower(n)].units == PerMegaWattHour && pl.entries[Lower(n)].priceUsd == price
    requires InputCosts(il, pl, |il.order|, costs) == Ok(r)
    ensures Lower(n) in r.entries && r.entries[Lower(n)] == inputs.entries[n] * price / 3.6e9
  {
    var k, amount := Lower(n), inputs.entries[n];
    LoweredAt(inputs, n);
    assert il.entries[k] == amount;
    ChargedAt(il, pl, costs, r, k);
    ChargePerMegaWattHour(amount, pl.entries[k], r.entries[k], price);
  }

  /** After both loops, a name without a price has no cost. */
  lemma UnchargedAt(il: Amounts, pl: PriceTable, r: Amounts, k: string)
    requires il.Valid() && pl.Valid() && k !in pl.entries
    requires InputCosts(il, pl, |il.order|, ProductCosts(pl, |pl.order|)) == Ok(r)
    ensures k !in r.entries
  {
    ProductCostsAt(pl, |pl.order|, k);
    InputCostsAt(il, pl, |il.order|, ProductCosts(pl, |pl.order|), r, k);
  }

  /** With both spot prices, an input that lower-cases to `base electricity`
      is charged per megawatt-hour at the blended price. */
  lemma BaseElectricityBlended(inputs: Amounts, prices: PriceTable, hours: real, r: Amounts, n: string, cheap: string, expensive: string, blend: real)
    requires inputs.Valid() && prices.Valid() && OperatingCostsAsWritten(inputs, prices, hours) == Ok(r)
    requires cheap in prices.entries && Lower(cheap) == CheapSpot
    requires expensive in prices.entries && Lower(expensive) == ExpensiveSpot
    requires n in inputs.entries && Lower(n) == BaseElectricity
    requires blend == Blended(hours, prices.entries[cheap].priceUsd, prices.entries[expensive].priceUsd)
    ensures BaseElectricity in r.entries && r.entries[BaseElectricity] == inputs.entries[n] * blend / 3.6e9
  {
    var il, pl, spot := KeyedSteps(inputs, prices, hours, CheapSpotAsWritten, r);
    assert BaseElectricity in spot.entries && spot.entries[BaseElectricity].units == PerMegaWattHour
           && spot.entries[BaseElectricity].priceUsd == blend by {
      LoweredAt(prices, cheap);
      LoweredAt(prices, expensive);
    }
    ChargedPerMegaWattHourAt(inputs, il, spot, ProductCosts(spot, |spot.order|), r, n, blend);
  }

  /** The misspelt key of plant_costs.py: with only a base price, the cheap
      spot entry it adds to the lower-cased prices is not found under
      `cheap spot electricity`, so an input of that name goes uncharged. */
  lemma CheapSpotAsWrittenUncharged(inputs: Amounts, prices: PriceTable, hours: real, r: Amounts)
    requires inputs.Valid() && prices.Valid() && OperatingCostsAsWritten(inputs, prices, hours) == Ok(r)
    requires forall k :: k in prices.entries ==> Lower(k) != CheapSpot
    ensures CheapSpot !in r.entries
  {
    var il, pl, spot := KeyedSteps(inputs, prices, hours, CheapSpotAsWritten, r);
    MisspeltKeyDiffers();
    assert CheapSpot !in spot.entries by {
      LowerKeysLookup(prices, CheapSpot);
    }
    UnchargedAt(il, spot, r, CheapSpot);
  }

  /** Stored under its own name, the cheap spot entry charges an input of
      that name per megawatt-hour at the base price. */
  lemma CheapSpotChargedAtBase(inputs: Amounts, prices: PriceTable, hours: real, r: Amounts, n: string, b: string, base: real)
    requires inputs.Valid() && prices.Valid() && OperatingCosts(inputs, prices, hours) == Ok(r)
    requires forall k :: k in prices.entries ==> Lower(k) != CheapSpot
    requires b in prices.entries && Lower(b) == BaseElectricity && prices.entries[b].priceUsd == base
    requires n in inputs.entries && Lower(n) == CheapSpot
    ensures CheapSpot in r.entries && r.entries[CheapSpot] == inputs.entries[n] * base / 3.6e9
  {
    var il, pl, spot := KeyedSteps(inputs, prices, hours, CheapSpot, r);
    assert CheapSpot in spot.entries && spot.entries[CheapSpot].units == PerMegaWattHour
           && spot.entries[CheapSpot].priceUsd == base by {
      LowerKeysLookup(prices, CheapSpot);
      LoweredAt(prices, b);
    }
    ChargedPerMegaWattHourAt(inputs, il, spot, ProductCosts(spot, |spot.order|), r, n, base);
  }

  // ---------------------------------------------------------------------
  // operating_cost_per_tonne, low-emission copy

  /** The fixed spot prices of the low-emission copy, in USD per MWh. */
  const LowEmissionCheapSpotPrice: real := 54.5
  const LowEmissionExpensiveSpotPrice: real := 93.1

  /** The caller's prices once the low-emission copy has stored its blended
      'Base Electricity' entry, which it does before anything else. */
  function WithLowEmissionElectricity(prices: PriceTable, hours: real): (r: PriceTable)
    requires prices.Valid()
    ensures r.entries == prices.entries["Base Electricity" :=
              PriceEntry("Base Electricity", Blended(hours, LowEmissionCheapSpotPrice, LowEmissionExpensiveSpotPrice), PerMegaWattHour)]
    ensures r.Valid()
  {
    var entry := PriceEntry("Base Electricity", Blended(hours, LowEmissionCheapSpotPrice, LowEmissionExpensiveSpotPrice), PerMegaWattHour);
    PutKeepsValid(prices, "Base Electricity", entry);
    Put(prices, "Base Electricity", entry)
  }

  /** `operating_cost_per_tonne` of the low-emission copy: no per-tonne-of-
      product pass, and the key clash check sees the inserted entry. */
  function OperatingCostsLowEmission(inputs: Amounts, prices: PriceTable, hours: real): (r: Result<Amounts>)
    requires inputs.Valid() && prices.Valid()
    ensures LowerKeys(inputs).Err? || LowerKeys(WithLowEmissionElectricity(prices, hours)).Err? ==> r == Err(KeyClash)
    ensures LowerKeys(inputs).Ok? && LowerKeys(WithLowEmissionElectricity(prices, hours)).Ok? ==>
              var il, pl := LowerKeys(inputs).value, LowerKeys(WithLowEmissionElectricity(prices, hours)).value;
              (r.Err? <==> exists i :: 0 <= i < |il.order| && il.order[i] in pl.entries && !Consumable(pl.entries[il.order[i]].units))
  {
    var il :- LowerKeys(inputs);
    LowerKeysOk(inputs);
    LowerKeysValid(inputs);
    var pl :- LowerKeys(WithLowEmissionElectricity(prices, hours));
    InputCostsFailIff(il, pl, |il.order|, Empty());
    InputCosts(il, pl, |il.order|, Empty())
  }

  /** The steps of a successful low-emission `operating_cost_per_tonne`. */
  lemma LowEmissionSteps(inputs: Amounts, prices: PriceTable, hours: real, r: Amounts) returns (il: Amounts, pl: PriceTable)
    requires inputs.Valid() && prices.Valid() && OperatingCostsLowEmission(inputs, prices, hours) == Ok(r)
    ensures LowerKeys(inputs) == Ok(il) && il.Valid()
    ensures LowerKeys(WithLowEmissionElectricity(prices, hours)) == Ok(pl)
    ensures InputCosts(il, pl, |il.order|, Empty()) == Ok(r)
  {
    il := LowerKeys(inputs).value;
    LowerKeysValid(inputs);
    pl := LowerKeys(WithLowEmissionElectricity(prices, hours)).value;
  }

  method OperatingCostPerTonneLowEmission(inputs: Amounts, prices: PriceTable, hours: real)
    returns (r: Result<Amounts>, pricesAfter: PriceTable)
    requires inputs.Valid() && prices.Valid()
    ensures r == OperatingCostsLowEmission(inputs, prices, hours)
    ensures pricesAfter == WithLowEmissionElectricity(prices, hours)
  {
    pricesAfter := WithLowEmissionElectricity(prices, hours);
    var il := LowerKeys(inputs);
    if il.Err? {
      return Err(il.msg), pricesAfter;
    }
    var pl := LowerKeys(pricesAfter);
    if pl.Err? {
      return Err(pl.msg), pricesAfter;
    }
    LowerKeysOk(inputs);
    r := ChargeInputs(il.value, pl.value, Empty());
  }

  /** Storing a key next to another spelling of it makes lower-casing the
      keys raise. */
  lemma ClashAfterPut<V>(d: Dict<string, V>, key: string, v: V, k: string)
    requires d.Valid() && k in d.entries && k != key && Lower(k) == Lower(key)
    ensures Put(d, key, v).Valid() && LowerKeys(Put(d, key, v)) == Err(KeyClash)
  {
    PutKeepsValid(d, key, v);
    var p := Put(d, key, v);
    assert k in p.entries && key in p.entries;
    LowerKeysClash(p);
  }

  /** Because the entry is stored before the check, a caller's table that
      already holds base electricity under another spelling of the name
      always raises the key clash. */
  lemma LowEmissionBaseClashes(inputs: Amounts, prices: PriceTable, hours: real, k: string)
    requires inputs.Valid() && prices.Valid()
    requires k in prices.entries && k != "Base Electricity" && Lower(k) == Lower("Base Electricity")
    ensures OperatingCostsLowEmission(inputs, prices, hours) == Err(KeyClash)
  {
    ClashAfterPut(prices, "Base Electricity",
      PriceEntry("Base Electricity", Blended(hours, LowEmissionCheapSpotPrice, LowEmissionExpensiveSpotPrice), PerMegaWattHour), k);
  }

  /** An input that lower-cases to `base electricity` is charged per
      megawatt-hour at the blend of the two fixed spot prices. */
  lemma LowEmissionBaseCharge(inputs: Amounts, prices: PriceTable, hours: real, r: Amounts, n: string, blend: real)
    requires inputs.Valid() && prices.Valid() && OperatingCostsLowEmission(inputs, prices, hours) == Ok(r)
    requires n in inputs.entries && Lower(n) == Lower("Base Electricity")
    requires blend == Blended(hours, LowEmissionCheapSpotPrice, LowEmissionExpensiveSpotPrice)
    ensures Lower(n) in r.entries && r.entries[Lower(n)] == inputs.entries[n] * blend / 3.6e9
  {
    var il, pl := LowEmissionSteps(inputs, prices, hours, r);
    assert Lower(n) in pl.entries && pl.entries[Lower(n)].units == PerMegaWattHour && pl.entries[Lower(n)].priceUsd == blend by {
      LoweredAt(WithLowEmissionElectricity(prices, hours), "Base Electricity");
    }
    ChargedPerMegaWattHourAt(inputs, il, pl, Empty(), r, n, blend);
  }
}
