/** Piecewise heat-capacity data and the enthalpy change it gives (thermo.py):
    Shomate and constant heat-capacity segments, latent heats at phase changes,
    and ThermoData, which chains segments into one continuous range. */
module Thermo {
  import opened Base
  import opened Sorting

  /** A heat-capacity model valid on [minKelvin, maxKelvin]. Shomate carries
      the NIST coefficients A..H; SimpleCp a constant cp in J/(mol K). */
  datatype HeatCapacity =
    | Shomate(minKelvin: real, maxKelvin: real, coeffs: seq<real>)
    | SimpleCp(minKelvin: real, maxKelvin: real, cp: real)

  /** What both constructors assert before storing their arguments. */
  predicate WellFormed(hc: HeatCapacity) {
    hc.minKelvin < hc.maxKelvin && (hc.Shomate? ==> |hc.coeffs| == 8)
  }

  type Segment = hc: HeatCapacity | WellFormed(hc) witness SimpleCp(0.0, 1.0, 0.0)

  /** `ShomateEquation(min_kelvin, max_kelvin, coeffs)`. */
  function NewShomate(minKelvin: real, maxKelvin: real, coeffs: seq<real>): (r: Result<Segment>)
    ensures r.Ok? <==> minKelvin < maxKelvin && |coeffs| == 8
    ensures r.Ok? ==> r.value == Shomate(minKelvin, maxKelvin, coeffs)
  {
    if minKelvin < maxKelvin && |coeffs| == 8 then
      var hc: Segment := Shomate(minKelvin, maxKelvin, coeffs); Ok(hc)
    else Err("AssertionError")
  }

  /** `SimpleHeatCapacity(min_kelvin, max_kelvin, cp)`. */
  function NewSimpleHeatCapacity(minKelvin: real, maxKelvin: real, cp: real): (r: Result<Segment>)
    ensures r.Ok? <==> minKelvin < maxKelvin
    ensures r.Ok? ==> r.value == SimpleCp(minKelvin, maxKelvin, cp)
  {
    if minKelvin < maxKelvin then var hc: Segment := SimpleCp(minKelvin, maxKelvin, cp); Ok(hc)
    else Err("AssertionError")
  }

  predicate InRange(hc: HeatCapacity, t: real) {
    hc.minKelvin <= t <= hc.maxKelvin
  }

  /** The Shomate enthalpy change in J between a and b given in kK. */
  function ShomateEnthalpy(c: seq<real>, moles: real, a: real, b: real): real
    requires |c| == 8 && a != 0.0 && b != 0.0
  {
    moles * (c[0] * (b - a)
             + c[1] / 2.0 * (b * b - a * a)
             + c[2] / 3.0 * (b * b * b - a * a * a)
             + c[3] / 4.0 * (b * b * b * b - a * a * a * a)
             - c[4] * (1.0 / b - 1.0 / a)) * 1000.0
  }

  /** The enthalpy formula of a segment, without its range check. */
  function Enthalpy(hc: Segment, moles: real, tInitial: real, tFinal: real): real
    requires hc.Shomate? ==> tInitial != 0.0 && tFinal != 0.0
  {
    match hc
    case SimpleCp(_, _, cp) => moles * cp * (tFinal - tInitial)
    case Shomate(_, _, c) => ShomateEnthalpy(c, moles, tInitial / 1000.0, tFinal / 1000.0)
  }

  /** The exception a segment's `delta_h` or `cp` raises for a temperature
      outside its range, prefixed with its class and method names. */
  function RangeError(hc: Segment, op: string): string {
    (if hc.Shomate? then "ShomateEquation::" else "SimpleHeatCapacity::") + op
    + ": temperatures must be within the range of the heat capacity"
  }

  /** `delta_h` of one segment: raises when a temperature lies outside the
      segment, and (Shomate only) when a temperature is zero, since the
      formula raises it to the power -1. */
  function SegmentDeltaH(hc: Segment, moles: real, tInitial: real, tFinal: real): (r: Result<real>)
    ensures r.Ok? <==> InRange(hc, tInitial) && InRange(hc, tFinal)
                       && (hc.Shomate? ==> tInitial != 0.0 && tFinal != 0.0)
    ensures r.Ok? ==> r.value == Enthalpy(hc, moles, tInitial, tFinal)
    ensures !(InRange(hc, tInitial) && InRange(hc, tFinal)) ==> r == Err(RangeError(hc, "delta_h"))
  {
    if !(InRange(hc, tInitial) && InRange(hc, tFinal)) then
      Err(RangeError(hc, "delta_h"))
    else if hc.Shomate? && (tInitial == 0.0 || tFinal == 0.0) then
      Err("0.0 cannot be raised to a negative power")
    else
      Ok(Enthalpy(hc, moles, tInitial, tFinal))
  }

  /** A segment's enthalpy change over an empty interval is zero. */
  lemma EnthalpyZeroSpan(hc: Segment, moles: real, t: real)
    requires hc.Shomate? ==> t != 0.0
    ensures Enthalpy(hc, moles, t, t) == 0.0
  {
    match hc
    case SimpleCp(_, _, cp) =>
    case Shomate(_, _, c) =>
      var x := t / 1000.0;
      assert ShomateEnthalpy(c, moles, x, x) == moles * 0.0 * 1000.0;
  }

  /** Enthalpy changes of one segment add up along a path: heating from a to
      b and then from b to c is heating from a to c. */
  lemma EnthalpyAdditive(hc: Segment, moles: real, a: real, b: real, c: real)
    requires hc.Shomate? ==> a != 0.0 && b != 0.0 && c != 0.0
    ensures Enthalpy(hc, moles, a, b) + Enthalpy(hc, moles, b, c) == Enthalpy(hc, moles, a, c)
  {
    match hc
    case SimpleCp(_, _, cp) =>
      assert moles * cp * (b - a) + moles * cp * (c - b) == moles * cp * (c - a);
    case Shomate(_, _, k) =>
      var x, y, z := a / 1000.0, b / 1000.0, c / 1000.0;
      ShomateTelescopes(k, moles, x, y, z);
  }

  lemma ShomateTelescopes(k: seq<real>, moles: real, x: real, y: real, z: real)
    requires |k| == 8 && x != 0.0 && y != 0.0 && z != 0.0
    ensures ShomateEnthalpy(k, moles, x, y) + ShomateEnthalpy(k, moles, y, z) == ShomateEnthalpy(k, moles, x, z)
  {
    var p := k[0] * (y - x) + k[1] / 2.0 * (y * y - x * x) + k[2] / 3.0 * (y * y * y - x * x * x)
             + k[3] / 4.0 * (y * y * y * y - x * x * x * x) - k[4] * (1.0 / y - 1.0 / x);
    var q := k[0] * (z - y) + k[1] / 2.0 * (z * z - y * y) + k[2] / 3.0 * (z * z * z - y * y * y)
             + k[3] / 4.0 * (z * z * z * z - y * y * y * y) - k[4] * (1.0 / z - 1.0 / y);
    var s := k[0] * (z - x) + k[1] / 2.0 * (z * z - x * x) + k[2] / 3.0 * (z * z * z - x * x * x)
             + k[3] / 4.0 * (z * z * z * z - x * x * x * x) - k[4] * (1.0 / z - 1.0 / x);
    assert p + q == s;
    DistributeSum(moles, p, q, s);
  }

  lemma DistributeSum(m: real, p: real, q: real, s: real)
    requires p + q == s
    ensures m * p * 1000.0 + m * q * 1000.0 == m * s * 1000.0
  {
  }

  /** `SimpleHeatCapacity.cp` / `ShomateEquation.cp` at temperature t. */
  function SegmentCp(hc: Segment, t: real): (r: Result<real>)
    ensures r.Ok? <==> InRange(hc, t) && (hc.Shomate? ==> t != 0.0)
    ensures r.Ok? && hc.SimpleCp? ==> r.value == hc.cp
    ensures !InRange(hc, t) ==> r == Err(RangeError(hc, "cp"))
  {
    if !InRange(hc, t) then Err(RangeError(hc, "cp"))
    else match hc
      case SimpleCp(_, _, cp) => Ok(cp)
      case Shomate(_, _, c) =>
        if t == 0.0 then Err("0.0 cannot be raised to a negative power")
        else
          var x := t / 1000.0;
          Ok(c[0] + c[1] * x + c[2] * x * x + c[3] * x * x * x + c[4] * (1.0 / x / x))
  }

  /** `LatentHeat(temp_kelvin, latent_heat)`, latent heat in J/mol. */
  datatype LatentHeat = LatentHeat(tempKelvin: real, latentHeat: real)

  /** `LatentHeat.delta_h`. */
  function LatentDeltaH(l: LatentHeat, moles: real): real {
    moles * l.latentHeat
  }

  function MinKey(hc: Segment): real { hc.minKelvin }

  function TempKey(l: LatentHeat): real { l.tempKelvin }

  /** Each segment ends exactly where the next one starts (`math.isclose` is
      read as equality). */
  predicate Contiguous(s: seq<Segment>) {
    forall i :: 0 <= i < |s| - 1 ==> s[i].maxKelvin == s[i + 1].minKelvin
  }

  datatype ThermoData = ThermoData(heatCapacities: seq<Segment>, latentHeats: seq<LatentHeat>,
                                   minKelvin: real, maxKelvin: real)

  /** What a successfully constructed ThermoData satisfies. */
  predicate Valid(td: ThermoData) {
    var hcs := td.heatCapacities;
    && |hcs| > 0
    && SortedBy(hcs, MinKey)
    && Contiguous(hcs)
    && td.minKelvin == hcs[0].minKelvin
    && td.maxKelvin == hcs[|hcs| - 1].maxKelvin
    && SortedBy(td.latentHeats, TempKey)
    && LatentWithin(td.latentHeats, td.minKelvin, td.maxKelvin)
  }

  predicate LatentWithin(lhs: seq<LatentHeat>, lo: real, hi: real) {
    forall k :: 0 <= k < |lhs| ==> lo <= lhs[k].tempKelvin <= hi
  }

  lemma WithinPermutation(a: seq<LatentHeat>, b: seq<LatentHeat>, lo: real, hi: real)
    requires multiset(a) == multiset(b) && LatentWithin(a, lo, hi)
    ensures LatentWithin(b, lo, hi)
  {
    forall k | 0 <= k < |b| ensures lo <= b[k].tempKelvin <= hi {
      assert b[k] in multiset(a);
      var m :| 0 <= m < |a| && a[m] == b[k];
    }
  }

  /** The segment list is accepted when, once sorted, it is non-empty and has
      no gap or overlap. */
  predicate SegmentsAccepted(sorted: seq<Segment>) {
    Contiguous(sorted) && |sorted| > 0
  }

  /** `ThermoData(heat_capacities, latent_heats)` on the values of its two
      lists; an empty or absent latent-heat list gives []. */
  function Build(hcs: seq<Segment>, lhs: seq<LatentHeat>): Result<ThermoData> {
    var sorted := SortBy(hcs, MinKey);
    if !Contiguous(sorted) then Err("Non-continuous temperature ranges in ThermoData (gap or overlap detected)")
    else if sorted == [] then Err("list index out of range")
    else
      var lo, hi := sorted[0].minKelvin, sorted[|sorted| - 1].maxKelvin;
      var latent := SortBy(lhs, TempKey);
      if !LatentWithin(latent, lo, hi) then Err("Latent heat temperature out of range")
      else Ok(ThermoData(sorted, latent, lo, hi))
  }

  /** Construction accepts exactly the segment lists that sort into one
      continuous range with every latent heat inside it, and what it builds
      is valid. */
  lemma BuildAccepts(hcs: seq<Segment>, lhs: seq<LatentHeat>)
    ensures Build(hcs, lhs).Ok? <==>
              var sorted := SortBy(hcs, MinKey);
              SegmentsAccepted(sorted)
              && LatentWithin(lhs, sorted[0].minKelvin, sorted[|sorted| - 1].maxKelvin)
    ensures Build(hcs, lhs).Ok? ==> Valid(Build(hcs, lhs).value)
    ensures Build(hcs, lhs).Ok? ==> multiset(Build(hcs, lhs).value.heatCapacities) == multiset(hcs)
                                     && multiset(Build(hcs, lhs).value.latentHeats) == multiset(lhs)
  {
    var sorted := SortBy(hcs, MinKey);
    var latent := SortBy(lhs, TempKey);
    SortBySorted(hcs, MinKey);
    SortBySorted(lhs, TempKey);
    if SegmentsAccepted(sorted) {
      var lo, hi := sorted[0].minKelvin, sorted[|sorted| - 1].maxKelvin;
      if LatentWithin(lhs, lo, hi) { WithinPermutation(lhs, latent, lo, hi); }
      if LatentWithin(latent, lo, hi) { WithinPermutation(latent, lhs, lo, hi); }
    }
  }

  /** The gap/overlap check of the constructor over the sorted segments. */
  method CheckContiguous(hcs: array<Segment>) returns (ok: bool)
    ensures ok <==> Contiguous(hcs[..])
  {
    var i := 0;
    while i + 1 < hcs.Length
      invariant 0 <= i <= hcs.Length
      invariant hcs.Length > 0 ==> i < hcs.Length
      invariant forall k :: 0 <= k < i ==> hcs[k].maxKelvin == hcs[k + 1].minKelvin
    {
      if hcs[i].maxKelvin != hcs[i + 1].minKelvin {
        return false;
      }
      i := i + 1;
    }
    return true;
  }

  /** The latent-heat range check of the constructor. */
  method CheckLatentWithin(lhs: array<LatentHeat>, lo: real, hi: real) returns (ok: bool)
    ensures ok <==> LatentWithin(lhs[..], lo, hi)
  {
    var j := 0;
    while j < lhs.Length
      invariant 0 <= j <= lhs.Length
      invariant forall k :: 0 <= k < j ==> lo <= lhs[k].tempKelvin <= hi
    {
      if !(lo <= lhs[j].tempKelvin <= hi) {
        return false;
      }
      j := j + 1;
    }
    return true;
  }

  /** The constructor: sorts the caller's segment array in place, rejects a gap
      or overlap, then (when the segments are accepted) sorts the caller's
      latent-heat array in place and rejects a latent heat out of range. */
  method NewThermoData(heatCapacities: array<Segment>, latentHeats: array<LatentHeat>) returns (r: Result<ThermoData>)
    modifies heatCapacities, latentHeats
    ensures r == Build(old(heatCapacities[..]), old(latentHeats[..]))
    ensures heatCapacities[..] == SortBy(old(heatCapacities[..]), MinKey)
    ensures latentHeats[..] == if SegmentsAccepted(heatCapacities[..])
                               then SortBy(old(latentHeats[..]), TempKey) else old(latentHeats[..])
  {
    SortInPlace(heatCapacities, MinKey);
    var contiguous := CheckContiguous(heatCapacities);
    if !contiguous {
      return Err("Non-continuous temperature ranges in ThermoData (gap or overlap detected)");
    }
    if heatCapacities.Length == 0 {
      return Err("list index out of range");
    }
    var lo := heatCapacities[0].minKelvin;
    var hi := heatCapacities[heatCapacities.Length - 1].maxKelvin;
    if latentHeats.Length > 0 {
      SortInPlace(latentHeats, TempKey);
      var within := CheckLatentWithin(latentHeats, lo, hi);
      if !within {
        return Err("Latent heat temperature out of range");
      }
      r := Ok(ThermoData(heatCapacities[..], latentHeats[..], lo, hi));
    } else {
      assert latentHeats[..] == [];
      r := Ok(ThermoData(heatCapacities[..], [], lo, hi));
    }
  }

  predicate InThermoRange(td: ThermoData, t: real) {
    td.minKelvin <= t <= td.maxKelvin
  }

  /** The window (298 K, 300 K] in which a temperature just below the data's
      range is moved up to it (the hydrogen-plasma data starts at 300 K). */
  predicate InClampWindow(t: real) {
    298.0 < t <= 300.0
  }

  /** The exception `ThermoData.delta_h` raises for temperatures out of its
      range, without the temperatures the source formats into it. */
  const ThermoRangeError := "ThermoData::delta_h: temperatures must be within the range of the heat capacity"

  /** The range check of `ThermoData.delta_h` as written: when either
      temperature is out of range it moves t_initial, else t_final, to
      min_kelvin if both lie in the window, and does not check the pair again. */
  function ClampAsWritten(td: ThermoData, tInitial: real, tFinal: real): (r: Result<(real, real)>)
    ensures r.Ok? <==> (InThermoRange(td, tInitial) && InThermoRange(td, tFinal))
                       || (InClampWindow(td.minKelvin) && (InClampWindow(tInitial) || InClampWindow(tFinal)))
    ensures r.Ok? ==> r.value.0 == tInitial || r.value.1 == tFinal
    ensures r.Ok? && r.value != (tInitial, tFinal) ==> InClampWindow(td.minKelvin)
    ensures r.Err? ==> r == Err(ThermoRangeError)
  {
    if InThermoRange(td, tInitial) && InThermoRange(td, tFinal) then Ok((tInitial, tFinal))
    else if InClampWindow(tInitial) && InClampWindow(td.minKelvin) then Ok((td.minKelvin, tFinal))
    else if InClampWindow(tFinal) && InClampWindow(td.minKelvin) then Ok((tInitial, td.minKelvin))
    else Err(ThermoRangeError)
  }

  /** One temperature after the range check: kept when in range, moved to
      min_kelvin when both lie in the clamp window, refused otherwise. */
  function ClampOne(td: ThermoData, t: real): Option<real> {
    if InThermoRange(td, t) then Some(t)
    else if InClampWindow(t) && InClampWindow(td.minKelvin) then Some(td.minKelvin)
    else None
  }

  /** The range check with each temperature clamped on its own. */
  function Clamp(td: ThermoData, tInitial: real, tFinal: real): (r: Result<(real, real)>)
    ensures r.Ok? && td.minKelvin <= td.maxKelvin ==> InThermoRange(td, r.value.0) && InThermoRange(td, r.value.1)
    ensures r.Ok? ==> (InThermoRange(td, tInitial) ==> r.value.0 == tInitial)
                      && (InThermoRange(td, tFinal) ==> r.value.1 == tFinal)
    ensures InThermoRange(td, tInitial) && InThermoRange(td, tFinal) ==> r == ClampAsWritten(td, tInitial, tFinal)
    ensures r.Err? ==> r == Err(ThermoRangeError)
  {
    match (ClampOne(td, tInitial), ClampOne(td, tFinal))
    case (Some(a), Some(b)) => Ok((a, b))
    case _ => Err(ThermoRangeError)
  }

  /** `r + acc` when r is a value; an exception passes through. */
  function Shift(acc: real, r: Result<real>): Result<real> {
    if r.Ok? then Ok(acc + r.value) else r
  }

  function Negate(r: Result<real>): Result<real> {
    if r.Ok? then Ok(-r.value) else r
  }

  /** The latent heats whose phase change lies in [lo, hi). */
  function LatentSum(lhs: seq<LatentHeat>, moles: real, lo: real, hi: real): real {
    if lhs == [] then 0.0
    else
      var l := lhs[|lhs| - 1];
      LatentSum(lhs[..|lhs| - 1], moles, lo, hi) + (if lo <= l.tempKelvin < hi then LatentDeltaH(l, moles) else 0.0)
  }

  /** The segment walk of `delta_h` from t up to hi. */
  function Walk(segs: seq<Segment>, moles: real, t: real, hi: real): Result<real> {
    if segs == [] then Ok(0.0)
    else
      var s := segs[0];
      if InRange(s, t) then
        if InRange(s, hi) then SegmentDeltaH(s, moles, t, hi)
        else
          var d :- SegmentDeltaH(s, moles, t, s.maxKelvin);
          Shift(d, Walk(segs[1..], moles, s.maxKelvin, hi))
      else Walk(segs[1..], moles, t, hi)
  }

  /** `delta_h` once the range check has produced (a, b). */
  function DeltaHFrom(td: ThermoData, moles: real, a: real, b: real): Result<real> {
    if moles == 0.0 then Ok(0.0)
    else
      var lo, hi := Min(a, b), Max(a, b);
      var total :- Shift(LatentSum(td.latentHeats, moles, lo, hi), Walk(td.heatCapacities, moles, lo, hi));
      Ok(if b < a then -total else total)
  }

  /** `ThermoData.delta_h` as written. */
  function DeltaHAsWritten(td: ThermoData, moles: real, tInitial: real, tFinal: real): (r: Result<real>)
    ensures ClampAsWritten(td, tInitial, tFinal).Err? ==> r.Err?
  {
    var (a, b) :- ClampAsWritten(td, tInitial, tFinal);
    DeltaHFrom(td, moles, a, b)
  }

  /** `ThermoData.delta_h` with each temperature range-checked on its own. */
  function DeltaHSpec(td: ThermoData, moles: real, tInitial: real, tFinal: real): Result<real> {
    var (a, b) :- Clamp(td, tInitial, tFinal);
    DeltaHFrom(td, moles, a, b)
  }

  /** `ThermoData.delta_h`: adds the latent heats passed, walks the segments
      from the lower to the higher temperature, and negates when cooling. */
  method DeltaH(td: ThermoData, moles: real, tInitial: real, tFinal: real) returns (r: Result<real>)
    ensures r == DeltaHAsWritten(td, moles, tInitial, tFinal)
    ensures !InClampWindow(td.minKelvin) ==> r == DeltaHSpec(td, moles, tInitial, tFinal)
  {
    if !InClampWindow(td.minKelvin) {
      DeltaHAsWrittenAgrees(td, moles, tInitial, tFinal);
    }
    var clamped := ClampAsWritten(td, tInitial, tFinal);
    if clamped.Err? {
      return Err(clamped.msg);
    }
    var ti, tf := clamped.value.0, clamped.value.1;
    if moles == 0.0 {
      return Ok(0.0);
    }
    var flip := tf < ti;
    if flip {
      ti, tf := tf, ti;
    }
    var dh := AddLatentHeats(td.latentHeats, moles, ti, tf);
    r := AddSegments(td.heatCapacities, moles, ti, tf, dh);
    if r.Ok? && flip {
      r := Ok(-r.value);
    }
  }

  /** The first loop of `delta_h`: the latent heats passed between lo and hi. */
  method AddLatentHeats(lhs: seq<LatentHeat>, moles: real, lo: real, hi: real) returns (dh: real)
    ensures dh == LatentSum(lhs, moles, lo, hi)
  {
    dh := 0.0;
    var i := 0;
    while i < |lhs|
      invariant 0 <= i <= |lhs|
      invariant dh == LatentSum(lhs[..i], moles, lo, hi)
    {
      var l := lhs[i];
      assert lhs[..i + 1][..i] == lhs[..i];
      if lo <= l.tempKelvin < hi {
        dh := dh + LatentDeltaH(l, moles);
      }
      i := i + 1;
    }
    assert lhs[..i] == lhs;
  }

  /** The second loop of `delta_h`: walks the segments from t up to hi,
      adding each one's contribution to dh. */
  method AddSegments(segs: seq<Segment>, moles: real, t0: real, hi: real, dh0: real) returns (r: Result<real>)
    ensures r == Shift(dh0, Walk(segs, moles, t0, hi))
  {
    var dh, t := dh0, t0;
    var j := 0;
    var found := false;
    while j < |segs| && !found
      invariant 0 <= j <= |segs|
      invariant found ==> Shift(dh0, Walk(segs, moles, t0, hi)) == Ok(dh)
      invariant !found ==> Shift(dh0, Walk(segs, moles, t0, hi)) == Shift(dh, Walk(segs[j..], moles, t, hi))
    {
      var s := segs[j];
      assert segs[j..][1..] == segs[j + 1..];
      if s.minKelvin <= t <= s.maxKelvin {
        if s.minKelvin <= hi <= s.maxKelvin {
          var d := SegmentDeltaH(s, moles, t, hi);
          if d.Err? {
            return Err(d.msg);
          }
          dh := dh + d.value;
          found := true;
        } else {
          var d := SegmentDeltaH(s, moles, t, s.maxKelvin);
          if d.Err? {
            return Err(d.msg);
          }
          dh := dh + d.value;
          t := s.maxKelvin;
        }
      }
      j := j + 1;
    }
    return Ok(dh);
  }

  /** `ThermoData.cp`: the cp of the first segment that covers t. */
  function CpSpec(segs: seq<Segment>, t: real): Result<real> {
    if segs == [] then Err("No heat capacity data available at temp")
    else if InRange(segs[0], t) then SegmentCp(segs[0], t)
    else CpSpec(segs[1..], t)
  }

  method Cp(td: ThermoData, t: real) returns (r: Result<real>)
    ensures r == CpSpec(td.heatCapacities, t)
  {
    var segs := td.heatCapacities;
    var j := 0;
    while j < |segs|
      invariant 0 <= j <= |segs|
      invariant CpSpec(segs, t) == CpSpec(segs[j..], t)
    {
      assert segs[j..][1..] == segs[j + 1..];
      if segs[j].minKelvin <= t <= segs[j].maxKelvin {
        return SegmentCp(segs[j], t);
      }
      j := j + 1;
    }
    return Err("No heat capacity data available at temp");
  }

  /** A latent heat is counted over [lo, hi) only: no phase change lies in an
      empty interval. */
  lemma {:induction false} LatentSumEmpty(lhs: seq<LatentHeat>, moles: real, t: real)
    ensures LatentSum(lhs, moles, t, t) == 0.0
  {
    if lhs != [] { LatentSumEmpty(lhs[..|lhs| - 1], moles, t); }
  }

  /** Splitting a heating path at any intermediate temperature counts every
      latent heat exactly once. */
  lemma {:induction false} LatentSumSplit(lhs: seq<LatentHeat>, moles: real, lo: real, mid: real, hi: real)
    requires lo <= mid <= hi
    ensures LatentSum(lhs, moles, lo, mid) + LatentSum(lhs, moles, mid, hi) == LatentSum(lhs, moles, lo, hi)
  {
    if lhs != [] { LatentSumSplit(lhs[..|lhs| - 1], moles, lo, mid, hi); }
  }

  /** Walking an empty interval adds nothing, unless a Shomate segment raises. */
  lemma {:induction false} WalkEmptySpan(segs: seq<Segment>, moles: real, t: real)
    ensures Walk(segs, moles, t, t).Ok? ==> Walk(segs, moles, t, t).value == 0.0
  {
    if segs != [] {
      if InRange(segs[0], t) {
        if segs[0].SimpleCp? || t != 0.0 { EnthalpyZeroSpan(segs[0], moles, t); }
      } else {
        WalkEmptySpan(segs[1..], moles, t);
      }
    }
  }

  /** `delta_h(m, a, b) == -delta_h(m, b, a)` for every pair of temperatures;
      an exception raised one way is raised the other way too. */
  lemma DeltaHAntisymmetric(td: ThermoData, moles: real, a: real, b: real)
    ensures DeltaHSpec(td, moles, a, b) == Negate(DeltaHSpec(td, moles, b, a))
  {
    var c := Clamp(td, a, b);
    if c.Ok? && moles != 0.0 {
      var (x, y) := c.value;
      assert Clamp(td, b, a) == Ok((y, x));
      if x == y {
        LatentSumEmpty(td.latentHeats, moles, x);
        WalkEmptySpan(td.heatCapacities, moles, x);
      }
    }
  }

  /** The range check as written and the one that clamps each temperature
      on its own agree unless the data starts inside the clamp window and a
      temperature lies outside the range: on every species whose range
      starts at 298 K or below, or above 300 K. */
  lemma DeltaHAsWrittenAgrees(td: ThermoData, moles: real, a: real, b: real)
    requires !InClampWindow(td.minKelvin) || (InThermoRange(td, a) && InThermoRange(td, b))
    ensures ClampAsWritten(td, a, b) == Clamp(td, a, b)
    ensures DeltaHAsWritten(td, moles, a, b) == DeltaHSpec(td, moles, a, b)
  {
  }

  /** So on such data `delta_h` as written is antisymmetric too. */
  lemma DeltaHAsWrittenAntisymmetric(td: ThermoData, moles: real, a: real, b: real)
    requires !InClampWindow(td.minKelvin)
    ensures DeltaHAsWritten(td, moles, a, b) == Negate(DeltaHAsWritten(td, moles, b, a))
  {
    DeltaHAsWrittenAgrees(td, moles, a, b);
    DeltaHAsWrittenAgrees(td, moles, b, a);
    DeltaHAntisymmetric(td, moles, a, b);
  }

  /** No moles, no enthalpy change, whatever the (accepted) temperatures. */
  lemma DeltaHZeroMoles(td: ThermoData, a: real, b: real)
    requires ClampAsWritten(td, a, b).Ok?
    ensures DeltaHAsWritten(td, 0.0, a, b) == Ok(0.0)
  {
  }

  predicate PositiveRange(segs: seq<Segment>) {
    forall i :: 0 <= i < |segs| ==> segs[i].minKelvin > 0.0
  }

  /** A segment's contribution to a path from lo to hi: its enthalpy change
      over the part of [lo, hi] it covers. */
  function OverlapTerm(s: Segment, moles: real, lo: real, hi: real): real
    requires s.minKelvin > 0.0
  {
    if s.maxKelvin < lo || hi < s.minKelvin then 0.0
    else Enthalpy(s, moles, Max(lo, s.minKelvin), Min(hi, s.maxKelvin))
  }

  function OverlapSum(segs: seq<Segment>, moles: real, lo: real, hi: real): real
    requires PositiveRange(segs)
  {
    if segs == [] then 0.0
    else OverlapTerm(segs[0], moles, lo, hi) + OverlapSum(segs[1..], moles, lo, hi)
  }

  /** Segments that start at or above hi contribute nothing to a path ending at hi. */
  lemma {:induction false} OverlapAbove(segs: seq<Segment>, moles: real, t: real, hi: real)
    requires |segs| > 0 && Contiguous(segs) && PositiveRange(segs)
    requires t <= hi <= segs[0].minKelvin
    ensures OverlapSum(segs, moles, t, hi) == 0.0
  {
    var s := segs[0];
    if hi == s.minKelvin { EnthalpyZeroSpan(s, moles, hi); }
    if |segs| > 1 {
      assert segs[1..][0].minKelvin == s.maxKelvin;
      OverlapAbove(segs[1..], moles, t, hi);
    }
  }

  /** Where a path starts below every segment does not change the overlaps. */
  lemma {:induction false} OverlapStartBelow(segs: seq<Segment>, moles: real, t1: real, t2: real, hi: real)
    requires |segs| > 0 && Contiguous(segs) && PositiveRange(segs)
    requires t1 <= segs[0].minKelvin && t2 <= segs[0].minKelvin
    ensures OverlapSum(segs, moles, t1, hi) == OverlapSum(segs, moles, t2, hi)
  {
    if |segs| > 1 {
      assert segs[1..][0].minKelvin == segs[0].maxKelvin;
      OverlapStartBelow(segs[1..], moles, t1, t2, hi);
    }
  }

  /** The segment walk from t to hi adds up each segment's enthalpy change
      over its overlap with [t, hi]. */
  lemma {:induction false} WalkIsOverlapSum(segs: seq<Segment>, moles: real, t: real, hi: real)
    requires |segs| > 0 && Contiguous(segs) && PositiveRange(segs)
    requires segs[0].minKelvin <= t <= hi <= segs[|segs| - 1].maxKelvin
    ensures Walk(segs, moles, t, hi) == Ok(OverlapSum(segs, moles, t, hi))
  {
    var s := segs[0];
    var rest := segs[1..];
    if t <= s.maxKelvin {
      if hi <= s.maxKelvin {
        if |segs| > 1 {
          assert rest[0].minKelvin == s.maxKelvin;
          OverlapAbove(rest, moles, t, hi);
        }
      } else {
        assert |segs| > 1;
        assert rest[0].minKelvin == s.maxKelvin;
        assert rest[|rest| - 1] == segs[|segs| - 1];
        WalkIsOverlapSum(rest, moles, s.maxKelvin, hi);
        OverlapStartBelow(rest, moles, s.maxKelvin, t, hi);
      }
    } else {
      assert |segs| > 1;
      assert rest[0].minKelvin == s.maxKelvin;
      assert rest[|rest| - 1] == segs[|segs| - 1];
      WalkIsOverlapSum(rest, moles, t, hi);
    }
  }

  /** For valid data above 0 K and a, b in range with a <= b, `delta_h` is
      the latent heats in [a, b) plus each segment's enthalpy change over its
      overlap with [a, b]; cooling gives the negation (DeltaHAntisymmetric). */
  lemma DeltaHIsOverlapSum(td: ThermoData, moles: real, a: real, b: real)
    requires Valid(td) && td.minKelvin > 0.0
    requires td.minKelvin <= a <= b <= td.maxKelvin
    ensures PositiveRange(td.heatCapacities)
    ensures DeltaHAsWritten(td, moles, a, b)
            == Ok(LatentSum(td.latentHeats, moles, a, b) + OverlapSum(td.heatCapacities, moles, a, b))
  {
    var segs := td.heatCapacities;
    forall i | 0 <= i < |segs| ensures segs[i].minKelvin > 0.0 {
      if i > 0 { assert MinKey(segs[0]) <= MinKey(segs[i]); }
    }
    if moles != 0.0 {
      WalkIsOverlapSum(segs, moles, a, b);
    } else {
      assert OverlapSum(segs, 0.0, a, b) + LatentSum(td.latentHeats, 0.0, a, b) == 0.0 by {
        OverlapZeroMoles(segs, a, b);
        LatentZeroMoles(td.latentHeats, a, b);
      }
    }
  }

  lemma {:induction false} OverlapZeroMoles(segs: seq<Segment>, lo: real, hi: real)
    requires PositiveRange(segs)
    ensures OverlapSum(segs, 0.0, lo, hi) == 0.0
  {
    if segs != [] { OverlapZeroMoles(segs[1..], lo, hi); }
  }

  lemma {:induction false} LatentZeroMoles(lhs: seq<LatentHeat>, lo: real, hi: real)
    ensures LatentSum(lhs, 0.0, lo, hi) == 0.0
  {
    if lhs != [] { LatentZeroMoles(lhs[..|lhs| - 1], lo, hi); }
  }

  /** Valid data above 0 K has a heat capacity at every temperature of its range. */
  lemma {:induction false} CpCovered(segs: seq<Segment>, t: real)
    requires |segs| > 0 && Contiguous(segs) && PositiveRange(segs)
    requires segs[0].minKelvin <= t <= segs[|segs| - 1].maxKelvin
    ensures CpSpec(segs, t).Ok?
  {
    if !InRange(segs[0], t) {
      var rest := segs[1..];
      assert rest[0].minKelvin == segs[0].maxKelvin;
      assert rest[|rest| - 1] == segs[|segs| - 1];
      CpCovered(rest, t);
    }
  }

  /** The range check as written moves t_initial to min_kelvin although it
      was in range and leaves t_final below the range: with one segment of
      constant cp 10 J/(mol K) on [299 K, 1000 K], heating a mole from 298.5 K
      to 299.5 K gives 5 J but cooling it back gives 0 J. */
  lemma DeltaHAsWrittenNotAntisymmetric()
    ensures var td := ThermoData([SimpleCp(299.0, 1000.0, 10.0)], [], 299.0, 1000.0);
            && DeltaHAsWritten(td, 1.0, 298.5, 299.5) == Ok(5.0)
            && DeltaHAsWritten(td, 1.0, 299.5, 298.5) == Ok(0.0)
            && DeltaHSpec(td, 1.0, 299.5, 298.5) == Negate(DeltaHSpec(td, 1.0, 298.5, 299.5))
  {
    var td := ThermoData([SimpleCp(299.0, 1000.0, 10.0)], [], 299.0, 1000.0);
    var segs := td.heatCapacities;
    assert segs[1..] == [];
    assert Walk(segs, 1.0, 299.0, 299.5) == Ok(5.0);
    assert Walk(segs, 1.0, 298.5, 299.0) == Ok(0.0);
    DeltaHAntisymmetric(td, 1.0, 299.5, 298.5);
  }
}
