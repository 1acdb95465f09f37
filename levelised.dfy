/** Levelised cost of production of plant_costs.py and of its low-emission
    copy: the capital cost grossed up for contingency and construction,
    recovered over the plant's life at a real discount rate, and added to
    the operating cost, all per tonne produced. Lifetimes are whole years. */
module Levelised {
  import opened Base

  // ---------------------------------------------------------------------
  // Direct and indirect capital cost

  /** `capex_direct_and_indirect`: 10 % contingency on the purchase cost
      gives the direct cost, and construction adds 9 % of that. */
  function CapexDirectAndIndirect(purchase: real): (r: real)
    ensures r == 1.199 * purchase
  {
    var contingency := 0.1;
    var construction := 0.09;
    var direct := (1.0 + contingency) * purchase;
    var indirect := construction * direct;
    direct + indirect
  }

  /** The gross-up is linear in the purchase cost. */
  lemma CapexDirectAndIndirectLinear(a: real, b: real, k: real)
    ensures CapexDirectAndIndirect(a + b) == CapexDirectAndIndirect(a) + CapexDirectAndIndirect(b)
    ensures CapexDirectAndIndirect(k * a) == k * CapexDirectAndIndirect(a)
  {
  }

  /** A dearer purchase never costs less once grossed up, and no purchase
      cost is reduced by it. */
  lemma CapexDirectAndIndirectMonotone(a: real, b: real)
    requires a <= b
    ensures CapexDirectAndIndirect(a) <= CapexDirectAndIndirect(b)
    ensures 0.0 <= a ==> a <= CapexDirectAndIndirect(a)
  {
  }

  // ---------------------------------------------------------------------
  // Recovering the capital over the plant's life

  const NominalRate: real := 0.07
  const InflationRate: real := 0.025

  /** The constant real discount rate, (1 + 7 %) / (1 + 2.5 %) - 1. */
  function RealRate(): (r: real)
    ensures r == 9.0 / 205.0
  {
    (1.0 + NominalRate) / (1.0 + InflationRate) - 1.0
  }

  /** `x ** n` for a whole number of years. */
  function Pow(x: real, n: nat): real {
    if n == 0 then 1.0 else x * Pow(x, n - 1)
  }

  /** Growth above 1 compounds to more than 1 after a year or more. */
  lemma {:induction false} PowAboveOne(x: real, n: nat)
    requires x > 1.0 && n >= 1
    ensures Pow(x, n) > 1.0
  {
    if n > 1 {
      PowAboveOne(x, n - 1);
      assert x * Pow(x, n - 1) > 1.0 * Pow(x, n - 1);
    }
  }

  /** At a positive rate, a life of a year or more grows a unit above 1. */
  lemma GrowthAboveOne(rate: real, years: nat)
    requires rate > 0.0
    ensures years >= 1 ==> Pow(1.0 + rate, years) > 1.0
  {
    if years >= 1 {
      PowAboveOne(1.0 + rate, years);
    }
  }

  /** `cost_recovery_factor` of plant_costs.py: r (1+r)^n / ((1+r)^n - 1);
      a life of zero years divides by zero. */
  function CostRecoveryFactor(years: nat): (r: Result<real>)
    ensures r.Err? <==> years == 0
    ensures r.Err? ==> r.msg == DivisionByZero
  {
    var rate := RealRate();
    var growth := Pow(1.0 + rate, years);
    GrowthAboveOne(rate, years);
    if growth - 1.0 == 0.0 then Err(DivisionByZero) else Ok(rate * growth / (growth - 1.0))
  }

  /** What is still owed, per unit borrowed, after `k` yearly payments of
      `payment` while the debt grows by `rate` a year. */
  function Balance(rate: real, payment: real, k: nat): real {
    if k == 0 then 1.0 else Balance(rate, payment, k - 1) * (1.0 + rate) - payment
  }

  /** With a payment p such that p (Q - 1) = r Q for some Q > 1 (Q is
      the growth over the whole life), the balance after `k` payments is
      (Q - (1+r)^k) / (Q - 1). */
  lemma {:induction false} BalanceClosedForm(rate: real, q: real, payment: real, k: nat)
    requires q > 1.0 && payment * (q - 1.0) == rate * q
    ensures Balance(rate, payment, k) * (q - 1.0) == q - Pow(1.0 + rate, k)
  {
    if k > 0 {
      BalanceClosedForm(rate, q, payment, k - 1);
      BalanceStep(rate, q, payment, k);
    }
  }

  /** One year of the closed form. */
  lemma BalanceStep(rate: real, q: real, payment: real, k: nat)
    requires k > 0 && payment * (q - 1.0) == rate * q
    requires Balance(rate, payment, k - 1) * (q - 1.0) == q - Pow(1.0 + rate, k - 1)
    ensures Balance(rate, payment, k) * (q - 1.0) == q - Pow(1.0 + rate, k)
  {
    BalanceUnfold(rate, payment, k);
    ScaledStep(Balance(rate, payment, k - 1), Balance(rate, payment, k), payment, q,
               Pow(1.0 + rate, k - 1), Pow(1.0 + rate, k), rate);
  }

  lemma BalanceUnfold(rate: real, payment: real, k: nat)
    requires k > 0
    ensures Balance(rate, payment, k) == Balance(rate, payment, k - 1) * (1.0 + rate) - payment
    ensures Pow(1.0 + rate, k) == (1.0 + rate) * Pow(1.0 + rate, k - 1)
  {
  }

  lemma ScaledStep(b: real, next: real, payment: real, q: real, p: real, grown: real, rate: real)
    requires next == b * (1.0 + rate) - payment && grown == (1.0 + rate) * p
    requires b * (q - 1.0) == q - p && payment * (q - 1.0) == rate * q
    ensures next * (q - 1.0) == q - grown
  {
    calc {
      next * (q - 1.0);
      (b * (1.0 + rate) - payment) * (q - 1.0);
      (b * (q - 1.0)) * (1.0 + rate) - payment * (q - 1.0);
      (q - p) * (1.0 + rate) - rate * q;
    }
  }

  /** Paying the cost recovery factor each year clears a unit of capital
      exactly at the end of the plant's life. */
  lemma CostRecoveryFactorRepays(years: nat)
    requires years >= 1
    ensures CostRecoveryFactor(years).Ok?
    ensures Balance(RealRate(), CostRecoveryFactor(years).value, years) == 0.0
  {
    var rate := RealRate();
    var q := Pow(1.0 + rate, years);
    PowAboveOne(1.0 + rate, years);
    var crf := CostRecoveryFactor(years).value;
    assert crf == rate * q / (q - 1.0);
    BalanceClosedForm(rate, q, crf, years);
    assert Balance(rate, crf, years) * (q - 1.0) == 0.0;
  }

  /** `annuity_factor` of the low-emission copy as written: the power is
      taken of r alone, r (1 + r^n) / ((1+r)^n - 1). */
  function AnnuityFactorAsWritten(years: nat): (r: Result<real>)
    ensures r.Err? <==> years == 0
  {
    var rate := RealRate();
    var growth := Pow(1.0 + rate, years);
    GrowthAboveOne(rate, years);
    if growth - 1.0 == 0.0 then Err(DivisionByZero) else Ok(rate * (1.0 + Pow(rate, years)) / (growth - 1.0))
  }

  /** Over two years the factor as written is smaller than the one that
      repays the capital, and paying it leaves part of the debt unpaid. */
  lemma AnnuityFactorAsWrittenUndercharges()
    ensures AnnuityFactorAsWritten(2).Ok? && CostRecoveryFactor(2).Ok?
    ensures AnnuityFactorAsWritten(2).value < CostRecoveryFactor(2).value
    ensures Balance(RealRate(), AnnuityFactorAsWritten(2).value, 2) > 0.0
  {
    var r := 9.0 / 205.0;
    assert Pow(1.0 + r, 1) == 1.0 + r;
    assert Pow(1.0 + r, 2) == (1.0 + r) * (1.0 + r);
    assert Pow(r, 1) == r;
    assert Pow(r, 2) == r * r;
    assert AnnuityFactorAsWritten(2).value == (1.0 + r * r) / (2.0 + r);
    assert CostRecoveryFactor(2).value == (1.0 + r) * (1.0 + r) / (2.0 + r);
  }

  // ---------------------------------------------------------------------
  // Levelised cost of production, plant_costs.py

  /** `lcop_capex_only`: the yearly recovery of the grossed-up capital plus
      the fixed operating cost, per unit produced. */
  function LcopCapexOnly(capex: real, fixedOpex: real, production: real, years: nat): (r: Result<real>)
    ensures r.Err? <==> years == 0 || production == 0.0
    ensures r.Err? ==> r.msg == DivisionByZero
    ensures r.Ok? ==>
              r.value * production == CostRecoveryFactor(years).value * (1.199 * capex) + fixedOpex
  {
    var crf :- CostRecoveryFactor(years);
    var yearly := crf * CapexDirectAndIndirect(capex) + fixedOpex;
    if production == 0.0 then Err(DivisionByZero) else Ok(yearly / production)
  }

  /** `lcop_variable_opex_only`: the variable operating cost per unit. */
  function LcopVariableOpexOnly(cost: real, production: real): (r: Result<real>)
    ensures r.Err? <==> production == 0.0
    ensures r.Ok? ==> r.value * production == cost
  {
    if production == 0.0 then Err(DivisionByZero) else Ok(cost / production)
  }

  /** `lcop_total`: every yearly cost, fixed and variable, per unit. */
  function LcopTotal(capex: real, fixedOpex: real, variableOpex: real, production: real, years: nat): (r: Result<real>)
    ensures r.Err? <==> years == 0 || production == 0.0
    ensures r.Ok? ==>
              r.value * production == CostRecoveryFactor(years).value * (1.199 * capex) + fixedOpex + variableOpex
  {
    var capexPart :- LcopCapexOnly(capex, fixedOpex, production, years);
    var opexPart := LcopVariableOpexOnly(variableOpex, production);
    if opexPart.Err? then opexPart else Ok(capexPart + opexPart.value)
  }

  /** A costlier plant, other things equal, never has a lower levelised
      cost when production is positive. */
  lemma {:induction false} LcopTotalMonotoneInCapex(c1: real, c2: real, fixedOpex: real, variableOpex: real, production: real, years: nat)
    requires c1 <= c2 && production > 0.0 && years >= 1
    ensures LcopTotal(c1, fixedOpex, variableOpex, production, years).Ok?
    ensures LcopTotal(c1, fixedOpex, variableOpex, production, years).value
            <= LcopTotal(c2, fixedOpex, variableOpex, production, years).value
  {
    var crf := CostRecoveryFactor(years).value;
    assert crf > 0.0 by {
      PowAboveOne(1.0 + RealRate(), years);
    }
    var l1 := LcopTotal(c1, fixedOpex, variableOpex, production, years).value;
    var l2 := LcopTotal(c2, fixedOpex, variableOpex, production, years).value;
    assert crf * (1.199 * c1) <= crf * (1.199 * c2);
    assert l1 * production <= l2 * production;
  }

  // ---------------------------------------------------------------------
  // Levelised cost of production, the low-emission copy

  /** `lcop_capex_only` of the low-emission copy: the yearly charge on the
      capital with `annuity_factor` as written, per unit produced. */
  function LowEmissionLcopCapexOnly(capex: real, production: real, years: nat): (r: Result<real>)
    ensures r.Err? <==> years == 0 || production == 0.0
    ensures r.Ok? ==> r.value * production == AnnuityFactorAsWritten(years).value * capex
  {
    var annuity :- AnnuityFactorAsWritten(years);
    if production == 0.0 then Err(DivisionByZero) else Ok(annuity * capex / production)
  }

  /** `lcop_total` of the low-emission copy; its `lcop_opex_only` is
      LcopVariableOpexOnly. */
  function LowEmissionLcopTotal(capex: real, cost: real, production: real, years: nat): (r: Result<real>)
    ensures r.Err? <==> years == 0 || production == 0.0
    ensures r.Ok? ==> r.value * production == AnnuityFactorAsWritten(years).value * capex + cost
  {
    var capexPart :- LowEmissionLcopCapexOnly(capex, production, years);
    var opexPart := LcopVariableOpexOnly(cost, production);
    if opexPart.Err? then opexPart else Ok(capexPart + opexPart.value)
  }

  /** Over two years the low-emission levelised costs charge less for a
      positive capital than the yearly payment that repays it. */
  lemma LowEmissionLcopUndercharges(capex: real, cost: real, production: real)
    requires capex > 0.0 && production > 0.0
    ensures LowEmissionLcopCapexOnly(capex, production, 2).value * production < CostRecoveryFactor(2).value * capex
    ensures LowEmissionLcopTotal(capex, cost, production, 2).value * production < CostRecoveryFactor(2).value * capex + cost
  {
    AnnuityFactorAsWrittenUndercharges();
    var a, c := AnnuityFactorAsWritten(2).value, CostRecoveryFactor(2).value;
    assert a * capex < c * capex;
  }
}
