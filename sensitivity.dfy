/** The sensitivity analysis of sensitivity.py: the three sensitivity
    indices, the indicators a case sets up for a plant, the runner that
    re-solves the plant once per parameter value, and the reading of cases
    from CSV rows. examples/low_emission_steel/sensitivity.py computes the
    same three indices; its CSV rows are read differently and are modelled
    beside the main reader. */
module Sensitivity {
  import opened Base
  import opened Dicts
  import opened Text
  import opened Prices

  type Vars = Dict<string, Value>

  /** `ParameterType`: where in the model the varied parameter lives. */
  datatype ParameterType = Price | SystemVar | BoolSystemVar

  /** A float as numpy computes it: a finite number, or the infinity or NaN
      a division by zero yields instead of raising. */
  datatype Ratio = Finite(value: real) | NonFinite

  const MinMaxNeedsTwo: string :=
    "ValueError: MinMax sensitivity indicator requires two parameter values and two result values."
  const ElasticityNeedsTwo: string :=
    "ValueError: Elasticity sensitivity indicator requires two parameter values and two result values."
  const SpiderPlotNeedsPairs: string :=
    "ValueError: SpiderPlot sensitivity indicator requires the same number of parameter values "
    + "                         and result values."

  // ---------------------------------------------------------------------
  // The sensitivity indices

  /** `calculate_min_max_si`: the relative change of the result between the
      two runs. */
  function MinMaxIndex<P>(params: seq<P>, results: seq<real>): (r: Result<Ratio>)
    ensures r.Err? <==> |params| != 2 || |results| != 2
    ensures r.Err? ==> r.msg == MinMaxNeedsTwo
    ensures r.Ok? ==> (r.value.NonFinite? <==> results[0] == 0.0)
    ensures r.Ok? && r.value.Finite? ==> results[1] == results[0] * (1.0 + r.value.value)
  {
    if |params| != 2 || |results| != 2 then Err(MinMaxNeedsTwo)
    else if results[0] == 0.0 then Ok(NonFinite)
    else
      var change := (results[1] - results[0]) / results[0];
      assert results[0] * change == results[1] - results[0];
      Ok(Finite(change))
  }

  /** The elasticity between two runs: the slope times the ratio of the
      mean parameter to the mean result. */
  function Elasticity(p0: real, p1: real, r0: real, r1: real): (r: Ratio)
    ensures r.NonFinite? <==> p0 == p1 || r0 + r1 == 0.0
  {
    var x := (p0 + p1) * 0.5;
    var y := (r0 + r1) * 0.5;
    if p1 - p0 == 0.0 || y == 0.0 then NonFinite
    else Finite((r1 - r0) / (p1 - p0) * (x / y))
  }

  /** `calculate_elasticity_si`: the elasticity of the two runs. */
  function ElasticityIndex(params: seq<real>, results: seq<real>): (r: Result<Ratio>)
    ensures r.Err? <==> |params| != 2 || |results| != 2
    ensures r.Err? ==> r.msg == ElasticityNeedsTwo
    ensures r.Ok? ==> (r.value.NonFinite? <==> params[0] == params[1] || results[0] + results[1] == 0.0)
  {
    if |params| != 2 || |results| != 2 then Err(ElasticityNeedsTwo)
    else Ok(Elasticity(params[0], params[1], results[0], results[1]))
  }

  /** `calculate_spider_plot_si`: the results themselves, once they pair up
      with the parameters. */
  function SpiderPlotIndex<P>(params: seq<P>, results: seq<real>): (r: Result<seq<real>>)
    ensures r.Err? <==> |params| != |results|
    ensures r.Err? ==> r.msg == SpiderPlotNeedsPairs
    ensures r.Ok? ==> r.value == results
  {
    if |params| != |results| then Err(SpiderPlotNeedsPairs) else Ok(results)
  }

  function Scale(s: seq<real>, k: real): (r: seq<real>)
    ensures |r| == |s| && forall i :: 0 <= i < |s| ==> r[i] == k * s[i]
  {
    seq(|s|, i requires 0 <= i < |s| => k * s[i])
  }

  lemma DivideExact(n: real, d: real, q: real)
    requires d != 0.0 && n == q * d
    ensures n / d == q
  {
  }

  /** The min-max index is a relative change: measuring the result in other
      units leaves it unchanged. */
  lemma MinMaxScaleFree<P>(params: seq<P>, results: seq<real>, k: real)
    requires k != 0.0
    ensures MinMaxIndex(params, Scale(results, k)) == MinMaxIndex(params, results)
  {
    if |params| == 2 && |results| == 2 && results[0] != 0.0 {
      var scaled := Scale(results, k);
      var change := (results[1] - results[0]) / results[0];
      assert results[1] - results[0] == change * results[0];
      assert scaled[1] - scaled[0] == k * (results[1] - results[0]);
      assert scaled[1] - scaled[0] == change * scaled[0];
      DivideExact(scaled[1] - scaled[0], scaled[0], change);
    }
  }

  /** The elasticity is the arc elasticity: the change of the result over
      the mean result, per change of the parameter over the mean parameter. */
  lemma ElasticityIsArcElasticity(p0: real, p1: real, r0: real, r1: real)
    requires Elasticity(p0, p1, r0, r1).Finite?
    ensures Elasticity(p0, p1, r0, r1).value * ((p1 - p0) * (r0 + r1)) == (r1 - r0) * (p0 + p1)
  {
    var dp := p1 - p0;
    var dr := r1 - r0;
    var x := (p0 + p1) * 0.5;
    var y := (r0 + r1) * 0.5;
    var slope := dr / dp;
    var ratio := x / y;
    assert slope * dp == dr;
    assert ratio * y == x;
    ArcProduct(slope, ratio, dp, dr, x, y);
  }

  lemma ArcProduct(slope: real, ratio: real, dp: real, dr: real, x: real, y: real)
    requires slope * dp == dr && ratio * y == x
    ensures (slope * ratio) * (dp * (2.0 * y)) == dr * (2.0 * x)
  {
    calc {
      (slope * ratio) * (dp * (2.0 * y));
      2.0 * ((slope * dp) * (ratio * y));
    }
  }

  /** A result proportional to its parameter has elasticity one. */
  lemma ElasticityOfProportional(p0: real, p1: real, c: real)
    requires p0 != p1 && p0 + p1 != 0.0 && c != 0.0
    ensures ElasticityIndex([p0, p1], [c * p0, c * p1]) == Ok(Finite(1.0))
  {
    assert c * p0 + c * p1 == c * (p0 + p1);
    ElasticityIsArcElasticity(p0, p1, c * p0, c * p1);
    var v := Elasticity(p0, p1, c * p0, c * p1).value;
    assert v * ((p1 - p0) * (c * (p0 + p1))) == (c * (p1 - p0)) * (p0 + p1);
    CancelNonZero(v, 1.0, (p1 - p0) * (c * (p0 + p1)));
  }

  lemma CancelNonZero(a: real, b: real, d: real)
    requires d != 0.0 && a * d == b * d
    ensures a == b
  {
    assert (a - b) * d == 0.0;
  }

  // ---------------------------------------------------------------------
  // Evenly spaced parameter values

  function Digits(n: nat): string
  {
    if n < 10 then [('0' as int + n) as char] else Digits(n / 10) + [('0' as int + n % 10) as char]
  }

  /** `np.linspace(start, stop, num)`: `num` values from `start` to `stop`
      inclusive, a constant step apart; the last one is set to `stop`. */
  function Linspace(start: real, stop: real, num: int): (r: Result<seq<real>>)
    ensures r.Ok? <==> num >= 0
    ensures r.Ok? ==> |r.value| == num
    ensures r.Ok? && num >= 1 ==> r.value[0] == start
    ensures r.Ok? && num >= 2 ==> r.value[num - 1] == stop
  {
    if num < 0 then Err("ValueError: Number of samples, -" + Digits(-num) + ", must be non-negative.")
    else if num == 1 then Ok([start])
    else
      var step := (stop - start) / ((num - 1) as real);
      Ok(seq(num, i requires 0 <= i < num => if i == num - 1 then stop else start + (i as real) * step))
  }

  lemma StepsAddUp(start: real, stop: real, n: real, step: real)
    requires n > 0.0 && step == (stop - start) / n
    ensures start + n * step == stop
  {
  }

  /** Consecutive values are one step apart, the last included. */
  lemma LinspaceEvenlySpaced(start: real, stop: real, num: int, i: int)
    requires num >= 2 && 0 < i < num
    ensures Linspace(start, stop, num).value[i] - Linspace(start, stop, num).value[i - 1]
            == (stop - start) / ((num - 1) as real)
  {
    var xs := Linspace(start, stop, num).value;
    var step := (stop - start) / ((num - 1) as real);
    if i == num - 1 {
      StepsAddUp(start, stop, (num - 1) as real, step);
      assert ((i - 1) as real) * step + step == (num - 1) as real * step;
    } else {
      assert xs[i] - xs[i - 1] == (i as real) * step - ((i - 1) as real) * step;
    }
  }

  /** From a lower start to a higher stop every value lies between the two. */
  lemma LinspaceWithin(start: real, stop: real, num: int, i: int)
    requires start <= stop && num >= 0 && 0 <= i < num
    ensures start <= Linspace(start, stop, num).value[i] <= stop
  {
    if num >= 2 && i < num - 1 {
      var n := (num - 1) as real;
      var step := (stop - start) / n;
      StepsAddUp(start, stop, n, step);
      assert step >= 0.0;
      assert (i as real) * step <= n * step;
    }
  }

  // ---------------------------------------------------------------------
  // Cases and the indicators they set up

  /** `SensitivityCase` with the fields its constructor and the CSV reader
      set: the range of the sweep, its number of values, and the two
      percentages that only the other indices would use. */
  datatype SensitivityCase = SensitivityCase(systemName: string, parameterName: string, parameterType: ParameterType,
                                             xMax: real, xMin: real, maxPercChange: real, numIncrements: int,
                                             elasticityPercChange: real)

  /** A case as its constructor leaves it. */
  function NewCase(systemName: string, parameterName: string, parameterType: ParameterType): SensitivityCase {
    SensitivityCase(systemName, parameterName, parameterType, 0.0, 0.0, 30.0, 11, 3.0)
  }

  /** The `calculate` callable an indicator carries. */
  datatype IndicatorKind = MinMaxKind | SpiderPlotKind

  /** What `create_sensitivity_indicators` sets on a new indicator. */
  datatype IndicatorSetup = IndicatorSetup(indicatorName: string, systemName: string, parameterName: string,
                                           parameterType: ParameterType, parameterVals: seq<Value>,
                                           calculate: IndicatorKind, baseParameterVal: Value, baseResultVal: real)

  /** The plant as the sensitivity code sees it: its name, its system
      variables and what its `lcop()` returns (the levelised cost is the
      plant code's to compute). */
  datatype SystemView = SystemView(name: string, vars: Vars, lcop: Result<real>)

  function Numbers(xs: seq<real>): (r: seq<Value>)
    ensures |r| == |xs| && forall i :: 0 <= i < |xs| ==> r[i] == NumV(xs[i])
  {
    seq(|xs|, i requires 0 <= i < |xs| => NumV(xs[i]))
  }

  /** Python's name for the type of a value that is not a number. */
  function TypeName(v: Value): string {
    match v
    case NoneV => "<class 'NoneType'>"
    case BoolV(_) => "<class 'bool'>"
    case NumV(_) => "<class 'float'>"
    case StrV(_) => "<class 'str'>"
    case NamesV(_) => "<class 'list'>"
  }

  function NotNumeric(v: Value): string {
    "ValueError: The parameter type needs to be a numeric float or int, not " + TypeName(v)
  }

  /** A float or an int: a Python bool is an int too. */
  predicate Numeric(v: Value) {
    v.NumV? || v.BoolV?
  }

  function SpiderPlotFor(c: SensitivityCase, system: SystemView, base: Value): Result<seq<IndicatorSetup>> {
    var xs :- Linspace(c.xMin, c.xMax, c.numIncrements);
    var lcop :- system.lcop;
    Ok([IndicatorSetup("SpiderPlot", system.name, c.parameterName, c.parameterType, Numbers(xs), SpiderPlotKind, base, lcop)])
  }

  /** The case is for this plant, or for "ALL" in any letter case. */
  predicate Applies(c: SensitivityCase, system: SystemView) {
    system.name == c.systemName || Upper(c.systemName) == "ALL"
  }

  /** `create_sensitivity_indicators`: nothing for another plant unless the
      case is for "ALL"; a boolean variable gets one min-max indicator over
      False and True; a price or a numeric variable gets one spider plot
      over the case's range. */
  function CreateSensitivityIndicators(c: SensitivityCase, system: SystemView, prices: PriceTable): (r: Result<seq<IndicatorSetup>>)
    ensures !Applies(c, system) ==> r == Ok([])
    ensures r.Ok? ==> |r.value| <= 1
  {
    if !Applies(c, system) then Ok([])
    else match c.parameterType
      case BoolSystemVar =>
        if c.parameterName !in system.vars.entries then Ok([])
        else
          var lcop :- system.lcop;
          Ok([IndicatorSetup("BooleanMinMax", system.name, c.parameterName, c.parameterType, [BoolV(false), BoolV(true)],
                             MinMaxKind, system.vars.entries[c.parameterName], lcop)])
      case Price =>
        if c.parameterName !in prices.entries then Err(KeyError(c.parameterName))
        else SpiderPlotFor(c, system, NumV(prices.entries[c.parameterName].priceUsd))
      case SystemVar =>
        if c.parameterName !in system.vars.entries then Ok([])
        else
          var base := system.vars.entries[c.parameterName];
          if !Numeric(base) then Err(NotNumeric(base)) else SpiderPlotFor(c, system, base)
  }

  /** A variable the plant does not have yields no indicator; a price the
      table does not have raises KeyError; a variable that is not a number
      raises ValueError. */
  lemma CreateMissingOrInvalid(c: SensitivityCase, system: SystemView, prices: PriceTable)
    requires Applies(c, system)
    ensures !c.parameterType.Price? && c.parameterName !in system.vars.entries ==> CreateSensitivityIndicators(c, system, prices) == Ok([])
    ensures c.parameterType.Price? && c.parameterName !in prices.entries
            ==> CreateSensitivityIndicators(c, system, prices) == Err(KeyError(c.parameterName))
    ensures c.parameterType.SystemVar? && c.parameterName in system.vars.entries && !Numeric(system.vars.entries[c.parameterName])
            ==> CreateSensitivityIndicators(c, system, prices) == Err(NotNumeric(system.vars.entries[c.parameterName]))
  {
  }

  /** Every indicator is for this plant and this parameter, with the plant's
      levelised cost as its base result. */
  lemma CreateNamesPlantAndParameter(c: SensitivityCase, system: SystemView, prices: PriceTable)
    requires CreateSensitivityIndicators(c, system, prices).Ok? && CreateSensitivityIndicators(c, system, prices).value != []
    ensures var s := CreateSensitivityIndicators(c, system, prices).value[0];
            system.lcop.Ok? && s.systemName == system.name && s.parameterName == c.parameterName
            && s.parameterType == c.parameterType && s.baseResultVal == system.lcop.value
  {
  }

  /** A boolean variable the plant has gets exactly one BooleanMinMax
      indicator over False and True, based at the variable's value. */
  lemma CreateBooleanMinMax(c: SensitivityCase, system: SystemView, prices: PriceTable)
    requires Applies(c, system) && c.parameterType.BoolSystemVar? && c.parameterName in system.vars.entries && system.lcop.Ok?
    ensures CreateSensitivityIndicators(c, system, prices).Ok?
    ensures var s := CreateSensitivityIndicators(c, system, prices).value;
            |s| == 1 && s[0].indicatorName == "BooleanMinMax" && s[0].calculate == MinMaxKind
            && s[0].parameterVals == [BoolV(false), BoolV(true)] && s[0].baseParameterVal == system.vars.entries[c.parameterName]
  {
  }

  /** Any other indicator is a spider plot over `num_increments` evenly
      spaced values from x_min to x_max, based at a number: the price, or the
      variable's value. */
  lemma CreateSpiderPlot(c: SensitivityCase, system: SystemView, prices: PriceTable)
    requires CreateSensitivityIndicators(c, system, prices).Ok? && CreateSensitivityIndicators(c, system, prices).value != []
    requires !c.parameterType.BoolSystemVar?
    ensures var s := CreateSensitivityIndicators(c, system, prices).value[0];
            s.indicatorName == "SpiderPlot" && s.calculate == SpiderPlotKind
            && Linspace(c.xMin, c.xMax, c.numIncrements).Ok?
            && s.parameterVals == Numbers(Linspace(c.xMin, c.xMax, c.numIncrements).value)
            && Numeric(s.baseParameterVal)
            && (c.parameterType.Price? ==> c.parameterName in prices.entries && s.baseParameterVal == NumV(prices.entries[c.parameterName].priceUsd))
            && (c.parameterType.SystemVar? ==> c.parameterName in system.vars.entries && s.baseParameterVal == system.vars.entries[c.parameterName])
  {
  }

  /** A case with an ordered range sweeps only values inside that range. */
  lemma SpiderPlotWithinRange(c: SensitivityCase, system: SystemView, prices: PriceTable, i: int)
    requires c.xMin <= c.xMax
    requires CreateSensitivityIndicators(c, system, prices).Ok? && CreateSensitivityIndicators(c, system, prices).value != []
    requires !c.parameterType.BoolSystemVar?
    requires 0 <= i < |CreateSensitivityIndicators(c, system, prices).value[0].parameterVals|
    ensures CreateSensitivityIndicators(c, system, prices).value[0].parameterVals[i].NumV?
    ensures c.xMin <= CreateSensitivityIndicators(c, system, prices).value[0].parameterVals[i].x <= c.xMax
  {
    CreateSpiderPlot(c, system, prices);
    LinspaceWithin(c.xMin, c.xMax, c.numIncrements, i);
  }

  // ---------------------------------------------------------------------
  // Running an indicator

  /** The solver as the runner uses it: the plant's name, its system
      variables and the prices in, the levelised cost of the solved plant
      out, or the message of the exception it raised. */
  type Solver = (string, Vars, PriceTable) -> Result<real>

  /** The fields of an indicator the runner writes. */
  datatype RunState = RunState(resultVals: seq<real>, success: Option<bool>, errorMsg: string)

  const Unrun: RunState := RunState([], None, "")

  /** A parameter value as a price: a bool counts as 0 or 1, anything else
      makes the cost arithmetic raise. */
  function PriceValue(v: Value): (r: Result<real>)
    ensures v.NumV? ==> r == Ok(v.x)
  {
    match v
    case NumV(x) => Ok(x)
    case BoolV(b) => Ok(if b then 1.0 else 0.0)
    case _ => Err("TypeError: unsupported operand type(s)")
  }

  /** One solve with the parameter set to `v` on copies of the plant and
      the prices. A price that is not in the table raises KeyError, which
      `run` would not catch; the indicator's own setup has already looked
      it up, so it cannot happen here. */
  function Trial(s: IndicatorSetup, system: SystemView, prices: PriceTable, solve: Solver, v: Value): (r: Result<real>)
    ensures !s.parameterType.Price? ==> r == solve(system.name, Put(system.vars, s.parameterName, v), prices)
    ensures s.parameterType.Price? && s.parameterName !in prices.entries ==> r == Err(KeyError(s.parameterName))
    ensures s.parameterType.Price? && s.parameterName in prices.entries && !(v.NumV? || v.BoolV?) ==>
              r == Err("TypeError: unsupported operand type(s)")
    ensures s.parameterType.Price? && s.parameterName in prices.entries && (v.NumV? || v.BoolV?) ==>
              var p := prices.entries[s.parameterName];
              var x := if v.NumV? then v.x else if v.b then 1.0 else 0.0;
              r == solve(system.name, system.vars, Put(prices, s.parameterName, p.(priceUsd := x)))
  {
    if s.parameterType.Price? then
      if s.parameterName !in prices.entries then Err(KeyError(s.parameterName))
      else
        var x :- PriceValue(v);
        solve(system.name, system.vars, Put(prices, s.parameterName, prices.entries[s.parameterName].(priceUsd := x)))
    else solve(system.name, Put(system.vars, s.parameterName, v), prices)
  }

  /** The solve of each parameter value, in order. */
  function Attempts(vals: seq<Value>, attempt: Value -> Result<real>): (r: seq<Result<real>>)
    ensures |r| == |vals| && forall i :: 0 <= i < |vals| ==> r[i] == attempt(vals[i])
  {
    seq(|vals|, i requires 0 <= i < |vals| => attempt(vals[i]))
  }

  /** The effect of one solve on the indicator. */
  function Record(st: RunState, t: Result<real>): RunState {
    if t.Ok? then RunState(st.resultVals + [t.value], Some(true), st.errorMsg)
    else RunState(st.resultVals, Some(false), t.msg)
  }

  /** The indicator after the runner has taken the first `n` solves, having
      stopped at the first that failed. */
  function RunPrefix(trials: seq<Result<real>>, n: nat): RunState
    requires n <= |trials|
  {
    if n == 0 then Unrun
    else
      var prev := RunPrefix(trials, n - 1);
      if prev.success == Some(false) then prev else Record(prev, trials[n - 1])
  }

  /** How each indicator's solves come out: for an indicator and a
      parameter value, the solve of the plant with that value. */
  type Attempter = IndicatorSetup -> Value -> Result<real>

  /** The solves `run` makes for one plant under one price table. */
  function AttempterFor(system: SystemView, prices: PriceTable, solve: Solver): Attempter {
    s => v => Trial(s, system, prices, solve, v)
  }

  /** The same, for every plant. */
  function AttemptersFor(prices: PriceTable, solve: Solver): SystemView -> Attempter {
    system => AttempterFor(system, prices, solve)
  }

  /** The indicator once the runner is done with it. */
  function RunOf(s: IndicatorSetup, system: SystemView, prices: PriceTable, solve: Solver): RunState {
    RunPrefix(Attempts(s.parameterVals, AttempterFor(system, prices, solve)(s)), |s.parameterVals|)
  }

  lemma {:induction false} RunStops(trials: seq<Result<real>>, n: nat, m: nat)
    requires n <= m <= |trials| && RunPrefix(trials, n).success == Some(false)
    ensures RunPrefix(trials, m) == RunPrefix(trials, n)
    decreases m - n
  {
    if n < m {
      RunStops(trials, n + 1, m);
    }
  }

  /** While every solve succeeds, the results are the solves' values in
      parameter order. */
  lemma {:induction false} RunAllSolved(trials: seq<Result<real>>, n: nat)
    requires n <= |trials| && forall i :: 0 <= i < n ==> trials[i].Ok?
    ensures |RunPrefix(trials, n).resultVals| == n
    ensures forall i :: 0 <= i < n ==> RunPrefix(trials, n).resultVals[i] == trials[i].value
    ensures RunPrefix(trials, n).success == (if n == 0 then None else Some(true))
    ensures RunPrefix(trials, n).errorMsg == ""
  {
    if n > 0 {
      RunAllSolved(trials, n - 1);
    }
  }

  /** The first failed solve ends the run: the results before it are kept,
      success is False and its message is recorded. */
  lemma RunFirstFailure(trials: seq<Result<real>>, j: nat)
    requires j < |trials| && trials[j].Err? && forall i :: 0 <= i < j ==> trials[i].Ok?
    ensures RunPrefix(trials, |trials|).resultVals == seq(j, i requires 0 <= i < j => trials[i].value)
    ensures RunPrefix(trials, |trials|).success == Some(false)
    ensures RunPrefix(trials, |trials|).errorMsg == trials[j].msg
  {
    RunAllSolved(trials, j);
    RunStops(trials, j + 1, |trials|);
  }

  /** An indicator ends successful exactly when it has values and every
      solve succeeded; with no values it is left undecided. */
  lemma RunSucceedsIff(trials: seq<Result<real>>)
    ensures RunPrefix(trials, |trials|).success == Some(true) <==> |trials| > 0 && forall i :: 0 <= i < |trials| ==> trials[i].Ok?
    ensures RunPrefix(trials, |trials|).success == None <==> |trials| == 0
  {
    RunSuccessPrefix(trials, |trials|);
  }

  lemma {:induction false} RunSuccessPrefix(trials: seq<Result<real>>, n: nat)
    requires n <= |trials|
    ensures RunPrefix(trials, n).success == Some(true) <==> n > 0 && forall i :: 0 <= i < n ==> trials[i].Ok?
    ensures RunPrefix(trials, n).success == None <==> n == 0
  {
    if n > 0 {
      RunSuccessPrefix(trials, n - 1);
    }
  }

  /** `SensitivityIndicator`: the setup `create_sensitivity_indicators`
      gives it and the fields `run` fills in. */
  class SensitivityIndicator {
    const setup: IndicatorSetup
    var resultVals: seq<real>
    var success: Option<bool>
    var errorMsg: string

    function State(): RunState
      reads this
    {
      RunState(resultVals, success, errorMsg)
    }

    constructor(setup: IndicatorSetup)
      ensures this.setup == setup && State() == Unrun
    {
      this.setup := setup;
      resultVals := [];
      success := None;
      errorMsg := "";
    }

    /** The loop of `run` over the indicator's parameter values: one solve
        per value, appending each result, until a solve raises. `attempt`
        is the solve of the plant with the parameter set to the value. */
    method RunParameters(attempt: Value -> Result<real>)
      requires State() == Unrun
      modifies this
      ensures State() == RunPrefix(Attempts(setup.parameterVals, attempt), |setup.parameterVals|)
    {
      ghost var trials := Attempts(setup.parameterVals, attempt);
      var i := 0;
      while i < |setup.parameterVals|
        invariant 0 <= i <= |setup.parameterVals|
        invariant State() == RunPrefix(trials, i) && success != Some(false)
      {
        var t := attempt(setup.parameterVals[i]);
        if t.Ok? {
          resultVals := resultVals + [t.value];
          success := Some(true);
        } else {
          success := Some(false);
          errorMsg := t.msg;
          RunStops(trials, i + 1, |trials|);
          return;
        }
        i := i + 1;
      }
    }
  }

  function Setups(sis: seq<SensitivityIndicator>): (r: seq<IndicatorSetup>)
    ensures |r| == |sis| && forall i :: 0 <= i < |sis| ==> r[i] == sis[i].setup
  {
    seq(|sis|, i requires 0 <= i < |sis| => sis[i].setup)
  }

  /** Every indicator is in the state running its solves leaves it in. */
  predicate RanWith(sis: seq<SensitivityIndicator>, attempt: Attempter)
    reads sis
  {
    forall i :: 0 <= i < |sis| ==>
      sis[i].State() == RunPrefix(Attempts(sis[i].setup.parameterVals, attempt(sis[i].setup)), |sis[i].setup.parameterVals|)
  }

  /** Every indicator is in the state `run` leaves it in for the plant. */
  predicate AllRun(sis: seq<SensitivityIndicator>, system: SystemView, prices: PriceTable, solve: Solver)
    reads sis
  {
    RanWith(sis, AttempterFor(system, prices, solve))
  }

  /** The concatenation of what `f` gives for the first `n` items, or the
      first failure. */
  function Collect<C, T>(xs: seq<C>, f: C -> Result<seq<T>>, n: nat): Result<seq<T>>
    requires n <= |xs|
  {
    if n == 0 then Ok([])
    else
      var prev :- Collect(xs, f, n - 1);
      var next :- f(xs[n - 1]);
      Ok(prev + next)
  }

  lemma {:induction false} CollectFailureSticks<C, T>(xs: seq<C>, f: C -> Result<seq<T>>, n: nat, m: nat)
    requires n <= m <= |xs| && Collect(xs, f, n).Err?
    ensures Collect(xs, f, m) == Collect(xs, f, n)
    decreases m - n
  {
    if n < m {
      CollectFailureSticks(xs, f, n, m - 1);
    }
  }

  /** For each of the first `n` of `ys`, the collection of `f(y)` over all
      of `xs`; or the first failure. */
  function CollectEach<S, C, T>(ys: seq<S>, xs: seq<C>, f: S -> C -> Result<seq<T>>, n: nat): (r: Result<seq<seq<T>>>)
    requires n <= |ys|
    ensures r.Ok? ==> |r.value| == n
  {
    if n == 0 then Ok([])
    else
      var prev :- CollectEach(ys, xs, f, n - 1);
      var next :- Collect(xs, f(ys[n - 1]), |xs|);
      Ok(prev + [next])
  }

  lemma {:induction false} CollectEachFailureSticks<S, C, T>(ys: seq<S>, xs: seq<C>, f: S -> C -> Result<seq<T>>, n: nat, m: nat)
    requires n <= m <= |ys| && CollectEach(ys, xs, f, n).Err?
    ensures CollectEach(ys, xs, f, m) == CollectEach(ys, xs, f, n)
    decreases m - n
  {
    if n < m {
      CollectEachFailureSticks(ys, xs, f, n, m - 1);
    }
  }

  /** Each part of a successful `CollectEach` is the collection for its own
      item. */
  lemma {:induction false} CollectEachParts<S, C, T>(ys: seq<S>, xs: seq<C>, f: S -> C -> Result<seq<T>>, n: nat)
    requires n <= |ys| && CollectEach(ys, xs, f, n).Ok?
    ensures forall i :: 0 <= i < n ==> Collect(xs, f(ys[i]), |xs|) == Ok(CollectEach(ys, xs, f, n).value[i])
  {
    if n > 0 {
      CollectEachParts(ys, xs, f, n - 1);
    }
  }

  /** `create_sensitivity_indicators` for one plant. */
  function CreatorFor(system: SystemView, prices: PriceTable): SensitivityCase -> Result<seq<IndicatorSetup>> {
    c => CreateSensitivityIndicators(c, system, prices)
  }

  /** The same, for every plant. */
  function CreatorsFor(prices: PriceTable): SystemView -> SensitivityCase -> Result<seq<IndicatorSetup>> {
    system => CreatorFor(system, prices)
  }

  /** The indicators of every case for one plant, in case order, or the
      first exception a case raises. */
  function SystemSetups(cases: seq<SensitivityCase>, system: SystemView, prices: PriceTable): Result<seq<IndicatorSetup>> {
    Collect(cases, CreatorFor(system, prices), |cases|)
  }

  /** The setups of every plant, one list per plant, or the first
      exception. */
  function AllSetups(systems: seq<SystemView>, cases: seq<SensitivityCase>, prices: PriceTable): (r: Result<seq<seq<IndicatorSetup>>>)
    ensures r.Ok? ==> |r.value| == |systems|
  {
    CollectEach(systems, cases, CreatorsFor(prices), |systems|)
  }

  /** When every plant's indicators can be set up, the list for each plant
      is that plant's own setups. */
  lemma AllSetupsPerPlant(systems: seq<SystemView>, cases: seq<SensitivityCase>, prices: PriceTable)
    requires AllSetups(systems, cases, prices).Ok?
    ensures forall i :: 0 <= i < |systems| ==> SystemSetups(cases, systems[i], prices) == Ok(AllSetups(systems, cases, prices).value[i])
  {
    CollectEachParts(systems, cases, CreatorsFor(prices), |systems|);
  }

  /** The innermost loops of `run` for one case: each indicator, in order,
      is run over its parameter values. */
  method RunSetups(setups: seq<IndicatorSetup>, attempt: Attempter) returns (sis: seq<SensitivityIndicator>)
    ensures Setups(sis) == setups && RanWith(sis, attempt)
  {
    sis := [];
    var j := 0;
    while j < |setups|
      invariant 0 <= j <= |setups| && |sis| == j
      invariant Setups(sis) == setups[..j] && RanWith(sis, attempt)
    {
      var si := new SensitivityIndicator(setups[j]);
      si.RunParameters(attempt(setups[j]));
      sis := sis + [si];
      j := j + 1;
    }
  }

  /** The loop of `run` over the cases for one plant: each case's
      indicators are created and run, and an exception from creating them
      ends the run. */
  method RunCases<C>(cases: seq<C>, create: C -> Result<seq<IndicatorSetup>>, attempt: Attempter)
    returns (r: Result<seq<SensitivityIndicator>>)
    ensures r.Err? <==> Collect(cases, create, |cases|).Err?
    ensures r.Err? ==> r.msg == Collect(cases, create, |cases|).msg
    ensures r.Ok? ==> Setups(r.value) == Collect(cases, create, |cases|).value && RanWith(r.value, attempt)
  {
    var sis: seq<SensitivityIndicator> := [];
    var j := 0;
    while j < |cases|
      invariant 0 <= j <= |cases|
      invariant Collect(cases, create, j).Ok? && Setups(sis) == Collect(cases, create, j).value
      invariant RanWith(sis, attempt)
    {
      var setups := create(cases[j]);
      if setups.Err? {
        CollectFailureSticks(cases, create, j + 1, |cases|);
        return Err(setups.msg);
      }
      var more := RunSetups(setups.value, attempt);
      assert Setups(sis + more) == Setups(sis) + Setups(more);
      sis := sis + more;
      j := j + 1;
    }
    return Ok(sis);
  }

  /** The loops of `run` over the plants and, for each, the cases. */
  method RunAll<S, C>(systems: seq<S>, cases: seq<C>, create: S -> C -> Result<seq<IndicatorSetup>>, attempt: S -> Attempter)
    returns (r: Result<seq<seq<SensitivityIndicator>>>)
    ensures r.Err? <==> CollectEach(systems, cases, create, |systems|).Err?
    ensures r.Err? ==> r.msg == CollectEach(systems, cases, create, |systems|).msg
    ensures r.Ok? ==> |r.value| == |systems|
                      && forall i :: 0 <= i < |systems| ==> Setups(r.value[i]) == CollectEach(systems, cases, create, |systems|).value[i]
    ensures r.Ok? ==> forall i :: 0 <= i < |systems| ==> RanWith(r.value[i], attempt(systems[i]))
  {
    var all: seq<seq<SensitivityIndicator>> := [];
    var i := 0;
    while i < |systems|
      invariant 0 <= i <= |systems| && |all| == i
      invariant CollectEach(systems, cases, create, i).Ok?
      invariant forall k :: 0 <= k < i ==>
                  Setups(all[k]) == CollectEach(systems, cases, create, i).value[k] && RanWith(all[k], attempt(systems[k]))
    {
      var sis := RunCases(cases, create(systems[i]), attempt(systems[i]));
      if sis.Err? {
        CollectEachFailureSticks(systems, cases, create, i + 1, |systems|);
        return Err(sis.msg);
      }
      all := all + [sis.value];
      i := i + 1;
    }
    return Ok(all);
  }

  /** `SensitivityAnalysisRunner.run`: for each plant, in order, the
      indicators of every case, each run; the first exception from creating
      indicators ends the run. */
  method Run(systems: seq<SystemView>, cases: seq<SensitivityCase>, prices: PriceTable, solve: Solver)
    returns (r: Result<seq<seq<SensitivityIndicator>>>)
    ensures r.Err? <==> AllSetups(systems, cases, prices).Err?
    ensures r.Err? ==> r.msg == AllSetups(systems, cases, prices).msg
    ensures r.Ok? ==> |r.value| == |systems|
                      && forall i :: 0 <= i < |systems| ==> Setups(r.value[i]) == AllSetups(systems, cases, prices).value[i]
    ensures r.Ok? ==> forall i :: 0 <= i < |systems| ==> AllRun(r.value[i], systems[i], prices, solve)
  {
    r := RunAll(systems, cases, CreatorsFor(prices), AttemptersFor(prices, solve));
  }

  // ---------------------------------------------------------------------
  // What a finished indicator computes

  /** A computed index: a single number or one number per parameter. */
  datatype IndexValue = Scalar(ratio: Ratio) | Series(values: seq<real>)

  /** `si.calculate(si.parameter_vals, si.result_vals)`. */
  function Calculate(s: IndicatorSetup, resultVals: seq<real>): (r: Result<IndexValue>)
    ensures s.calculate.MinMaxKind? ==> (r.Err? <==> |s.parameterVals| != 2 || |resultVals| != 2)
    ensures s.calculate.SpiderPlotKind? ==> (r.Err? <==> |s.parameterVals| != |resultVals|)
    ensures r.Err? ==> r.msg == (if s.calculate.MinMaxKind? then MinMaxNeedsTwo else SpiderPlotNeedsPairs)
    ensures r.Ok? ==> (r.value.Series? <==> s.calculate.SpiderPlotKind?)
    ensures r.Ok? && r.value.Series? ==> r.value.values == resultVals
    ensures r.Ok? && r.value.Scalar? ==>
              (r.value.ratio.NonFinite? <==> resultVals[0] == 0.0)
              && (r.value.ratio.Finite? ==> resultVals[1] == resultVals[0] * (1.0 + r.value.ratio.value))
  {
    match s.calculate
    case MinMaxKind =>
      var v :- MinMaxIndex(s.parameterVals, resultVals);
      Ok(Scalar(v))
    case SpiderPlotKind =>
      var v :- SpiderPlotIndex(s.parameterVals, resultVals);
      Ok(Series(v))
  }

  /** A min-max indicator `create_sensitivity_indicators` makes has exactly
      two parameter values. */
  lemma CreatedMinMaxHasTwo(c: SensitivityCase, system: SystemView, prices: PriceTable, s: IndicatorSetup)
    requires CreateSensitivityIndicators(c, system, prices).Ok? && s in CreateSensitivityIndicators(c, system, prices).value
    ensures s.calculate.MinMaxKind? ==> |s.parameterVals| == 2
  {
  }

  /** A run that ends successful has one result per parameter value, so the
      index of an indicator of the right shape computes without raising. */
  lemma {:induction false} SucceededRunComputes(s: IndicatorSetup, attempt: Value -> Result<real>)
    requires s.calculate.MinMaxKind? ==> |s.parameterVals| == 2
    requires RunPrefix(Attempts(s.parameterVals, attempt), |s.parameterVals|).success == Some(true)
    ensures Calculate(s, RunPrefix(Attempts(s.parameterVals, attempt), |s.parameterVals|).resultVals).Ok?
  {
    var trials := Attempts(s.parameterVals, attempt);
    RunSucceedsIff(trials);
    RunAllSolved(trials, |trials|);
  }

  /** Every indicator the runner reports as successful has as many results
      as parameters, so its index can be computed without raising. */
  lemma SucceededIndicatorComputes(c: SensitivityCase, system: SystemView, prices: PriceTable, solve: Solver, s: IndicatorSetup)
    requires CreateSensitivityIndicators(c, system, prices).Ok? && s in CreateSensitivityIndicators(c, system, prices).value
    requires RunOf(s, system, prices, solve).success == Some(true)
    ensures Calculate(s, RunOf(s, system, prices, solve).resultVals).Ok?
  {
    CreatedMinMaxHasTwo(c, system, prices, s);
    SucceededRunComputes(s, AttempterFor(system, prices, solve)(s));
  }

  // ---------------------------------------------------------------------
  // Reading cases from CSV rows


  function ParameterTypeName(t: ParameterType): string {
    match t
    case Price => "Price"
    case SystemVar => "SystemVar"
    case BoolSystemVar => "BoolSystemVar"
  }

  /** `ParameterType[name]`: the member with that name, or a KeyError. */
  function ParameterTypeNamed(name: string): (r: Result<ParameterType>)
    ensures r.Ok? <==> name == "Price" || name == "SystemVar" || name == "BoolSystemVar"
    ensures r.Err? ==> r.msg == KeyError(name)
  {
    if name == "Price" then Ok(Price)
    else if name == "SystemVar" then Ok(SystemVar)
    else if name == "BoolSystemVar" then Ok(BoolSystemVar)
    else Err(KeyError(name))
  }

  /** Every member is found under its own name. */
  lemma ParameterTypeNamedRoundTrip(t: ParameterType)
    ensures ParameterTypeNamed(ParameterTypeName(t)) == Ok(t)
  {
  }

  /** `row[k]`, or the IndexError a short row raises. */
  function Field(row: seq<string>, k: nat): (r: Result<string>)
    ensures r.Ok? <==> k < |row|
    ensures r.Ok? ==> r.value == row[k]
  {
    if k < |row| then Ok(row[k]) else Err(IndexOutOfRange)
  }

  /** The number in `row[k]`, as `parseFloat(row[k])` or `parseInt(row[k])` reads it. */
  function FieldNumber<N>(row: seq<string>, k: nat, parse: string -> Result<N>): (r: Result<N>)
    ensures k >= |row| ==> r == Err(IndexOutOfRange)
    ensures k < |row| ==> r == parse(row[k])
  {
    var s :- Field(row, k);
    parse(s)
  }

  /** One row of `sensitivity_analysis_runner_from_csv`: the plant, the
      parameter and its type, then, unless the parameter is boolean, the
      range from two bounds in either order, the number of values and the
      elasticity percentage. `parseFloat` and `parseInt` stand for `float` and `int`. */
  function CaseFromRow(row: seq<string>, parseFloat: string -> Result<real>, parseInt: string -> Result<int>): (r: Result<SensitivityCase>)
    ensures |row| < 3 ==> r == Err(IndexOutOfRange)
    ensures r.Ok? ==> |row| >= 3 && r.value.systemName == row[0] && r.value.parameterName == row[1]
                      && ParameterTypeNamed(row[2]) == Ok(r.value.parameterType)
    ensures r.Ok? && r.value.parameterType.BoolSystemVar? ==> r.value == NewCase(row[0], row[1], BoolSystemVar)
    ensures r.Ok? && !r.value.parameterType.BoolSystemVar? ==>
              |row| >= 7 && parseFloat(row[3]).Ok? && parseFloat(row[4]).Ok? && parseInt(row[5]).Ok? && parseFloat(row[6]).Ok?
              && r.value.xMin <= r.value.xMax
              && ((r.value.xMin, r.value.xMax) == (parseFloat(row[3]).value, parseFloat(row[4]).value)
                  || (r.value.xMin, r.value.xMax) == (parseFloat(row[4]).value, parseFloat(row[3]).value))
              && r.value.numIncrements == parseInt(row[5]).value && r.value.elasticityPercChange == parseFloat(row[6]).value
              && r.value.maxPercChange == 30.0
  {
    var systemName :- Field(row, 0);
    var parameterName :- Field(row, 1);
    var typeName :- Field(row, 2);
    var parameterType :- ParameterTypeNamed(typeName);
    var c := NewCase(systemName, parameterName, parameterType);
    if parameterType.BoolSystemVar? then Ok(c)
    else
      var x1 :- FieldNumber(row, 3, parseFloat);
      var x2 :- FieldNumber(row, 4, parseFloat);
      var num :- FieldNumber(row, 5, parseInt);
      var elasticity :- FieldNumber(row, 6, parseFloat);
      Ok(c.(xMax := Max(x1, x2), xMin := Min(x1, x2), numIncrements := num, elasticityPercChange := elasticity))
  }

  /** `sensitivity_analysis_runner_from_csv` over the rows of the file: the
      header is skipped and every other row becomes a case, in order; the
      first row that cannot be read raises. */
  method ReadCases(rows: seq<seq<string>>, parseFloat: string -> Result<real>, parseInt: string -> Result<int>)
    returns (r: Result<seq<SensitivityCase>>)
    ensures r.Ok? <==> |rows| >= 1 && forall i :: 1 <= i < |rows| ==> CaseFromRow(rows[i], parseFloat, parseInt).Ok?
    ensures |rows| == 0 ==> r == Err(NoHeader)
    ensures r.Ok? ==> |r.value| == |rows| - 1
                      && forall i :: 0 <= i < |r.value| ==> r.value[i] == CaseFromRow(rows[i + 1], parseFloat, parseInt).value
    ensures r.Err? && |rows| >= 1 ==>
              exists i :: 1 <= i < |rows| && CaseFromRow(rows[i], parseFloat, parseInt).Err?
                          && r.msg == CaseFromRow(rows[i], parseFloat, parseInt).msg
                          && forall j :: 1 <= j < i ==> CaseFromRow(rows[j], parseFloat, parseInt).Ok?
  {
    if |rows| == 0 {
      return Err(NoHeader);
    }
    var cases: seq<SensitivityCase> := [];
    var i := 1;
    while i < |rows|
      invariant 1 <= i <= |rows| && |cases| == i - 1
      invariant forall j :: 1 <= j < i ==> CaseFromRow(rows[j], parseFloat, parseInt).Ok?
      invariant forall j :: 0 <= j < |cases| ==> cases[j] == CaseFromRow(rows[j + 1], parseFloat, parseInt).value
    {
      var c := CaseFromRow(rows[i], parseFloat, parseInt);
      if c.Err? {
        return Err(c.msg);
      }
      cases := cases + [c.value];
      i := i + 1;
    }
    return Ok(cases);
  }

  /** Every case read from a file that names a range has it in order, so
      its spider plot stays inside the range. */
  lemma ReadRangesOrdered(row: seq<string>, parseFloat: string -> Result<real>, parseInt: string -> Result<int>,
                          system: SystemView, prices: PriceTable, i: int)
    requires CaseFromRow(row, parseFloat, parseInt).Ok? && !CaseFromRow(row, parseFloat, parseInt).value.parameterType.BoolSystemVar?
    requires CreateSensitivityIndicators(CaseFromRow(row, parseFloat, parseInt).value, system, prices).Ok?
    requires CreateSensitivityIndicators(CaseFromRow(row, parseFloat, parseInt).value, system, prices).value != []
    requires 0 <= i < |CreateSensitivityIndicators(CaseFromRow(row, parseFloat, parseInt).value, system, prices).value[0].parameterVals|
    ensures CreateSensitivityIndicators(CaseFromRow(row, parseFloat, parseInt).value, system, prices).value[0].parameterVals[i].NumV?
    ensures var c := CaseFromRow(row, parseFloat, parseInt).value;
            c.xMin <= CreateSensitivityIndicators(c, system, prices).value[0].parameterVals[i].x <= c.xMax
  {
    SpiderPlotWithinRange(CaseFromRow(row, parseFloat, parseInt).value, system, prices, i);
  }

  // ---------------------------------------------------------------------
  // examples/low_emission_steel/sensitivity.py

  /** The low-emission copy's case: no plant name, and a range taken as
      given. */
  datatype LowEmissionCase = LowEmissionCase(parameterName: string, parameterType: ParameterType, xMax: real, xMin: real,
                                             maxPercChange: real, numPercIncrements: int, elasticityPercChange: real)

  /** The low-emission `ParameterType` has no boolean member. */
  function LowEmissionParameterTypeNamed(name: string): (r: Result<ParameterType>)
    ensures r.Ok? <==> name == "Price" || name == "SystemVar"
    ensures r.Ok? ==> ParameterTypeNamed(name) == r
    ensures r.Err? ==> r.msg == KeyError(name)
  {
    if name == "Price" then Ok(Price)
    else if name == "SystemVar" then Ok(SystemVar)
    else Err(KeyError(name))
  }

  /** One row of the low-emission reader: the parameter and its type, then
      the upper bound from column 2 and the lower bound from column 3 as
      written, with no reordering, and the three percentages and counts. */
  function LowEmissionCaseFromRow(row: seq<string>, parseFloat: string -> Result<real>, parseInt: string -> Result<int>)
    : (r: Result<LowEmissionCase>)
    ensures |row| < 2 ==> r == Err(IndexOutOfRange)
    ensures r.Ok? <==> |row| >= 7 && LowEmissionParameterTypeNamed(row[1]).Ok?
                       && parseFloat(row[2]).Ok? && parseFloat(row[3]).Ok? && parseFloat(row[4]).Ok? && parseInt(row[5]).Ok? && parseFloat(row[6]).Ok?
    ensures r.Ok? ==> r.value == LowEmissionCase(row[0], LowEmissionParameterTypeNamed(row[1]).value,
                                                 parseFloat(row[2]).value, parseFloat(row[3]).value, parseFloat(row[4]).value,
                                                 parseInt(row[5]).value, parseFloat(row[6]).value)
  {
    var parameterName :- Field(row, 0);
    var typeName :- Field(row, 1);
    var parameterType :- LowEmissionParameterTypeNamed(typeName);
    var xMax :- FieldNumber(row, 2, parseFloat);
    var xMin :- FieldNumber(row, 3, parseFloat);
    var maxPercChange :- FieldNumber(row, 4, parseFloat);
    var num :- FieldNumber(row, 5, parseInt);
    var elasticity :- FieldNumber(row, 6, parseFloat);
    Ok(LowEmissionCase(parameterName, parameterType, xMax, xMin, maxPercChange, num, elasticity))
  }
}
