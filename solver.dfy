/** The retry loop `solve_mass_energy_flow` of mass_energy_flow.py and of
    examples/low_emission_steel/mass_energy_flow.py. The device calculations
    are an oracle `run`: given the system variables, one attempt either
    completes (leaving the variables it wrote), raises one of the signal
    exceptions that ask for another attempt, or raises anything else. */
module Solver {
  import opened Base
  import opened Dicts
  import FlowSystem

  type Vars = Dict<string, Value>

  /** The exceptions a device calculation raises to ask for another attempt. */
  datatype Signal =
    | IncreaseExcessHydrogenPlasma
    | IncreaseExcessHydrogenFluidizedBeds
    | IncreaseCInHotMetal
    | DecreaseSiInHotMetal
    | IncreaseInjectedO2

  function SignalName(s: Signal): string {
    match s
    case IncreaseExcessHydrogenPlasma => "IncreaseExcessHydrogenPlasma"
    case IncreaseExcessHydrogenFluidizedBeds => "IncreaseExcessHydrogenFluidizedBeds"
    case IncreaseCInHotMetal => "IncreaseCInHotMetal"
    case DecreaseSiInHotMetal => "DecreaseSiInHotMetal"
    case IncreaseInjectedO2 => "IncreaseInjectedO2"
  }

  /** One run of the mass-and-energy function on a copy of the system. */
  datatype Attempt = Converged(vars: Vars) | Retry(signal: Signal) | Raised(msg: string)

  /** How the loop ends: the variables of the run that completed, out of
      attempts, or an exception. */
  datatype Solution = Solved(vars: Vars) | GaveUp | Failed(msg: string)

  const MaxIter: nat := 1000

  /** Python truthiness of a setting. */
  predicate Truthy(v: Value) {
    match v
    case NoneV => false
    case BoolV(b) => b
    case NumV(x) => x != 0.0
    case StrV(s) => s != ""
    case NamesV(ns) => ns != []
  }

  /** `v * factor`: a number, or a bool counted as 0 or 1, scales; anything
      else raises TypeError. */
  function Times(v: Value, factor: real): (r: Result<Value>)
    ensures r.Ok? <==> v.NumV? || v.BoolV?
    ensures v.NumV? ==> r == Ok(NumV(v.x * factor))
  {
    if v.NumV? then Ok(NumV(v.x * factor))
    else if v.BoolV? then Ok(NumV((if v.b then 1.0 else 0.0) * factor))
    else Err("TypeError: unsupported operand type(s) for *")
  }

  /** `vars[key] *= factor`; a missing key raises KeyError. */
  function ScaleVar(vars: Vars, key: string, factor: real): Result<Vars> {
    if key !in vars.entries then Err("KeyError: '" + key + "'")
    else
      var v :- Times(vars.entries[key], factor);
      Ok(Put(vars, key, v))
  }

  /** The variable each signal adjusts in mass_energy_flow.py. */
  function SignalVar(s: Signal): string {
    match s
    case IncreaseExcessHydrogenPlasma => "plasma h2 excess ratio"
    case IncreaseExcessHydrogenFluidizedBeds => "fluidized beds h2 excess ratio"
    case IncreaseCInHotMetal => "bof hot metal C perc"
    case DecreaseSiInHotMetal => "bof hot metal Si perc"
    case IncreaseInjectedO2 => "o2 injection kg"
  }

  /** The root loop's reaction to a signal: it changes exactly the signal's
      variable and leaves the order of the variables alone; a numeric one
      grows by 5 percent, except the hot-metal Si, which drops by 5 percent,
      and an unset (falsy) O2 injection becomes 0.1 kg. */
  function Adjusted(vars: Vars, s: Signal): (r: Result<Vars>)
    ensures r.Ok? ==> SignalVar(s) in vars.entries
    ensures r.Ok? ==> r.value.order == vars.order && r.value.entries.Keys == vars.entries.Keys
    ensures r.Ok? ==> forall k :: k in vars.entries && k != SignalVar(s) ==> r.value.entries[k] == vars.entries[k]
    ensures r.Ok? && vars.entries[SignalVar(s)].NumV? && vars.entries[SignalVar(s)].x != 0.0 ==>
              r.value.entries[SignalVar(s)]
              == NumV(vars.entries[SignalVar(s)].x * (if s.DecreaseSiInHotMetal? then 0.95 else 1.05))
    ensures s.IncreaseInjectedO2? && SignalVar(s) in vars.entries && !Truthy(vars.entries[SignalVar(s)]) ==>
              r == Ok(Put(vars, SignalVar(s), NumV(0.1)))
    ensures SignalVar(s) !in vars.entries ==> r.Err?
  {
    match s
    case DecreaseSiInHotMetal => ScaleVar(vars, SignalVar(s), 0.95)
    case IncreaseInjectedO2 =>
      if SignalVar(s) !in vars.entries then Err("KeyError: 'o2 injection kg'")
      else if !Truthy(vars.entries[SignalVar(s)]) then Ok(Put(vars, SignalVar(s), NumV(0.1)))
      else ScaleVar(vars, SignalVar(s), 1.05)
    case _ => ScaleVar(vars, SignalVar(s), 1.05)
  }

  /** The loop of mass_energy_flow.py from attempt `iteration + 1` on, with
      the variables `vars`. */
  function SolveFrom(vars: Vars, run: Vars -> Attempt, iteration: nat): Solution
    decreases MaxIter - iteration
  {
    if iteration >= MaxIter then GaveUp
    else match run(vars)
      case Converged(out) => Solved(out)
      case Raised(m) => Failed(m)
      case Retry(s) =>
        match Adjusted(vars, s)
        case Err(m) => Failed(m)
        case Ok(next) => SolveFrom(next, run, iteration + 1)
  }

  /** `n` attempts in a row ask for another attempt, each adjustment
      succeeding. */
  predicate RetriesOk(vars: Vars, run: Vars -> Attempt, n: nat)
    decreases n
  {
    n == 0 || (run(vars).Retry? && Adjusted(vars, run(vars).signal).Ok?
               && RetriesOk(Adjusted(vars, run(vars).signal).value, run, n - 1))
  }

  /** The loop gives up exactly when the remaining attempts all ask for
      another one. */
  lemma {:induction false} GaveUpIffAllRetry(vars: Vars, run: Vars -> Attempt, iteration: nat)
    requires iteration <= MaxIter
    ensures SolveFrom(vars, run, iteration) == GaveUp <==> RetriesOk(vars, run, MaxIter - iteration)
    decreases MaxIter - iteration
  {
    if iteration < MaxIter && run(vars).Retry? && Adjusted(vars, run(vars).signal).Ok? {
      GaveUpIffAllRetry(Adjusted(vars, run(vars).signal).value, run, iteration + 1);
    }
  }

  /** From the start, giving up takes exactly 1000 attempts that all ask for
      another one. */
  lemma GivesUpAfterMaxIter(vars: Vars, run: Vars -> Attempt)
    ensures SolveFrom(vars, run, 0) == GaveUp <==> RetriesOk(vars, run, 1000)
  {
    GaveUpIffAllRetry(vars, run, 0);
  }

  /** `solve_mass_energy_flow` of mass_energy_flow.py: retries with adjusted
      copies of the variables; only after a run completes are the system's
      variables replaced, by those the run left, before the final run on the
      system itself, whose energy and then mass balance are checked within
      the tolerance 1e-4 by `validateEnergy` and `validateMass`. */
  method SolveMassEnergyFlow(system: FlowSystem.System, run: Vars -> Attempt,
                             validateEnergy: Vars -> Outcome, validateMass: Vars -> Outcome) returns (o: Outcome)
    modifies system`systemVars
    ensures SolveFrom(old(system.systemVars), run, 0).Solved? ==>
              system.systemVars == FinalVars(SolveFrom(old(system.systemVars), run, 0).vars, run)
              && o == ValidatedOutcome(SolveFrom(old(system.systemVars), run, 0).vars, run, validateEnergy, validateMass)
    ensures SolveFrom(old(system.systemVars), run, 0).GaveUp? ==>
              system.systemVars == old(system.systemVars)
              && o == Fail("Could not solve " + system.name + ". Max iterations reached.")
    ensures SolveFrom(old(system.systemVars), run, 0).Failed? ==>
              system.systemVars == old(system.systemVars)
              && o == Fail(SolveFrom(old(system.systemVars), run, 0).msg)
  {
    ghost var sol := SolveFrom(system.systemVars, run, 0);
    var varsSolved := system.systemVars;
    var iteration := 0;
    var converged := false;
    var result := varsSolved;
    while !converged
      invariant iteration <= MaxIter
      invariant system.systemVars == old(system.systemVars)
      invariant !converged ==> SolveFrom(varsSolved, run, iteration) == sol
      invariant converged ==> sol == Solved(result)
      decreases MaxIter - iteration, !converged
    {
      iteration := iteration + 1;
      if iteration > MaxIter {
        return Fail("Could not solve " + system.name + ". Max iterations reached.");
      }
      var attempt := run(varsSolved);
      match attempt
      case Converged(out) =>
        result := out;
        converged := true;
      case Raised(m) =>
        return Fail(m);
      case Retry(s) =>
        var next := Adjusted(varsSolved, s);
        if next.Err? {
          return Fail(next.msg);
        }
        varsSolved := next.value;
    }
    system.systemVars := result;
    match run(system.systemVars)
    case Converged(out) =>
      system.systemVars := out;
      o := validateEnergy(system.systemVars);
      if o.Pass? {
        o := validateMass(system.systemVars);
      }
    case Retry(s) =>
      o := Fail(SignalName(s));
    case Raised(m) =>
      o := Fail(m);
  }

  /** The system's variables after the final run on the solved variables. */
  function FinalVars(solved: Vars, run: Vars -> Attempt): Vars {
    if run(solved).Converged? then run(solved).vars else solved
  }

  /** The final run raises whatever it raises, signals included. */
  function FinalOutcome(solved: Vars, run: Vars -> Attempt): Outcome {
    match run(solved)
    case Converged(_) => Pass
    case Retry(s) => Fail(SignalName(s))
    case Raised(m) => Fail(m)
  }

  /** The final run and then the two balance checks, the first failure
      raising. */
  function ValidatedOutcome(solved: Vars, run: Vars -> Attempt,
                            validateEnergy: Vars -> Outcome, validateMass: Vars -> Outcome): Outcome {
    match run(solved)
    case Converged(out) => if validateEnergy(out).Fail? then validateEnergy(out) else validateMass(out)
    case Retry(s) => Fail(SignalName(s))
    case Raised(m) => Fail(m)
  }

  /** The root loop ends well exactly when the final run completes and the
      system it leaves passes both balance checks; otherwise it raises the
      final run's exception or the first failed check's. */
  lemma ValidatedPassIff(solved: Vars, run: Vars -> Attempt,
                         validateEnergy: Vars -> Outcome, validateMass: Vars -> Outcome)
    ensures ValidatedOutcome(solved, run, validateEnergy, validateMass).Pass?
            <==> FinalOutcome(solved, run).Pass?
                 && validateEnergy(FinalVars(solved, run)).Pass? && validateMass(FinalVars(solved, run)).Pass?
    ensures FinalOutcome(solved, run).Fail? ==> ValidatedOutcome(solved, run, validateEnergy, validateMass) == FinalOutcome(solved, run)
    ensures FinalOutcome(solved, run).Pass? && validateEnergy(FinalVars(solved, run)).Fail? ==>
              ValidatedOutcome(solved, run, validateEnergy, validateMass) == validateEnergy(FinalVars(solved, run))
  {
  }

  // ---------------------------------------------------------------------
  // examples/low_emission_steel/mass_energy_flow.py

  /** The low-emission loop: only IncreaseExcessHydrogenPlasma is caught, and
      it raises the plasma excess ratio by 10 percent; any other signal
      propagates. The source loop has no attempt limit; `fuel` bounds the
      attempts here, and GaveUp means it ran out. */
  function SolveLowEmission(vars: Vars, run: Vars -> Attempt, fuel: nat): Solution
    decreases fuel
  {
    if fuel == 0 then GaveUp
    else match run(vars)
      case Converged(out) => Solved(out)
      case Raised(m) => Failed(m)
      case Retry(s) =>
        if !s.IncreaseExcessHydrogenPlasma? then Failed(SignalName(s))
        else match ScaleVar(vars, SignalVar(s), 1.1)
          case Err(m) => Failed(m)
          case Ok(next) => SolveLowEmission(next, run, fuel - 1)
  }

  /** Any signal other than IncreaseExcessHydrogenPlasma ends the
      low-emission loop with that exception. */
  lemma LowEmissionPropagates(vars: Vars, run: Vars -> Attempt, fuel: nat)
    requires fuel > 0 && run(vars).Retry? && !run(vars).signal.IncreaseExcessHydrogenPlasma?
    ensures SolveLowEmission(vars, run, fuel) == Failed(SignalName(run(vars).signal))
  {
  }

  /** On IncreaseExcessHydrogenPlasma the low-emission loop tries again with
      the plasma excess ratio raised by 10 percent and nothing else changed. */
  lemma LowEmissionRetryScales(vars: Vars, run: Vars -> Attempt, fuel: nat)
    requires fuel > 0 && run(vars) == Retry(IncreaseExcessHydrogenPlasma)
    requires "plasma h2 excess ratio" in vars.entries && vars.entries["plasma h2 excess ratio"].NumV?
    ensures SolveLowEmission(vars, run, fuel)
            == SolveLowEmission(Put(vars, "plasma h2 excess ratio", NumV(vars.entries["plasma h2 excess ratio"].x * 1.1)),
                                run, fuel - 1)
  {
  }

  /** More fuel never changes an outcome reached with less: the fuel bound
      only cuts off loops that the source would keep running. */
  lemma {:induction false} LowEmissionFuelMonotone(vars: Vars, run: Vars -> Attempt, fuel: nat, more: nat)
    requires fuel <= more && !SolveLowEmission(vars, run, fuel).GaveUp?
    ensures SolveLowEmission(vars, run, more) == SolveLowEmission(vars, run, fuel)
    decreases fuel
  {
    var a := run(vars);
    if a.Retry? && a.signal.IncreaseExcessHydrogenPlasma? && ScaleVar(vars, SignalVar(a.signal), 1.1).Ok? {
      LowEmissionFuelMonotone(ScaleVar(vars, SignalVar(a.signal), 1.1).value, run, fuel - 1, more - 1);
    }
  }

  /** `solve_mass_energy_flow` of the low-emission copy, with at most `fuel`
      attempts. */
  method SolveMassEnergyFlowLowEmission(system: FlowSystem.System, run: Vars -> Attempt, fuel: nat)
    returns (o: Outcome)
    modifies system`systemVars
    ensures SolveLowEmission(old(system.systemVars), run, fuel).Solved? ==>
              system.systemVars == FinalVars(SolveLowEmission(old(system.systemVars), run, fuel).vars, run)
              && o == FinalOutcome(SolveLowEmission(old(system.systemVars), run, fuel).vars, run)
    ensures !SolveLowEmission(old(system.systemVars), run, fuel).Solved? ==>
              system.systemVars == old(system.systemVars) && o.Fail?
    ensures SolveLowEmission(old(system.systemVars), run, fuel).Failed? ==>
              o == Fail(SolveLowEmission(old(system.systemVars), run, fuel).msg)
  {
    ghost var sol := SolveLowEmission(system.systemVars, run, fuel);
    var varsSolved := system.systemVars;
    var left := fuel;
    var converged := false;
    var result := varsSolved;
    while !converged
      invariant system.systemVars == old(system.systemVars)
      invariant !converged ==> SolveLowEmission(varsSolved, run, left) == sol
      invariant converged ==> sol == Solved(result)
      decreases left, !converged
    {
      if left == 0 {
        return Fail("no convergence within the attempts allowed");
      }
      left := left - 1;
      match run(varsSolved)
      case Converged(out) =>
        result := out;
        converged := true;
      case Raised(m) =>
        return Fail(m);
      case Retry(s) =>
        if !s.IncreaseExcessHydrogenPlasma? {
          return Fail(SignalName(s));
        }
        var next := ScaleVar(varsSolved, SignalVar(s), 1.1);
        if next.Err? {
          return Fail(next.msg);
        }
        varsSolved := next.value;
    }
    system.systemVars := result;
    match run(system.systemVars)
    case Converged(out) =>
      system.systemVars := out;
      o := Pass;
    case Retry(s) =>
      o := Fail(SignalName(s));
    case Raised(m) =>
      o := Fail(m);
  }
}
