// Δ𝓔 semantics (core/metrics/energy_delta.py): the cost of an action as a
// weighted sum of base, rail, harm and risk costs, shaped by the will
// kernel K and negated, so that a good move has Δ𝓔 < 0. The weights and the
// threshold come from the vows configuration and are inputs here.
module EnergyDelta {
  import opened Values
  import DC = DecisionCore
  import ApophaticGuard
  import WillKernels

  /** The vows' `decision_policy.energy_delta_threshold` and
    * `infinite_elegance.energy_components` weights. */
  datatype EnergyVows = EnergyVows(threshold: real, baseCost: real, railViolations: real,
                                   harmPressure: real, risk: real)

  /** The values used when the vows file cannot be read. */
  const DefaultEnergyVows := EnergyVows(-0.05, 1.0, 0.35, 0.4, 0.3)

  /** `check_threshold(delta_e)` */
  predicate CheckThreshold(vows: EnergyVows, deltaE: real) {
    deltaE <= vows.threshold
  }

  /** The bound is inclusive, and with a negative threshold only a strictly
    * negative Δ𝓔 passes. */
  lemma ThresholdIsInclusive(vows: EnergyVows, deltaE: real)
    ensures CheckThreshold(vows, vows.threshold)
    ensures CheckThreshold(vows, deltaE) && vows.threshold < 0.0 ==> deltaE < 0.0
    ensures CheckThreshold(DefaultEnergyVows, deltaE) <==> deltaE <= -0.05
  {
  }

  /** `_base_cost(action)`: the action's own energy_cost when it has one,
    * else 0.1 plus 0.02 per hundred description characters, capped at 1. */
  function BaseCost(action: DC.Action): (r: Result<real>)
    ensures action.params != [] && Has(action.params, "energy_cost") ==>
      r == Float(Get(action.params, "energy_cost").value)
    ensures !(action.params != [] && Has(action.params, "energy_cost")) ==> r.Ok? && 0.1 <= r.value <= 1.0
    ensures !(action.params != [] && Has(action.params, "energy_cost")) && action.description == "" ==> r == Ok(0.1)
  {
    if action.params != [] && Has(action.params, "energy_cost") then
      Float(Get(action.params, "energy_cost").value)
    else
      var cost := 0.1 + (if action.description != "" then 0.02 * ((|action.description| as real) / 100.0) else 0.0);
      Ok(Min(1.0, cost))
  }

  /** `_rail_violations_cost(state, action)` with one clock reading `now`
    * for every ticket: 0.35 for an expired ticket, 0.25 for an inadmissible
    * context and params, 0.20 for coverage below 0.75 in non-empty params. */
  function RailViolationsCost(state: DC.State, action: DC.Action, now: real): (r: Result<real>)
    ensures r.Err? <==> action.params != [] && NumOf(GetOr(action.params, "coverage", VReal(0.0))).None?
    ensures r.Ok? ==> 0.0 <= r.value <= 0.8
    ensures r.Ok? ==> (r.value == 0.0 <==>
      DC.AllValid(state.tickets, now) && ApophaticGuard.Admissible(state.context, action.params) &&
      (action.params != [] ==> NumOf(GetOr(action.params, "coverage", VReal(0.0))).value >= 0.75))
  {
    var consentOk := state.tickets == [] || DC.AllValid(state.tickets, now);
    var apophaticOk := ApophaticGuard.Admissible(state.context, action.params);
    var extOk :- if action.params != [] then
                   var coverage :- Num(GetOr(action.params, "coverage", VReal(0.0)));
                   Ok(coverage >= 0.75)
                 else Ok(true);
    Ok((if consentOk then 0.0 else 0.35) + (if apophaticOk then 0.0 else 0.25) + (if extOk then 0.0 else 0.20))
  }

  /** `_harm_pressure_cost(state)`. `penalties` is what the harms ledger's
    * `penalties(compute_index())` returns, or None when that call raises;
    * a raising call or a missing entry costs 0.15. */
  function HarmPressureCost(penalties: Option<Dict>): (r: Value)
    ensures penalties.None? ==> r == VReal(0.15)
    ensures penalties.Some? && Has(penalties.value, "energy_penalty") ==> Get(penalties.value, "energy_penalty") == Some(r)
  {
    match penalties
    case Some(p) => GetOr(p, "energy_penalty", VReal(0.15))
    case None => VReal(0.15)
  }

  /** `_risk_cost(action)`: an explicit risk wins; else half the missing
    * coverage when externalities are priced; else 0.2. */
  function RiskCost(action: DC.Action): (r: Result<real>)
    ensures action.params == [] ==> r == Ok(0.2)
    ensures action.params != [] && Has(action.params, "risk") ==> r == Float(Get(action.params, "risk").value)
    ensures action.params != [] && !Has(action.params, "risk") && Has(action.params, "externality_priced") &&
            Truthy(Get(action.params, "externality_priced").value) ==>
      r == (var c :- Num(GetOr(action.params, "coverage", VReal(0.0))); Ok(0.5 - 0.5 * c))
    ensures action.params != [] && !Has(action.params, "risk") &&
            !(Has(action.params, "externality_priced") && Truthy(Get(action.params, "externality_priced").value)) ==>
      r == Ok(0.2)
  {
    var p := action.params;
    if p == [] then Ok(0.2)
    else if Has(p, "risk") then Float(Get(p, "risk").value)
    else if Has(p, "externality_priced") && Truthy(Get(p, "externality_priced").value) then
      var coverage :- Num(GetOr(p, "coverage", VReal(0.0)));
      Ok(0.5 - 0.5 * coverage)
    else Ok(0.2)
  }

  /** The action as `weight_for` sees it: an object with params,
    * reversible and predicted_truth. */
  function KernelAction(action: DC.Action): WillKernels.ActionArg {
    WillKernels.ActionObject(Some(action.params), Some(VBool(action.reversible)), Some(VStr(DC.TruthName(action.predictedTruth))))
  }

  /** The weighted sum of the four costs. */
  function TotalCost(vows: EnergyVows, base: real, rail: real, harm: real, risk: real): real {
    vows.baseCost * base + vows.railViolations * rail + vows.harmPressure * harm + vows.risk * risk
  }

  /** Δ𝓔 from the outcomes of the four cost helpers and of `weight_for`,
    * raising the first exception in the order the code evaluates them:
    * the four helpers run first, then the weighted sum (where a harm
    * pressure that is not a number raises TypeError), then `weight_for`. */
  function DeltaFrom(vows: EnergyVows, base: Result<real>, rail: Result<real>, harm: Value, risk: Result<real>,
                     k: Result<real>): (r: Result<real>)
    ensures base.Err? ==> r == Err(base.error)
    ensures base.Ok? && rail.Err? ==> r == Err(rail.error)
    ensures base.Ok? && rail.Ok? && risk.Err? ==> r == Err(risk.error)
    ensures base.Ok? && rail.Ok? && risk.Ok? && NumOf(harm).None? ==> r == Err(TypeError)
    ensures base.Ok? && rail.Ok? && risk.Ok? && NumOf(harm).Some? && k.Err? ==> r == Err(k.error)
    ensures r.Ok? <==> base.Ok? && rail.Ok? && NumOf(harm).Some? && risk.Ok? && k.Ok?
  {
    var b :- base;
    var c :- rail;
    var s :- risk;
    var h :- Num(harm);
    var w :- k;
    Ok(-1.0 * (w * TotalCost(vows, b, c, h, s)))
  }

  /** `delta_energy(state, action)`: the negated, kernel-weighted total
    * cost. `operators` and `cfg` are the will configuration `weight_for`
    * reads. */
  function DeltaEnergy(state: DC.State, action: DC.Action, vows: EnergyVows, now: real, penalties: Option<Dict>,
                       operators: map<string, Dict>, cfg: WillKernels.KernelConfig): Result<real>
  {
    DeltaFrom(vows, BaseCost(action), RailViolationsCost(state, action, now), HarmPressureCost(penalties),
              RiskCost(action), WillKernels.WeightFor(operators, state.willOperator,
                                                      WillKernels.KernelState(state.paradoxNearby), KernelAction(action), cfg))
  }

  lemma ProductNonNegative(a: real, b: real)
    requires a >= 0.0 && b >= 0.0
    ensures a * b >= 0.0
  {
  }

  /** Δ𝓔 is never positive when the weights, the kernel weight, the base
    * cost, the rail cost, the harm pressure and the risk cost are all
    * non-negative; the rail cost always is, and so is the kernel weight
    * when its floor is. */
  lemma DeltaEnergyNonPositive(vows: EnergyVows, base: Result<real>, rail: Result<real>, harm: Value, risk: Result<real>,
                               k: Result<real>)
    requires DeltaFrom(vows, base, rail, harm, risk, k).Ok?
    requires vows.baseCost >= 0.0 && vows.railViolations >= 0.0 && vows.harmPressure >= 0.0 && vows.risk >= 0.0
    requires base.value >= 0.0 && rail.value >= 0.0 && NumOf(harm).value >= 0.0 && risk.value >= 0.0 && k.value >= 0.0
    ensures TotalCost(vows, base.value, rail.value, NumOf(harm).value, risk.value) >= 0.0
    ensures DeltaFrom(vows, base, rail, harm, risk, k).value <= 0.0
  {
    var total := TotalCost(vows, base.value, rail.value, NumOf(harm).value, risk.value);
    ProductNonNegative(vows.baseCost, base.value);
    ProductNonNegative(vows.railViolations, rail.value);
    ProductNonNegative(vows.harmPressure, NumOf(harm).value);
    ProductNonNegative(vows.risk, risk.value);
    ProductNonNegative(k.value, total);
  }

  /** For a whole action: with non-negative weights, a kernel floor of at
    * least 0, and base, harm and risk costs that are not negative, Δ𝓔 is
    * never positive (the rail cost is non-negative by construction). */
  lemma DeltaEnergyOfActionNonPositive(state: DC.State, action: DC.Action, vows: EnergyVows, now: real,
                                       penalties: Option<Dict>, operators: map<string, Dict>,
                                       cfg: WillKernels.KernelConfig)
    requires DeltaEnergy(state, action, vows, now, penalties, operators, cfg).Ok?
    requires vows.baseCost >= 0.0 && vows.railViolations >= 0.0 && vows.harmPressure >= 0.0 && vows.risk >= 0.0
    requires 0.0 <= cfg.kMin <= cfg.kMax
    requires BaseCost(action).Ok? ==> BaseCost(action).value >= 0.0
    requires RiskCost(action).Ok? ==> RiskCost(action).value >= 0.0
    requires NumOf(HarmPressureCost(penalties)).Some? ==> NumOf(HarmPressureCost(penalties)).value >= 0.0
    ensures DeltaEnergy(state, action, vows, now, penalties, operators, cfg).value <= 0.0
  {
    var k := WillKernels.WeightFor(operators, state.willOperator, WillKernels.KernelState(state.paradoxNearby),
                                   KernelAction(action), cfg);
    DeltaEnergyNonPositive(vows, BaseCost(action), RailViolationsCost(state, action, now), HarmPressureCost(penalties),
                           RiskCost(action), k);
  }

  /** With the default component weights and K = 1, the shown code's fixed
    * harm cost and no failing rail, an action with a 0.3 energy cost and a
    * 0.1 risk has Δ𝓔 = −(0.3 + 0.4·0.15 + 0.3·0.1) = −0.39. */
  lemma DeltaEnergyExample()
    ensures DeltaFrom(DefaultEnergyVows, Ok(0.3), Ok(0.0), HarmPressureCost(None), Ok(0.1), Ok(1.0)) == Ok(-0.39)
  {
  }

  /** With the ledger call raising, as it does for a ledger without
    * `compute_index`, the harm cost is the fixed 0.15. */
  lemma HarmPressureFallback()
    ensures NumOf(HarmPressureCost(None)) == Some(0.15)
    ensures NumOf(HarmPressureCost(Some([]))) == Some(0.15)
  {
  }
}
