// Per-candidate scoring (core/metrics/candidate_scorer.py): the energy and
// grace of one candidate action, the small proof-carrying wrapper built for
// it, and the local consent and apophatic checks. A state is its context
// dictionary and an action its id, description and parameter dictionary.
module CandidateScorer {
  import opened Values
  import PCA = ProofCarryingAdvice
  import GraceMetric

  /** `_consent_check(state, action)`: the same rule as the proof builder's
    * consent gate, read from the state's context. */
  function ConsentCheck(context: Dict): (r: Result<bool>)
    ensures r.Ok? <==> PCA.ConsentOk(context).Ok?
    ensures r.Ok? ==> r.value == PCA.ConsentOk(context).value.0
    ensures r.Err? ==> r.error == PCA.ConsentOk(context).error
  {
    var c := GetOr(context, "consent", VDict([]));
    if !c.VDict? then Err(AttributeError("get"))
    else if Get(c.entries, "valid") != Some(VBool(true)) then Ok(false)
    else
      var scope := GetOr(c.entries, "scope", VNone);
      if scope.VList? || scope.VDict? then Err(TypeError)
      else Ok(scope.VStr? && scope.s in ["self", "dyad", "group", "org", "public"])
  }

  /** Some top-level key of `params` is one of the forbidden keys. */
  predicate HasForbiddenKey(params: Dict) {
    params != [] && (params[0].0 in PCA.ForbidKeys || HasForbiddenKey(params[1..]))
  }

  /** One of `keys` is present in `params` with a value other than True or
    * "enforced". */
  predicate ConstraintViolated(params: Dict, keys: seq<string>) {
    keys != [] &&
    ((Has(params, keys[0]) && !TrueOrEnforced(Get(params, keys[0]).value)) || ConstraintViolated(params, keys[1..]))
  }

  /** The verdict of `_apophatic_check`. */
  predicate ApophaticVerdict(params: Dict) {
    !HasForbiddenKey(params) && !ConstraintViolated(params, PCA.ConstraintOnlyKeys)
  }

  lemma {:induction false} HasForbiddenKeyIff(params: Dict)
    ensures HasForbiddenKey(params) <==> exists k :: k in PCA.ForbidKeys && Has(params, k)
  {
    if params != [] {
      HasForbiddenKeyIff(params[1..]);
      var k0 := params[0].0;
      if k0 in PCA.ForbidKeys {
        InHas(params, k0, params[0].1);
      }
      forall k | k in PCA.ForbidKeys && Has(params, k) && k != k0
        ensures Has(params[1..], k)
      {
      }
    }
  }

  lemma {:induction false} ConstraintViolatedIff(params: Dict, keys: seq<string>)
    ensures ConstraintViolated(params, keys) <==>
      exists k :: k in keys && Has(params, k) && !TrueOrEnforced(Get(params, k).value)
  {
    if keys != [] {
      ConstraintViolatedIff(params, keys[1..]);
      assert forall k :: k in keys ==> k == keys[0] || k in keys[1..];
    }
  }

  /** The local apophatic check admits exactly what the proof builder's
    * apophatic gate admits: no top-level forbidden key, and every
    * constraint-only key that is present holds True or "enforced". */
  lemma ApophaticCheckMirrorsBuilder(params: Dict)
    ensures ApophaticVerdict(params) <==>
      (forall k :: k in PCA.ForbidKeys ==> !Has(params, k)) &&
      (forall k :: k in PCA.ConstraintOnlyKeys && Has(params, k) ==> TrueOrEnforced(Get(params, k).value))
    ensures ApophaticVerdict(params) == PCA.ApophaticOk(params).0
  {
    HasForbiddenKeyIff(params);
    ConstraintViolatedIff(params, PCA.ConstraintOnlyKeys);
  }

  /** `_apophatic_check(state, action)`: two scans with an early exit. */
  method ApophaticCheck(params: Dict) returns (ok: bool)
    ensures ok == ApophaticVerdict(params)
  {
    for i := 0 to |params|
      invariant HasForbiddenKey(params) == HasForbiddenKey(params[i..])
    {
      assert params[i..][1..] == params[i + 1..];
      if params[i].0 in PCA.ForbidKeys {
        return false;
      }
    }
    var keys := PCA.ConstraintOnlyKeys;
    for i := 0 to |keys|
      invariant ConstraintViolated(params, keys) == ConstraintViolated(params, keys[i..])
    {
      assert keys[i..][1..] == keys[i + 1..];
      var k := keys[i];
      if Has(params, k) && !TrueOrEnforced(Get(params, k).value) {
        return false;
      }
    }
    return true;
  }

  /** The fixed part of a candidate's energy cost: 0.1, plus 0.35, 0.25 and
    * 0.20 for a failed consent, apophatic and coverage rail. */
  function RailBase(consentOk: bool, apophaticOk: bool, coverageOk: bool): (r: real)
    ensures 0.1 <= r <= 0.9
    ensures r == 0.1 <==> consentOk && apophaticOk && coverageOk
  {
    0.1 + (if consentOk then 0.0 else 0.35) + (if apophaticOk then 0.0 else 0.25) + (if coverageOk then 0.0 else 0.20)
  }

  /** `"externality_priced" in params and params["externality_priced"]` */
  predicate Priced(params: Dict) {
    Has(params, "externality_priced") && Truthy(Get(params, "externality_priced").value)
  }

  /** The risk `energy` charges: params' risk (default 0.1), raised by a
    * fifth of the missing coverage and capped at 0.8 when externalities
    * are priced. */
  function CandidateRisk(params: Dict, coverage: real): (r: Result<real>)
    ensures r.Ok? <==> NumOf(GetOr(params, "risk", VReal(0.1))).Some?
    ensures r.Ok? && !Priced(params) ==> r.value == NumOf(GetOr(params, "risk", VReal(0.1))).value
    ensures r.Ok? && Priced(params) ==> r.value <= 0.8
    ensures r.Ok? && Priced(params) ==>
      r.value == Min(0.8, NumOf(GetOr(params, "risk", VReal(0.1))).value + (1.0 - coverage) * 0.2)
    ensures r.Ok? && NumOf(GetOr(params, "risk", VReal(0.1))).value >= 0.0 && coverage <= 1.0 ==> r.value >= 0.0
  {
    var risk :- Num(GetOr(params, "risk", VReal(0.1)));
    Ok(if Priced(params) then Min(0.8, risk + (1.0 - coverage) * 0.2) else risk)
  }

  /** Δ𝓔 from the rails, the risk and the energy penalty: the negated cost. */
  function EnergyFrom(consentOk: bool, apophaticOk: bool, coverageOk: bool, risk: real, penalty: real): real {
    -(RailBase(consentOk, apophaticOk, coverageOk) + 0.3 * risk + 0.4 * penalty)
  }

  /** What `energy(state, action)` returns, or the exception it raises: a
    * non-dictionary consent entry, an unhashable scope, or a non-numeric
    * coverage, risk or energy penalty (see `EnergyRails`). */
  function EnergyOf(context: Dict, params: Dict): Result<real> {
    var consentOk :- ConsentCheck(context);
    var coverage :- Num(GetOr(params, "coverage", VReal(0.0)));
    var risk :- CandidateRisk(params, coverage);
    var penalty :- Num(GetOr(params, "energy_penalty", VReal(0.0)));
    Ok(EnergyFrom(consentOk, ApophaticVerdict(params), !(coverage < 0.5), risk, penalty))
  }

  /** `energy(state, action)`. The three proofs it builds are never used and
    * are not part of this model. */
  method Energy(context: Dict, params: Dict) returns (r: Result<real>)
    ensures r == EnergyOf(context, params)
  {
    var consentOk := ConsentCheck(context);
    if consentOk.Err? {
      return Err(consentOk.error);
    }
    var apophaticOk := ApophaticCheck(params);
    var coverage := Num(GetOr(params, "coverage", VReal(0.0)));
    if coverage.Err? {
      return Err(coverage.error);
    }
    var extOk := true;
    if coverage.value < 0.5 {
      extOk := false;
    }
    var baseCost := BaseCost(consentOk.value, apophaticOk, extOk);
    var risk := CandidateRisk(params, coverage.value);
    if risk.Err? {
      return Err(risk.error);
    }
    var penalty := Num(GetOr(params, "energy_penalty", VReal(0.0)));
    if penalty.Err? {
      return Err(penalty.error);
    }
    assert EnergyOf(context, params) == Ok(EnergyFrom(consentOk.value, apophaticOk, extOk, risk.value, penalty.value));
    r := Ok(-(baseCost + 0.3 * risk.value + 0.4 * penalty.value));
  }

  /** The base cost of `energy`, raised rail by rail. */
  method BaseCost(consentOk: bool, apophaticOk: bool, extOk: bool) returns (baseCost: real)
    ensures baseCost == RailBase(consentOk, apophaticOk, extOk)
  {
    baseCost := 0.1;
    if !consentOk {
      baseCost := baseCost + 0.35;
    }
    if !apophaticOk {
      baseCost := baseCost + 0.25;
    }
    if !extOk {
      baseCost := baseCost + 0.20;
    }
  }

  /** Each failing rail lowers Δ𝓔 by its fixed amount, whatever the other
    * rails, the risk and the penalty. */
  lemma FailingRailsLowerEnergy(c: bool, a: bool, e: bool, risk: real, penalty: real)
    ensures EnergyFrom(false, a, e, risk, penalty) == EnergyFrom(true, a, e, risk, penalty) - 0.35
    ensures EnergyFrom(c, false, e, risk, penalty) == EnergyFrom(c, true, e, risk, penalty) - 0.25
    ensures EnergyFrom(c, a, false, risk, penalty) == EnergyFrom(c, a, true, risk, penalty) - 0.20
  {
  }

  /** With a non-negative risk and penalty, Δ𝓔 is at most −0.1: every
    * candidate moves energy down, a clean one with no risk by exactly 0.1. */
  lemma EnergyIsNegative(c: bool, a: bool, e: bool, risk: real, penalty: real)
    requires risk >= 0.0 && penalty >= 0.0
    ensures EnergyFrom(c, a, e, risk, penalty) <= -0.1
    ensures EnergyFrom(c, a, e, risk, penalty) == -0.1 <==> c && a && e && risk == 0.0 && penalty == 0.0
  {
  }

  /** `energy` raises exactly on a failing consent gate or a non-numeric
    * coverage, risk or penalty. Its rails are the consent gate, the
    * apophatic gate and coverage of at least 0.5; its risk is non-negative
    * when params' risk is and coverage does not exceed 1. */
  lemma EnergyRails(context: Dict, params: Dict)
    ensures EnergyOf(context, params).Ok? <==>
      PCA.ConsentOk(context).Ok? && NumOf(GetOr(params, "coverage", VReal(0.0))).Some? &&
      NumOf(GetOr(params, "risk", VReal(0.1))).Some? && NumOf(GetOr(params, "energy_penalty", VReal(0.0))).Some?
    ensures EnergyOf(context, params).Ok? ==> var coverage := NumOf(GetOr(params, "coverage", VReal(0.0))).value;
      var risk := CandidateRisk(params, coverage).value;
      && EnergyOf(context, params).value ==
         EnergyFrom(PCA.ConsentOk(context).value.0, ApophaticVerdict(params), coverage >= 0.5,
                    risk, NumOf(GetOr(params, "energy_penalty", VReal(0.0))).value)
      && (NumOf(GetOr(params, "risk", VReal(0.1))).value >= 0.0 && coverage <= 1.0 ==> risk >= 0.0)
  {
  }

  // ---- grace ---------------------------------------------------------------

  /** Grace weights for coverage, coherence, rollback and dignity. */
  datatype GraceWeights = GraceWeights(coverage: real, coherence: real, rollback: real, dignity: real)

  const DefaultGraceWeights: Dict :=
    [("coverage", VReal(0.55)), ("coherence", VReal(0.25)), ("rollback", VReal(0.10)), ("dignity", VReal(0.25))]

  /** `w = weights or DEFAULT_GRACE_WEIGHTS`, each weight read with its own
    * default. */
  function WeightsOf(weights: Option<Dict>): (r: Result<GraceWeights>)
    ensures weights.None? || weights.value == [] ==> r == Ok(GraceWeights(0.55, 0.25, 0.10, 0.25))
  {
    var w := if weights.Some? && weights.value != [] then weights.value else DefaultGraceWeights;
    var c :- Num(GetOr(w, "coverage", VReal(0.55)));
    var h :- Num(GetOr(w, "coherence", VReal(0.25)));
    var b :- Num(GetOr(w, "rollback", VReal(0.10)));
    var d :- Num(GetOr(w, "dignity", VReal(0.25)));
    Ok(GraceWeights(c, h, b, d))
  }

  /** 𝒢 from its parts, clamped to [0, 1]. */
  function GraceFrom(w: GraceWeights, covTerm: real, coherence: real, hasRollback: bool,
                     dignityPenalty: real, hasRepair: bool): (r: real)
    ensures 0.0 <= r <= 1.0
  {
    Clamp01(w.coverage * covTerm + w.coherence * coherence + w.rollback * (if hasRollback then 1.0 else 0.0)
            - w.dignity * dignityPenalty + (if hasRepair then 0.08 else 0.0))
  }

  /** What `grace(state, action, weights)` returns, or the TypeError a
    * non-numeric coverage, target, risk, penalty or weight raises. */
  function GraceOf(context: Dict, params: Dict, weights: Option<Dict>): (r: Result<real>)
    ensures r.Ok? ==> 0.0 <= r.value <= 1.0
    ensures r.Ok? <==>
      WeightsOf(weights).Ok? && NumOf(GetOr(params, "coverage", VReal(0.0))).Some? &&
      NumOf(GetOr(context, "coverage_target", VReal(0.95))).Some? &&
      NumOf(GetOr(params, "risk", VReal(0.5))).Some? && NumOf(GetOr(params, "grace_penalty", VReal(0.0))).Some?
  {
    var w :- WeightsOf(weights);
    var coverage :- Num(GetOr(params, "coverage", VReal(0.0)));
    var target :- Num(GetOr(context, "coverage_target", VReal(0.95)));
    var risk :- Num(GetOr(params, "risk", VReal(0.5)));
    var dignity :- Num(GetOr(params, "grace_penalty", VReal(0.0)));
    Ok(GraceFrom(w, GraceMetric.CoverageTerm(coverage, target), Max(0.0, 1.0 - risk),
                 Truthy(GetOr(params, "rollback_recipe", VStr(""))), dignity,
                 Truthy(GetOr(params, "repair_plan", VStr("")))))
  }

  /** A repair plan never lowers grace, and neither does a rollback recipe
    * when the rollback weight is not negative. */
  lemma RepairAndRollbackRaiseGrace(w: GraceWeights, covTerm: real, coherence: real, dignityPenalty: real,
                                   hasRollback: bool, hasRepair: bool)
    ensures GraceFrom(w, covTerm, coherence, hasRollback, dignityPenalty, true) >=
            GraceFrom(w, covTerm, coherence, hasRollback, dignityPenalty, false)
    ensures w.rollback >= 0.0 ==>
      GraceFrom(w, covTerm, coherence, true, dignityPenalty, hasRepair) >=
      GraceFrom(w, covTerm, coherence, false, dignityPenalty, hasRepair)
  {
  }

  /** With the default weights the weighted parts add up to at most 0.98,
    * so grace never reaches 1 when the target exceeds 0.5 and risk and
    * dignity penalty are non-negative; a fully covered, riskless candidate
    * with a rollback recipe and a repair plan attains 0.98. */
  lemma DefaultWeightsSumBelowOne(covTerm: real, coherence: real, hasRollback: bool, dignityPenalty: real, hasRepair: bool)
    requires 0.0 <= covTerm <= 1.0 && 0.0 <= coherence <= 1.0 && dignityPenalty >= 0.0
    ensures GraceFrom(GraceWeights(0.55, 0.25, 0.10, 0.25), covTerm, coherence, hasRollback, dignityPenalty, hasRepair) <= 0.98
  {
  }

  lemma DefaultGraceAtMost(context: Dict, params: Dict)
    requires GraceOf(context, params, None).Ok?
    requires NumOf(GetOr(context, "coverage_target", VReal(0.95))).value > 0.5
    requires NumOf(GetOr(params, "risk", VReal(0.5))).value >= 0.0
    requires NumOf(GetOr(params, "grace_penalty", VReal(0.0))).value >= 0.0
    ensures GraceOf(context, params, None).value <= 0.98
    ensures NumOf(GetOr(params, "coverage", VReal(0.0))).value >= NumOf(GetOr(context, "coverage_target", VReal(0.95))).value &&
            NumOf(GetOr(params, "risk", VReal(0.5))).value == 0.0 &&
            NumOf(GetOr(params, "grace_penalty", VReal(0.0))).value == 0.0 &&
            Truthy(GetOr(params, "rollback_recipe", VStr(""))) && Truthy(GetOr(params, "repair_plan", VStr("")))
            ==> GraceOf(context, params, None).value == 0.98
  {
    var coverage := NumOf(GetOr(params, "coverage", VReal(0.0))).value;
    var target := NumOf(GetOr(context, "coverage_target", VReal(0.95))).value;
    var risk := NumOf(GetOr(params, "risk", VReal(0.5))).value;
    var dignity := NumOf(GetOr(params, "grace_penalty", VReal(0.0))).value;
    var rollback := Truthy(GetOr(params, "rollback_recipe", VStr("")));
    var repair := Truthy(GetOr(params, "repair_plan", VStr("")));
    assert GraceOf(context, params, None).value ==
      GraceFrom(GraceWeights(0.55, 0.25, 0.10, 0.25), GraceMetric.CoverageTerm(coverage, target), Max(0.0, 1.0 - risk), rollback, dignity, repair);
    DefaultWeightsSumBelowOne(GraceMetric.CoverageTerm(coverage, target), Max(0.0, 1.0 - risk), rollback, dignity, repair);
  }

  // ---- the simulated proof-carrying advice ---------------------------------

  /** The wrapper `simulate_pca_for_candidate` returns. Its risk is whatever
    * value params hold, as the dataclass stores it unconverted. */
  datatype CandidateAdvice = CandidateAdvice(id: string, answer: string, risk: Value,
                                             proofs: seq<PCA.Proof>, assessment: Dict, decidedAt: real)

  function SimulatedAdvice(blake: Value -> string, context: Dict, id: string, description: string, params: Dict)
    : Result<CandidateAdvice>
  {
    var consentOk :- ConsentCheck(context);
    var apophaticOk := ApophaticVerdict(params);
    var coverage :- Num(GetOr(params, "coverage", VReal(0.0)));
    SimulatedFrom(blake, context, id, description, params, consentOk, apophaticOk, coverage >= 0.75)
  }

  function SimulatedFrom(blake: Value -> string, context: Dict, id: string, description: string, params: Dict,
                         consentOk: bool, apophaticOk: bool, extOk: bool): Result<CandidateAdvice>
    requires GetOr(context, "consent", VDict([])).VDict?
  {
    var scope := GetOr(GetOr(context, "consent", VDict([])).entries, "scope", VStr("self"));
    var proofs := [
      PCA.Proof("consent", consentOk, [("scope", scope)], blake(VDict([("consent", VBool(consentOk))]))),
      PCA.Proof("apophatic", apophaticOk, [("reasons", VList([]))], blake(VDict([("apophatic", VBool(apophaticOk))]))),
      PCA.Proof("externalities", extOk, [("coverage", GetOr(params, "coverage", VReal(0.0)))],
                blake(VDict([("externalities", VBool(extOk))])))];
    var assessment := [
      ("externalities", VDict([("coverage", GetOr(params, "coverage", VReal(0.0))),
                               ("rollback_ready", VBool(Truthy(GetOr(params, "rollback_recipe", VStr(""))))),
                               ("externals", VList([]))])),
      ("harms", VDict([("penalties", VDict([("energy_penalty", GetOr(params, "energy_penalty", VReal(0.0))),
                                             ("grace_penalty", GetOr(params, "grace_penalty", VReal(0.0)))])),
                       ("H", GetOr(params, "H", VReal(0.05)))]))];
    Ok(CandidateAdvice("candidate:" + id, description, GetOr(params, "risk", VReal(0.1)), proofs, assessment, 0.0))
  }

  /** `simulate_pca_for_candidate(state, action)` */
  method SimulatePcaForCandidate(blake: Value -> string, context: Dict, id: string, description: string, params: Dict)
    returns (r: Result<CandidateAdvice>)
    ensures r == SimulatedAdvice(blake, context, id, description, params)
    ensures r.Ok? <==> PCA.ConsentOk(context).Ok? && NumOf(GetOr(params, "coverage", VReal(0.0))).Some?
    ensures r.Ok? ==> var a := r.value;
      && a.id == "candidate:" + id && a.answer == description && a.decidedAt == 0.0
      && a.risk == GetOr(params, "risk", VReal(0.1))
      && |a.proofs| == 3
      && a.proofs[0].name == "consent" && a.proofs[0].ok == PCA.ConsentOk(context).value.0
      && a.proofs[1].name == "apophatic" && a.proofs[1].ok == ApophaticVerdict(params)
      && a.proofs[2].name == "externalities"
      && (a.proofs[2].ok <==> NumOf(GetOr(params, "coverage", VReal(0.0))).value >= 0.75)
  {
    var consentOk := ConsentCheck(context);
    if consentOk.Err? {
      return Err(consentOk.error);
    }
    var apophaticOk := ApophaticCheck(params);
    var coverage := Num(GetOr(params, "coverage", VReal(0.0)));
    if coverage.Err? {
      return Err(coverage.error);
    }
    r := SimulatedFrom(blake, context, id, description, params, consentOk.value, apophaticOk, coverage.value >= 0.75);
  }
}
