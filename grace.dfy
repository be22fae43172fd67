// 𝒢, grace (core/metrics/grace.py): externality coverage rescaled against
// a target, a coherence that falls with risk and rises with passing rails,
// a rollback bonus, and the ledger's dignity penalty, clamped to [0, 1].
// As for 𝓔, the harm index and the penalties dictionary are inputs.
module GraceMetric {
  import opened Values
  import PCA = ProofCarryingAdvice

  /** `GraceSnapshot` */
  datatype GraceSnapshot = GraceSnapshot(g: real, components: Dict, notes: string)

  const GraceNotes := "Grace from coverage/coherence/rollback minus dignity pressure."

  /** The coverage term: coverage rescaled from [0.5, target] onto [0, 1]
    * when the target exceeds 0.5, raw coverage otherwise. */
  function CoverageTerm(coverage: real, target: real): (r: real)
    ensures target > 0.5 ==> 0.0 <= r <= 1.0
    ensures target > 0.5 && coverage <= 0.5 ==> r == 0.0
    ensures target > 0.5 && coverage >= target ==> r == 1.0
    ensures target <= 0.5 ==> r == coverage
  {
    if target > 0.5 then
      QuotientBounds(coverage - 0.5, target - 0.5);
      Clamp01((coverage - 0.5) / (target - 0.5))
    else coverage
  }

  lemma QuotientBounds(x: real, y: real)
    requires y > 0.0
    ensures x <= 0.0 ==> x / y <= 0.0
    ensures x >= y ==> x / y >= 1.0
  {
    var q := x / y;
    assert q * y == x;
    assert (q - 1.0) * y == x - y;
  }

  /** The three rail proofs. */
  predicate IsRail(name: string) {
    name == "consent" || name == "apophatic" || name == "externalities"
  }

  /** `all(p.ok for p in proofs if p.name in rails)` */
  predicate RailsOk(proofs: seq<PCA.Proof>) {
    proofs == [] || ((IsRail(proofs[0].name) ==> proofs[0].ok) && RailsOk(proofs[1..]))
  }

  /** Every rail proof present passes; absent rails count as passing. */
  lemma {:induction false} RailsOkIff(proofs: seq<PCA.Proof>)
    ensures RailsOk(proofs) <==> forall i :: 0 <= i < |proofs| && IsRail(proofs[i].name) ==> proofs[i].ok
  {
    if proofs != [] {
      RailsOkIff(proofs[1..]);
      assert forall i :: 1 <= i < |proofs| ==> proofs[i] == proofs[1..][i - 1];
    }
  }

  /** A proof list without rail proofs passes vacuously. */
  lemma NoRailsIsVacuouslyOk(proofs: seq<PCA.Proof>)
    requires forall i :: 0 <= i < |proofs| ==> !IsRail(proofs[i].name)
    ensures RailsOk(proofs)
  {
    RailsOkIff(proofs);
  }

  /** +0.1 when rollback is ready, −0.15 otherwise. */
  function RollbackBonus(rollbackReady: bool): real {
    if rollbackReady then 0.1 else -0.15
  }

  /** Coherence: one minus risk, moved by ±0.1 for the rails, clamped. */
  function Coherence(risk: real, railsOk: bool): (r: real)
    ensures 0.0 <= r <= 1.0
    ensures railsOk && risk <= 0.1 ==> r == 1.0
    ensures !railsOk && risk >= 0.9 ==> r == 0.0
  {
    Clamp01(1.0 - risk + (if railsOk then 0.1 else -0.1))
  }

  /** 𝒢 from its parts. */
  function GraceFrom(covTerm: real, coherence: real, rollbackReady: bool, dignityPenalty: real): (r: real)
    ensures 0.0 <= r <= 1.0
  {
    Clamp01(0.55 * covTerm + 0.25 * coherence + RollbackBonus(rollbackReady) - 0.25 * dignityPenalty)
  }

  /** `from_assessment(awp, assess, hidx)` for a `Grace` built with
    * `coverageTarget`; `penalties` is what the ledger returns for `hidx`. */
  function FromAssessment(awp: PCA.AdviceWithProof, assess: PCA.Assessment, hidx: PCA.HarmIndex, penalties: Dict,
                          coverageTarget: real): (r: Result<GraceSnapshot>)
    ensures !Has(penalties, "grace_penalty") ==> r == Err(KeyError("grace_penalty"))
    ensures r.Ok? <==> Has(penalties, "grace_penalty") && NumOf(Get(penalties, "grace_penalty").value).Some?
    ensures r.Ok? ==> 0.0 <= r.value.g <= 1.0
    ensures r.Ok? ==> r.value.g == GraceFrom(CoverageTerm(assess.coverage, coverageTarget),
                                             Coherence(awp.risk, RailsOk(awp.proofs)), assess.rollbackReady,
                                             NumOf(Get(penalties, "grace_penalty").value).value)
    ensures r.Ok? ==> forall i :: 0 <= i < |r.value.components| ==>
      r.value.components[i].1.VReal? && FourDecimals(r.value.components[i].1.r)
    ensures r.Ok? ==> Get(r.value.components, "coverage_term") == Some(VReal(Round4(CoverageTerm(assess.coverage, coverageTarget))))
  {
    var dignityValue :- Subscript(penalties, "grace_penalty");
    var dignity :- Num(dignityValue);
    var covTerm := CoverageTerm(assess.coverage, coverageTarget);
    var coherence := Coherence(awp.risk, RailsOk(awp.proofs));
    var comps := [("coverage_term", VReal(Round4(covTerm))),
                  ("rollback_bonus", VReal(Round4(RollbackBonus(assess.rollbackReady)))),
                  ("coherence", VReal(Round4(coherence))),
                  ("dignity_penalty", VReal(Round4(dignity))),
                  ("H", VReal(Round4(hidx.h))),
                  ("dignity_debt", VReal(Round4(hidx.dignityDebt)))];
    Ok(GraceSnapshot(GraceFrom(covTerm, coherence, assess.rollbackReady, dignity), comps, GraceNotes))
  }

  /** With a target above 0.5 and a dignity penalty that is not negative,
    * 𝒢 never exceeds 0.55 + 0.25 + 0.1 = 0.9, and a fully covered,
    * rollback-ready advice with passing rails, risk at most 0.1 and no
    * dignity penalty reaches it. */
  lemma GraceAtMostNineTenths(covTerm: real, coherence: real, rollbackReady: bool, dignityPenalty: real)
    requires 0.0 <= covTerm <= 1.0 && 0.0 <= coherence <= 1.0 && dignityPenalty >= 0.0
    ensures GraceFrom(covTerm, coherence, rollbackReady, dignityPenalty) <= 0.9
    ensures GraceFrom(1.0, 1.0, true, 0.0) == 0.9
  {
  }

  /** The ceiling for whole assessments. */
  lemma AssessedGraceAtMostNineTenths(awp: PCA.AdviceWithProof, assess: PCA.Assessment, hidx: PCA.HarmIndex,
                                      penalties: Dict, coverageTarget: real)
    requires coverageTarget > 0.5
    requires FromAssessment(awp, assess, hidx, penalties, coverageTarget).Ok?
    requires NumOf(Get(penalties, "grace_penalty").value).value >= 0.0
    ensures FromAssessment(awp, assess, hidx, penalties, coverageTarget).value.g <= 0.9
    ensures assess.coverage >= coverageTarget && assess.rollbackReady && RailsOk(awp.proofs) && awp.risk <= 0.1 &&
            NumOf(Get(penalties, "grace_penalty").value).value == 0.0 ==>
      FromAssessment(awp, assess, hidx, penalties, coverageTarget).value.g == 0.9
  {
    GraceAtMostNineTenths(CoverageTerm(assess.coverage, coverageTarget), Coherence(awp.risk, RailsOk(awp.proofs)),
                          assess.rollbackReady, NumOf(Get(penalties, "grace_penalty").value).value);
  }

  /** Being rollback-ready, passing the rails and better coverage never
    * lower 𝒢; a larger dignity penalty never raises it. */
  lemma GraceIsMonotone(risk: real, covTerm: real, covTerm': real, coherence: real, dignity: real, dignity': real)
    requires covTerm <= covTerm' && dignity' <= dignity
    ensures GraceFrom(covTerm, coherence, false, dignity) <= GraceFrom(covTerm', coherence, true, dignity')
    ensures Coherence(risk, false) <= Coherence(risk, true)
  {
  }
}
