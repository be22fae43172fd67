// Metric assembly and the Stand / Throne-Fiber heuristics
// (core/metrics/trackers.py). The ledger's harm index and penalties, the
// kenosis inputs and the remembrance index `compute_rri` returns are
// inputs of `Assemble`.
module Trackers {
  import opened Values
  import PCA = ProofCarryingAdvice
  import ShadowTwin
  import EnergyMetric
  import GraceMetric
  import Kenosis

  /** `MetricBundle` */
  datatype MetricBundle = MetricBundle(e: EnergyMetric.EnergySnapshot, g: GraceMetric.GraceSnapshot,
                                       k: Kenosis.KenosisSnapshot, rri: real,
                                       throneFiber: bool, standRecommended: bool, notes: string)

  const BundleNotes := "Metrics fused; thresholds configurable in vows/config."

  /** `_stand(E, G, RRI, awp)`: a failed or missing hard rail (the last
    * proof with each name decides, as for the shadow twin), both 𝓔 and 𝒢
    * below 0.55, or RRI below 0.70. */
  predicate Stand(e: real, g: real, rri: real, awp: PCA.AdviceWithProof) {
    !ShadowTwin.HardOk(awp) || (e < 0.55 && g < 0.55) || rri < 0.70
  }

  /** `_throne_fiber(E, G, K, RRI, awp)`: every rail proof present passes and
    * all four scores reach 0.70. */
  predicate ThroneFiber(e: real, g: real, k: real, rri: real, awp: PCA.AdviceWithProof) {
    GraceMetric.RailsOk(awp.proofs) && e >= 0.70 && g >= 0.70 && k >= 0.70 && rri >= 0.70
  }

  /** Both heuristics are monotone in the scores: raising 𝓔, 𝒢, 𝒦 or RRI
    * can end a stand recommendation but never start one, and can reach the
    * throne fiber but never leave it. */
  lemma HeuristicsMonotone(e: real, g: real, k: real, rri: real, e': real, g': real, k': real, rri': real,
                           awp: PCA.AdviceWithProof)
    requires e <= e' && g <= g' && k <= k' && rri <= rri'
    ensures Stand(e', g', rri', awp) ==> Stand(e, g, rri, awp)
    ensures ThroneFiber(e, g, k, rri, awp) ==> ThroneFiber(e', g', k', rri', awp)
  {
  }

  predicate HasProof(awp: PCA.AdviceWithProof, name: string) {
    exists i :: 0 <= i < |awp.proofs| && awp.proofs[i].name == name
  }

  /** A missing rail proof always recommends standing. */
  lemma MissingRailStands(e: real, g: real, rri: real, awp: PCA.AdviceWithProof, rail: string)
    requires GraceMetric.IsRail(rail) && !HasProof(awp, rail)
    ensures Stand(e, g, rri, awp)
  {
  }

  /** ... but it does not block the throne fiber: with no rail proofs at
    * all and every score at 1, both flags are raised together. */
  lemma ThroneAndStandWithoutRails(awp: PCA.AdviceWithProof)
    requires awp.proofs == []
    ensures ThroneFiber(1.0, 1.0, 1.0, 1.0, awp) && Stand(1.0, 1.0, 1.0, awp)
  {
    MissingRailStands(1.0, 1.0, 1.0, awp, "consent");
  }

  /** A present rail proof that every rail proof passes is ok under the
    * last-proof-wins reading too. */
  lemma RailsOkGivesVerdict(awp: PCA.AdviceWithProof, rail: string)
    requires GraceMetric.IsRail(rail) && HasProof(awp, rail) && GraceMetric.RailsOk(awp.proofs)
    ensures ShadowTwin.Verdict(awp.proofs, rail) == Some(true)
  {
    GraceMetric.RailsOkIff(awp.proofs);
    var i :| 0 <= i < |awp.proofs| && awp.proofs[i].name == rail;
    var l := ShadowTwin.LastIndex(awp.proofs, rail);
    assert l.Some?;
  }

  /** When all three rail proofs are present, the throne fiber rules out a
    * stand recommendation. */
  lemma ThroneExcludesStand(e: real, g: real, k: real, rri: real, awp: PCA.AdviceWithProof)
    requires HasProof(awp, "consent") && HasProof(awp, "apophatic") && HasProof(awp, "externalities")
    requires ThroneFiber(e, g, k, rri, awp)
    ensures !Stand(e, g, rri, awp)
  {
    RailsOkGivesVerdict(awp, "consent");
    RailsOkGivesVerdict(awp, "apophatic");
    RailsOkGivesVerdict(awp, "externalities");
  }

  /** `assemble(awp, assess)` as a composition of the three snapshots. */
  function BundleOf(awp: PCA.AdviceWithProof, assess: PCA.Assessment, hidx: PCA.HarmIndex, penalties: Dict,
                    coverageTarget: real, rows: seq<Kenosis.LedgerRow>, repairEdges: nat,
                    repr: Value -> string, rri: real): (r: Result<MetricBundle>)
    ensures r.Ok? ==> 0.0 <= r.value.e.e <= 1.0 && 0.0 <= r.value.g.g <= 1.0 && 0.0 <= r.value.k.k <= 1.0
    ensures r.Ok? ==> (r.value.throneFiber <==> ThroneFiber(r.value.e.e, r.value.g.g, r.value.k.k, rri, awp))
    ensures r.Ok? ==> (r.value.standRecommended <==> Stand(r.value.e.e, r.value.g.g, rri, awp))
    ensures !Has(penalties, "energy_penalty") ==> r == Err(KeyError("energy_penalty"))
  {
    var e :- EnergyMetric.SnapshotOf(awp, hidx, penalties, EnergyMetric.FirstVerdict(awp.proofs, "consent"),
                                     EnergyMetric.FirstVerdict(awp.proofs, "apophatic"),
                                     EnergyMetric.FirstVerdict(awp.proofs, "externalities"));
    var g :- GraceMetric.FromAssessment(awp, assess, hidx, penalties, coverageTarget);
    var k :- Kenosis.KenosisOf(rows, repairEdges, repr);
    Ok(MetricBundle(e, g, k, rri, ThroneFiber(e.e, g.g, k.k, rri, awp), Stand(e.e, g.g, rri, awp), BundleNotes))
  }

  /** `Trackers.assemble(awp, assess)` */
  method Assemble(awp: PCA.AdviceWithProof, assess: PCA.Assessment, hidx: PCA.HarmIndex, penalties: Dict,
                  coverageTarget: real, rows: seq<Kenosis.LedgerRow>, repairEdges: nat,
                  repr: Value -> string, rri: real) returns (r: Result<MetricBundle>)
    ensures r == BundleOf(awp, assess, hidx, penalties, coverageTarget, rows, repairEdges, repr, rri)
  {
    var e := EnergyMetric.FromProofs(awp, hidx, penalties);
    if e.Err? {
      return Err(e.error);
    }
    var g := GraceMetric.FromAssessment(awp, assess, hidx, penalties, coverageTarget);
    if g.Err? {
      return Err(g.error);
    }
    var k := Kenosis.Compute(rows, repairEdges, repr);
    if k.Err? {
      return Err(k.error);
    }
    var throne := ThroneFiber(e.value.e, g.value.g, k.value.k, rri, awp);
    var stand := Stand(e.value.e, g.value.g, rri, awp);
    return Ok(MetricBundle(e.value, g.value, k.value, rri, throne, stand, BundleNotes));
  }

  /** An assembled bundle never carries both flags when all three rail
    * proofs are present. */
  lemma BundleFlagsExclusive(awp: PCA.AdviceWithProof, assess: PCA.Assessment, hidx: PCA.HarmIndex, penalties: Dict,
                             coverageTarget: real, rows: seq<Kenosis.LedgerRow>, repairEdges: nat,
                             repr: Value -> string, rri: real)
    requires BundleOf(awp, assess, hidx, penalties, coverageTarget, rows, repairEdges, repr, rri).Ok?
    requires HasProof(awp, "consent") && HasProof(awp, "apophatic") && HasProof(awp, "externalities")
    ensures var b := BundleOf(awp, assess, hidx, penalties, coverageTarget, rows, repairEdges, repr, rri).value;
      !(b.throneFiber && b.standRecommended)
  {
    var b := BundleOf(awp, assess, hidx, penalties, coverageTarget, rows, repairEdges, repr, rri).value;
    if b.throneFiber {
      ThroneExcludesStand(b.e.e, b.g.g, b.k.k, rri, awp);
    }
  }
}
