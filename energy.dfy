// 𝓔, energy integrity (core/metrics/energy.py): a score in [0, 1] that
// starts at 1 and loses the harm penalty, a fixed price for each failed
// rail proof and a share of the advice's risk. The harms ledger's
// `compute_index` and `penalties` are not part of the shown ledger, so the
// harm index and the penalties dictionary are inputs.
module EnergyMetric {
  import opened Values
  import PCA = ProofCarryingAdvice

  /** `EnergySnapshot` */
  datatype EnergySnapshot = EnergySnapshot(e: real, components: Dict, notes: string)

  const EnergyNotes := "Energy derived from PCA proofs + harms penalties."

  /** The verdict of the first proof called `name`; false when there is none. */
  function FirstVerdict(proofs: seq<PCA.Proof>, name: string): bool {
    if proofs == [] then false
    else if proofs[0].name == name then proofs[0].ok
    else FirstVerdict(proofs[1..], name)
  }

  /** The first proof with the name decides, and a missing proof counts as
    * failed. */
  lemma {:induction false} FirstVerdictIsFirstMatch(proofs: seq<PCA.Proof>, name: string)
    ensures FirstVerdict(proofs, name) <==>
      exists i :: 0 <= i < |proofs| && proofs[i].name == name && proofs[i].ok &&
                  forall j :: 0 <= j < i ==> proofs[j].name != name
    ensures (forall i :: 0 <= i < |proofs| ==> proofs[i].name != name) ==> !FirstVerdict(proofs, name)
  {
    if proofs != [] {
      FirstVerdictIsFirstMatch(proofs[1..], name);
      if proofs[0].name == name {
        if proofs[0].ok {
          assert 0 < |proofs| && proofs[0].name == name && proofs[0].ok;
        }
      } else {
        if FirstVerdict(proofs, name) {
          var i :| 0 <= i < |proofs[1..]| && proofs[1..][i].name == name && proofs[1..][i].ok &&
                   forall j :: 0 <= j < i ==> proofs[1..][j].name != name;
          assert proofs[i + 1] == proofs[1..][i];
          forall j | 0 <= j < i + 1
            ensures proofs[j].name != name
          {
            if j > 0 { assert proofs[j] == proofs[1..][j - 1]; }
          }
        }
        if exists i :: 0 <= i < |proofs| && proofs[i].name == name && proofs[i].ok &&
                       forall j :: 0 <= j < i ==> proofs[j].name != name {
          var i :| 0 <= i < |proofs| && proofs[i].name == name && proofs[i].ok &&
                   forall j :: 0 <= j < i ==> proofs[j].name != name;
          assert i > 0;
          assert proofs[1..][i - 1] == proofs[i];
          assert forall j :: 0 <= j < i - 1 ==> proofs[1..][j].name != name by {
            forall j | 0 <= j < i - 1 ensures proofs[1..][j].name != name {
              assert proofs[1..][j] == proofs[j + 1];
            }
          }
        }
      }
    }
  }

  /** `_proof_ok(awp, name)`: a first-match search over the proofs. */
  method ProofOk(awp: PCA.AdviceWithProof, name: string) returns (ok: bool)
    ensures ok == FirstVerdict(awp.proofs, name)
  {
    var i := 0;
    while i < |awp.proofs|
      invariant 0 <= i <= |awp.proofs|
      invariant FirstVerdict(awp.proofs, name) == FirstVerdict(awp.proofs[i..], name)
    {
      assert awp.proofs[i..][1..] == awp.proofs[i + 1..];
      if awp.proofs[i].name == name {
        return awp.proofs[i].ok;
      }
      i := i + 1;
    }
    return false;
  }

  /** 0.35 for a failed consent proof, 0.25 for apophatic, 0.20 for
    * externalities. */
  function RailPenalty(consentOk: bool, apophaticOk: bool, externalitiesOk: bool): (r: real)
    ensures 0.0 <= r <= 0.8
    ensures r == 0.0 <==> consentOk && apophaticOk && externalitiesOk
  {
    (if consentOk then 0.0 else 0.35) + (if apophaticOk then 0.0 else 0.25) + (if externalitiesOk then 0.0 else 0.20)
  }

  function Flag(b: bool): real { if b then 1.0 else 0.0 }

  /** 𝓔 from its parts. */
  function EnergyFrom(harmPenalty: real, railPenalty: real, risk: real): (r: real)
    ensures 0.0 <= r <= 1.0
  {
    Clamp01(1.0 - Min(1.0, harmPenalty + railPenalty + 0.15 * risk))
  }

  /** `from_proofs(awp, hidx)` with the three rail verdicts already looked
    * up; `penalties` is what the ledger returns for `hidx`. */
  function SnapshotOf(awp: PCA.AdviceWithProof, hidx: PCA.HarmIndex, penalties: Dict,
                      consentOk: bool, apophaticOk: bool, externalitiesOk: bool): (r: Result<EnergySnapshot>)
    ensures !Has(penalties, "energy_penalty") ==> r == Err(KeyError("energy_penalty"))
    ensures r.Ok? <==> Has(penalties, "energy_penalty") && NumOf(Get(penalties, "energy_penalty").value).Some?
    ensures r.Ok? ==> 0.0 <= r.value.e <= 1.0
    ensures r.Ok? ==> r.value.e == EnergyFrom(NumOf(Get(penalties, "energy_penalty").value).value,
                                              RailPenalty(consentOk, apophaticOk, externalitiesOk), awp.risk)
    ensures r.Ok? ==> forall i :: 0 <= i < |r.value.components| ==>
      r.value.components[i].1.VReal? && FourDecimals(r.value.components[i].1.r)
    ensures r.Ok? ==> Get(r.value.components, "rail_penalty") == Some(VReal(RailPenalty(consentOk, apophaticOk, externalitiesOk)))
  {
    var harmValue :- Subscript(penalties, "energy_penalty");
    var harm :- Num(harmValue);
    var rail := RailPenalty(consentOk, apophaticOk, externalitiesOk);
    var comps := [("rail_penalty", VReal(Round4(rail))),
                  ("harm_penalty", VReal(Round4(harm))),
                  ("risk_blend", VReal(Round4(0.15 * awp.risk))),
                  ("consent_ok", VReal(Flag(consentOk))),
                  ("apoph_ok", VReal(Flag(apophaticOk))),
                  ("externalities_ok", VReal(Flag(externalitiesOk))),
                  ("H", VReal(Round4(hidx.h))),
                  ("consent_debt", VReal(Round4(hidx.consentDebt)))];
    Ok(EnergySnapshot(EnergyFrom(harm, rail, awp.risk), comps, EnergyNotes))
  }

  /** `Energy.from_proofs(awp, hidx)` */
  method FromProofs(awp: PCA.AdviceWithProof, hidx: PCA.HarmIndex, penalties: Dict) returns (r: Result<EnergySnapshot>)
    ensures r == SnapshotOf(awp, hidx, penalties, FirstVerdict(awp.proofs, "consent"),
                            FirstVerdict(awp.proofs, "apophatic"), FirstVerdict(awp.proofs, "externalities"))
  {
    var consentOk := ProofOk(awp, "consent");
    var apophaticOk := ProofOk(awp, "apophatic");
    var externalitiesOk := ProofOk(awp, "externalities");
    r := SnapshotOf(awp, hidx, penalties, consentOk, apophaticOk, externalitiesOk);
  }

  /** Passing rails, no harm penalty and no risk leave 𝓔 at 1. */
  lemma CleanAdviceHasFullEnergy(awp: PCA.AdviceWithProof, hidx: PCA.HarmIndex, penalties: Dict)
    requires FirstVerdict(awp.proofs, "consent") && FirstVerdict(awp.proofs, "apophatic") &&
             FirstVerdict(awp.proofs, "externalities")
    requires Get(penalties, "energy_penalty") == Some(VReal(0.0)) && awp.risk == 0.0
    ensures SnapshotOf(awp, hidx, penalties, FirstVerdict(awp.proofs, "consent"), FirstVerdict(awp.proofs, "apophatic"),
                       FirstVerdict(awp.proofs, "externalities")).Ok?
    ensures SnapshotOf(awp, hidx, penalties, FirstVerdict(awp.proofs, "consent"), FirstVerdict(awp.proofs, "apophatic"),
                       FirstVerdict(awp.proofs, "externalities")).value.e == 1.0
  {
    assert RailPenalty(true, true, true) == 0.0;
    assert EnergyFrom(0.0, 0.0, 0.0) == 1.0;
  }

  /** Each failed rail, a larger harm penalty and a larger risk can only
    * lower 𝓔, and once rail and harm penalties reach 1 it is 0. */
  lemma EnergyIsMonotone(harm: real, harm': real, rail: real, rail': real, risk: real, risk': real)
    requires harm <= harm' && rail <= rail' && risk <= risk'
    ensures EnergyFrom(harm', rail', risk') <= EnergyFrom(harm, rail, risk)
    ensures harm + rail + 0.15 * risk >= 1.0 ==> EnergyFrom(harm, rail, risk) == 0.0
  {
  }

  /** A failing consent proof costs 0.35 of 𝓔 when nothing is clamped. */
  lemma FailedConsentCosts(harm: real, risk: real)
    requires harm >= 0.0 && risk >= 0.0 && harm + 0.35 + 0.15 * risk <= 1.0
    ensures EnergyFrom(harm, RailPenalty(true, true, true), risk) - EnergyFrom(harm, RailPenalty(false, true, true), risk) == 0.35
  {
  }
}
