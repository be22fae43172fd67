// Proof-carrying advice: every answer is built together with five proofs
// (consent, apophatic, externalities, harms ledger, remembrance), a risk
// figure and one hash token per proof (core/proofs/proof_carrying_advice.py).
// The externality pricer, harms ledger and anamnesis engine the builder
// consults are collaborators whose results are inputs here, and `blake` is
// a hash function given as a parameter.
module ProofCarryingAdvice {
  import opened Values
  import ConsentChecker
  import ApophaticGuard

  /** The builder's own, smaller copy of the guard's key sets. */
  const ForbidKeys: seq<string> := ["ground_is", "ultimate_name", "final_owner", "sovereign_claim"]
  const ConstraintOnlyKeys: seq<string> := ["no_image", "no_totalization", "no_equivalence", "no_exchange"]

  /** The forbidden keys among the top-level keys of `params`, in key order. */
  function ForbiddenIn(params: Dict): (r: seq<string>)
    ensures forall k :: k in r ==> k in ForbidKeys && Has(params, k)
    ensures forall k :: k in ForbidKeys && Has(params, k) ==> k in r
  {
    if params == [] then []
    else (if params[0].0 in ForbidKeys then [params[0].0] else []) + ForbiddenIn(params[1..])
  }

  /** `apophatic_ok(params)`: only top-level keys are inspected. */
  function ApophaticOk(params: Dict): (r: (bool, seq<string>))
    ensures r.0 <==> r.1 == []
    ensures r.0 <==>
      (forall k :: k in ForbidKeys ==> !Has(params, k)) &&
      (forall k :: k in ConstraintOnlyKeys && Has(params, k) ==> TrueOrEnforced(Get(params, k).value))
  {
    var forbidden := ForbiddenIn(params);
    var violated := ApophaticGuard.Violated(params, ConstraintOnlyKeys);
    var reasons := ApophaticGuard.Prefixed("forbidden:", forbidden)
                 + ApophaticGuard.Prefixed("constraint_only_violation:", violated);
    assert forbidden != [] ==> forbidden[0] in forbidden;
    assert violated != [] ==> violated[0] in violated;
    (|reasons| == 0, reasons)
  }

  const ConsentValidated := "consent:validated"
  const ConsentMissing := "consent:missing_or_invalid"

  /** `(ctx or {}).get("consent", {})` */
  function ConsentValue(ctx: Dict): Value {
    GetOr(ctx, "consent", VDict([]))
  }

  /** `consent_ok(ctx)`: granted iff the consent entry's "valid" is the
    * boolean `True` itself (an `is` test, so `1` does not pass) and its
    * scope is one of the five scope names. A consent entry that is not a
    * dictionary has no `.get` and raises; an unhashable scope raises when it
    * is looked up in the scope set. */
  function ConsentOk(ctx: Dict): (r: Result<(bool, string)>)
    ensures !ConsentValue(ctx).VDict? ==> r == Err(AttributeError("get"))
    ensures r.Ok? ==> r.value.1 == if r.value.0 then ConsentValidated else ConsentMissing
    ensures r.Ok? && r.value.0 <==>
      ConsentValue(ctx).VDict? &&
      Get(ConsentValue(ctx).entries, "valid") == Some(VBool(true)) &&
      GetOr(ConsentValue(ctx).entries, "scope", VNone).VStr? &&
      GetOr(ConsentValue(ctx).entries, "scope", VNone).s in ConsentChecker.ScopeNames
    ensures ConsentValue(ctx).VDict? && Get(ConsentValue(ctx).entries, "valid") != Some(VBool(true)) ==>
      r == Ok((false, ConsentMissing))
  {
    match ConsentValue(ctx)
    case VDict(c) =>
      if Get(c, "valid") == Some(VBool(true)) then
        match GetOr(c, "scope", VNone)
        case VStr(s) => Ok(if s in ConsentChecker.ScopeNames then (true, ConsentValidated) else (false, ConsentMissing))
        case VList(_) => Err(TypeError)
        case VDict(_) => Err(TypeError)
        case _ => Ok((false, ConsentMissing))
      else Ok((false, ConsentMissing))
    case _ => Err(AttributeError("get"))
  }

  datatype Proof = Proof(name: string, ok: bool, details: Dict, token: string)

  /** What `_mk_proof` hashes: `{"name": name, "ok": ok, "details": details}`. */
  function ProofPayload(name: string, ok: bool, details: Dict): Value {
    VDict([("name", VStr(name)), ("ok", VBool(ok)), ("details", VDict(details))])
  }

  /** `_mk_proof(name, ok, details)`: the token is the hash of the triple,
    * so equal triples always carry equal tokens. */
  function MkProof(blake: Value -> string, name: string, ok: bool, details: Dict): (r: Proof)
    ensures r.name == name && r.ok == ok && r.details == details
    ensures r.token == blake(ProofPayload(name, ok, details))
  {
    Proof(name, ok, details, blake(ProofPayload(name, ok, details)))
  }

  /** `AdviceDraft` */
  datatype AdviceDraft = AdviceDraft(id: string, query: string, plan: Dict, params: Dict, context: Dict)

  /** One external in the pricer's assessment: `asdict(e)` and `e.expected_cost()`. */
  datatype External = External(fields: Dict, expectedCost: real)

  /** The pricer's `Assessment`, as far as the builder reads it. */
  datatype Assessment = Assessment(coverage: real, rollbackReady: bool, externals: seq<External>, asDict: Dict)

  /** The harms ledger's `HarmIndex`. */
  datatype HarmIndex = HarmIndex(h: real, consentDebt: real, dignityDebt: real, reversibility: real)

  /** `AdviceWithProof` */
  datatype AdviceWithProof = AdviceWithProof(id: string, answer: string, risk: real,
                                             proofs: seq<Proof>, assessment: Dict, decidedAt: real)

  /** The dictionary handed to the pricer: the plan with the draft's id and
    * the plan's rollback recipe (None when it has none) written over it. */
  function PricerInput(draft: AdviceDraft): (r: Dict) {
    Merge(draft.plan, [("id", VStr(draft.id)), ("rollback_recipe", GetOr(draft.plan, "rollback_recipe", VNone))])
  }

  lemma PricerInputEntries(draft: AdviceDraft, k: string)
    ensures Get(PricerInput(draft), "id") == Some(VStr(draft.id))
    ensures Get(PricerInput(draft), "rollback_recipe") == Some(GetOr(draft.plan, "rollback_recipe", VNone))
    ensures k != "id" && k != "rollback_recipe" ==> Get(PricerInput(draft), k) == Get(draft.plan, k)
  {
    var b := [("id", VStr(draft.id)), ("rollback_recipe", GetOr(draft.plan, "rollback_recipe", VNone))];
    assert UniqueKeys(b);
    MergeGet(draft.plan, b, "id");
    MergeGet(draft.plan, b, "rollback_recipe");
    MergeGet(draft.plan, b, k);
    assert b[1..] == [("rollback_recipe", GetOr(draft.plan, "rollback_recipe", VNone))];
    assert b[1..][1..] == [];
    assert Get(b, "rollback_recipe") == Some(GetOr(draft.plan, "rollback_recipe", VNone));
    if k != "id" && k != "rollback_recipe" {
      assert Get(b, k) == Get(b[1..], k) == Get(b[1..][1..], k);
    }
  }

  /** `penalties["energy_penalty"] + penalties["grace_penalty"]`, used in a
    * comparison: a missing key raises KeyError, a non-number TypeError. */
  function HarmPressure(penalties: Dict): (r: Result<real>)
    ensures r.Ok? <==> (NumOf(GetOr(penalties, "energy_penalty", VNone)).Some? &&
                        NumOf(GetOr(penalties, "grace_penalty", VNone)).Some?)
    ensures r.Ok? ==> r.value == NumOf(Get(penalties, "energy_penalty").value).value
                               + NumOf(Get(penalties, "grace_penalty").value).value
    ensures !Has(penalties, "energy_penalty") ==> r == Err(KeyError("energy_penalty"))
  {
    match Get(penalties, "energy_penalty")
    case None => Err(KeyError("energy_penalty"))
    case Some(e) =>
      match Get(penalties, "grace_penalty")
      case None => Err(KeyError("grace_penalty"))
      case Some(g) =>
        var x :- Num(e);
        var y :- Num(g);
        Ok(x + y)
  }

  /** `sum(e.expected_cost() for e in externals)` */
  function ExpectedCost(externals: seq<External>): (r: real)
    ensures (forall i :: 0 <= i < |externals| ==> externals[i].expectedCost >= 0.0) ==> r >= 0.0
  {
    if externals == [] then 0.0 else ExpectedCost(externals[..|externals| - 1]) + externals[|externals| - 1].expectedCost
  }

  function ExternalsValue(externals: seq<External>): (r: seq<Value>)
    ensures |r| == |externals|
  {
    if externals == [] then [] else [VDict(externals[0].fields)] + ExternalsValue(externals[1..])
  }

  /** `min(1.0, 0.6*ext_cost + 0.4*hp)`: capped above only. */
  function Risk(extCost: real, hp: real): (r: real)
    ensures r <= 1.0
    ensures extCost >= 0.0 && hp >= 0.0 ==> 0.0 <= r
    ensures 0.6 * extCost + 0.4 * hp <= 1.0 ==> r == 0.6 * extCost + 0.4 * hp
  {
    Min(1.0, 0.6 * extCost + 0.4 * hp)
  }

  const ProofOrder: seq<string> := ["consent", "apophatic", "externalities", "harms_ledger", "remembrance"]

  /** A proof whose token is the hash of its own name, verdict and details. */
  predicate Tokened(blake: Value -> string, p: Proof) {
    p.token == blake(ProofPayload(p.name, p.ok, p.details))
  }

  /** The externalities proof: full enough coverage and a rollback that is ready. */
  predicate ExternalitiesOk(a: Assessment, coverageThreshold: real) {
    a.coverage >= coverageThreshold && a.rollbackReady
  }

  /** Step 1 of `build`: the consent proof, with the message and the
    * consent entry's scope as details. */
  function ConsentProof(blake: Value -> string, ctx: Dict): (r: Result<Proof>)
    ensures r.Ok? <==> ConsentOk(ctx).Ok?
    ensures r.Err? ==> r.error == ConsentOk(ctx).error
    ensures r.Ok? ==> r.value.name == "consent" && (r.value.ok <==> ConsentOk(ctx).value.0) && Tokened(blake, r.value)
  {
    var consent :- ConsentOk(ctx);
    var scope := GetOr(ConsentValue(ctx).entries, "scope", VNone);
    Ok(MkProof(blake, "consent", consent.0, [("msg", VStr(consent.1)), ("context_scope", scope)]))
  }

  /** Step 2: the apophatic proof, with the reasons as details. */
  function ApophaticProof(blake: Value -> string, params: Dict): (r: Proof)
    ensures r.name == "apophatic" && (r.ok <==> ApophaticOk(params).0) && Tokened(blake, r)
  {
    var apophatic := ApophaticOk(params);
    var reasons := apophatic.1;
    MkProof(blake, "apophatic", apophatic.0,
      [("reasons", VList(seq(|reasons|, i requires 0 <= i < |reasons| => VStr(reasons[i]))))])
  }

  /** Step 3: the externalities proof over the pricer's assessment. */
  function ExternalitiesProof(blake: Value -> string, a: Assessment, coverageThreshold: real): (r: Proof)
    ensures r.name == "externalities" && (r.ok <==> ExternalitiesOk(a, coverageThreshold)) && Tokened(blake, r)
  {
    MkProof(blake, "externalities", a.coverage >= coverageThreshold && a.rollbackReady,
      [("coverage", VReal(a.coverage)),
       ("rollback_ready", VBool(a.rollbackReady)),
       ("externals", VList(ExternalsValue(a.externals)))])
  }

  /** Step 4: the harms-ledger proof, a soft gate on the harm pressure. */
  function HarmsProof(blake: Value -> string, h: HarmIndex, penalties: Dict): (r: Result<Proof>)
    ensures r.Ok? <==> HarmPressure(penalties).Ok?
    ensures r.Err? ==> r.error == HarmPressure(penalties).error
    ensures r.Ok? ==> r.value.name == "harms_ledger" && (r.value.ok <==> HarmPressure(penalties).value <= 0.75) && Tokened(blake, r.value)
  {
    var hp :- HarmPressure(penalties);
    Ok(MkProof(blake, "harms_ledger", hp <= 0.75,
      [("H", VReal(h.h)),
       ("consent_debt", VReal(h.consentDebt)),
       ("dignity_debt", VReal(h.dignityDebt)),
       ("reversibility", VReal(h.reversibility)),
       ("penalties", VDict(penalties))]))
  }

  /** Step 5: the remembrance proof against the default RRI target. */
  function RemembranceProof(blake: Value -> string, rri: real): (r: Proof)
    ensures r.name == "remembrance" && (r.ok <==> rri >= 0.70) && Tokened(blake, r)
  {
    MkProof(blake, "remembrance", rri >= 0.70, [("RRI", VReal(rri))])
  }

  /** The five proofs `build` appends, in order, when neither the consent
    * check nor the harm penalties raise. */
  function GateProofList(draft: AdviceDraft, coverageThreshold: real,
                         blake: Value -> string, assess: Dict -> Assessment,
                         harmIndex: HarmIndex, penalties: Dict, rri: real): seq<Proof>
    requires ConsentOk(draft.context).Ok? && HarmPressure(penalties).Ok?
  {
    [ConsentProof(blake, draft.context).value,
     ApophaticProof(blake, draft.params),
     ExternalitiesProof(blake, assess(PricerInput(draft)), coverageThreshold),
     HarmsProof(blake, harmIndex, penalties).value,
     RemembranceProof(blake, rri)]
  }

  /** The gate list has the five names in order, and every token is the
    * hash of its own proof. */
  lemma GateProofNames(draft: AdviceDraft, coverageThreshold: real,
                       blake: Value -> string, assess: Dict -> Assessment,
                       harmIndex: HarmIndex, penalties: Dict, rri: real)
    requires ConsentOk(draft.context).Ok? && HarmPressure(penalties).Ok?
    ensures var ps := GateProofList(draft, coverageThreshold, blake, assess, harmIndex, penalties, rri);
      |ps| == |ProofOrder| &&
      forall i :: 0 <= i < |ProofOrder| ==> ps[i].name == ProofOrder[i] && Tokened(blake, ps[i])
  {
    var ps := GateProofList(draft, coverageThreshold, blake, assess, harmIndex, penalties, rri);
    assert ps[0] == ConsentProof(blake, draft.context).value;
    assert ps[3] == HarmsProof(blake, harmIndex, penalties).value;
  }

  /** Each verdict in the gate list is its gate's condition. */
  lemma GateProofVerdicts(draft: AdviceDraft, coverageThreshold: real,
                          blake: Value -> string, assess: Dict -> Assessment,
                          harmIndex: HarmIndex, penalties: Dict, rri: real)
    requires ConsentOk(draft.context).Ok? && HarmPressure(penalties).Ok?
    ensures var ps := GateProofList(draft, coverageThreshold, blake, assess, harmIndex, penalties, rri);
      && (ps[0].ok <==> ConsentOk(draft.context).value.0)
      && (ps[1].ok <==> ApophaticOk(draft.params).0)
      && (ps[2].ok <==> ExternalitiesOk(assess(PricerInput(draft)), coverageThreshold))
      && (ps[3].ok <==> HarmPressure(penalties).value <= 0.75)
      && (ps[4].ok <==> rri >= 0.70)
  {
    var ps := GateProofList(draft, coverageThreshold, blake, assess, harmIndex, penalties, rri);
    assert ps[0] == ConsentProof(blake, draft.context).value;
    assert ps[3] == HarmsProof(blake, harmIndex, penalties).value;
  }

  /** `ProofCarryingAdvice.build(draft, answer)`: the five gate proofs are
    * appended in order, then the risk blend of expected externality cost and
    * harm pressure. Only the consent check and the harm penalties can raise. */
  method Build(draft: AdviceDraft, answer: string, coverageThreshold: real,
               blake: Value -> string, assess: Dict -> Assessment,
               harmIndex: HarmIndex, penalties: Dict, rri: real, now: real)
    returns (r: Result<AdviceWithProof>)
    ensures r.Ok? <==> ConsentOk(draft.context).Ok? && HarmPressure(penalties).Ok?
    ensures ConsentOk(draft.context).Err? ==> r == Err(ConsentOk(draft.context).error)
    ensures ConsentOk(draft.context).Ok? && HarmPressure(penalties).Err? ==> r == Err(HarmPressure(penalties).error)
    ensures r.Ok? ==> r.value.id == draft.id && r.value.answer == answer && r.value.decidedAt == now
    ensures r.Ok? ==>
      r.value.proofs == GateProofList(draft, coverageThreshold, blake, assess, harmIndex, penalties, rri)
    ensures r.Ok? ==>
      r.value.risk == Risk(ExpectedCost(assess(PricerInput(draft)).externals), HarmPressure(penalties).value)
  {
    var proofs: seq<Proof> := [];
    var consent := ConsentProof(blake, draft.context);
    if consent.Err? {
      return Err(consent.error);
    }
    proofs := proofs + [consent.value];
    proofs := proofs + [ApophaticProof(blake, draft.params)];
    var assessment := assess(PricerInput(draft));
    proofs := proofs + [ExternalitiesProof(blake, assessment, coverageThreshold)];
    var harms := HarmsProof(blake, harmIndex, penalties);
    if harms.Err? {
      return Err(harms.error);
    }
    proofs := proofs + [harms.value];
    proofs := proofs + [RemembranceProof(blake, rri)];

    var hp := HarmPressure(penalties).value;
    var extCost := if assessment.externals != [] then ExpectedCost(assessment.externals) else 0.0;
    var risk := Min(1.0, 0.6 * extCost + 0.4 * hp);
    r := Ok(AdviceWithProof(draft.id, answer, risk, proofs,
      [("externalities", VDict(assessment.asDict)),
       ("harms", VDict([("penalties", VDict(penalties)), ("H", VReal(harmIndex.h))]))],
      now));
  }
}
