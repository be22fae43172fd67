// The shadow twin: builds counter-advice by inverting the draft's will axis
// and hardening its externality budget, builds proofs for both drafts, and
// selects one by the hard gates and then by risk
// (apps/contemplator/shadow_twin.py).
module ShadowTwin {
  import opened Values
  import ProofCarryingAdvice

  type AdviceDraft = ProofCarryingAdvice.AdviceDraft
  type AdviceWithProof = ProofCarryingAdvice.AdviceWithProof

  /** `WILL_INVERT` */
  const WillInvert: map<string, string> := map[
    "NEGATION" := "POTENTIATION",
    "POTENTIATION" := "NEGATION",
    "GENERATION" := "ANNIHILATION",
    "EXPANSION" := "POSSESSION",
    "POSSESSION" := "EXPANSION",
    "CONSUMMATION" := "ASPIRATION",
    "ASPIRATION" := "CONSUMMATION",
    "TRANSCENSION" := "NEGATION",
    "ANNIHILATION" := "GENERATION"
  ]

  /** The nine wills the table inverts. */
  lemma WillInvertKeys()
    ensures WillInvert.Keys == {"NEGATION", "POTENTIATION", "GENERATION", "EXPANSION", "POSSESSION",
                                "CONSUMMATION", "ASPIRATION", "TRANSCENSION", "ANNIHILATION"}
  {
  }

  /** The inversion undoes itself on every will except TRANSCENSION, which
    * goes to NEGATION and from there to POTENTIATION. */
  lemma WillInvertAlmostInvolution()
    ensures forall w :: w in WillInvert && w != "TRANSCENSION" ==>
      WillInvert[w] in WillInvert && WillInvert[WillInvert[w]] == w
    ensures WillInvert[WillInvert["TRANSCENSION"]] == "POTENTIATION"
    ensures forall w :: w in WillInvert ==> WillInvert[w] in WillInvert && WillInvert[w] != "TRANSCENSION"
  {
    WillInvertKeys();
    forall w | w in WillInvert
      ensures WillInvert[w] in WillInvert && WillInvert[w] != "TRANSCENSION"
      ensures w != "TRANSCENSION" ==> WillInvert[WillInvert[w]] == w
    {
      if w == "NEGATION" {} else if w == "POTENTIATION" {} else if w == "GENERATION" {}
      else if w == "EXPANSION" {} else if w == "POSSESSION" {} else if w == "CONSUMMATION" {}
      else if w == "ASPIRATION" {} else if w == "TRANSCENSION" {} else {
        assert w == "ANNIHILATION";
      }
    }
  }

  /** The budget lines `_invert` hardens, in order. */
  const BudgetKeys: seq<string> := ["privacy", "safety", "environmental", "reputation", "technical_debt", "compute"]

  /** The hardened value of one budget line: `max(0.9, float(old or 0.0))`. */
  function HardenedLine(budget: Dict, k: string): (r: Result<real>)
    ensures r.Ok? <==> NumOf(GetOr(budget, k, VReal(0.0))).Some?
    ensures r.Ok? ==> r.value >= 0.9 && r.value >= NumOf(GetOr(budget, k, VReal(0.0))).value
  {
    var x :- Float(GetOr(budget, k, VReal(0.0)));
    Ok(Max(0.9, x))
  }

  lemma BudgetKeysDistinct()
    ensures forall i, j :: 0 <= i < j < |BudgetKeys| ==> BudgetKeys[i] != BudgetKeys[j]
  {
  }

  /** The budget loop as a value: lines `i` onwards are hardened in order,
    * and the first line that is not a number stops it with its error. */
  function HardenFrom(b: Dict, i: nat): (r: Result<Dict>)
    decreases |BudgetKeys| - i
  {
    if i >= |BudgetKeys| then Ok(b)
    else
      var x :- HardenedLine(b, BudgetKeys[i]);
      HardenFrom(Put(b, BudgetKeys[i], VReal(x)), i + 1)
  }

  /** One iteration of the budget loop: line `i` is hardened and nothing else
    * that the loop has written or will read changes. */
  method HardenLine(budget: Dict, b: Dict, i: nat) returns (r: Result<Dict>)
    requires i < |BudgetKeys|
    requires Get(b, BudgetKeys[i]) == Get(budget, BudgetKeys[i])
    ensures r.Ok? <==> HardenedLine(budget, BudgetKeys[i]).Ok?
    ensures r.Err? ==> r == Err(HardenedLine(budget, BudgetKeys[i]).error) && HardenFrom(b, i) == r
    ensures r.Ok? ==> HardenFrom(b, i) == HardenFrom(r.value, i + 1)
    ensures r.Ok? ==> r.value == Put(b, BudgetKeys[i], VReal(HardenedLine(budget, BudgetKeys[i]).value))
    ensures r.Ok? ==> Get(r.value, BudgetKeys[i]) == Some(VReal(HardenedLine(budget, BudgetKeys[i]).value))
    ensures r.Ok? ==> forall k :: k != BudgetKeys[i] ==> Get(r.value, k) == Get(b, k)
  {
    var k := BudgetKeys[i];
    var x := Float(GetOr(b, k, VReal(0.0)));
    if x.Err? {
      return Err(x.error);
    }
    var v := VReal(Max(0.9, x.value));
    forall k' ensures Get(Put(b, k, v), k') == if k' == k then Some(v) else Get(b, k') {
      PutGet(b, k, v, k');
    }
    r := Ok(Put(b, k, v));
  }

  lemma PrefixStep(s: seq<string>, i: nat)
    requires i < |s|
    ensures s[..i + 1] == s[..i] + [s[i]]
  {
  }

  /** The loop of `_invert` over the six budget lines: each is raised to at
    * least 0.9; a line that is not a number raises (ValueError for a
    * string), and every other key is left as it was. */
  method HardenBudget(budget: Dict) returns (r: Result<Dict>)
    ensures r.Ok? <==> forall k :: k in BudgetKeys ==> HardenedLine(budget, k).Ok?
    ensures r.Ok? ==> forall k :: k in BudgetKeys ==> Get(r.value, k) == Some(VReal(HardenedLine(budget, k).value))
    ensures r.Ok? ==> forall k :: k !in BudgetKeys ==> Get(r.value, k) == Get(budget, k)
    ensures r == HardenFrom(budget, 0)
  {
    BudgetKeysDistinct();
    var b := budget;
    for i := 0 to |BudgetKeys|
      invariant HardenFrom(b, i) == HardenFrom(budget, 0)
      invariant forall j :: 0 <= j < i ==> HardenedLine(budget, BudgetKeys[j]).Ok?
      invariant forall j :: 0 <= j < i ==> Get(b, BudgetKeys[j]) == Some(VReal(HardenedLine(budget, BudgetKeys[j]).value))
      invariant forall k :: k !in BudgetKeys[..i] ==> Get(b, k) == Get(budget, k)
    {
      assert BudgetKeys[i] !in BudgetKeys[..i];
      var next := HardenLine(budget, b, i);
      if next.Err? {
        return Err(next.error);
      }
      b := next.value;
      PrefixStep(BudgetKeys, i);
    }
    assert BudgetKeys[..|BudgetKeys|] == BudgetKeys;
    r := Ok(b);
  }

  const DefaultRollback := "rollback: kill-switch + throttle + data quarantine"

  /** `(params.get("will") or "").upper()`: a truthy will that is not a string
    * has no `.upper` and raises. */
  function WillTag(params: Dict): (r: Result<string>)
    ensures !Has(params, "will") ==> r == Ok("")
    ensures Has(params, "will") && Get(params, "will").value.VStr? ==> r == Ok(Upper(Get(params, "will").value.s))
  {
    var w := GetOr(params, "will", VNone);
    if !Truthy(w) then Ok("")
    else if w.VStr? then Ok(Upper(w.s))
    else Err(AttributeError("upper"))
  }

  /** The params of the counter draft: the will replaced by its inversion
    * when it is a known one. */
  function InvertedParams(params: Dict, tag: string): (r: Dict)
    ensures tag in WillInvert ==> Get(r, "will") == Some(VStr(WillInvert[tag]))
    ensures tag !in WillInvert ==> r == params
  {
    if tag in WillInvert then
      PutGet(params, "will", VStr(WillInvert[tag]), "will");
      Put(params, "will", VStr(WillInvert[tag]))
    else params
  }

  /** The counter draft's plan: the hardened budget under "budget_lines"
    * and a default rollback recipe when the plan has none. */
  function CounterPlan(plan: Dict, budget: Dict): Dict {
    var p := Put(plan, "budget_lines", VDict(budget));
    if Has(p, "rollback_recipe") then p else Put(p, "rollback_recipe", VStr(DefaultRollback))
  }

  lemma CounterPlanEntries(plan: Dict, budget: Dict, k: string)
    ensures Get(CounterPlan(plan, budget), k) ==
      if k == "budget_lines" then Some(VDict(budget))
      else if k == "rollback_recipe" && !Has(plan, "rollback_recipe") then Some(VStr(DefaultRollback))
      else Get(plan, k)
  {
    var p := Put(plan, "budget_lines", VDict(budget));
    PutGet(plan, "budget_lines", VDict(budget), k);
    PutGet(plan, "budget_lines", VDict(budget), "rollback_recipe");
    if !Has(p, "rollback_recipe") {
      PutGet(p, "rollback_recipe", VStr(DefaultRollback), k);
    }
  }

  /** What `_invert` returns, and the caller's plan afterwards: the plan is
    * copied only one level deep, so an existing budget dictionary is shared
    * and its hardened lines show up in the caller's draft too. */
  datatype Inversion = Inversion(counter: AdviceDraft, callerPlan: Dict)

  /** The budget `_invert` starts from: the plan's, or a fresh empty one. */
  function OldBudget(plan: Dict): (r: Value)
    ensures Has(plan, "budget_lines") ==> Get(plan, "budget_lines") == Some(r)
    ensures !Has(plan, "budget_lines") ==> r == VDict([])
  {
    if Has(plan, "budget_lines") then Get(plan, "budget_lines").value else VDict([])
  }

  /** The counter draft `_invert` returns, as a value: the will inverted,
    * every budget line hardened and a rollback recipe in place. A budget
    * that is not a dictionary has no `.get`. */
  function CounterDraft(draft: AdviceDraft): (r: Result<AdviceDraft>)
    ensures r.Ok? ==> r.value.id == draft.id + ":counter" && r.value.query == draft.query && r.value.context == draft.context
  {
    var tag :- WillTag(draft.params);
    var budget := OldBudget(draft.plan);
    if !budget.VDict? then Err(AttributeError("get"))
    else
      var hardened :- HardenFrom(budget.entries, 0);
      Ok(ProofCarryingAdvice.AdviceDraft(draft.id + ":counter", draft.query, CounterPlan(draft.plan, hardened),
                                         InvertedParams(draft.params, tag), draft.context))
  }

  /** The caller's plan after `_invert` succeeds: a budget dictionary the
    * plan already had is shared, so it now holds the hardened lines. */
  function CallerPlanAfter(plan: Dict): (r: Dict)
    ensures !Has(plan, "budget_lines") ==> r == plan
    ensures forall k :: k != "budget_lines" ==> Get(r, k) == Get(plan, k)
  {
    match OldBudget(plan)
    case VDict(e) =>
      (match HardenFrom(e, 0)
       case Ok(h) =>
         if Has(plan, "budget_lines") then
           assert forall k :: Get(Put(plan, "budget_lines", VDict(h)), k) == if k == "budget_lines" then Some(VDict(h)) else Get(plan, k) by {
             forall k ensures Get(Put(plan, "budget_lines", VDict(h)), k) == if k == "budget_lines" then Some(VDict(h)) else Get(plan, k) {
               PutGet(plan, "budget_lines", VDict(h), k);
             }
           }
           Put(plan, "budget_lines", VDict(h))
         else plan
       case Err(_) => plan)
    case _ => plan
  }

  /** `ShadowTwin._invert(draft)` */
  method Invert(draft: AdviceDraft) returns (r: Result<Inversion>)
    ensures r.Ok? <==> WillTag(draft.params).Ok? && OldBudget(draft.plan).VDict? &&
                       forall k :: k in BudgetKeys ==> HardenedLine(OldBudget(draft.plan).entries, k).Ok?
    ensures WillTag(draft.params).Err? ==> r == Err(WillTag(draft.params).error)
    ensures WillTag(draft.params).Ok? && !OldBudget(draft.plan).VDict? ==> r == Err(AttributeError("get"))
    ensures r.Ok? <==> CounterDraft(draft).Ok?
    ensures r.Err? ==> r == Err(CounterDraft(draft).error)
    ensures r.Ok? ==> r.value.counter == CounterDraft(draft).value
    ensures r.Ok? ==>
      var c := r.value.counter;
      && c.id == draft.id + ":counter" && c.query == draft.query && c.context == draft.context
      && c.params == InvertedParams(draft.params, WillTag(draft.params).value)
      && Get(c.plan, "budget_lines").Some? && Get(c.plan, "budget_lines").value.VDict?
      && c.plan == CounterPlan(draft.plan, Get(c.plan, "budget_lines").value.entries)
    ensures r.Ok? ==>
      var budget := Get(r.value.counter.plan, "budget_lines").value.entries;
      var oldBudget := OldBudget(draft.plan).entries;
      && (forall k :: k in BudgetKeys ==>
            HardenedLine(oldBudget, k).Ok? && Get(budget, k) == Some(VReal(HardenedLine(oldBudget, k).value)))
      && (forall k :: k !in BudgetKeys ==> Get(budget, k) == Get(oldBudget, k))
    ensures r.Ok? ==> r.value.callerPlan == CallerPlanAfter(draft.plan)
  {
    var plan := draft.plan;
    var params := draft.params;
    var tag := WillTag(params);
    if tag.Err? {
      return Err(tag.error);
    }
    params := InvertedParams(params, tag.value);
    var shared := Has(plan, "budget_lines");
    if !shared {
      plan := Put(plan, "budget_lines", VDict([]));
      PutGet(draft.plan, "budget_lines", VDict([]), "budget_lines");
    }
    var budgetValue := Get(plan, "budget_lines").value;
    assert budgetValue == OldBudget(draft.plan);
    if !budgetValue.VDict? {
      return Err(AttributeError("get"));
    }
    var hardened := HardenBudget(budgetValue.entries);
    if hardened.Err? {
      return Err(hardened.error);
    }
    var plan1 := Put(plan, "budget_lines", VDict(hardened.value));
    if !shared {
      PutPut(draft.plan, "budget_lines", VDict([]), VDict(hardened.value));
    }
    assert plan1 == Put(draft.plan, "budget_lines", VDict(hardened.value));
    if !Has(plan1, "rollback_recipe") {
      plan1 := Put(plan1, "rollback_recipe", VStr(DefaultRollback));
    }
    CounterPlanEntries(draft.plan, hardened.value, "budget_lines");
    var callerPlan := if shared then Put(draft.plan, "budget_lines", VDict(hardened.value)) else draft.plan;
    r := Ok(Inversion(ProofCarryingAdvice.AdviceDraft(draft.id + ":counter", draft.query, plan1, params, draft.context), callerPlan));
  }

  /** `_counter_answer(answer)` */
  function CounterAnswer(answer: string): (r: string)
    ensures |r| == |answer| + 14 && r[14..] == answer
  {
    "COUNTER-MOVE: " + answer
  }

  /** The index of the last proof named `name`. */
  function LastIndex(ps: seq<ProofCarryingAdvice.Proof>, name: string): (r: Option<nat>)
    ensures r.Some? ==> r.value < |ps| && ps[r.value].name == name &&
                        forall j :: r.value < j < |ps| ==> ps[j].name != name
    ensures r.None? ==> forall i :: 0 <= i < |ps| ==> ps[i].name != name
  {
    if ps == [] then None
    else if ps[|ps| - 1].name == name then Some(|ps| - 1)
    else LastIndex(ps[..|ps| - 1], name)
  }

  /** `{p.name: p.ok for p in proofs}.get(name)`: later proofs overwrite
    * earlier ones with the same name. */
  function Verdict(ps: seq<ProofCarryingAdvice.Proof>, name: string): (r: Option<bool>)
    ensures r.None? <==> forall i :: 0 <= i < |ps| ==> ps[i].name != name
    ensures r.Some? ==> exists i :: 0 <= i < |ps| && ps[i].name == name && ps[i].ok == r.value &&
                                    forall j :: i < j < |ps| ==> ps[j].name != name
  {
    match LastIndex(ps, name)
    case Some(i) => Some(ps[i].ok)
    case None => None
  }

  /** `_hard_ok(awp)`: consent, apophatic and externalities all ok; a missing
    * proof counts as failed. */
  predicate HardOk(a: AdviceWithProof) {
    Verdict(a.proofs, "consent") == Some(true) &&
    Verdict(a.proofs, "apophatic") == Some(true) &&
    Verdict(a.proofs, "externalities") == Some(true)
  }

  /** On a list with the five gate names in order, the hard gates are the
    * first three verdicts. */
  lemma HardOkOnGateList(a: AdviceWithProof)
    requires |a.proofs| == |ProofCarryingAdvice.ProofOrder|
    requires forall i :: 0 <= i < |a.proofs| ==> a.proofs[i].name == ProofCarryingAdvice.ProofOrder[i]
    ensures HardOk(a) <==> a.proofs[0].ok && a.proofs[1].ok && a.proofs[2].ok
  {
    var ps := a.proofs;
    var order := ProofCarryingAdvice.ProofOrder;
    assert LastIndex(ps, "consent") == Some(0) by {
      assert ps[0].name == order[0];
    }
    assert LastIndex(ps, "apophatic") == Some(1) by {
      assert ps[1].name == order[1];
    }
    assert LastIndex(ps, "externalities") == Some(2) by {
      assert ps[2].name == order[2];
    }
  }

  datatype Side = Primary | Counter

  /** The selection policy of `contemplate`. */
  function Select(primaryOk: bool, counterOk: bool, primaryRisk: real, counterRisk: real): (r: Side)
    ensures primaryOk && !counterOk ==> r == Primary
    ensures counterOk && !primaryOk ==> r == Counter
    ensures primaryOk == counterOk ==> (r == Primary <==> primaryRisk <= counterRisk)
  {
    if primaryOk && !counterOk then Primary
    else if counterOk && !primaryOk then Counter
    else if primaryRisk <= counterRisk then Primary
    else Counter
  }

  /** Whenever some side passes the hard gates the selected one does, and
    * among sides that pass alike the selected risk is the smaller. */
  lemma SelectPrefersGatesThenRisk(primaryOk: bool, counterOk: bool, primaryRisk: real, counterRisk: real)
    ensures var s := Select(primaryOk, counterOk, primaryRisk, counterRisk);
      && ((primaryOk || counterOk) ==> (if s == Primary then primaryOk else counterOk))
      && (primaryOk == counterOk ==>
            (if s == Primary then primaryRisk else counterRisk) == Min(primaryRisk, counterRisk))
  {
  }

  datatype TwinResult = TwinResult(primary: AdviceWithProof, counter: AdviceWithProof, selection: Side, rationale: Dict)

  function SideName(s: Side): string {
    match s
    case Primary => "primary"
    case Counter => "counter"
  }

  /** Changing a key that is neither forbidden nor constraint-only does not
    * change the top-level apophatic check. */
  lemma {:induction false} ApophaticIgnoresOtherKeys(params: Dict, k: string, v: Value)
    requires k !in ProofCarryingAdvice.ForbidKeys && k !in ProofCarryingAdvice.ConstraintOnlyKeys
    ensures ProofCarryingAdvice.ApophaticOk(Put(params, k, v)).0 == ProofCarryingAdvice.ApophaticOk(params).0
  {
    forall f ensures Get(Put(params, k, v), f) == if f == k then Some(v) else Get(params, f) {
      PutGet(params, k, v, f);
    }
  }

  /** Inverting the will never changes the apophatic verdict. */
  lemma InvertedParamsKeepApophatic(params: Dict, tag: string)
    ensures ProofCarryingAdvice.ApophaticOk(InvertedParams(params, tag)).0 == ProofCarryingAdvice.ApophaticOk(params).0
  {
    if tag in WillInvert {
      ApophaticIgnoresOtherKeys(params, "will", VStr(WillInvert[tag]));
    }
  }

  /** The counter draft has the primary's context and, up to the will, its
    * params: so the counter's consent proof is the primary's and its
    * apophatic verdict is the primary's. */
  lemma CounterKeepsSharedGates(draft: AdviceDraft, cdraft: AdviceDraft, blake: Value -> string)
    requires cdraft.context == draft.context
    requires WillTag(draft.params).Ok? && cdraft.params == InvertedParams(draft.params, WillTag(draft.params).value)
    ensures ProofCarryingAdvice.ConsentProof(blake, cdraft.context) == ProofCarryingAdvice.ConsentProof(blake, draft.context)
    ensures ProofCarryingAdvice.ApophaticProof(blake, cdraft.params).ok == ProofCarryingAdvice.ApophaticProof(blake, draft.params).ok
  {
    InvertedParamsKeepApophatic(draft.params, WillTag(draft.params).value);
  }

  /** The twin result: both advices, the selection and its rationale. */
  function Twin(primary: AdviceWithProof, counter: AdviceWithProof): (t: TwinResult)
    ensures t.primary == primary && t.counter == counter
    ensures t.selection == Select(HardOk(primary), HardOk(counter), primary.risk, counter.risk)
    ensures Get(t.rationale, "hard_ok") == Some(VDict([("primary", VBool(HardOk(primary))), ("counter", VBool(HardOk(counter)))]))
    ensures Get(t.rationale, "risk") == Some(VDict([("primary", VReal(primary.risk)), ("counter", VReal(counter.risk))]))
  {
    var primOk := HardOk(primary);
    var cntOk := HardOk(counter);
    var rationale := [
      ("hard_ok", VDict([("primary", VBool(primOk)), ("counter", VBool(cntOk))])),
      ("risk", VDict([("primary", VReal(primary.risk)), ("counter", VReal(counter.risk))])),
      ("note", VStr("selected lower-risk among gates-passing candidates"))];
    TwinResult(primary, counter, Select(primOk, cntOk, primary.risk, counter.risk), rationale)
  }

  /** `ShadowTwin.contemplate(draft, answer)`: builds the primary advice,
    * inverts the draft, builds the counter advice, and selects. The
    * collaborators see the same ledger state for both drafts, so the counter
    * can only fail where the primary already has. The second result is the
    * caller's plan afterwards. */
  method Contemplate(draft: AdviceDraft, answer: string, coverageThreshold: real,
                     blake: Value -> string, assess: Dict -> ProofCarryingAdvice.Assessment,
                     harmIndex: ProofCarryingAdvice.HarmIndex, penalties: Dict, rri: real,
                     nowPrimary: real, nowCounter: real)
    returns (r: Result<TwinResult>, callerPlan: Dict)
    ensures ProofCarryingAdvice.ConsentOk(draft.context).Err? ==>
      r == Err(ProofCarryingAdvice.ConsentOk(draft.context).error) && callerPlan == draft.plan
    ensures r.Ok? ==>
      var t := r.value;
      && t.primary.id == draft.id && t.primary.answer == answer
      && t.counter.id == draft.id + ":counter" && t.counter.answer == CounterAnswer(answer)
      && t.selection == Select(HardOk(t.primary), HardOk(t.counter), t.primary.risk, t.counter.risk)
    ensures r.Ok? <==> ProofCarryingAdvice.ConsentOk(draft.context).Ok? && ProofCarryingAdvice.HarmPressure(penalties).Ok? &&
                       CounterDraft(draft).Ok?
    ensures ProofCarryingAdvice.ConsentOk(draft.context).Ok? && ProofCarryingAdvice.HarmPressure(penalties).Err? ==>
      r == Err(ProofCarryingAdvice.HarmPressure(penalties).error) && callerPlan == draft.plan
    ensures (ProofCarryingAdvice.ConsentOk(draft.context).Ok? && ProofCarryingAdvice.HarmPressure(penalties).Ok? &&
             CounterDraft(draft).Err?) ==> r == Err(CounterDraft(draft).error)
    ensures r.Ok? ==>
      var t := r.value;
      && t == Twin(t.primary, t.counter)
      && t.primary.proofs == ProofCarryingAdvice.GateProofList(draft, coverageThreshold, blake, assess, harmIndex, penalties, rri)
      && t.counter.proofs ==
           ProofCarryingAdvice.GateProofList(CounterDraft(draft).value, coverageThreshold, blake, assess, harmIndex, penalties, rri)
    ensures r.Ok? ==>
      var t := r.value;
      && t.primary.decidedAt == nowPrimary && t.counter.decidedAt == nowCounter
      && t.primary.risk == ProofCarryingAdvice.Risk(ProofCarryingAdvice.ExpectedCost(assess(ProofCarryingAdvice.PricerInput(draft)).externals),
                                                    ProofCarryingAdvice.HarmPressure(penalties).value)
      && t.counter.risk ==
           ProofCarryingAdvice.Risk(ProofCarryingAdvice.ExpectedCost(assess(ProofCarryingAdvice.PricerInput(CounterDraft(draft).value)).externals),
                                    ProofCarryingAdvice.HarmPressure(penalties).value)
    ensures r.Ok? ==> callerPlan == CallerPlanAfter(draft.plan)
  {
    callerPlan := draft.plan;
    var primary := ProofCarryingAdvice.Build(draft, answer, coverageThreshold, blake, assess, harmIndex, penalties, rri, nowPrimary);
    if primary.Err? {
      return Err(primary.error), callerPlan;
    }
    var inv := Invert(draft);
    if inv.Err? {
      return Err(inv.error), callerPlan;
    }
    callerPlan := inv.value.callerPlan;
    var cdraft := inv.value.counter;
    var counter := ProofCarryingAdvice.Build(cdraft, CounterAnswer(answer), coverageThreshold, blake, assess, harmIndex, penalties, rri, nowCounter);
    if counter.Err? {
      assert false;
    }
    r := Ok(Twin(primary.value, counter.value));
  }
}
