// Paradox proximity (core/logic/paradox_detector.py): feature extraction
// over a state's context and an action's parameters, three detectors, and
// the detector object that keeps the history of its signatures.
module ParadoxDetector {
  import opened Values
  import Sorting

  /** The pairs a detector reports as contradictory. */
  type Contradictions = seq<(Value, Value)>

  /** `ParadoxSignature` */
  datatype Signature = Signature(kind: string, proximity: real, confidence: real,
                                 properties: Dict, contradictions: Contradictions)

  const NoSignature := Signature("none", 0.0, 0.0, [], [])

  /** `ParadoxSignature.to_dict()` */
  function ToDict(s: Signature): Dict {
    [("type", VStr(s.kind)), ("proximity", VReal(s.proximity)), ("confidence", VReal(s.confidence)),
     ("properties", VDict(s.properties)),
     ("contradictions", VList(seq(|s.contradictions|, i requires 0 <= i < |s.contradictions| =>
        VList([s.contradictions[i].0, s.contradictions[i].1]))))]
  }

  /** The twelve feature scores of `_extract_features`. */
  datatype Features = Features(
    selfReference: real, negation: real, circularity: real,
    ethicalTension: real, harmMinimization: real, principleConflict: real,
    identityConfusion: real, vagueBoundary: real, modalCollapse: real,
    temporalLoop: real, epistemicLimitation: real, quantumSuperposition: real)

  const NoFeatures := Features(0.0, 0.0, 0.0, 0.0, 0.0, 0.0, 0.0, 0.0, 0.0, 0.0, 0.0, 0.0)

  const FeatureNames: seq<string> := [
    "self_reference", "negation", "circularity", "ethical_tension", "harm_minimization",
    "principle_conflict", "identity_confusion", "vague_boundary", "modal_collapse",
    "temporal_loop", "epistemic_limitation", "quantum_superposition"]

  function FeatureValues(f: Features): (r: seq<real>)
    ensures |r| == |FeatureNames|
  {
    [f.selfReference, f.negation, f.circularity, f.ethicalTension, f.harmMinimization,
     f.principleConflict, f.identityConfusion, f.vagueBoundary, f.modalCollapse,
     f.temporalLoop, f.epistemicLimitation, f.quantumSuperposition]
  }

  /** `features.get(name)` */
  function Lookup(f: Features, name: string): Option<real> {
    if name == "self_reference" then Some(f.selfReference)
    else if name == "negation" then Some(f.negation)
    else if name == "circularity" then Some(f.circularity)
    else if name == "ethical_tension" then Some(f.ethicalTension)
    else if name == "harm_minimization" then Some(f.harmMinimization)
    else if name == "principle_conflict" then Some(f.principleConflict)
    else if name == "identity_confusion" then Some(f.identityConfusion)
    else if name == "vague_boundary" then Some(f.vagueBoundary)
    else if name == "modal_collapse" then Some(f.modalCollapse)
    else if name == "temporal_loop" then Some(f.temporalLoop)
    else if name == "epistemic_limitation" then Some(f.epistemicLimitation)
    else if name == "quantum_superposition" then Some(f.quantumSuperposition)
    else None
  }

  /** `{k: v for k, v in features.items() if v > 0.5}` */
  function StrongFeatures(names: seq<string>, values: seq<real>): (r: Dict)
    requires |names| == |values|
    ensures |r| <= |names|
    ensures forall i :: 0 <= i < |r| ==> r[i].1.VReal? && r[i].1.r > 0.5
  {
    if names == [] then []
    else (if values[0] > 0.5 then [(names[0], VReal(values[0]))] else []) + StrongFeatures(names[1..], values[1..])
  }

  /** `context.get(k)` is truthy. */
  predicate On(context: Dict, k: string) {
    Truthy(GetOr(context, k, VNone))
  }

  /** There is an action and `action.params.get(k)` is truthy. */
  predicate OnParams(params: Option<Dict>, k: string) {
    params.Some? && Truthy(GetOr(params.value, k, VNone))
  }

  /** The features `_extract_features` sets. The state's context, the
    * action's parameters (None when there is no action) and the state's
    * `conflicting_principles` attribute (VNone when it has none) are the
    * inputs. */
  function FeaturesOf(context: Dict, params: Option<Dict>, conflicting: Value): Features {
    var selfRef := if On(context, "self_referential") || OnParams(params, "self_referential") then 0.8 else 0.0;
    Features(
      selfRef,
      if selfRef > 0.5 && On(context, "negation") then 0.9 else 0.0,
      0.0,
      if On(context, "ethical_dilemma") || On(context, "moral_conflict") then 0.7 else 0.0,
      if On(context, "potential_harms") || OnParams(params, "harm_analysis") then 0.6 else 0.0,
      if Truthy(conflicting) then 0.75 else 0.0,
      0.0,
      if On(context, "vague_concepts") || On(context, "continuous_spectrum") then 0.65 else 0.0,
      0.0,
      0.0,
      if On(context, "unknowable") || On(context, "undecidable") then 0.8 else 0.0,
      0.0)
  }

  /** Each extracted feature is 0 or its one fixed score; negation needs
    * self-reference, and five of the twelve are never set. */
  lemma FeatureLevels(context: Dict, params: Option<Dict>, conflicting: Value)
    ensures var f := FeaturesOf(context, params, conflicting);
      && (f.selfReference == 0.8 <==> On(context, "self_referential") || OnParams(params, "self_referential"))
      && (f.negation == 0.9 <==> f.selfReference == 0.8 && On(context, "negation"))
      && f.selfReference in {0.0, 0.8} && f.negation in {0.0, 0.9}
      && f.circularity == 0.0 && f.identityConfusion == 0.0 && f.modalCollapse == 0.0
      && f.temporalLoop == 0.0 && f.quantumSuperposition == 0.0
      && f.ethicalTension in {0.0, 0.7} && f.harmMinimization in {0.0, 0.6}
      && f.vagueBoundary in {0.0, 0.65} && f.principleConflict in {0.0, 0.75}
      && f.epistemicLimitation in {0.0, 0.8}
  {
  }

  /** `_extract_features(state, action, context)`: every score starts at 0
    * and each test raises its own. */
  method ExtractFeatures(context: Dict, params: Option<Dict>, conflicting: Value) returns (features: Features)
    ensures features == FeaturesOf(context, params, conflicting)
  {
    features := NoFeatures;
    if On(context, "self_referential") || OnParams(params, "self_referential") {
      features := features.(selfReference := 0.8);
    }
    if features.selfReference > 0.5 && On(context, "negation") {
      features := features.(negation := 0.9);
    }
    features := RaiseOthers(features, context, params, conflicting);
  }

  /** The tests of `_extract_features` after the self-reference and negation
    * ones: each raises its own score and leaves the others alone. */
  method RaiseOthers(given: Features, context: Dict, params: Option<Dict>, conflicting: Value) returns (features: Features)
    requires given.ethicalTension == 0.0 && given.harmMinimization == 0.0 && given.vagueBoundary == 0.0
    requires given.principleConflict == 0.0 && given.epistemicLimitation == 0.0
    ensures features == given.(ethicalTension := FeaturesOf(context, params, conflicting).ethicalTension,
                               harmMinimization := FeaturesOf(context, params, conflicting).harmMinimization,
                               vagueBoundary := FeaturesOf(context, params, conflicting).vagueBoundary,
                               principleConflict := FeaturesOf(context, params, conflicting).principleConflict,
                               epistemicLimitation := FeaturesOf(context, params, conflicting).epistemicLimitation)
  {
    features := given;
    if On(context, "ethical_dilemma") || On(context, "moral_conflict") {
      features := features.(ethicalTension := 0.7);
    }
    if On(context, "potential_harms") || OnParams(params, "harm_analysis") {
      features := features.(harmMinimization := 0.6);
    }
    if On(context, "vague_concepts") || On(context, "continuous_spectrum") {
      features := features.(vagueBoundary := 0.65);
    }
    if Truthy(conflicting) {
      features := features.(principleConflict := 0.75);
    }
    if On(context, "unknowable") || On(context, "undecidable") {
      features := features.(epistemicLimitation := 0.8);
    }
  }

  // ---- logical contradictions ----------------------------------------------

  /** The pairs `(k, "not_k")` among the first `n` assertions, in order. */
  function NegatedPairs(assertions: Dict, n: nat): (r: Contradictions)
    requires n <= |assertions|
    ensures |r| <= n
  {
    if n == 0 then []
    else
      var k := assertions[n - 1].0;
      NegatedPairs(assertions, n - 1) + (if Has(assertions, "not_" + k) then [(VStr(k), VStr("not_" + k))] else [])
  }

  /** The assertions dictionary of the context, when there is one. */
  function Assertions(context: Dict): Dict {
    var a := GetOr(context, "assertions", VNone);
    if a.VDict? then a.entries else []
  }

  function LogicalSignature(f: Features, context: Dict): Signature {
    var pairs := NegatedPairs(Assertions(context), |Assertions(context)|);
    var p0 := if pairs != [] then 0.85 else 0.0;
    var liar := f.selfReference > 0.7 && f.negation > 0.7;
    var p1 := if liar then Max(p0, 0.9) else p0;
    var contradictions := pairs + (if liar then [(VStr("self_reference"), VStr("negation"))] else []);
    var p2 := if f.circularity > 0.7 then Max(p1, 0.75) else p1;
    Signature(if p2 > 0.0 then "logical" else "none", p2, if contradictions != [] then 0.8 else 0.5,
              [("features", VDict(StrongFeatures(FeatureNames, FeatureValues(f))))], contradictions)
  }

  /** `_detect_logical_contradictions(features, context)` */
  method DetectLogical(f: Features, context: Dict) returns (s: Signature)
    ensures s == LogicalSignature(f, context)
  {
    var proximity := 0.0;
    var contradictions: Contradictions := [];
    var a := GetOr(context, "assertions", VNone);
    if Has(context, "assertions") && a.VDict? {
      var assertions := a.entries;
      var i := 0;
      while i < |assertions|
        invariant 0 <= i <= |assertions|
        invariant contradictions == NegatedPairs(assertions, i)
        invariant proximity == if contradictions != [] then 0.85 else 0.0
      {
        var key := assertions[i].0;
        var negatedKey := "not_" + key;
        if Has(assertions, negatedKey) {
          contradictions := contradictions + [(VStr(key), VStr(negatedKey))];
          proximity := Max(proximity, 0.85);
        }
        i := i + 1;
      }
    }
    if f.selfReference > 0.7 && f.negation > 0.7 {
      proximity := Max(proximity, 0.9);
      contradictions := contradictions + [(VStr("self_reference"), VStr("negation"))];
    }
    if f.circularity > 0.7 {
      proximity := Max(proximity, 0.75);
    }
    s := Signature(if proximity > 0.0 then "logical" else "none", proximity,
                   if contradictions != [] then 0.8 else 0.5,
                   [("features", VDict(StrongFeatures(FeatureNames, FeatureValues(f))))], contradictions);
  }

  lemma {:induction false} NegatedPairsFindsEveryPair(assertions: Dict, n: nat, i: nat)
    requires i < n <= |assertions| && Has(assertions, "not_" + assertions[i].0)
    ensures (VStr(assertions[i].0), VStr("not_" + assertions[i].0)) in NegatedPairs(assertions, n)
  {
    if i < n - 1 {
      NegatedPairsFindsEveryPair(assertions, n - 1, i);
    }
  }

  /** An assertion `k` whose negation `not_k` is also asserted is recorded as
    * a contradictory pair, and the logical proximity is at least 0.85. */
  lemma AssertedNegationIsAContradiction(f: Features, context: Dict, k: string, v: Value)
    requires (k, v) in Assertions(context) && Has(Assertions(context), "not_" + k)
    ensures (VStr(k), VStr("not_" + k)) in LogicalSignature(f, context).contradictions
    ensures LogicalSignature(f, context).proximity >= 0.85
    ensures LogicalSignature(f, context).kind == "logical"
  {
    var a := Assertions(context);
    var i :| 0 <= i < |a| && a[i] == (k, v);
    NegatedPairsFindsEveryPair(a, |a|, i);
  }

  /** Self-reference with negation (the liar) gives the features 0.8 and 0.9
    * and a logical proximity of 0.9 with the pair (self_reference, negation). */
  lemma LiarPattern(context: Dict, params: Option<Dict>, conflicting: Value)
    requires On(context, "self_referential") && On(context, "negation")
    ensures var f := FeaturesOf(context, params, conflicting);
      && f.selfReference == 0.8 && f.negation == 0.9
      && LogicalSignature(f, context).proximity == 0.9
      && (VStr("self_reference"), VStr("negation")) in LogicalSignature(f, context).contradictions
  {
    var f := FeaturesOf(context, params, conflicting);
    var s := LogicalSignature(f, context);
    var pairs := NegatedPairs(Assertions(context), |Assertions(context)|);
    assert s.contradictions == pairs + [(VStr("self_reference"), VStr("negation"))];
    assert s.contradictions[|pairs|] == (VStr("self_reference"), VStr("negation"));
  }

  /** Circularity is never set, so on extracted features the logical
    * proximity is only ever 0, 0.85 or 0.9. */
  lemma LogicalProximityLevels(context: Dict, params: Option<Dict>, conflicting: Value)
    ensures LogicalSignature(FeaturesOf(context, params, conflicting), context).proximity in {0.0, 0.85, 0.9}
  {
  }

  // ---- ethical dilemmas ----------------------------------------------------

  /** `x in c` */
  function PyIn(x: Value, c: Value): (r: Result<bool>)
    ensures c.VList? ==> r == Ok(exists i :: 0 <= i < |c.items| && PyEq(x, c.items[i]))
    ensures c.VDict? && x.VStr? ==> r == Ok(Has(c.entries, x.s))
  {
    match c
    case VList(items) => Ok(exists i :: 0 <= i < |items| && PyEq(x, items[i]))
    case VDict(entries) =>
      if x.VStr? then Ok(Has(entries, x.s))
      else if x.VList? || x.VDict? then Err(TypeError)
      else Ok(false)
    case VStr(s) => if x.VStr? then Ok(Contains(s, x.s)) else Err(TypeError)
    case _ => Err(TypeError)
  }

  /** `v[k]` with a string key. */
  function Index(v: Value, k: string): (r: Result<Value>)
    ensures v.VDict? && Has(v.entries, k) ==> r == Ok(Get(v.entries, k).value)
    ensures v.VDict? && !Has(v.entries, k) ==> r == Err(KeyError(k))
    ensures !v.VDict? ==> r == Err(TypeError)
  {
    if !v.VDict? then Err(TypeError)
    else match Get(v.entries, k)
      case Some(x) => Ok(x)
      case None => Err(KeyError(k))
  }

  /** The test the double loop makes on principles `i < j`: does the first
    * list the second's name among those it conflicts with? */
  function PairStep(pi: Value, pj: Value): Result<Option<(Value, Value)>> {
    var has :- PyIn(VStr("conflicts_with"), pi);
    if !has then Ok(None)
    else
      var conflicts :- Index(pi, "conflicts_with");
      var nj :- Index(pj, "name");
      var hit :- PyIn(nj, conflicts);
      if !hit then Ok(None)
      else
        var ni :- Index(pi, "name");
        Ok(Some((ni, nj)))
  }

  /** The inner loop over `j` from `j` on, extending `acc`. */
  function RowScan(ps: seq<Value>, i: nat, j: nat, acc: Contradictions): Result<Contradictions>
    requires i < |ps| && i < j <= |ps|
    decreases |ps| - j
  {
    if j == |ps| then Ok(acc)
    else match PairStep(ps[i], ps[j])
      case Err(e) => Err(e)
      case Ok(None) => RowScan(ps, i, j + 1, acc)
      case Ok(Some(p)) => RowScan(ps, i, j + 1, acc + [p])
  }

  /** The outer loop over `i` from `i` on. */
  function PairScan(ps: seq<Value>, i: nat, acc: Contradictions): Result<Contradictions>
    requires i <= |ps|
    decreases |ps| - i
  {
    if i == |ps| then Ok(acc)
    else if i + 1 == |ps| then Ok(acc)
    else match RowScan(ps, i, i + 1, acc)
      case Err(e) => Err(e)
      case Ok(acc') => PairScan(ps, i + 1, acc')
  }

  /** The principles list of the context, when there are at least two. */
  function Principles(context: Dict): seq<Value> {
    var p := GetOr(context, "principles", VNone);
    if p.VList? && |p.items| >= 2 then p.items else []
  }

  /** The pair the harm-against-principle test records. */
  function HarmPairs(f: Features): Contradictions {
    if f.harmMinimization > 0.6 && f.principleConflict > 0.6 then [(VStr("harm_minimization"), VStr("principle_conflict"))] else []
  }

  /** The proximity of the two feature tests, before the principles. */
  function FeatureProximity(f: Features): real {
    var p0 := if f.harmMinimization > 0.6 && f.principleConflict > 0.6 then 0.7 else 0.0;
    if f.ethicalTension > 0.7 then Max(p0, 0.65) else p0
  }

  function EthicalSignature(f: Features, context: Dict): Result<Signature> {
    var c :- PairScan(Principles(context), 0, HarmPairs(f));
    var p := if |c| > |HarmPairs(f)| then Max(FeatureProximity(f), 0.8) else FeatureProximity(f);
    Ok(Signature(if p > 0.0 then "ethical" else "none", p, 0.7, [("ethical_dimensions", VInt(|c|))], c))
  }

  /** `_detect_ethical_dilemmas(features, context)`, whose double loop over
    * the principles can raise on a malformed entry. */
  method DetectEthical(f: Features, context: Dict) returns (r: Result<Signature>)
    ensures r == EthicalSignature(f, context)
  {
    var proximity := 0.0;
    var contradictions: Contradictions := [];
    if f.harmMinimization > 0.6 && f.principleConflict > 0.6 {
      proximity := Max(proximity, 0.7);
      contradictions := contradictions + [(VStr("harm_minimization"), VStr("principle_conflict"))];
    }
    if f.ethicalTension > 0.7 {
      proximity := Max(proximity, 0.65);
    }
    var c0, p1 := contradictions, proximity;
    assert c0 == HarmPairs(f) && p1 == FeatureProximity(f);
    var ps := Principles(context);
    var i := 0;
    while i < |ps|
      invariant 0 <= i <= |ps|
      invariant |contradictions| >= |c0|
      invariant PairScan(ps, 0, c0) == PairScan(ps, i, contradictions)
      invariant proximity == if |contradictions| > |c0| then Max(p1, 0.8) else p1
    {
      if i + 1 < |ps| {
        var row := ScanRow(ps, i, contradictions);
        if row.Err? {
          assert PairScan(ps, i, contradictions) == Err(row.error);
          return Err(row.error);
        }
        if |row.value| > |contradictions| {
          proximity := Max(proximity, 0.8);
        }
        contradictions := row.value;
      }
      i := i + 1;
    }
    r := Ok(Signature(if proximity > 0.0 then "ethical" else "none", proximity, 0.7,
                      [("ethical_dimensions", VInt(|contradictions|))], contradictions));
  }

  /** The inner loop of `_detect_ethical_dilemmas` for principle `i`. */
  method ScanRow(ps: seq<Value>, i: nat, acc: Contradictions) returns (r: Result<Contradictions>)
    requires i + 1 < |ps|
    ensures r == RowScan(ps, i, i + 1, acc)
    ensures r.Ok? ==> |r.value| >= |acc|
  {
    var contradictions := acc;
    for j := i + 1 to |ps|
      invariant |contradictions| >= |acc|
      invariant RowScan(ps, i, i + 1, acc) == RowScan(ps, i, j, contradictions)
    {
      var step := PairStep(ps[i], ps[j]);
      if step.Err? {
        return Err(step.error);
      }
      if step.value.Some? {
        contradictions := contradictions + [step.value.value];
      }
    }
    r := Ok(contradictions);
  }

  lemma {:induction false} RowScanKeeps(ps: seq<Value>, i: nat, j: nat, acc: Contradictions, j': nat)
    requires i < |ps| && i < j <= j' < |ps|
    requires RowScan(ps, i, j, acc).Ok?
    ensures acc <= RowScan(ps, i, j, acc).value
    ensures PairStep(ps[i], ps[j']).Ok? && PairStep(ps[i], ps[j']).value.Some? ==>
      PairStep(ps[i], ps[j']).value.value in RowScan(ps, i, j, acc).value
    decreases |ps| - j
  {
    var next := if PairStep(ps[i], ps[j]).value.Some? then acc + [PairStep(ps[i], ps[j]).value.value] else acc;
    if j + 1 < |ps| {
      if j < j' {
        RowScanKeeps(ps, i, j + 1, next, j');
      } else {
        RowScanKeeps(ps, i, j + 1, next, j + 1);
      }
    } else {
      assert RowScan(ps, i, j, acc) == Ok(next);
    }
    if PairStep(ps[i], ps[j']).Ok? && PairStep(ps[i], ps[j']).value.Some? && j == j' {
      assert next[|acc|] == PairStep(ps[i], ps[j']).value.value;
    }
  }

  lemma {:induction false} PairScanKeeps(ps: seq<Value>, i: nat, acc: Contradictions, i': nat, j': nat)
    requires i <= i' < j' < |ps|
    requires PairScan(ps, i, acc).Ok?
    ensures acc <= PairScan(ps, i, acc).value
    ensures PairStep(ps[i'], ps[j']).Ok? && PairStep(ps[i'], ps[j']).value.Some? ==>
      PairStep(ps[i'], ps[j']).value.value in PairScan(ps, i, acc).value
    decreases |ps| - i
  {
    RowScanKeeps(ps, i, i + 1, acc, if i == i' then j' else i + 1);
    var row := RowScan(ps, i, i + 1, acc).value;
    if i + 2 < |ps| {
      PairScanKeeps(ps, i + 1, row, if i < i' then i' else i + 1, if i < i' then j' else i + 2);
    }
  }

  /** Principles `i < j` where the first lists the second's name in its
    * `conflicts_with` are reported, and then the ethical proximity is 0.8. */
  lemma ConflictingPrinciplesAreReported(f: Features, context: Dict, i: nat, j: nat)
    requires i < j < |Principles(context)|
    requires PairStep(Principles(context)[i], Principles(context)[j]).Ok?
    requires PairStep(Principles(context)[i], Principles(context)[j]).value.Some?
    requires EthicalSignature(f, context).Ok?
    requires f.harmMinimization <= 0.6 && f.ethicalTension <= 0.7
    ensures PairStep(Principles(context)[i], Principles(context)[j]).value.value in EthicalSignature(f, context).value.contradictions
    ensures EthicalSignature(f, context).value.proximity == 0.8
  {
    PairScanKeeps(Principles(context), 0, [], i, j);
  }

  /** On extracted features the harm test (0.6 is not above 0.6) and the
    * tension test (0.7 is not above 0.7) never fire: the ethical
    * proximity comes from the principles alone. */
  lemma EthicalOnlyFromPrinciples(context: Dict, params: Option<Dict>, conflicting: Value)
    ensures var f := FeaturesOf(context, params, conflicting);
      var s := EthicalSignature(f, context);
      s.Ok? ==> s.value.proximity == (if s.value.contradictions != [] then 0.8 else 0.0)
  {
  }

  // ---- known patterns ------------------------------------------------------

  /** A known paradox pattern; `elements` is its pattern string split on
    * " AND ". */
  datatype Pattern = Pattern(name: string, kind: string, pattern: string, elements: seq<string>, example: string)

  const Patterns: seq<Pattern> := [
    Pattern("liar_paradox", "logical", "self_reference AND negation", ["self_reference", "negation"],
            "This statement is false."),
    Pattern("sorites_paradox", "ontological", "vague_boundary AND incremental_change", ["vague_boundary", "incremental_change"],
            "When does a heap become not a heap by removing grains?"),
    Pattern("trolley_problem", "ethical", "harm_minimization AND intentionality", ["harm_minimization", "intentionality"],
            "Should you divert a trolley to kill one instead of five?"),
    Pattern("newcombs_problem", "epistemic", "prediction AND free_choice", ["prediction", "free_choice"],
            "Decision theory paradox with perfect predictor")]

  /** What one element adds: its feature when it is a feature above 0.5. */
  function ElementScore(f: Features, element: string): (r: real)
    ensures r == 0.0 || r > 0.5
  {
    var e := Lower(element);
    if Lookup(f, e).Some? && Lookup(f, e).value > 0.5 then Lookup(f, e).value else 0.0
  }

  function ElementSum(f: Features, els: seq<string>): real {
    if els == [] then 0.0 else ElementSum(f, els[..|els| - 1]) + ElementScore(f, els[|els| - 1])
  }

  /** A pattern's match score: the mean over its elements of the features
    * above 0.5 (missing or weak features count 0). */
  function PatternScore(f: Features, p: Pattern): real {
    if p.elements != [] then ElementSum(f, p.elements) / (|p.elements| as real) else ElementSum(f, p.elements)
  }

  /** The best pattern among the first `n` and its score: a later pattern
    * replaces it only with a strictly greater score, starting from 0. */
  function BestPattern(f: Features, n: nat): (r: (Option<nat>, real))
    requires n <= |Patterns|
    ensures r.0.Some? ==> r.0.value < n && r.1 == PatternScore(f, Patterns[r.0.value]) && r.1 > 0.0
    ensures r.0.None? ==> r.1 == 0.0
    ensures forall k :: 0 <= k < n ==> PatternScore(f, Patterns[k]) <= r.1
  {
    if n == 0 then (None, 0.0)
    else
      var b := BestPattern(f, n - 1);
      var s := PatternScore(f, Patterns[n - 1]);
      if s > b.1 then (Some(n - 1), s) else b
  }

  function PatternSignature(f: Features): Signature {
    var b := BestPattern(f, |Patterns|);
    if b.0.Some? && b.1 > 0.4 then
      var p := Patterns[b.0.value];
      Signature(p.kind, b.1, b.1, [("pattern", VStr(p.name))], [(VStr(p.pattern), VStr(""))])
    else NoSignature
  }

  /** The score loop of `_detect_pattern_match` for one pattern. */
  method MatchScore(f: Features, p: Pattern) returns (score: real)
    ensures score == PatternScore(f, p)
  {
    var elements := p.elements;
    score := 0.0;
    for e := 0 to |elements|
      invariant score == ElementSum(f, elements[..e])
    {
      var element := Lower(elements[e]);
      if Lookup(f, element).Some? && Lookup(f, element).value > 0.5 {
        score := score + Lookup(f, element).value;
      }
      assert elements[..e + 1][..e] == elements[..e];
    }
    assert elements[..|elements|] == elements;
    if elements != [] {
      score := score / (|elements| as real);
    }
  }

  /** `_detect_pattern_match(features, context)` */
  method DetectPattern(f: Features) returns (s: Signature)
    ensures s == PatternSignature(f)
  {
    var best: Option<nat> := None;
    var maxScore := 0.0;
    for k := 0 to |Patterns|
      invariant (best, maxScore) == BestPattern(f, k)
    {
      var matchScore := MatchScore(f, Patterns[k]);
      if matchScore > maxScore {
        maxScore := matchScore;
        best := Some(k);
      }
    }
    if best.Some? && maxScore > 0.4 {
      var p := Patterns[best.value];
      return Signature(p.kind, maxScore, maxScore, [("pattern", VStr(p.name))], [(VStr(p.pattern), VStr(""))]);
    }
    s := NoSignature;
  }

  /** A pattern is reported exactly when the best score exceeds 0.4, with
    * that score as proximity and confidence, and no pattern scores more. */
  lemma PatternReportedAboveThreshold(f: Features)
    ensures var s := PatternSignature(f);
      && (s.proximity > 0.0 <==> exists k :: 0 <= k < |Patterns| && PatternScore(f, Patterns[k]) > 0.4)
      && (s.proximity > 0.0 ==> s.confidence == s.proximity && forall k :: 0 <= k < |Patterns| ==> PatternScore(f, Patterns[k]) <= s.proximity)
  {
    var b := BestPattern(f, |Patterns|);
    if b.1 > 0.4 {
      assert PatternScore(f, Patterns[b.0.value]) > 0.4;
    }
  }

  // ---- the detector --------------------------------------------------------

  /** The ranking key of `detect`. */
  function Rank(s: Signature): real {
    s.proximity * s.confidence
  }

  /** The first of the three signatures after a stable sort by descending
    * proximity·confidence, when its proximity is positive. */
  function Strongest(logical: Signature, ethical: Signature, pattern: Signature): Signature {
    var results := Sorting.SortDesc([logical, ethical, pattern], Rank);
    if results[0].proximity > 0.0 then results[0] else NoSignature
  }

  /** What `detect` returns. */
  function DetectSignature(context: Dict, params: Option<Dict>, conflicting: Value): Result<Signature> {
    var f := FeaturesOf(context, params, conflicting);
    var ethical :- EthicalSignature(f, context);
    Ok(Strongest(LogicalSignature(f, context), ethical, PatternSignature(f)))
  }

  /** `detect` returns the signature with the largest proximity·confidence,
    * the earlier of the logical, ethical and pattern ones on a tie, when its
    * proximity is positive, and otherwise the empty signature. */
  lemma StrongestHasLargestRank(l: Signature, e: Signature, p: Signature)
    ensures var top := if Rank(l) >= Rank(e) && Rank(l) >= Rank(p) then l else if Rank(e) >= Rank(p) then e else p;
      Strongest(l, e, p) == if top.proximity > 0.0 then top else NoSignature
  {
    Sorting.SortDescFirstOfThree(l, e, p, Rank);
  }

  /** `ParadoxDetector`: the fixed patterns and the history of every
    * signature `detect` has returned. */
  class Detector {
    var history: seq<Signature>

    constructor()
      ensures history == []
    {
      history := [];
    }

    /** `detect(state, action)`: appends exactly one signature to the
      * history, unless a detector raises. */
    method Detect(context: Dict, params: Option<Dict>, conflicting: Value) returns (r: Result<Signature>)
      modifies this
      ensures r == DetectSignature(context, params, conflicting)
      ensures r.Ok? ==> history == old(history) + [r.value]
      ensures r.Err? ==> history == old(history)
    {
      var features := ExtractFeatures(context, params, conflicting);
      var logical := DetectLogical(features, context);
      var ethical := DetectEthical(features, context);
      if ethical.Err? {
        return Err(ethical.error);
      }
      var pattern := DetectPattern(features);
      var signature := Strongest(logical, ethical.value, pattern);
      history := history + [signature];
      r := Ok(signature);
    }

    /** `is_near_paradox(state, action)`: proximity at least 0.6. */
    method IsNearParadox(context: Dict, params: Option<Dict>, conflicting: Value) returns (r: Result<bool>)
      modifies this
      ensures DetectSignature(context, params, conflicting).Ok? <==> r.Ok?
      ensures r.Ok? ==> (r.value <==> DetectSignature(context, params, conflicting).value.proximity >= 0.6)
      ensures r.Ok? ==> history == old(history) + [DetectSignature(context, params, conflicting).value]
    {
      var s := Detect(context, params, conflicting);
      if s.Err? {
        return Err(s.error);
      }
      r := Ok(s.value.proximity >= 0.6);
    }

    /** `is_in_apophatic_margin(state, action)`: proximity at least 0.8. */
    method IsInApophaticMargin(context: Dict, params: Option<Dict>, conflicting: Value) returns (r: Result<bool>)
      modifies this
      ensures DetectSignature(context, params, conflicting).Ok? <==> r.Ok?
      ensures r.Ok? ==> (r.value <==> DetectSignature(context, params, conflicting).value.proximity >= 0.8)
      ensures r.Ok? ==> history == old(history) + [DetectSignature(context, params, conflicting).value]
    {
      var s := Detect(context, params, conflicting);
      if s.Err? {
        return Err(s.error);
      }
      r := Ok(s.value.proximity >= 0.8);
    }
  }

  /** The report of `detect_paradox_proximity`. */
  function Report(s: Signature): Dict {
    [("paradox_nearby", VBool(s.proximity >= 0.6)), ("apophatic_margin", VBool(s.proximity >= 0.8)),
     ("proximity", VReal(s.proximity)), ("confidence", VReal(s.confidence)),
     ("type", VStr(s.kind)), ("details", VDict(ToDict(s)))]
  }

  lemma ReportFlags(s: Signature)
    ensures Get(Report(s), "paradox_nearby") == Some(VBool(s.proximity >= 0.6))
    ensures Get(Report(s), "apophatic_margin") == Some(VBool(s.proximity >= 0.8))
    ensures Get(Report(s), "proximity") == Some(VReal(s.proximity))
  {
    var d := Report(s);
    assert Get(d, "proximity") == Get(d[1..], "proximity") == Get(d[2..], "proximity");
  }

  /** `detect_paradox_proximity(state, action)` on the shared detector:
    * the two flags are the same thresholds as the detector's own tests. */
  method DetectParadoxProximity(detector: Detector, context: Dict, params: Option<Dict>, conflicting: Value)
    returns (r: Result<Dict>)
    modifies detector
    ensures DetectSignature(context, params, conflicting).Ok? <==> r.Ok?
    ensures r.Ok? ==> var s := DetectSignature(context, params, conflicting).value;
      && Get(r.value, "paradox_nearby") == Some(VBool(s.proximity >= 0.6))
      && Get(r.value, "apophatic_margin") == Some(VBool(s.proximity >= 0.8))
      && Get(r.value, "proximity") == Some(VReal(s.proximity))
    ensures r.Ok? ==> detector.history == old(detector.history) + [DetectSignature(context, params, conflicting).value]
  {
    var s := detector.Detect(context, params, conflicting);
    if s.Err? {
      return Err(s.error);
    }
    ReportFlags(s.value);
    r := Ok(Report(s.value));
  }
}
