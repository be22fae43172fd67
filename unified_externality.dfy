// The unified externality assessment (core/ethics/unified_externality.py):
// externalities are collected from the action's params and the context,
// registered in a shared pricer, valued, and combined with a coverage
// estimate and an RRI alignment score. The RRI targets the vows file
// supplies are a constructor argument.
module UnifiedExternality {
  import opened Values
  import opened ExternalityPricing

  /** The `rri_targets` entries the assessment reads. */
  datatype RriTargets = RriTargets(coverageThreshold: real, minPositiveRatio: real,
                                   techWeight: real, socialWeight: real, ecoWeight: real)

  /** The targets used when the vows file cannot be read. */
  const FallbackTargets := RriTargets(0.8, 0.25, 0.6, 0.5, 0.7)

  // ---- the assessment record ----------------------------------------------

  /** `ExternalityAssessment` */
  datatype Assessment = Assessment(totalScore: real, coverage: real,
                                   positives: seq<Externality>, negatives: seq<Externality>,
                                   positiveValue: real, negativeValue: real, netValue: real,
                                   rriAlignment: real)

  /** The dataclass constructor and `__post_init__`: absent lists become
    * empty and the net value is recomputed from the two values. */
  function PostInit(totalScore: real, coverage: real, positives: Option<seq<Externality>>,
                    negatives: Option<seq<Externality>>, positiveValue: real, negativeValue: real,
                    rriAlignment: real): (a: Assessment)
    ensures a.netValue == positiveValue - negativeValue
    ensures a.positives == (if positives.Some? then positives.value else [])
    ensures a.negatives == (if negatives.Some? then negatives.value else [])
  {
    Assessment(totalScore, coverage, if positives.Some? then positives.value else [],
               if negatives.Some? then negatives.value else [], positiveValue, negativeValue,
               positiveValue - negativeValue, rriAlignment)
  }

  /** `to_dict()` */
  function ToDict(a: Assessment): Dict {
    [("total_score", VReal(a.totalScore)), ("coverage", VReal(a.coverage)),
     ("positive_count", VInt(|a.positives|)), ("negative_count", VInt(|a.negatives|)),
     ("positive_value", VReal(a.positiveValue)), ("negative_value", VReal(a.negativeValue)),
     ("net_value", VReal(a.netValue)), ("rri_alignment", VReal(a.rriAlignment))]
  }

  /** `to_dict()` never has a "tech_ethics_assessed" key, so the technical
    * ethics bonus of the RRI alignment never applies. */
  lemma TechBonusNeverApplies(a: Assessment)
    ensures !Has(ToDict(a), "tech_ethics_assessed")
  {
    var d := ToDict(a);
    assert Get(d, "tech_ethics_assessed") == Get(d[1..], "tech_ethics_assessed") == Get(d[2..], "tech_ethics_assessed");
    assert d[2..][1..] == d[3..] && d[3..][1..] == d[4..] && d[4..][1..] == d[5..];
    assert d[5..][1..] == d[6..] && d[6..][1..] == d[7..] && d[7..][1..] == [];
    assert Get(d[2..], "tech_ethics_assessed") == Get(d[3..], "tech_ethics_assessed") == Get(d[4..], "tech_ethics_assessed");
    assert Get(d[4..], "tech_ethics_assessed") == Get(d[5..], "tech_ethics_assessed") == Get(d[6..], "tech_ethics_assessed");
    assert Get(d[6..], "tech_ethics_assessed") == Get(d[7..], "tech_ethics_assessed") == None;
  }

  // ---- collecting externalities -------------------------------------------

  /** An optional integer field: absent or None, or a value `int` validation
    * accepts without parsing text: an int, a bool, or a float with no
    * fractional part. */
  function OptionalInt(d: Dict, k: string): (r: Option<Option<int>>)
    ensures !Has(d, k) ==> r == Some(None)
    ensures Get(d, k) == Some(VNone) ==> r == Some(None)
    ensures r.Some? && r.value.Some? ==> NumOf(Get(d, k).value) == Some(r.value.value as real)
    ensures Has(d, k) && Get(d, k).value.VReal? ==> (r.Some? <==> Get(d, k).value.r.Floor as real == Get(d, k).value.r)
  {
    match GetOr(d, k, VNone)
    case VNone => Some(None)
    case VInt(i) => Some(Some(i))
    case VBool(b) => Some(Some(if b then 1 else 0))
    case VReal(x) => if x.Floor as real == x then Some(Some(x.Floor)) else None
    case _ => None
  }

  /** An optional string field. */
  function OptionalStr(d: Dict, k: string): Option<Option<string>> {
    match GetOr(d, k, VNone)
    case VNone => Some(None)
    case VStr(s) => Some(Some(s))
    case _ => None
  }

  /** `Externality(**d)`: None when validation fails. String fields must be
    * strings, the magnitude a number (a bool counts as 0 or 1), the counts
    * integral numbers or absent. */
  function ParseExternality(d: Dict): (r: Option<Externality>)
    ensures r.Some? ==> Get(d, "id") == Some(VStr(r.value.id)) && Get(d, "type") == Some(VStr(r.value.kind))
    ensures r.Some? ==> Has(d, "magnitude") && NumOf(Get(d, "magnitude").value) == Some(r.value.magnitude)
    ensures r.Some? ==> OptionalInt(d, "beneficiaries") == Some(r.value.beneficiaries) &&
                        OptionalInt(d, "harmed_parties") == Some(r.value.harmedParties)
    ensures (Get(d, "id").Some? && Get(d, "id").value.VStr? && Get(d, "description").Some? && Get(d, "description").value.VStr? &&
             Get(d, "type").Some? && Get(d, "type").value.VStr? && Get(d, "magnitude").Some? &&
             NumOf(Get(d, "magnitude").value).Some? && OptionalInt(d, "beneficiaries").Some? &&
             OptionalInt(d, "harmed_parties").Some? && OptionalStr(d, "notes").Some?) ==> r.Some?
  {
    match (Get(d, "id"), Get(d, "description"), Get(d, "type"), Get(d, "magnitude"))
    case (Some(VStr(id)), Some(VStr(desc)), Some(VStr(kind)), Some(m)) =>
      if NumOf(m).Some? && OptionalInt(d, "beneficiaries").Some? && OptionalInt(d, "harmed_parties").Some? &&
         OptionalStr(d, "notes").Some?
      then Some(Externality(id, desc, kind, NumOf(m).value, OptionalInt(d, "beneficiaries").value,
                            OptionalInt(d, "harmed_parties").value, OptionalStr(d, "notes").value))
      else None
    case _ => None
  }

  /** The list stored under `k` when it is a list, else nothing to scan. */
  function ListAt(d: Dict, k: string): seq<Value> {
    match Get(d, k)
    case Some(VList(items)) => items
    case _ => []
  }

  /** A dictionary whose "type" equals `kind`. */
  predicate OfKind(v: Value, kind: string) {
    v.VDict? && Get(v.entries, "type") == Some(VStr(kind))
  }

  function OptSeq(o: Option<Externality>): seq<Externality> {
    if o.Some? then [o.value] else []
  }

  /** The params list, scanned in order: every valid entry of the kind is
    * kept, duplicates included. */
  function FromParams(items: seq<Value>, kind: string): seq<Externality> {
    if items == [] then []
    else
      var v := items[|items| - 1];
      FromParams(items[..|items| - 1], kind) + (if OfKind(v, kind) then OptSeq(ParseExternality(v.entries)) else [])
  }

  /** `any(e.id == ext_data.get("id") for e in acc)` */
  predicate Listed(acc: seq<Externality>, v: Value)
    requires v.VDict?
  {
    exists i :: 0 <= i < |acc| && Get(v.entries, "id") == Some(VStr(acc[i].id))
  }

  /** The context list, scanned after the params list: an entry whose id is
    * already collected is skipped. */
  function FromContext(items: seq<Value>, kind: string, base: seq<Externality>): seq<Externality> {
    if items == [] then base
    else
      var acc := FromContext(items[..|items| - 1], kind, base);
      var v := items[|items| - 1];
      if OfKind(v, kind) && !Listed(acc, v) then acc + OptSeq(ParseExternality(v.entries)) else acc
  }

  /** `_extract_externalities(context, action_params, kind)` */
  function Extracted(context: Dict, params: Dict, kind: string): seq<Externality> {
    FromContext(ListAt(context, "identified_externalities"), kind, FromParams(ListAt(params, "externalities"), kind))
  }

  /** Every collected externality has the requested kind. */
  lemma {:induction false} FromParamsKind(items: seq<Value>, kind: string)
    ensures forall i :: 0 <= i < |FromParams(items, kind)| ==> FromParams(items, kind)[i].kind == kind
  {
    if items != [] {
      FromParamsKind(items[..|items| - 1], kind);
    }
  }

  /** The params list is not deduplicated: the same entry twice is
    * collected twice. */
  lemma ParamsNotDeduplicated(v: Value, kind: string, e: Externality)
    requires OfKind(v, kind) && ParseExternality(v.entries) == Some(e)
    ensures FromParams([v, v], kind) == [e, e]
  {
    assert [v, v][..1] == [v];
    assert [v][..0] == [];
    assert FromParams([v], kind) == [e];
  }

  /** The context scan extends the params list, and no externality it adds
    * shares an id with one collected before it. */
  lemma {:induction false} ContextSkipsCollectedIds(items: seq<Value>, kind: string, base: seq<Externality>)
    ensures base <= FromContext(items, kind, base)
    ensures var r := FromContext(items, kind, base);
      forall j :: |base| <= j < |r| ==> forall i :: 0 <= i < j ==> r[i].id != r[j].id
  {
    if items != [] {
      ContextSkipsCollectedIds(items[..|items| - 1], kind, base);
      var acc := FromContext(items[..|items| - 1], kind, base);
      var v := items[|items| - 1];
      if OfKind(v, kind) && !Listed(acc, v) && ParseExternality(v.entries).Some? {
        var e := ParseExternality(v.entries).value;
        assert FromContext(items, kind, base) == acc + [e];
        assert forall i :: 0 <= i < |acc| ==> acc[i].id != e.id;
      }
    }
  }

  // ---- registration ---------------------------------------------------------

  /** The registry after registering each collected externality whose id is
    * not yet present, in order. */
  function RegisterAll(registry: map<string, Externality>, exts: seq<Externality>): map<string, Externality> {
    if exts == [] then registry
    else
      var r := RegisterAll(registry, exts[..|exts| - 1]);
      var e := exts[|exts| - 1];
      if e.id in r then r else r[e.id := e]
  }

  /** Earlier records are never replaced, every collected id ends up
    * registered, and nothing else is added. */
  lemma {:induction false} RegisterAllFacts(registry: map<string, Externality>, exts: seq<Externality>)
    ensures forall k :: k in registry ==> k in RegisterAll(registry, exts) && RegisterAll(registry, exts)[k] == registry[k]
    ensures forall i :: 0 <= i < |exts| ==> exts[i].id in RegisterAll(registry, exts)
    ensures forall k :: k in RegisterAll(registry, exts) ==> k in registry || exists i :: 0 <= i < |exts| && exts[i].id == k
  {
    if exts != [] {
      var p := exts[..|exts| - 1];
      RegisterAllFacts(registry, p);
      assert forall i :: 0 <= i < |p| ==> exts[i] == p[i];
    }
  }

  /** For a new id, the registered record is the first collected one with
    * that id, so later duplicates are valued by it. */
  lemma {:induction false} RegisterAllKeepsFirst(registry: map<string, Externality>, exts: seq<Externality>, i: nat)
    requires i < |exts| && exts[i].id !in registry
    requires forall j :: 0 <= j < i ==> exts[j].id != exts[i].id
    ensures exts[i].id in RegisterAll(registry, exts) && RegisterAll(registry, exts)[exts[i].id] == exts[i]
  {
    var p := exts[..|exts| - 1];
    if i == |exts| - 1 {
      RegisterAllFacts(registry, p);
      assert forall j :: 0 <= j < |p| ==> p[j] == exts[j];
      assert exts[i].id !in RegisterAll(registry, p);
    } else {
      assert p[i] == exts[i];
      assert forall j :: 0 <= j < i ==> p[j] == exts[j];
      RegisterAllKeepsFirst(registry, p, i);
    }
  }

  // ---- valuation and coverage -----------------------------------------------

  function Abs(x: real): real { if x < 0.0 then -x else x }

  /** `sum(value_score(e.id) for e in exts)`, with `abs` for the negative
    * side; an unregistered id raises KeyError. */
  function SumScores(registry: map<string, Externality>, exts: seq<Externality>, absolute: bool): (r: Result<real>)
    ensures (forall i :: 0 <= i < |exts| ==> exts[i].id in registry) ==> r.Ok?
    ensures r.Ok? && absolute ==> r.value >= 0.0
  {
    if exts == [] then Ok(0.0)
    else
      var s :- SumScores(registry, exts[..|exts| - 1], absolute);
      var v :- ScoreOf(registry, exts[|exts| - 1].id);
      Ok(s + (if absolute then Abs(v) else v))
  }

  /** The externalities every assessment should cover:
    * `_estimate_externality_coverage`'s starting point from the declared
    * complexity. Booleans count as ints, as `isinstance` sees them. */
  function ComplexityBase(params: Dict): (r: int)
    ensures r >= 2
  {
    if Has(params, "complexity") then
      match GetOr(params, "complexity", VInt(1))
      case VInt(c) => Max(2.0, (c + 1) as real).Floor
      case VBool(b) => 2
      case VReal(x) => Max(2.0, (Trunc(x) + 1) as real).Floor
      case _ => 2
    else 2
  }

  /** The context markers and their weights, in the code's order. */
  const Markers: seq<(string, int)> := [("multi_agent", 1), ("public_facing", 2), ("safety_critical", 2),
                                        ("potentially_harmful", 1)]

  /** The weights of the truthy markers among `ms`. */
  function MarkerSum(context: Dict, ms: seq<(string, int)>): int {
    if ms == [] then 0
    else MarkerSum(context, ms[..|ms| - 1]) +
         (if Has(context, ms[|ms| - 1].0) && Truthy(GetOr(context, ms[|ms| - 1].0, VNone)) then ms[|ms| - 1].1 else 0)
  }

  function ExpectedCount(context: Dict, params: Dict): int {
    ComplexityBase(params) + MarkerSum(context, Markers)
  }

  lemma {:induction false} MarkerSumBounds(context: Dict, ms: seq<(string, int)>)
    requires forall i :: 0 <= i < |ms| ==> ms[i].1 >= 0
    ensures 0 <= MarkerSum(context, ms)
    ensures MarkerSum(context, ms) <= SumWeights(ms)
  {
    if ms != [] {
      MarkerSumBounds(context, ms[..|ms| - 1]);
    }
  }

  function SumWeights(ms: seq<(string, int)>): int {
    if ms == [] then 0 else SumWeights(ms[..|ms| - 1]) + ms[|ms| - 1].1
  }

  /** At least 2 are always expected, and the markers add at most 6. */
  lemma ExpectedCountBounds(context: Dict, params: Dict)
    ensures 2 <= ComplexityBase(params) <= ExpectedCount(context, params) <= ComplexityBase(params) + 6
    ensures (!Has(params, "complexity") && !Has(context, "multi_agent") && !Has(context, "public_facing") &&
             !Has(context, "safety_critical") && !Has(context, "potentially_harmful")) ==>
            ExpectedCount(context, params) == 2
  {
    MarkerSumBounds(context, Markers);
    var m := Markers;
    assert m[..3] == m[..|m| - 1] && m[..3][..2] == m[..2] && m[..2][..1] == m[..1] && m[..1][..0] == [];
    assert SumWeights(m[..1]) == 1;
    assert SumWeights(m[..2]) == 3;
    assert SumWeights(m[..3]) == 5;
    assert SumWeights(m) == 6;
    if !Has(context, "multi_agent") && !Has(context, "public_facing") && !Has(context, "safety_critical") &&
       !Has(context, "potentially_harmful") {
      MarkerSumAbsent(context, m);
    }
  }

  /** Absent markers add nothing. */
  lemma {:induction false} MarkerSumAbsent(context: Dict, ms: seq<(string, int)>)
    requires forall i :: 0 <= i < |ms| ==> !Has(context, ms[i].0)
    ensures MarkerSum(context, ms) == 0
  {
    if ms != [] {
      MarkerSumAbsent(context, ms[..|ms| - 1]);
    }
  }

  /** `_estimate_externality_coverage(context, action_params)` */
  method EstimateCoverage(context: Dict, params: Dict) returns (base: int)
    ensures base == ExpectedCount(context, params)
  {
    base := ComplexityBase(params);
    var i := 0;
    while i < |Markers|
      invariant 0 <= i <= |Markers|
      invariant base == ComplexityBase(params) + MarkerSum(context, Markers[..i])
    {
      assert Markers[..i + 1][..i] == Markers[..i];
      var (marker, value) := Markers[i];
      if Has(context, marker) && Truthy(GetOr(context, marker, VNone)) {
        base := base + value;
      }
      i := i + 1;
    }
    assert Markers[..i] == Markers;
  }

  /** `min(1, covered / max(1, expected))` */
  function Coverage(covered: nat, expected: int): (r: real)
    ensures 0.0 <= r <= 1.0
    ensures expected >= 1 && covered >= expected ==> r == 1.0
  {
    var d := if expected >= 1 then expected else 1;
    var q := (covered as real) / (d as real);
    if q >= 1.0 then 1.0 else q
  }

  /** `_calculate_rri_alignment(assessment)`: a base of 0.5 raised by the
    * bonuses, scaled by how far the positive ratio reaches the minimum. A
    * zero minimum ratio divides by zero. */
  function RriAlignment(t: RriTargets, a: Assessment): (r: Result<real>)
    ensures t.minPositiveRatio == 0.0 <==> r.Err?
    ensures r.Err? ==> r.error == ZeroDivisionError
  {
    var total := |a.positives| + |a.negatives|;
    var ratio := if total > 0 then (|a.positives| as real) / (total as real) else 0.0;
    if t.minPositiveRatio == 0.0 then Err(ZeroDivisionError)
    else
      var ratioScore := Min(1.0, ratio / t.minPositiveRatio);
      var base := 0.5 + (if Has(ToDict(a), "tech_ethics_assessed") then 0.2 * t.techWeight else 0.0)
                      + (if a.netValue > 0.0 then 0.1 * t.socialWeight else 0.0)
                      + (if a.coverage >= 0.8 then 0.2 * t.ecoWeight else 0.0);
      Ok(base * ratioScore)
  }

  /** Under the fallback targets: with at least a quarter of the collected
    * externalities positive, the alignment is exactly the base score:
    * 0.5, plus 0.05 for a positive net value, plus 0.14 for coverage of at
    * least 0.8; so at most 0.69. With nothing positive it is 0. */
  lemma RriAlignmentUnderFallback(a: Assessment)
    ensures RriAlignment(FallbackTargets, a).Ok?
    ensures |a.positives| == 0 ==> RriAlignment(FallbackTargets, a).value == 0.0
    ensures 4 * |a.positives| >= |a.positives| + |a.negatives| && |a.positives| > 0 ==>
      RriAlignment(FallbackTargets, a).value ==
        0.5 + (if a.netValue > 0.0 then 0.05 else 0.0) + (if a.coverage >= 0.8 then 0.14 else 0.0)
    ensures 0.0 <= RriAlignment(FallbackTargets, a).value <= 0.69
  {
    TechBonusNeverApplies(a);
    var total := |a.positives| + |a.negatives|;
    if total > 0 {
      ShareBounds(|a.positives|, total);
    }
  }

  /** The positive share n / d of d externalities lies in [0, 1], and
    * reaches the fallback minimum of a quarter when 4n >= d. */
  lemma ShareBounds(n: nat, d: nat)
    requires 0 < d && n <= d
    ensures 0.0 <= (n as real) / (d as real) <= 1.0
    ensures 4 * n >= d ==> (n as real) / (d as real) / 0.25 >= 1.0
  {
    var dd := d as real;
    var q := (n as real) / dd;
    assert q * dd == n as real;
    NonNegativeFactor(q, dd);
    assert (1.0 - q) * dd == dd - n as real;
    NonNegativeFactor(1.0 - q, dd);
    assert (4.0 * q - 1.0) * dd == 4.0 * (n as real) - dd;
    NonNegativeFactor(4.0 * q - 1.0, dd);
    assert q / 0.25 == 4.0 * q;
  }

  /** A product with a positive factor is non-negative only when the other
    * factor is. */
  lemma NonNegativeFactor(x: real, y: real)
    requires y > 0.0
    ensures x * y >= 0.0 ==> x >= 0.0
  {
    if x < 0.0 {
      assert x * y < 0.0 * y;
    }
  }

  /** The low-coverage penalty: coverage itself below the threshold, 1
    * otherwise. */
  function CoveragePenalty(t: RriTargets, coverage: real): (r: real)
    ensures r == coverage <==> coverage < t.coverageThreshold || coverage == 1.0
    ensures coverage >= t.coverageThreshold ==> r == 1.0
  {
    if coverage < t.coverageThreshold then coverage else 1.0
  }

  /** The assessment `assess` returns for the collected lists, valued
    * against the registry as it stands after registration. */
  function AssessFrom(t: RriTargets, registry: map<string, Externality>, context: Dict, params: Dict,
                      positives: seq<Externality>, negatives: seq<Externality>): (r: Result<Assessment>)
    ensures r.Ok? ==> r.value.positives == positives && r.value.negatives == negatives
    ensures r.Ok? ==> r.value.netValue == r.value.positiveValue - r.value.negativeValue && r.value.negativeValue >= 0.0
    ensures r.Ok? ==> r.value.coverage == Coverage(|positives| + |negatives|, ExpectedCount(context, params))
    ensures r.Ok? ==> 0.0 <= r.value.coverage <= 1.0
  {
    var pv :- SumScores(registry, positives, false);
    var nv :- SumScores(registry, negatives, true);
    var coverage := Coverage(|positives| + |negatives|, ExpectedCount(context, params));
    Finish(t, PostInit(0.0, coverage, Some(positives), Some(negatives), pv, nv, 0.0))
  }

  /** The last steps of `assess`: the RRI alignment, then the total score,
    * the net value scaled by the coverage penalty and by 0.5 + 0.5·RRI. */
  function Finish(t: RriTargets, a: Assessment): (r: Result<Assessment>)
    ensures r.Ok? ==> r.value == a.(rriAlignment := r.value.rriAlignment, totalScore := r.value.totalScore)
    ensures r.Ok? ==> RriAlignment(t, a).Ok? && r.value.rriAlignment == RriAlignment(t, a).value
    ensures r.Ok? ==> r.value.totalScore == TotalScore(a.netValue, CoveragePenalty(t, a.coverage), r.value.rriAlignment)
  {
    var rri :- RriAlignment(t, a);
    var a' := a.(rriAlignment := rri);
    Ok(a'.(totalScore := TotalScore(a'.netValue, CoveragePenalty(t, a'.coverage), rri)))
  }

  /** The net value scaled by the coverage penalty and by 0.5 + 0.5·RRI. */
  function TotalScore(netValue: real, penalty: real, rri: real): real {
    netValue * penalty * (0.5 + 0.5 * rri)
  }

  /** With a penalty and an alignment in [0, 1], the total keeps the net
    * value's sign, is never larger than it in magnitude, is at least half of
    * it under no penalty, and equals it under no penalty and full alignment. */
  lemma TotalScoreBounds(netValue: real, penalty: real, rri: real)
    requires 0.0 <= penalty <= 1.0 && 0.0 <= rri <= 1.0
    ensures netValue >= 0.0 ==> 0.0 <= TotalScore(netValue, penalty, rri) <= netValue
    ensures netValue <= 0.0 ==> netValue <= TotalScore(netValue, penalty, rri) <= 0.0
    ensures penalty == 1.0 && netValue >= 0.0 ==> TotalScore(netValue, penalty, rri) >= netValue / 2.0
    ensures penalty == 1.0 && rri == 1.0 ==> TotalScore(netValue, penalty, rri) == netValue
  {
    var g := 0.5 + 0.5 * rri;
    var f := penalty * g;
    assert 0.5 <= g <= 1.0;
    assert 0.0 <= f <= 1.0 by {
      assert penalty * g >= penalty * 0.0;
      assert penalty * g <= 1.0 * g;
    }
    assert TotalScore(netValue, penalty, rri) == netValue * f;
    if netValue >= 0.0 {
      assert netValue * f <= netValue * 1.0;
    } else {
      assert netValue * f >= netValue * 1.0;
    }
  }

  /** The registry after `assess`: positives registered first, then
    * negatives. */
  function RegistryAfter(registry: map<string, Externality>, context: Dict, params: Dict): map<string, Externality> {
    RegisterAll(RegisterAll(registry, Extracted(context, params, "positive")), Extracted(context, params, "negative"))
  }

  function AssessOf(t: RriTargets, registry: map<string, Externality>, context: Dict, params: Dict): Result<Assessment> {
    AssessFrom(t, RegistryAfter(registry, context, params), context, params,
               Extracted(context, params, "positive"), Extracted(context, params, "negative"))
  }

  /** `assess` raises only for a zero minimum positive ratio: every
    * collected id is registered before it is valued. */
  lemma AssessRaisesOnlyOnZeroRatio(t: RriTargets, registry: map<string, Externality>, context: Dict, params: Dict)
    ensures AssessOf(t, registry, context, params).Err? <==> t.minPositiveRatio == 0.0
  {
    var pos := Extracted(context, params, "positive");
    var neg := Extracted(context, params, "negative");
    var r1 := RegisterAll(registry, pos);
    RegisterAllFacts(registry, pos);
    RegisterAllFacts(r1, neg);
    assert forall i :: 0 <= i < |pos| ==> pos[i].id in RegistryAfter(registry, context, params);
  }

  /** `UnifiedExternalityPricer`: one pricer shared by every assessment, so
    * the registry keeps records from earlier calls. */
  class UnifiedPricer {
    const pricer: Pricer
    const targets: RriTargets

    constructor (targets: RriTargets)
      ensures this.targets == targets && fresh(pricer) && pricer.registry == map[]
    {
      this.targets := targets;
      pricer := new Pricer();
    }

    /** `register(ext)`: the pricer's own. */
    method Register(ext: Externality) returns (r: Result<()>)
      modifies pricer
      ensures ext.id in old(pricer.registry) ==> r == Err(ValueError) && pricer.registry == old(pricer.registry)
      ensures ext.id !in old(pricer.registry) ==> r == Ok(()) && pricer.registry == old(pricer.registry)[ext.id := ext]
    {
      r := pricer.Register(ext);
    }

    /** Appends `e` and registers it when its id is new. */
    method Collect(ghost registry: map<string, Externality>, exts: seq<Externality>, e: Externality)
      returns (exts': seq<Externality>)
      modifies pricer
      requires pricer.registry == RegisterAll(registry, exts)
      ensures exts' == exts + [e]
      ensures pricer.registry == RegisterAll(registry, exts')
    {
      exts' := exts + [e];
      assert exts'[..|exts'| - 1] == exts;
      if e.id !in pricer.registry {
        var _ := Register(e);
      }
    }

    /** `_extract_externalities(context, action_params, kind)`: params
      * entries first, then context entries whose id is not yet collected;
      * each new id is registered as it is collected. */
    method ExtractExternalities(context: Dict, params: Dict, kind: string) returns (exts: seq<Externality>)
      modifies pricer
      ensures exts == Extracted(context, params, kind)
      ensures pricer.registry == RegisterAll(old(pricer.registry), exts)
    {
      ghost var registry := pricer.registry;
      exts := [];
      var items := ListAt(params, "externalities");
      var i := 0;
      while i < |items|
        invariant 0 <= i <= |items|
        invariant exts == FromParams(items[..i], kind)
        invariant pricer.registry == RegisterAll(registry, exts)
      {
        assert items[..i + 1][..i] == items[..i];
        var v := items[i];
        if OfKind(v, kind) {
          var parsed := ParseExternality(v.entries);
          if parsed.Some? {
            exts := Collect(registry, exts, parsed.value);
          }
        }
        i := i + 1;
      }
      assert items[..i] == items;
      ghost var base := exts;
      var found := ListAt(context, "identified_externalities");
      i := 0;
      while i < |found|
        invariant 0 <= i <= |found|
        invariant exts == FromContext(found[..i], kind, base)
        invariant pricer.registry == RegisterAll(registry, exts)
      {
        assert found[..i + 1][..i] == found[..i];
        var v := found[i];
        if OfKind(v, kind) && !Listed(exts, v) {
          var parsed := ParseExternality(v.entries);
          if parsed.Some? {
            exts := Collect(registry, exts, parsed.value);
          }
        }
        i := i + 1;
      }
      assert found[..i] == found;
    }

    /** The sum of the value scores of `exts`, in order. */
    method SumValueScores(exts: seq<Externality>, absolute: bool) returns (r: Result<real>)
      ensures r == SumScores(pricer.registry, exts, absolute)
    {
      var total := 0.0;
      var i := 0;
      while i < |exts|
        invariant 0 <= i <= |exts|
        invariant SumScores(pricer.registry, exts[..i], absolute) == Ok(total)
      {
        assert exts[..i + 1][..i] == exts[..i];
        var v := pricer.ValueScore(exts[i].id);
        if v.Err? {
          assert SumScores(pricer.registry, exts[..i + 1], absolute) == Err(v.error);
          SumScoresErrPropagates(pricer.registry, exts, absolute, i + 1);
          return Err(v.error);
        }
        total := total + (if absolute then Abs(v.value) else v.value);
        i := i + 1;
      }
      assert exts[..i] == exts;
      return Ok(total);
    }

    /** The valuation half of `assess`, on the collected lists and the
      * registry as registration left it. */
    method Valuate(context: Dict, params: Dict, positives: seq<Externality>, negatives: seq<Externality>)
      returns (r: Result<Assessment>)
      ensures r == AssessFrom(targets, pricer.registry, context, params, positives, negatives)
    {
      var pv := SumValueScores(positives, false);
      if pv.Err? {
        return Err(pv.error);
      }
      var nv := SumValueScores(negatives, true);
      if nv.Err? {
        return Err(nv.error);
      }
      var expected := EstimateCoverage(context, params);
      var coverage := Coverage(|positives| + |negatives|, expected);
      var a := PostInit(0.0, coverage, Some(positives), Some(negatives), pv.value, nv.value, 0.0);
      r := Score(a);
    }

    /** The alignment and the total score, assigned in turn. */
    method Score(a: Assessment) returns (r: Result<Assessment>)
      ensures r == Finish(targets, a)
    {
      var rri := RriAlignment(targets, a);
      if rri.Err? {
        return Err(rri.error);
      }
      var b := a.(rriAlignment := rri.value);
      var penalty := CoveragePenalty(targets, b.coverage);
      b := b.(totalScore := TotalScore(b.netValue, penalty, b.rriAlignment));
      return Ok(b);
    }

    /** `assess(context, action_params)` */
    method Assess(context: Dict, params: Dict) returns (r: Result<Assessment>)
      modifies pricer
      ensures pricer.registry == RegistryAfter(old(pricer.registry), context, params)
      ensures r == AssessOf(targets, old(pricer.registry), context, params)
    {
      var positives := ExtractExternalities(context, params, "positive");
      var negatives := ExtractExternalities(context, params, "negative");
      r := Valuate(context, params, positives, negatives);
    }
  }

  /** Once a prefix of the sum raises, the whole sum raises the same
    * error. */
  lemma {:induction false} SumScoresErrPropagates(registry: map<string, Externality>, exts: seq<Externality>,
                                                  absolute: bool, n: nat)
    requires n <= |exts| && SumScores(registry, exts[..n], absolute).Err?
    ensures SumScores(registry, exts, absolute) == SumScores(registry, exts[..n], absolute)
    decreases |exts| - n
  {
    if n < |exts| {
      assert exts[..n + 1][..n] == exts[..n];
      SumScoresErrPropagates(registry, exts, absolute, n + 1);
    } else {
      assert exts[..n] == exts;
    }
  }
}
