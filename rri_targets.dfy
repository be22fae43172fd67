// Responsible Research and Innovation targets (core/ethics/rri_targets.py):
// one configuration shared by every component, per-component overrides,
// and a compliance check over eight scored dimensions. Loading the
// configuration from the vows file is not modelled: the base configuration
// is a constructor argument.
module RriTargets {
  import opened Values

  /** `RRIConfiguration`, with its defaults in `Defaults`. */
  datatype RriConfiguration = RriConfiguration(
    minCoverage: real, minPositiveRatio: real, graceThreshold: real,
    techEthicsWeight: real, socialImpactWeight: real, ecologicalWeight: real, governanceWeight: real,
    harmPenaltyFactor: real, coverageBoostFactor: real,
    anticipationRequired: bool, inclusionThreshold: real, reflexivityDepth: int, responsivenessWindowDays: int)

  const Defaults := RriConfiguration(0.75, 0.25, 0.65, 0.60, 0.50, 0.70, 0.45, 1.2, 1.1, true, 0.4, 2, 14)

  /** `get_rri_dimensions()` */
  const Dimensions: seq<string> := ["anticipation", "inclusion", "reflexivity", "responsiveness",
                                    "techethics", "social", "ecological", "governance"]

  /** The overall score a component needs for compliance. */
  const MinThreshold := 0.65

  /** The weight of a dimension: 0.15 for the four process dimensions, half
    * the configured weight for the four impact dimensions. */
  function Weight(config: RriConfiguration, d: string): real {
    if d == "techethics" then config.techEthicsWeight / 2.0
    else if d == "social" then config.socialImpactWeight / 2.0
    else if d == "ecological" then config.ecologicalWeight / 2.0
    else if d == "governance" then config.governanceWeight / 2.0
    else 0.15
  }

  /** The dimensions of `dims` that `scores` lacks, in the order of `dims`. */
  function Missing(dims: seq<string>, scores: Dict): (m: seq<string>)
    ensures forall d :: d in m <==> d in dims && !Has(scores, d)
    ensures |m| <= |dims|
  {
    if dims == [] then []
    else (if Has(scores, dims[0]) then [] else [dims[0]]) + Missing(dims[1..], scores)
  }

  /** `", ".join(names)` */
  function Join(names: seq<string>): string {
    if names == [] then ""
    else if |names| == 1 then names[0]
    else names[0] + ", " + Join(names[1..])
  }

  /** The total length of `names`. */
  function TotalLength(names: seq<string>): nat {
    if names == [] then 0 else |names[0]| + TotalLength(names[1..])
  }

  /** The joined text holds every name and one ", " between neighbours, and
    * starts with the first name. */
  lemma {:induction false} JoinLength(names: seq<string>)
    requires names != []
    ensures |Join(names)| == TotalLength(names) + 2 * (|names| - 1)
    ensures names[0] <= Join(names)
  {
    if |names| > 1 {
      JoinLength(names[1..]);
    }
  }

  /** `sum(component_scores[d] * weights[d] for d in dims)`. A missing score
    * raises KeyError, one that is not a number raises TypeError. */
  function WeightedSum(config: RriConfiguration, dims: seq<string>, scores: Dict): (r: Result<real>)
    ensures r.Ok? <==> forall i :: 0 <= i < |dims| ==> Has(scores, dims[i]) && NumOf(Get(scores, dims[i]).value).Some?
  {
    if dims == [] then Ok(0.0)
    else
      var v :- Subscript(scores, dims[0]);
      var x :- Num(v);
      var rest :- WeightedSum(config, dims[1..], scores);
      Ok(Weighted(x, Weight(config, dims[0])) + rest)
  }

  /** One term of the sum. */
  function Weighted(score: real, weight: real): real {
    score * weight
  }

  /** The score of dimension `d`, 0 when it is missing or not a number. */
  function ScoreOf(scores: Dict, d: string): real {
    match Get(scores, d)
    case Some(v) => (match NumOf(v) case Some(x) => x case None => 0.0)
    case None => 0.0
  }

  /** `{d: component_scores[d] for d in dimensions}` */
  function DimensionScores(dims: seq<string>, scores: Dict): (r: Dict)
    ensures |r| == |dims|
    ensures forall i :: 0 <= i < |dims| ==> r[i] == (dims[i], GetOr(scores, dims[i], VNone))
  {
    if dims == [] then [] else [(dims[0], GetOr(scores, dims[0], VNone))] + DimensionScores(dims[1..], scores)
  }

  /** What `validate_rri_compliance` returns: the missing-dimension report,
    * or the weighted verdict. */
  datatype Compliance =
    | MissingDimensions(missing: seq<string>, reason: string)
    | Scored(compliant: bool, overallScore: real, dimensionScores: Dict, reason: string)
  {
    predicate IsCompliant() { Scored? && compliant }
    function Overall(): real { if Scored? then overallScore else 0.0 }
  }

  const MissingReason := "Missing required RRI dimensions: "

  /** `validate_rri_compliance(component_scores)` with `self.config` as
    * `config`. */
  function Validate(config: RriConfiguration, scores: Dict): (r: Result<Compliance>)
    ensures Missing(Dimensions, scores) != [] ==>
      r == Ok(MissingDimensions(Missing(Dimensions, scores), MissingReason + Join(Missing(Dimensions, scores))))
    ensures Missing(Dimensions, scores) == [] ==>
      (r.Ok? <==> forall i :: 0 <= i < |Dimensions| ==> NumOf(GetOr(scores, Dimensions[i], VNone)).Some?)
    ensures r.Ok? && Missing(Dimensions, scores) == [] ==>
      r.value.Scored? && r.value.overallScore == WeightedSum(config, Dimensions, scores).value
    ensures r.Ok? ==> (r.value.IsCompliant() <==> r.value.Scored? && r.value.Overall() >= MinThreshold)
    ensures r.Ok? && r.value.Scored? ==>
      r.value.reason == (if r.value.compliant then "Sufficient RRI compliance" else "Below RRI threshold")
  {
    var missing := Missing(Dimensions, scores);
    if missing != [] then Ok(MissingDimensions(missing, MissingReason + Join(missing)))
    else
      assert forall i :: 0 <= i < |Dimensions| ==> Has(scores, Dimensions[i]) by {
        forall i | 0 <= i < |Dimensions| ensures Has(scores, Dimensions[i]) {
          assert Dimensions[i] in Dimensions;
        }
      }
      var overall :- WeightedSum(config, Dimensions, scores);
      var compliant := overall >= MinThreshold;
      Ok(Scored(compliant, overall, DimensionScores(Dimensions, scores),
                if compliant then "Sufficient RRI compliance" else "Below RRI threshold"))
  }

  /** Nothing is reported missing when every dimension has a score. */
  lemma {:induction false} NoneMissing(dims: seq<string>, scores: Dict)
    requires forall i :: 0 <= i < |dims| ==> Has(scores, dims[i])
    ensures Missing(dims, scores) == []
  {
    if dims != [] {
      assert Has(scores, dims[0]);
      assert forall i :: 0 <= i < |dims[1..]| ==> dims[1..][i] == dims[i + 1];
      NoneMissing(dims[1..], scores);
    }
  }

  /** The missing names keep the order of the dimension list: the report of
    * a concatenation is the concatenation of the reports. */
  lemma {:induction false} MissingKeepsOrder(a: seq<string>, b: seq<string>, scores: Dict)
    ensures Missing(a + b, scores) == Missing(a, scores) + Missing(b, scores)
  {
    if a == [] {
      assert a + b == b;
    } else {
      assert (a + b)[0] == a[0];
      assert (a + b)[1..] == a[1..] + b;
      MissingKeepsOrder(a[1..], b, scores);
    }
  }

  /** The verdict reads the four impact weights of the configuration and
    * nothing else: in particular not `grace_threshold`. */
  lemma ComplianceReadsOnlyWeights(c1: RriConfiguration, c2: RriConfiguration, scores: Dict)
    requires c1.techEthicsWeight == c2.techEthicsWeight && c1.socialImpactWeight == c2.socialImpactWeight
    requires c1.ecologicalWeight == c2.ecologicalWeight && c1.governanceWeight == c2.governanceWeight
    ensures Validate(c1, scores) == Validate(c2, scores)
  {
    WeightedSumSameWeights(c1, c2, Dimensions, scores);
  }

  lemma {:induction false} WeightedSumSameWeights(c1: RriConfiguration, c2: RriConfiguration, dims: seq<string>, scores: Dict)
    requires forall i :: 0 <= i < |dims| ==> Weight(c1, dims[i]) == Weight(c2, dims[i])
    ensures WeightedSum(c1, dims, scores) == WeightedSum(c2, dims, scores)
  {
    if dims != [] {
      assert Weight(c1, dims[0]) == Weight(c2, dims[0]);
      assert forall i :: 0 <= i < |dims[1..]| ==> dims[1..][i] == dims[i + 1];
      WeightedSumSameWeights(c1, c2, dims[1..], scores);
    }
  }

  lemma ScaleMonotone(x: real, y: real, w: real)
    requires x <= y && w >= 0.0
    ensures Weighted(x, w) <= Weighted(y, w)
  {
    assert (y - x) * w >= 0.0;
  }

  /** With non-negative weights, raising scores never lowers the overall
    * score. */
  lemma {:induction false} WeightedSumMonotone(config: RriConfiguration, dims: seq<string>, s1: Dict, s2: Dict)
    requires forall i :: 0 <= i < |dims| ==> Weight(config, dims[i]) >= 0.0
    requires WeightedSum(config, dims, s1).Ok? && WeightedSum(config, dims, s2).Ok?
    requires forall i :: 0 <= i < |dims| ==> ScoreOf(s1, dims[i]) <= ScoreOf(s2, dims[i])
    ensures WeightedSum(config, dims, s1).value <= WeightedSum(config, dims, s2).value
  {
    if dims != [] {
      assert Has(s1, dims[0]) && Has(s2, dims[0]);
      assert Num(Subscript(s1, dims[0]).value).value == ScoreOf(s1, dims[0]);
      assert Num(Subscript(s2, dims[0]).value).value == ScoreOf(s2, dims[0]);
      ScaleMonotone(ScoreOf(s1, dims[0]), ScoreOf(s2, dims[0]), Weight(config, dims[0]));
      assert forall i :: 0 <= i < |dims[1..]| ==> dims[1..][i] == dims[i + 1];
      WeightedSumMonotone(config, dims[1..], s1, s2);
    }
  }

  /** The sum of the weights of `dims`. */
  function TotalWeight(config: RriConfiguration, dims: seq<string>): real {
    if dims == [] then 0.0 else Weight(config, dims[0]) + TotalWeight(config, dims[1..])
  }

  /** The weighted sum of a component scoring `s` on every dimension. */
  function UniformSum(config: RriConfiguration, dims: seq<string>, s: real): real {
    if dims == [] then 0.0 else Weighted(s, Weight(config, dims[0])) + UniformSum(config, dims[1..], s)
  }

  /** A component scoring `s` on every dimension of `dims` has a weighted
    * sum, the uniform one. */
  lemma {:induction false} WeightedSumUniform(config: RriConfiguration, dims: seq<string>, scores: Dict, s: real)
    requires forall i :: 0 <= i < |dims| ==> Get(scores, dims[i]) == Some(VReal(s))
    ensures WeightedSum(config, dims, scores) == Ok(UniformSum(config, dims, s))
  {
    if dims != [] {
      var rest := dims[1..];
      assert forall i :: 0 <= i < |rest| ==> rest[i] == dims[i + 1];
      WeightedSumUniform(config, rest, scores, s);
      assert Subscript(scores, dims[0]) == Ok(VReal(s));
    }
  }

  /** The weight of each dimension. */
  lemma WeightOfEach(config: RriConfiguration)
    ensures Weight(config, "anticipation") == 0.15
    ensures Weight(config, "inclusion") == 0.15
    ensures Weight(config, "reflexivity") == 0.15
    ensures Weight(config, "responsiveness") == 0.15
    ensures Weight(config, "techethics") == config.techEthicsWeight / 2.0
    ensures Weight(config, "social") == config.socialImpactWeight / 2.0
    ensures Weight(config, "ecological") == config.ecologicalWeight / 2.0
    ensures Weight(config, "governance") == config.governanceWeight / 2.0
  {
  }

  /** The eight weights add up to 0.6 plus half the four configured
    * weights, and to 1.725 with the defaults. */
  lemma DimensionWeights(config: RriConfiguration)
    ensures TotalWeight(config, Dimensions) ==
      0.6 + (config.techEthicsWeight + config.socialImpactWeight + config.ecologicalWeight + config.governanceWeight) / 2.0
    ensures TotalWeight(Defaults, Dimensions) == 1.725
  {
    DimensionSum(config);
    DimensionSum(Defaults);
  }

  lemma DimensionSum(config: RriConfiguration)
    ensures TotalWeight(config, Dimensions) ==
      0.6 + (config.techEthicsWeight + config.socialImpactWeight + config.ecologicalWeight + config.governanceWeight) / 2.0
  {
    WeightOfEach(config);
    var d := Dimensions;
    assert d[8..] == [];
    assert d[7] == "governance" && d[7..][1..] == d[8..];
    assert TotalWeight(config, d[7..]) == Weight(config, d[7]) + TotalWeight(config, d[8..]);
    assert d[6] == "ecological" && d[6..][1..] == d[7..];
    assert TotalWeight(config, d[6..]) == Weight(config, d[6]) + TotalWeight(config, d[7..]);
    assert d[5] == "social" && d[5..][1..] == d[6..];
    assert TotalWeight(config, d[5..]) == Weight(config, d[5]) + TotalWeight(config, d[6..]);
    assert d[4] == "techethics" && d[4..][1..] == d[5..];
    assert TotalWeight(config, d[4..]) == Weight(config, d[4]) + TotalWeight(config, d[5..]);
    assert d[3] == "responsiveness" && d[3..][1..] == d[4..];
    assert TotalWeight(config, d[3..]) == Weight(config, d[3]) + TotalWeight(config, d[4..]);
    assert d[2] == "reflexivity" && d[2..][1..] == d[3..];
    assert TotalWeight(config, d[2..]) == Weight(config, d[2]) + TotalWeight(config, d[3..]);
    assert d[1] == "inclusion" && d[1..][1..] == d[2..];
    assert TotalWeight(config, d[1..]) == Weight(config, d[1]) + TotalWeight(config, d[2..]);
    assert d[0] == "anticipation" && d[0..][1..] == d[1..];
    assert TotalWeight(config, d[0..]) == Weight(config, d[0]) + TotalWeight(config, d[1..]);
    assert d[0..] == d;
  }

  /** Under the defaults a component scoring `s` on every dimension gets an
    * overall score of `1.725 * s`: 1.725 for a perfect score, above 1; a
    * uniform score of 0.38 is already compliant, while 0.37 is not. */
  lemma UniformCompliance(scores: Dict, s: real)
    requires forall i :: 0 <= i < |Dimensions| ==> Get(scores, Dimensions[i]) == Some(VReal(s))
    ensures Validate(Defaults, scores).Ok? && Validate(Defaults, scores).value.Scored?
    ensures Validate(Defaults, scores).value.overallScore == 1.725 * s
    ensures s == 1.0 ==> Validate(Defaults, scores).value.overallScore == 1.725
    ensures s == 0.38 ==> Validate(Defaults, scores).value.IsCompliant()
    ensures s == 0.37 ==> !Validate(Defaults, scores).value.IsCompliant()
  {
    WeightedSumUniform(Defaults, Dimensions, scores, s);
    NoneMissing(Dimensions, scores);
    DefaultUniformSum(s);
  }

  lemma DefaultUniformSum(s: real)
    ensures UniformSum(Defaults, Dimensions, s) == 1.725 * s
  {
    WeightOfEach(Defaults);
    var d := Dimensions;
    assert d[8..] == [];
    assert d[7] == "governance" && d[7..][1..] == d[8..];
    assert UniformSum(Defaults, d[7..], s) == s * 0.225 + UniformSum(Defaults, d[8..], s);
    assert d[6] == "ecological" && d[6..][1..] == d[7..];
    assert UniformSum(Defaults, d[6..], s) == s * 0.35 + UniformSum(Defaults, d[7..], s);
    assert d[5] == "social" && d[5..][1..] == d[6..];
    assert UniformSum(Defaults, d[5..], s) == s * 0.25 + UniformSum(Defaults, d[6..], s);
    assert d[4] == "techethics" && d[4..][1..] == d[5..];
    assert UniformSum(Defaults, d[4..], s) == s * 0.3 + UniformSum(Defaults, d[5..], s);
    assert d[3] == "responsiveness" && d[3..][1..] == d[4..];
    assert UniformSum(Defaults, d[3..], s) == s * 0.15 + UniformSum(Defaults, d[4..], s);
    assert d[2] == "reflexivity" && d[2..][1..] == d[3..];
    assert UniformSum(Defaults, d[2..], s) == s * 0.15 + UniformSum(Defaults, d[3..], s);
    assert d[1] == "inclusion" && d[1..][1..] == d[2..];
    assert UniformSum(Defaults, d[1..], s) == s * 0.15 + UniformSum(Defaults, d[2..], s);
    assert d[0] == "anticipation" && d[0..][1..] == d[1..];
    assert UniformSum(Defaults, d[0..], s) == s * 0.15 + UniformSum(Defaults, d[1..], s);
    assert d[0..] == d;
  }

  /** Compliance is upward closed: under non-negative configured weights, a
    * component that scores at least as well on every dimension as a
    * compliant one is compliant too. */
  lemma ComplianceIsUpwardClosed(config: RriConfiguration, s1: Dict, s2: Dict)
    requires config.techEthicsWeight >= 0.0 && config.socialImpactWeight >= 0.0
    requires config.ecologicalWeight >= 0.0 && config.governanceWeight >= 0.0
    requires Validate(config, s1).Ok? && Validate(config, s1).value.IsCompliant()
    requires Validate(config, s2).Ok? && Validate(config, s2).value.Scored?
    requires forall i :: 0 <= i < |Dimensions| ==> ScoreOf(s1, Dimensions[i]) <= ScoreOf(s2, Dimensions[i])
    ensures Validate(config, s2).value.IsCompliant()
  {
    WeightedSumMonotone(config, Dimensions, s1, s2);
  }

  /** `RRITargetsManager`: the base configuration and the per-component
    * overrides. */
  class Manager {
    var config: RriConfiguration
    var overrides: map<string, RriConfiguration>

    constructor (config: RriConfiguration)
      ensures this.config == config && overrides == map[]
    {
      this.config := config;
      overrides := map[];
    }

    /** `get_config(component)`: the override of a named (non-empty)
      * component that has one, the base configuration otherwise. */
    function GetConfig(component: Option<string>): (r: RriConfiguration)
      reads this
      ensures component.Some? && component.value != "" && component.value in overrides ==> r == overrides[component.value]
      ensures component.None? || component.value == "" || component.value !in overrides ==> r == config
    {
      if component.Some? && component.value != "" && component.value in overrides then overrides[component.value]
      else config
    }

    /** `register_component_override(component, config)`: a later override
      * replaces an earlier one. */
    method RegisterComponentOverride(component: string, override: RriConfiguration)
      modifies this
      ensures config == old(config) && overrides == old(overrides)[component := override]
      ensures component != "" ==> GetConfig(Some(component)) == override
      ensures forall other :: other != component ==> GetConfig(Some(other)) == old(GetConfig(Some(other)))
      ensures GetConfig(None) == old(GetConfig(None))
    {
      overrides := overrides[component := override];
    }

    /** `validate_rri_compliance(component_scores)`: always against the base
      * configuration, whatever the overrides. */
    method ValidateRriCompliance(scores: Dict) returns (r: Result<Compliance>)
      ensures r == Validate(config, scores)
    {
      r := Validate(config, scores);
    }
  }
}
