// The Will Engine's geometry kernels: nine cost multipliers, each clamped to
// the configured interval, and the dispatcher that picks one for an operator
// (core/will/kernels.py). The configuration read from YAML at import time is
// a parameter here.
module WillKernels {
  import opened Values

  /** `kernel_weight_clamp` from the engine defaults (0.25 and 4.0 when absent). */
  datatype KernelConfig = KernelConfig(kMin: real, kMax: real)

  const DefaultConfig := KernelConfig(0.25, 4.0)

  /** The only part of the planner state a kernel reads. */
  datatype KernelState = KernelState(paradoxNearby: bool)

  /** `_clamp(x)`: `max(K_MIN, min(K_MAX, x))`. */
  function KClamp(cfg: KernelConfig, x: real): (r: real)
    ensures cfg.kMin <= r
    ensures cfg.kMin <= cfg.kMax ==> r <= cfg.kMax
    ensures cfg.kMin <= x <= cfg.kMax ==> r == x
    ensures cfg.kMin > cfg.kMax ==> r == cfg.kMin
  {
    Max(cfg.kMin, Min(cfg.kMax, x))
  }

  /** Clamping twice is clamping once, whatever the configuration. */
  lemma ClampIdempotent(cfg: KernelConfig, x: real)
    ensures KClamp(cfg, KClamp(cfg, x)) == KClamp(cfg, x)
  {
  }

  /** `action.get(key, False)` read as a truth value. */
  predicate Flag(p: Dict, key: string) {
    Truthy(GetOr(p, key, VBool(false)))
  }

  /** `float(action.get(key, default))` */
  function FloatParam(p: Dict, key: string, default: real): (r: Result<real>)
    ensures !Has(p, key) ==> r == Ok(default)
    ensures r.Ok? <==> NumOf(GetOr(p, key, VReal(default))).Some?
  {
    Float(GetOr(p, key, VReal(default)))
  }

  /** `_reversibility_bonus`: reversible unless the key says otherwise. */
  function ReversibilityBonus(p: Dict): (r: real)
    ensures r == 0.90 || r == 1.05
    ensures !Has(p, "reversible") ==> r == 0.90
  {
    if Truthy(GetOr(p, "reversible", VBool(true))) then 0.90 else 1.05
  }

  /** `_externality_penalty` */
  function ExternalityPenalty(p: Dict): (r: Result<real>)
    ensures !Flag(p, "externality_priced") ==> r == Ok(1.20)
    ensures r.Ok? ==> 0.75 <= r.value
    ensures Flag(p, "externality_priced") && !Has(p, "coverage") ==> r == Ok(0.75)
  {
    if Flag(p, "externality_priced") then
      var cov :- FloatParam(p, "coverage", 1.0);
      Ok(1.0 - 0.25 * Min(1.0, cov))
    else Ok(1.20)
  }

  /** Pricing externalities never costs more than leaving them unpriced,
    * unless the declared coverage is below -0.8. */
  lemma PricingNeverCostsMore(p: Dict)
    requires Flag(p, "externality_priced")
    requires ExternalityPenalty(p).Ok?
    requires NumOf(GetOr(p, "coverage", VReal(1.0))).value >= -0.8
    ensures ExternalityPenalty(p).value <= 1.20
  {
  }

  /** The arithmetic of `_scale_penalty` on the declared scale `s`. */
  function ScalePenaltyOf(s: real): (r: real)
    ensures 1.0 <= r <= 1.50
    ensures s <= 1.0 <==> r == 1.0
    ensures s >= 6.0 <==> r == 1.50
  {
    if s <= 1.0 then 1.0 else Min(1.0 + 0.10 * (s - 1.0), 1.50)
  }

  lemma ScalePenaltyMonotone(s: real, t: real)
    requires s <= t
    ensures ScalePenaltyOf(s) <= ScalePenaltyOf(t)
  {
  }

  /** `_scale_penalty` */
  function ScalePenalty(p: Dict): (r: Result<real>)
    ensures r.Ok? ==> 1.0 <= r.value <= 1.50
    ensures !Has(p, "scale") ==> r == Ok(1.0)
  {
    var s :- FloatParam(p, "scale", 1.0);
    Ok(ScalePenaltyOf(s))
  }

  /** `_repair_bonus` */
  function RepairBonus(p: Dict): (r: real)
    ensures r == (if Flag(p, "repair_plan") then 0.90 else 1.0)
  {
    if Flag(p, "repair_plan") then 0.90 else 1.0
  }

  /** `_aesthetic_bonus`: at most a ten per cent discount. */
  function AestheticBonus(p: Dict): (r: Result<real>)
    ensures r.Ok? ==> 0.90 <= r.value <= 1.0
    ensures !Has(p, "aesthetic_coherence") ==> r == Ok(1.0)
  {
    var a :- FloatParam(p, "aesthetic_coherence", 0.0);
    Ok(1.0 - 0.10 * Clamp01(a))
  }

  /** The nine kernels of the dispatch table. */
  datatype Kernel =
    | InvertedTetrahedron
    | SpiralSphere
    | DualTorus
    | GoldenGnomon
    | NestedDodecahedron
    | MobiusIntersect
    | SpiralPyramid
    | VanishingEllipse
    | FoldedVoidstar

  /** The name a kernel is registered under in `_FUNCS`. */
  function KernelName(k: Kernel): string {
    match k
    case InvertedTetrahedron => "inverted_tetrahedron"
    case SpiralSphere => "spiral_sphere"
    case DualTorus => "dual_torus"
    case GoldenGnomon => "golden_gnomon"
    case NestedDodecahedron => "nested_dodecahedron"
    case MobiusIntersect => "mobius_intersect"
    case SpiralPyramid => "spiral_pyramid"
    case VanishingEllipse => "vanishing_ellipse"
    case FoldedVoidstar => "folded_voidstar"
  }

  /** `_FUNCS.get(name)`: the kernel registered under `name`, if any. */
  function KernelNamed(name: string): (r: Option<Kernel>)
    ensures r.Some? ==> KernelName(r.value) == name
    ensures forall k :: KernelName(k) == name ==> r == Some(k)
  {
    match name
    case "inverted_tetrahedron" => Some(InvertedTetrahedron)
    case "spiral_sphere" => Some(SpiralSphere)
    case "dual_torus" => Some(DualTorus)
    case "golden_gnomon" => Some(GoldenGnomon)
    case "nested_dodecahedron" => Some(NestedDodecahedron)
    case "mobius_intersect" => Some(MobiusIntersect)
    case "spiral_pyramid" => Some(SpiralPyramid)
    case "vanishing_ellipse" => Some(VanishingEllipse)
    case "folded_voidstar" => Some(FoldedVoidstar)
    case _ => None
  }

  /** `inverted_tetrahedron` before its clamp. */
  function InvertedTetrahedronBase(p: Dict): Result<real> {
    var coercion := if Flag(p, "coercion_risk") then 1.0 else 0.0;
    var humiliation :- FloatParam(p, "humiliation_risk", 0.0);
    Ok((1.10 + 0.40 * coercion + 0.30 * humiliation) * RepairBonus(p))
  }

  /** `spiral_sphere` before its clamp: the scale is halved (a Python
    * multiplication, so a non-number raises TypeError) before it is
    * penalised. */
  function SpiralSphereBase(p: Dict): Result<real> {
    var scale :- Num(GetOr(p, "scale", VReal(1.0)));
    Ok(1.0 * ReversibilityBonus(p) * ScalePenaltyOf(scale * 0.5))
  }

  /** `dual_torus` before its clamp. */
  function DualTorusBase(p: Dict): Result<real> {
    var loops := if Flag(p, "feedback_loops") then 1.0 else 0.0;
    var cadence :- FloatParam(p, "cadence_fit", 0.5);
    Ok(1.05 - 0.15 * loops - 0.10 * cadence)
  }

  /** `golden_gnomon` before its clamp. */
  function GoldenGnomonBase(p: Dict): Result<real> {
    var scalePen :- ScalePenalty(p);
    var extPen :- ExternalityPenalty(p);
    var base := 1.0 * scalePen * extPen;
    Ok(if !Flag(p, "rollback_recipe") then base * 1.20 else base)
  }

  /** `nested_dodecahedron` before its clamp. */
  function NestedDodecahedronBase(p: Dict): Result<real> {
    var clutch :- FloatParam(p, "clutching_index", 0.0);
    var custody :- FloatParam(p, "custody_clarity", 0.5);
    Ok(1.05 + 0.30 * clutch - 0.20 * custody)
  }

  /** `mobius_intersect` before its clamp. */
  function MobiusIntersectBase(p: Dict): Result<real> {
    var direction :- FloatParam(p, "direction_coherence", 0.5);
    var diffusion :- FloatParam(p, "diffusion_risk", 0.0);
    Ok(1.05 + 0.25 * diffusion - 0.20 * direction)
  }

  /** `spiral_pyramid` before its clamp. */
  function SpiralPyramidBase(p: Dict): Result<real> {
    var aest :- FloatParam(p, "aesthetic_coherence", 0.0);
    var base := 1.05 - 0.15 * aest;
    Ok(if !Flag(p, "aesthetic_priced") then base * 1.15 else base)
  }

  /** `vanishing_ellipse` before its clamp. The default for
    * `apophatic_nearby` is the state's flag. */
  function VanishingEllipseBase(s: KernelState, p: Dict): Result<real> {
    var near := Truthy(GetOr(p, "apophatic_nearby", VBool(s.paradoxNearby)));
    var aestBonus :- AestheticBonus(p);
    Ok((if near then 1.10 else 1.0) * ReversibilityBonus(p) * aestBonus)
  }

  /** `folded_voidstar` before its clamp. */
  function FoldedVoidstarBase(p: Dict): Result<real> {
    var repair := Flag(p, "repair_plan");
    var theater :- FloatParam(p, "identity_theater", 0.0);
    var kenosis :- FloatParam(p, "kenosis_signal", 0.0);
    var base := 1.10 + 0.30 * theater - 0.20 * kenosis;
    Ok(if repair then base * 0.90 else base)
  }

  /** A kernel's weight before its clamp. */
  function Base(k: Kernel, s: KernelState, p: Dict): Result<real> {
    match k
    case InvertedTetrahedron => InvertedTetrahedronBase(p)
    case SpiralSphere => SpiralSphereBase(p)
    case DualTorus => DualTorusBase(p)
    case GoldenGnomon => GoldenGnomonBase(p)
    case NestedDodecahedron => NestedDodecahedronBase(p)
    case MobiusIntersect => MobiusIntersectBase(p)
    case SpiralPyramid => SpiralPyramidBase(p)
    case VanishingEllipse => VanishingEllipseBase(s, p)
    case FoldedVoidstar => FoldedVoidstarBase(p)
  }

  /** The kernel function itself: its base, clamped. */
  function KernelWeight(k: Kernel, s: KernelState, p: Dict, cfg: KernelConfig): (r: Result<real>)
    ensures r.Ok? <==> Base(k, s, p).Ok?
    ensures r.Err? ==> r.error == Base(k, s, p).error
    ensures r.Ok? && cfg.kMin <= cfg.kMax ==> cfg.kMin <= r.value <= cfg.kMax
    ensures r.Ok? && cfg.kMin <= Base(k, s, p).value <= cfg.kMax ==> r.value == Base(k, s, p).value
  {
    var b :- Base(k, s, p);
    Ok(KClamp(cfg, b))
  }

  /** Two parameter dictionaries that agree on every key except `key`. */
  ghost predicate AgreeExcept(p: Dict, q: Dict, key: string) {
    forall k :: k != key ==> Get(p, k) == Get(q, k)
  }

  /** Without a rollback recipe the golden gnomon costs 1.20 times as much. */
  lemma GoldenGnomonRollbackPenalty(withRollback: Dict, without: Dict)
    requires AgreeExcept(withRollback, without, "rollback_recipe")
    requires Flag(withRollback, "rollback_recipe") && !Flag(without, "rollback_recipe")
    ensures GoldenGnomonBase(without).Ok? <==> GoldenGnomonBase(withRollback).Ok?
    ensures GoldenGnomonBase(without).Ok? ==>
      GoldenGnomonBase(without).value == 1.20 * GoldenGnomonBase(withRollback).value
  {
    assert Get(withRollback, "scale") == Get(without, "scale");
    assert Get(withRollback, "externality_priced") == Get(without, "externality_priced");
    assert Get(withRollback, "coverage") == Get(without, "coverage");
  }

  /** A repair plan takes ten per cent off the inverted tetrahedron and the
    * folded voidstar. */
  lemma RepairPlanDiscount(withPlan: Dict, without: Dict)
    requires AgreeExcept(withPlan, without, "repair_plan")
    requires Flag(withPlan, "repair_plan") && !Flag(without, "repair_plan")
    ensures InvertedTetrahedronBase(withPlan).Ok? <==> InvertedTetrahedronBase(without).Ok?
    ensures InvertedTetrahedronBase(withPlan).Ok? ==>
      InvertedTetrahedronBase(withPlan).value == 0.90 * InvertedTetrahedronBase(without).value
    ensures FoldedVoidstarBase(withPlan).Ok? <==> FoldedVoidstarBase(without).Ok?
    ensures FoldedVoidstarBase(withPlan).Ok? ==>
      FoldedVoidstarBase(withPlan).value == 0.90 * FoldedVoidstarBase(without).value
  {
    assert Get(withPlan, "coercion_risk") == Get(without, "coercion_risk");
    assert Get(withPlan, "humiliation_risk") == Get(without, "humiliation_risk");
    assert Get(withPlan, "identity_theater") == Get(without, "identity_theater");
    assert Get(withPlan, "kenosis_signal") == Get(without, "kenosis_signal");
  }

  /** A reversible move is weighted 0.90 where an irreversible one is
    * weighted 1.05, by both kernels that read reversibility. */
  lemma ReversibleMovesWeighLess(s: KernelState, rev: Dict, irrev: Dict)
    requires AgreeExcept(rev, irrev, "reversible")
    requires Truthy(GetOr(rev, "reversible", VBool(true)))
    requires !Truthy(GetOr(irrev, "reversible", VBool(true)))
    ensures SpiralSphereBase(rev).Ok? <==> SpiralSphereBase(irrev).Ok?
    ensures SpiralSphereBase(rev).Ok? ==>
      1.05 * SpiralSphereBase(rev).value == 0.90 * SpiralSphereBase(irrev).value
    ensures VanishingEllipseBase(s, rev).Ok? <==> VanishingEllipseBase(s, irrev).Ok?
    ensures VanishingEllipseBase(s, rev).Ok? ==>
      1.05 * VanishingEllipseBase(s, rev).value == 0.90 * VanishingEllipseBase(s, irrev).value
  {
    assert Get(rev, "scale") == Get(irrev, "scale");
    assert Get(rev, "apophatic_nearby") == Get(irrev, "apophatic_nearby");
    assert Get(rev, "aesthetic_coherence") == Get(irrev, "aesthetic_coherence");
  }

  /** The spiral sphere penalises half the declared scale: a scale up to 2
    * costs nothing beyond the reversibility factor, and the penalty never
    * exceeds that of the full scale. */
  lemma SpiralSphereHalvesScale(p: Dict)
    requires SpiralSphereBase(p).Ok?
    ensures var s := NumOf(GetOr(p, "scale", VReal(1.0))).value;
      && (s <= 2.0 ==> SpiralSphereBase(p).value == ReversibilityBonus(p))
      && (s >= 0.0 ==> SpiralSphereBase(p).value <= ReversibilityBonus(p) * ScalePenaltyOf(s))
  {
    var s := NumOf(GetOr(p, "scale", VReal(1.0))).value;
    if s >= 0.0 {
      ScalePenaltyMonotone(s * 0.5, s);
    }
  }

  /** Without `apophatic_nearby` in the parameters, the state's paradox flag
    * decides, and being near costs ten per cent more; with the key present
    * the state is not consulted. */
  lemma VanishingEllipseFallsBackToState(p: Dict)
    ensures !Has(p, "apophatic_nearby") && VanishingEllipseBase(KernelState(false), p).Ok? ==>
      VanishingEllipseBase(KernelState(true), p).Ok? &&
      VanishingEllipseBase(KernelState(true), p).value == 1.10 * VanishingEllipseBase(KernelState(false), p).value
    ensures Has(p, "apophatic_nearby") ==>
      VanishingEllipseBase(KernelState(true), p) == VanishingEllipseBase(KernelState(false), p)
  {
  }

  /** The `action_obj` argument of `weight_for`: an object with attributes
    * (each possibly absent), a plain dictionary, or anything else. */
  datatype ActionArg =
    | ActionObject(params: Option<Dict>, reversible: Option<Value>, predictedTruth: Option<Value>)
    | ActionDict(d: Dict)
    | ActionOther

  /** The parameters `weight_for` hands to the kernel. For an object it
    * works on a copy of the object's params. */
  function ActionParams(a: ActionArg): Dict {
    match a
    case ActionObject(params, reversible, predictedTruth) =>
      var base := match params case Some(d) => d case None => [];
      var p := Put(base, "reversible", match reversible case Some(v) => v case None => VBool(true));
      if Has(p, "predicted_truth") then p
      else Put(p, "predicted_truth", match predictedTruth case Some(v) => v case None => VStr("T"))
    case ActionDict(d) => d
    case ActionOther => []
  }

  /** For an object action, 'reversible' always comes from the object (True
    * when it has none), 'predicted_truth' is only a default, and every other
    * key is the object's own parameter. */
  lemma {:induction false} ActionObjectParams(params: Dict, reversible: Option<Value>, predictedTruth: Option<Value>, k: string)
    ensures var p := ActionParams(ActionObject(Some(params), reversible, predictedTruth));
      && Get(p, "reversible") == Some(match reversible case Some(v) => v case None => VBool(true))
      && Get(p, "predicted_truth") ==
           (if Has(params, "predicted_truth") then Get(params, "predicted_truth")
            else Some(match predictedTruth case Some(v) => v case None => VStr("T")))
      && (k != "reversible" && k != "predicted_truth" ==> Get(p, k) == Get(params, k))
  {
    var rv := match reversible case Some(v) => v case None => VBool(true);
    var pt := match predictedTruth case Some(v) => v case None => VStr("T");
    var p1 := Put(params, "reversible", rv);
    PutGet(params, "reversible", rv, "reversible");
    PutGet(params, "reversible", rv, "predicted_truth");
    PutGet(params, "reversible", rv, k);
    if !Has(p1, "predicted_truth") {
      PutGet(p1, "predicted_truth", pt, "reversible");
      PutGet(p1, "predicted_truth", pt, "predicted_truth");
      PutGet(p1, "predicted_truth", pt, k);
    }
  }

  /** `_WILL["operators"][op]["kernel"]` looked up in `_FUNCS`: a missing
    * operator, a missing "kernel" entry and an unknown kernel name all raise
    * KeyError (an unhashable name raises TypeError); there is no default. */
  function OperatorKernel(operators: map<string, Dict>, op: string): (r: Result<Kernel>)
    ensures op !in operators ==> r == Err(KeyError(op))
    ensures op in operators && !Has(operators[op], "kernel") ==> r == Err(KeyError("kernel"))
    ensures r.Ok? ==> op in operators && Get(operators[op], "kernel") == Some(VStr(KernelName(r.value)))
    ensures forall k :: op in operators && Get(operators[op], "kernel") == Some(VStr(KernelName(k))) ==> r == Ok(k)
  {
    if op !in operators then Err(KeyError(op))
    else
      match Get(operators[op], "kernel")
      case None => Err(KeyError("kernel"))
      case Some(VStr(name)) =>
        (match KernelNamed(name)
         case Some(k) => Ok(k)
         case None => Err(KeyError(name)))
      case Some(VList(_)) => Err(TypeError)
      case Some(VDict(_)) => Err(TypeError)
      case Some(_) => Err(KeyError(""))
  }

  /** `weight_for(op, state, action_obj)` */
  function WeightFor(operators: map<string, Dict>, op: string, s: KernelState, action: ActionArg, cfg: KernelConfig): (r: Result<real>)
    ensures op !in operators ==> r == Err(KeyError(op))
    ensures r.Ok? && cfg.kMin <= cfg.kMax ==> cfg.kMin <= r.value <= cfg.kMax
    ensures r == (var k :- OperatorKernel(operators, op); KernelWeight(k, s, ActionParams(action), cfg))
  {
    var k :- OperatorKernel(operators, op);
    var w :- KernelWeight(k, s, ActionParams(action), cfg);
    ClampIdempotent(cfg, Base(k, s, ActionParams(action)).value);
    Ok(KClamp(cfg, w))
  }
}
