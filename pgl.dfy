// The Paradox-Gate configuration and its transition table
// (core/planner/pgl_loader.py). The two YAML documents are inputs; a file
// that fails to load is the empty dictionary, as the loader makes it.
module PglLoader {
  import opened Values

  /** `PGLConfig`: the coalgebra document and the paradox-gate document. */
  datatype PglConfig = PglConfig(pgl: Dict, gate: Dict)

  /** `d.get(k, {})` where the result is used as a dictionary: anything else
    * has no `.get` and raises. */
  function SubDict(d: Dict, k: string): (r: Result<Dict>)
    ensures !Has(d, k) ==> r == Ok([])
    ensures Has(d, k) ==> (r.Ok? <==> Get(d, k).value.VDict?)
  {
    var v := GetOr(d, k, VDict([]));
    if v.VDict? then Ok(v.entries) else Err(AttributeError("get"))
  }

  /** `get_grace_floor(paradox_nearby, apophatic_margin)`: the apophatic
    * margin takes precedence over a nearby paradox; the defaults are 0.62,
    * 0.60 and 0.55. */
  function GraceFloor(cfg: PglConfig, paradoxNearby: bool, apophaticMargin: bool): (r: Result<Value>)
    ensures SubDict(cfg.gate, "grace_floor_by_zone").Err? <==> r.Err?
    ensures r.Ok? ==>
      var floors := SubDict(cfg.gate, "grace_floor_by_zone").value;
      var zone := if apophaticMargin then "apophatic_margin" else if paradoxNearby then "paradox_near" else "normal";
      && (Has(floors, zone) ==> r.value == Get(floors, zone).value)
      && (!Has(floors, zone) ==> r.value == VReal(if apophaticMargin then 0.62 else if paradoxNearby then 0.60 else 0.55))
  {
    var floors :- SubDict(cfg.gate, "grace_floor_by_zone");
    if apophaticMargin then Ok(GetOr(floors, "apophatic_margin", VReal(0.62)))
    else if paradoxNearby then Ok(GetOr(floors, "paradox_near", VReal(0.60)))
    else Ok(GetOr(floors, "normal", VReal(0.55)))
  }

  lemma MarginOverridesParadox(cfg: PglConfig)
    ensures GraceFloor(cfg, true, true) == GraceFloor(cfg, false, true)
    ensures GraceFloor(PglConfig([], []), false, false) == Ok(VReal(0.55))
  {
  }

  /** `get_repair_horizon_days()`: `(min_days, max_days)` as floats,
    * defaulting to (1, 14). */
  function RepairHorizonDays(cfg: PglConfig): (r: Result<(real, real)>)
    ensures SubDict(cfg.gate, "repair_horizon") == Ok([]) ==> r == Ok((1.0, 14.0))
    ensures r.Ok? ==> SubDict(cfg.gate, "repair_horizon").Ok?
    ensures r.Ok? ==>
      var rh := SubDict(cfg.gate, "repair_horizon").value;
      && (Has(rh, "min_days") ==> NumOf(Get(rh, "min_days").value) == Some(r.value.0))
      && (Has(rh, "max_days") ==> NumOf(Get(rh, "max_days").value) == Some(r.value.1))
  {
    var rh :- SubDict(cfg.gate, "repair_horizon");
    var lo :- Float(GetOr(rh, "min_days", VInt(1)));
    var hi :- Float(GetOr(rh, "max_days", VInt(14)));
    Ok((lo, hi))
  }

  /** `requires_counter_context(paradox_nearby)`: never away from a
    * paradox; near one, the configured flag, true by default. */
  function RequiresCounterContext(cfg: PglConfig, paradoxNearby: bool): (r: Result<bool>)
    ensures !paradoxNearby ==> r == Ok(false)
    ensures paradoxNearby && SubDict(cfg.gate, "repair_horizon") == Ok([]) ==> r == Ok(true)
  {
    if !paradoxNearby then Ok(false)
    else
      var rh :- SubDict(cfg.gate, "repair_horizon");
      Ok(Truthy(GetOr(rh, "require_counter_context", VBool(true))))
  }

  /** `requires_micro_move(paradox_nearby)`: likewise, from the coalgebra's
    * `paradox_overrides.paradox_near.require_reversible_micro_move`. */
  function RequiresMicroMove(cfg: PglConfig, paradoxNearby: bool): (r: Result<bool>)
    ensures !paradoxNearby ==> r == Ok(false)
    ensures paradoxNearby && SubDict(cfg.pgl, "paradox_overrides") == Ok([]) ==> r == Ok(true)
  {
    if !paradoxNearby then Ok(false)
    else
      var overrides :- SubDict(cfg.pgl, "paradox_overrides");
      var near :- SubDict(overrides, "paradox_near");
      Ok(Truthy(GetOr(near, "require_reversible_micro_move", VBool(true))))
  }

  /** The flags a transition's `when` clause is matched against. */
  datatype Flags = Flags(truth: string, consentClean: Value, apophaticOk: Value, deltaEOk: bool,
                         graceOk: bool, paradoxNear: bool, microMoveOk: bool, hasRepairHorizon: bool)

  /** One `when` entry: a recognised key must equal its flag, any other key
    * is ignored. */
  predicate KeyAgrees(key: string, value: Value, fl: Flags) {
    if key == "truth_val" then PyEq(VStr(fl.truth), value)
    else if key == "consent_clean" then PyEq(fl.consentClean, value)
    else if key == "apophatic_ok" then PyEq(fl.apophaticOk, value)
    else if key == "delta_E_ok" then PyEq(VBool(fl.deltaEOk), value)
    else if key == "grace_ok" then PyEq(VBool(fl.graceOk), value)
    else if key == "paradox_near" then PyEq(VBool(fl.paradoxNear), value)
    else true
  }

  predicate WhenMatches(when: Dict, fl: Flags) {
    forall i :: 0 <= i < |when| ==> KeyAgrees(when[i].0, when[i].1, fl)
  }

  /** The conditions of a `when` clause are a conjunction: none match
    * trivially, two clauses joined match exactly when each does (so their
    * order is irrelevant), and an unrecognised key never blocks. */
  lemma WhenIsConjunction(a: Dict, b: Dict, fl: Flags, key: string, value: Value)
    ensures WhenMatches([], fl)
    ensures WhenMatches(a + b, fl) <==> WhenMatches(a, fl) && WhenMatches(b, fl)
    ensures WhenMatches(a + b, fl) <==> WhenMatches(b + a, fl)
    ensures key !in {"truth_val", "consent_clean", "apophatic_ok", "delta_E_ok", "grace_ok", "paradox_near"} ==>
      WhenMatches([(key, value)], fl)
  {
    assert forall i :: 0 <= i < |a| ==> (a + b)[i] == a[i];
    assert forall i :: 0 <= i < |b| ==> (a + b)[|a| + i] == b[i];
    assert forall i :: 0 <= i < |b| ==> (b + a)[i] == b[i];
    assert forall i :: 0 <= i < |a| ==> (b + a)[|b| + i] == a[i];
  }

  /** The inner loop over `when.items()`, stopping at the first mismatch. */
  method MatchWhen(when: Dict, fl: Flags) returns (matches: bool)
    ensures matches <==> WhenMatches(when, fl)
  {
    matches := true;
    var i := 0;
    while i < |when|
      invariant 0 <= i <= |when|
      invariant forall j :: 0 <= j < i ==> KeyAgrees(when[j].0, when[j].1, fl)
    {
      if !KeyAgrees(when[i].0, when[i].1, fl) {
        matches := false;
        break;
      }
      i := i + 1;
    }
  }

  /** `x in v` for a requirements value: list membership, substring or key;
    * a number, bool or None is not a container and raises TypeError. */
  function InValue(x: string, v: Value): (r: Result<bool>)
    ensures v.VList? ==> r == Ok(VStr(x) in v.items)
    ensures v.VDict? ==> r == Ok(Has(v.entries, x))
    ensures (v.VNone? || v.VBool? || v.VInt? || v.VReal?) ==> r == Err(TypeError)
  {
    match v
    case VList(items) => Ok(VStr(x) in items)
    case VDict(entries) => Ok(Has(entries, x))
    case VStr(s) => Ok(Contains(s, x))
    case _ => Err(TypeError)
  }

  /** What one transition does: it raises, is skipped (None), or decides. */
  function RuleOutcome(t: Value, fl: Flags): (r: Result<Option<Value>>)
    ensures r.Ok? && r.value.Some? ==> Truthy(r.value.value)
    ensures t.VDict? && GetOr(t.entries, "when", VDict([])).VDict? && !WhenMatches(GetOr(t.entries, "when", VDict([])).entries, fl)
            ==> r == Ok(None)
  {
    if !t.VDict? then Err(AttributeError("get"))
    else
      var when := GetOr(t.entries, "when", VDict([]));
      if !when.VDict? then Err(AttributeError("items"))
      else if !WhenMatches(when.entries, fl) then Ok(None)
      else
        var then_ :- SubDict(t.entries, "then");
        var decision := GetOr(then_, "decision", VNone);
        var requirements := GetOr(then_, "requirements", VList([]));
        var needMicro :- InValue("reversible_micro_move", requirements);
        if needMicro && !fl.microMoveOk then Ok(None)
        else
          var needHorizon :- InValue("repair_horizon", requirements);
          if needHorizon && !fl.hasRepairHorizon then Ok(None)
          else if Truthy(decision) then Ok(Some(decision))
          else Ok(None)
  }

  /** The scan over the transitions from `i` on. */
  function ScanFrom(ts: seq<Value>, i: nat, fl: Flags): Result<Value>
    requires i <= |ts|
    decreases |ts| - i
  {
    if i == |ts| then Ok(VStr("Stand"))
    else match RuleOutcome(ts[i], fl)
      case Err(e) => Err(e)
      case Ok(None) => ScanFrom(ts, i + 1, fl)
      case Ok(Some(d)) => Ok(d)
  }

  /** Stand when no transition from `i` on fires or raises. */
  lemma {:induction false} ScanStands(ts: seq<Value>, i: nat, fl: Flags)
    requires i <= |ts|
    requires forall j :: i <= j < |ts| ==> RuleOutcome(ts[j], fl) == Ok(None)
    ensures ScanFrom(ts, i, fl) == Ok(VStr("Stand"))
    decreases |ts| - i
  {
    if i < |ts| {
      assert RuleOutcome(ts[i], fl) == Ok(None);
      ScanStands(ts, i + 1, fl);
    }
  }

  /** The decision of the first transition that fires, when every earlier
    * one was skipped. */
  lemma {:induction false} ScanFires(ts: seq<Value>, i: nat, j: nat, fl: Flags)
    requires i <= j < |ts| && RuleOutcome(ts[j], fl).Ok? && RuleOutcome(ts[j], fl).value.Some?
    requires forall k :: i <= k < j ==> RuleOutcome(ts[k], fl) == Ok(None)
    ensures ScanFrom(ts, i, fl) == Ok(RuleOutcome(ts[j], fl).value.value)
    decreases j - i
  {
    if i < j {
      assert RuleOutcome(ts[i], fl) == Ok(None);
      ScanFires(ts, i + 1, j, fl);
    }
  }

  /** The error of the first transition that raises, when every earlier one
    * was skipped. */
  lemma {:induction false} ScanRaises(ts: seq<Value>, i: nat, j: nat, fl: Flags)
    requires i <= j < |ts| && RuleOutcome(ts[j], fl).Err?
    requires forall k :: i <= k < j ==> RuleOutcome(ts[k], fl) == Ok(None)
    ensures ScanFrom(ts, i, fl) == Err(RuleOutcome(ts[j], fl).error)
    decreases j - i
  {
    if i < j {
      assert RuleOutcome(ts[i], fl) == Ok(None);
      ScanRaises(ts, i + 1, j, fl);
    }
  }

  /** The flags of `pgl_decide`. The state's `delta_E`, `grace` and
    * `paradox_nearby` are the attributes as read with their defaults
    * (0, 0 and False); both comparisons are made only when there is an
    * action, and raise TypeError on a non-number. */
  function StateFlags(cfg: PglConfig, stateDeltaE: Value, stateGrace: Value, paradoxNear: bool,
                      actionParams: Option<Dict>, consent: Dict, logic: Dict, hasRepairHorizon: bool,
                      truth: string): (r: Result<Flags>)
    ensures r.Ok? && actionParams.None? ==> !r.value.deltaEOk && !r.value.graceOk
    ensures r.Ok? && RequiresMicroMove(cfg, paradoxNear) == Ok(false) ==> r.value.microMoveOk
    ensures r.Ok? && !paradoxNear ==> r.value.microMoveOk
    ensures r.Ok? ==> (r.value.consentClean == GetOr(consent, "ok", VBool(false))
                       && r.value.apophaticOk == GetOr(logic, "apophatic_ok", VBool(false)))
    ensures r.Ok? && actionParams.Some? ==> (r.value.deltaEOk <==> NumOf(stateDeltaE).Some? && NumOf(stateDeltaE).value < 0.0)
  {
    var consentClean := GetOr(consent, "ok", VBool(false));
    var apophaticOk := GetOr(logic, "apophatic_ok", VBool(false));
    var deltaEOk :- if actionParams.None? then Ok(false)
                    else var d :- Num(stateDeltaE); Ok(d < 0.0);
    var floor :- GraceFloor(cfg, paradoxNear, false);
    var graceOk :- if actionParams.None? then Ok(false)
                   else var g :- Num(stateGrace); var f :- Num(floor); Ok(g >= f);
    var requiresMicro :- RequiresMicroMove(cfg, paradoxNear);
    var microOk := !requiresMicro ||
                   (actionParams.Some? && Truthy(GetOr(actionParams.value, "reversible_micro_move", VBool(false))));
    Ok(Flags(truth, consentClean, apophaticOk, deltaEOk, graceOk, paradoxNear, microOk, hasRepairHorizon))
  }

  /** `pgl_decide(state, action, proofs, truth)`: the transitions are scanned
    * in order and the first that fires decides; Stand when none does. */
  method PglDecide(cfg: PglConfig, stateDeltaE: Value, stateGrace: Value, paradoxNear: bool,
                   actionParams: Option<Dict>, consent: Dict, logic: Dict, hasRepairHorizon: bool,
                   truth: string)
    returns (r: Result<Value>)
    ensures StateFlags(cfg, stateDeltaE, stateGrace, paradoxNear, actionParams, consent, logic, hasRepairHorizon, truth).Err? ==> r.Err?
    ensures var fl := StateFlags(cfg, stateDeltaE, stateGrace, paradoxNear, actionParams, consent, logic, hasRepairHorizon, truth);
      var ts := GetOr(cfg.pgl, "transitions", VList([]));
      fl.Ok? && ts.VList? ==> r == ScanFrom(ts.items, 0, fl.value)
  {
    var fl := StateFlags(cfg, stateDeltaE, stateGrace, paradoxNear, actionParams, consent, logic, hasRepairHorizon, truth);
    if fl.Err? {
      return Err(fl.error);
    }
    var transitions := GetOr(cfg.pgl, "transitions", VList([]));
    if !transitions.VList? {
      // iterating a dict or a string yields strings, which have no `.get`
      if (transitions.VDict? && transitions.entries == []) || (transitions.VStr? && transitions.s == "") {
        return Ok(VStr("Stand"));
      }
      return Err(if transitions.VDict? || transitions.VStr? then AttributeError("get") else TypeError);
    }
    var ts := transitions.items;
    var i := 0;
    while i < |ts|
      invariant 0 <= i <= |ts|
      invariant ScanFrom(ts, 0, fl.value) == ScanFrom(ts, i, fl.value)
    {
      var outcome := ApplyRule(ts[i], fl.value);
      if outcome.Err? {
        return Err(outcome.error);
      }
      if outcome.value.Some? {
        return Ok(outcome.value.value);
      }
      i := i + 1;
    }
    r := Ok(VStr("Stand"));
  }

  /** One pass of the scan loop: match the `when` clause, then check the
    * requirements and the decision of the `then` clause. */
  method ApplyRule(t: Value, fl: Flags) returns (r: Result<Option<Value>>)
    ensures r == RuleOutcome(t, fl)
  {
    if !t.VDict? {
      return Err(AttributeError("get"));
    }
    var when := GetOr(t.entries, "when", VDict([]));
    if !when.VDict? {
      return Err(AttributeError("items"));
    }
    var matches := MatchWhen(when.entries, fl);
    if !matches {
      return Ok(None);
    }
    var then_ := SubDict(t.entries, "then");
    if then_.Err? {
      return Err(then_.error);
    }
    var decision := GetOr(then_.value, "decision", VNone);
    var requirements := GetOr(then_.value, "requirements", VList([]));
    var needMicro := InValue("reversible_micro_move", requirements);
    if needMicro.Err? {
      return Err(needMicro.error);
    }
    if needMicro.value && !fl.microMoveOk {
      return Ok(None);
    }
    // `requirements` is a container by now, so this test cannot raise
    var needHorizon := InValue("repair_horizon", requirements).value;
    if needHorizon && !fl.hasRepairHorizon {
      return Ok(None);
    }
    r := if Truthy(decision) then Ok(Some(decision)) else Ok(None);
  }

  /** A planner state without `delta_E` and `grace` attributes reads them as
    * 0: the energy flag is then never set, and with the default floor of a
    * zone neither is the grace flag. */
  lemma MissingStateAttributes(cfg: PglConfig, paradoxNear: bool, params: Dict, consent: Dict, logic: Dict, hasRepairHorizon: bool, truth: string)
    requires SubDict(cfg.gate, "grace_floor_by_zone") == Ok([])
    ensures var r := StateFlags(cfg, VInt(0), VInt(0), paradoxNear, Some(params), consent, logic, hasRepairHorizon, truth);
      r.Ok? ==> !r.value.deltaEOk && !r.value.graceOk
  {
  }
}
