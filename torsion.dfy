// The torsion modal (core/spiral/torsion_modal.py): a switch with a field
// strength, a list of hooks, and the rewriting of an action's parameters
// when the state calls for torsion. The state and the action are arbitrary
// Python objects that the code inspects with `hasattr`; they are modelled by
// their attribute dictionaries.
module Torsion {
  import opened Values

  datatype Mode = Passive | Active | Hybrid

  /** `TorsionParameters` */
  datatype Params = Params(enabled: bool, mode: Mode, activationThreshold: real,
                           twistFactor: real, manifoldDimension: int, singularityBuffer: real,
                           interlaceCoupling: bool, throneFiberEnabled: bool,
                           paradoxAvoidanceStrength: real)

  const DefaultParams := Params(false, Passive, 0.65, 1.0, 3, 0.2, false, false, 0.7)

  /** An action: its attributes, and whether it can be copied (it has
    * `clone`, or its type builds an empty instance whose attributes can be
    * set one by one). A copy has the same attributes. */
  datatype Action = Action(attrs: Dict, copyable: bool)

  /** The torsion data `_calculate_torsion` returns, whose "applied" entry is
    * always True. */
  datatype TorsionData = TorsionData(required: real, fieldStrength: real, singularities: Value)

  /** What `apply_torsion` returns beside the action: `{"applied": False}`,
    * possibly with a reason, or the torsion data. */
  datatype Outcome = NotApplied(reason: Option<string>) | Applied(data: TorsionData)

  /** A hook `(state, action, torsion_data) -> action`; None when it raises. */
  type Hook = (Dict, Action, TorsionData) -> Option<Action>

  // ----- Reading Python objects

  /** `key in v`: a key of a dict, an item of a list, a substring of a
    * string; anything else raises TypeError. */
  function In(key: string, v: Value): (r: Result<bool>)
    ensures v.VDict? ==> r == Ok(Has(v.entries, key))
    ensures !(v.VDict? || v.VList? || v.VStr?) ==> r == Err(TypeError)
  {
    match v
    case VDict(d) => Ok(Has(d, key))
    case VList(xs) => Ok(VStr(key) in xs)
    case VStr(s) => Ok(Contains(s, key))
    case _ => Err(TypeError)
  }

  /** `v[key]` for a string key: only a dict can be indexed by one. */
  function Index(v: Value, key: string): (r: Result<Value>)
    ensures r.Ok? <==> v.VDict? && Has(v.entries, key)
    ensures r.Ok? ==> Get(v.entries, key) == Some(r.value)
  {
    match v
    case VDict(d) => Subscript(d, key)
    case _ => Err(TypeError)
  }

  /** The state has a non-empty list of discontinuities. */
  predicate Discontinuous(state: Dict) {
    Has(state, "discontinuities") &&
    Get(state, "discontinuities").value.VList? &&
    |Get(state, "discontinuities").value.items| > 0
  }

  /** `hasattr(state, "paradox_nearby") and state.paradox_nearby` */
  predicate ParadoxNearby(state: Dict) {
    Has(state, "paradox_nearby") && Truthy(Get(state, "paradox_nearby").value)
  }

  /** `hasattr(action, "params") and action.params` */
  predicate HasParams(action: Action) {
    Has(action.attrs, "params") && Truthy(Get(action.attrs, "params").value)
  }

  /** The singularity proximity an action declares: `float(params["singularity_proximity"])`
    * when its parameters hold that key, None when they do not, and the
    * error the membership test, the subscript or the conversion raises. */
  function Proximity(action: Action): (r: Result<Option<real>>)
    ensures !HasParams(action) ==> r == Ok(None)
  {
    if !HasParams(action) then Ok(None)
    else
      var params := Get(action.attrs, "params").value;
      match In("singularity_proximity", params)
      case Err(e) => Err(e)
      case Ok(false) => Ok(None)
      case Ok(true) =>
        match Index(params, "singularity_proximity")
        case Err(e) => Err(e)
        case Ok(v) =>
          match Float(v)
          case Err(e) => Err(e)
          case Ok(x) => Ok(Some(x))
  }

  // ----- _calculate_torsion

  /** `_calculate_torsion(state, action)` with field strength `field`. The
    * zero twist vector it starts from cannot have a negative dimension
    * (numpy raises ValueError). */
  function Calculate(p: Params, field: real, state: Dict, action: Action): (r: Result<TorsionData>)
    ensures r.Ok? <==> p.manifoldDimension >= 0 && Proximity(action).Ok?
    ensures p.manifoldDimension < 0 ==> r == Err(ValueError)
    ensures p.manifoldDimension >= 0 && Proximity(action).Err? ==> r == Err(Proximity(action).error)
    ensures r.Ok? ==> r.value.fieldStrength == field
  {
    if p.manifoldDimension < 0 then Err(ValueError) else
    var fromDisc := if Discontinuous(state) then 0.7 else 0.0;
    var singularities := if Discontinuous(state) then Get(state, "discontinuities").value else VList([]);
    var fromParadox := if ParadoxNearby(state) then Max(fromDisc, 0.8 * p.paradoxAvoidanceStrength) else fromDisc;
    match Proximity(action)
    case Err(e) => Err(e)
    case Ok(None) => Ok(TorsionData(fromParadox, field, singularities))
    case Ok(Some(x)) => Ok(TorsionData(Max(fromParadox, x), field, singularities))
  }

  /** The torsion required is the largest of the terms that apply: 0, 0.7
    * for discontinuities, 0.8 times the avoidance strength near a paradox,
    * and the action's singularity proximity. */
  lemma RequiredIsLargestTerm(p: Params, field: real, state: Dict, action: Action)
    requires Calculate(p, field, state, action).Ok?
    ensures Calculate(p, field, state, action).value.required >= 0.0
    ensures Discontinuous(state) ==> Calculate(p, field, state, action).value.required >= 0.7
    ensures ParadoxNearby(state) ==>
      Calculate(p, field, state, action).value.required >= 0.8 * p.paradoxAvoidanceStrength
    ensures Proximity(action).value.Some? ==>
      Calculate(p, field, state, action).value.required >= Proximity(action).value.value
    ensures Calculate(p, field, state, action).value.required == 0.0 ||
      (Discontinuous(state) && Calculate(p, field, state, action).value.required == 0.7) ||
      (ParadoxNearby(state) && Calculate(p, field, state, action).value.required == 0.8 * p.paradoxAvoidanceStrength) ||
      (Proximity(action).value.Some? && Calculate(p, field, state, action).value.required == Proximity(action).value.value)
  {
  }

  /** The singularities are the state's discontinuities when it has some,
    * and an empty list otherwise. */
  lemma Singularities(p: Params, field: real, state: Dict, action: Action)
    requires Calculate(p, field, state, action).Ok?
    ensures Discontinuous(state) ==>
      Calculate(p, field, state, action).value.singularities == Get(state, "discontinuities").value
    ensures !Discontinuous(state) ==> Calculate(p, field, state, action).value.singularities == VList([])
  {
  }

  /** A proximity read from a dict of parameters: present and numeric gives
    * its value, absent gives none, and a string raises ValueError. */
  lemma ProximityOfDict(action: Action, d: Dict)
    requires Has(action.attrs, "params") && Get(action.attrs, "params").value == VDict(d) && d != []
    ensures !Has(d, "singularity_proximity") ==> Proximity(action) == Ok(None)
    ensures Has(d, "singularity_proximity") && NumOf(Get(d, "singularity_proximity").value).Some? ==>
      Proximity(action) == Ok(Some(NumOf(Get(d, "singularity_proximity").value).value))
    ensures Has(d, "singularity_proximity") && Get(d, "singularity_proximity").value.VStr? ==>
      Proximity(action) == Err(ValueError)
  {
  }

  // ----- _apply_transformation

  /** `caution * (1 + avoidance * proximity)` */
  function Scaled(caution: real, avoidance: real, proximity: real): real {
    caution * (1.0 + avoidance * proximity)
  }

  /** The new caution at proximity `proximity`: the present caution scaled
    * by `1 + avoidance * proximity` (TypeError when it is not a number), or
    * `avoidance * proximity` when there is none. */
  function Caution(avoidance: real, proximity: real, d: Dict): (r: Result<real>)
    ensures Has(d, "caution") ==> (r.Ok? <==> NumOf(Get(d, "caution").value).Some?)
    ensures Has(d, "caution") && r.Err? ==> r.error == TypeError
    ensures Has(d, "caution") && r.Ok? ==> r.value == Scaled(NumOf(Get(d, "caution").value).value, avoidance, proximity)
    ensures !Has(d, "caution") ==> r == Ok(avoidance * proximity)
  {
    if Has(d, "caution") then
      match Num(Get(d, "caution").value)
      case Err(e) => Err(e)
      case Ok(c) => Ok(Scaled(c, avoidance, proximity))
    else Ok(avoidance * proximity)
  }

  /** The paradox-avoidance step on the (already marked) parameters `d`. */
  function Avoid(avoidance: real, d: Dict): (r: Result<Dict>)
  {
    if !Has(d, "paradox_proximity") then Ok(d)
    else
      match Float(Get(d, "paradox_proximity").value)
      case Err(e) => Err(e)
      case Ok(proximity) =>
        if proximity <= 0.5 then Ok(d)
        else
          match Caution(avoidance, proximity, d)
          case Err(e) => Err(e)
          case Ok(c) => Ok(Put(Put(d, "caution", VReal(c)), "reversible_micro_move", VBool(true)))
  }

  /** The parameters after the torsion marks. */
  function Marked(d: Dict, required: real): Dict {
    Put(Put(d, "torsion_applied", VBool(true)), "torsion_strength", VReal(required))
  }

  /** The marks set `torsion_applied` and `torsion_strength` and keep every
    * other parameter. */
  lemma MarkedFacts(d: Dict, required: real, key: string)
    ensures Get(Marked(d, required), "torsion_applied") == Some(VBool(true))
    ensures Get(Marked(d, required), "torsion_strength") == Some(VReal(required))
    ensures key != "torsion_applied" && key != "torsion_strength" ==> Get(Marked(d, required), key) == Get(d, key)
  {
    var d1 := Put(d, "torsion_applied", VBool(true));
    PutGet(d1, "torsion_strength", VReal(required), "torsion_applied");
    PutGet(d1, "torsion_strength", VReal(required), "torsion_strength");
    PutGet(d1, "torsion_strength", VReal(required), key);
    PutGet(d, "torsion_applied", VBool(true), "torsion_applied");
    PutGet(d, "torsion_applied", VBool(true), key);
  }

  /** The parameters dict of an action whose `params` attribute is a dict. */
  predicate DictParams(action: Action) {
    Has(action.attrs, "params") && Get(action.attrs, "params").value.VDict?
  }

  /** `_apply_transformation(action, torsion_data)`, where `required` is
    * the torsion required. */
  function Transform(p: Params, action: Action, required: real): (r: Result<Action>)
    ensures !(action.copyable && DictParams(action)) ==> r == Ok(action)
  {
    if !(action.copyable && DictParams(action)) then Ok(action)
    else
      match Avoid(p.paradoxAvoidanceStrength, Marked(Get(action.attrs, "params").value.entries, required))
      case Err(e) => Err(e)
      case Ok(d) => Ok(action.(attrs := Put(action.attrs, "params", VDict(d))))
  }

  /** A transformed action records that torsion was applied and its
    * strength; only its `params` attribute changes. */
  lemma TransformMarks(p: Params, action: Action, required: real, key: string)
    requires action.copyable && DictParams(action)
    requires Transform(p, action, required).Ok?
    ensures key != "params" ==> Get(Transform(p, action, required).value.attrs, key) == Get(action.attrs, key)
    ensures DictParams(Transform(p, action, required).value)
    ensures Get(Get(Transform(p, action, required).value.attrs, "params").value.entries, "torsion_applied") == Some(VBool(true))
    ensures Get(Get(Transform(p, action, required).value.attrs, "params").value.entries, "torsion_strength") == Some(VReal(required))
  {
    var d := Get(action.attrs, "params").value.entries;
    var m := Marked(d, required);
    var d' := Avoid(p.paradoxAvoidanceStrength, m).value;
    PutGet(action.attrs, "params", VDict(d'), key);
    PutGet(action.attrs, "params", VDict(d'), "params");
    AvoidKeeps(p.paradoxAvoidanceStrength, m, "torsion_applied");
    AvoidKeeps(p.paradoxAvoidanceStrength, m, "torsion_strength");
    PutGet(Put(d, "torsion_applied", VBool(true)), "torsion_strength", VReal(required), "torsion_applied");
    PutGet(d, "torsion_applied", VBool(true), "torsion_applied");
    PutGet(Put(d, "torsion_applied", VBool(true)), "torsion_strength", VReal(required), "torsion_strength");
  }

  /** Paradox avoidance touches only "caution" and "reversible_micro_move". */
  lemma AvoidKeeps(avoidance: real, d: Dict, key: string)
    requires Avoid(avoidance, d).Ok?
    requires key != "caution" && key != "reversible_micro_move"
    ensures Get(Avoid(avoidance, d).value, key) == Get(d, key)
  {
    if Has(d, "paradox_proximity") && Float(Get(d, "paradox_proximity").value).value > 0.5 {
      var proximity := Float(Get(d, "paradox_proximity").value).value;
      var c := VReal(Caution(avoidance, proximity, d).value);
      assert Avoid(avoidance, d).value == Put(Put(d, "caution", c), "reversible_micro_move", VBool(true));
      PutGet(Put(d, "caution", c), "reversible_micro_move", VBool(true), key);
      PutGet(d, "caution", c, key);
    }
  }

  /** With no proximity, or one at or below 0.5, paradox avoidance changes nothing. */
  lemma AvoidUnchanged(avoidance: real, d: Dict)
    requires !Has(d, "paradox_proximity") ||
             (Float(Get(d, "paradox_proximity").value).Ok? && Float(Get(d, "paradox_proximity").value).value <= 0.5)
    ensures Avoid(avoidance, d) == Ok(d)
  {
  }

  /** Past the 0.5 proximity mark the action becomes more cautious and is
    * marked reversible: an existing caution is scaled by 1 + avoidance times
    * proximity, a missing one is set to avoidance times proximity. */
  lemma AvoidCaution(avoidance: real, d: Dict, proximity: real)
    requires Has(d, "paradox_proximity") && Float(Get(d, "paradox_proximity").value) == Ok(proximity)
    requires proximity > 0.5
    requires Avoid(avoidance, d).Ok?
    ensures Get(Avoid(avoidance, d).value, "reversible_micro_move") == Some(VBool(true))
    ensures Has(d, "caution") ==>
      Get(Avoid(avoidance, d).value, "caution") ==
        Some(VReal(Scaled(NumOf(Get(d, "caution").value).value, avoidance, proximity)))
    ensures !Has(d, "caution") ==>
      Get(Avoid(avoidance, d).value, "caution") == Some(VReal(avoidance * proximity))
  {
    var c := VReal(Caution(avoidance, proximity, d).value);
    assert Avoid(avoidance, d).value == Put(Put(d, "caution", c), "reversible_micro_move", VBool(true));
    PutGet(Put(d, "caution", c), "reversible_micro_move", VBool(true), "reversible_micro_move");
    PutGet(Put(d, "caution", c), "reversible_micro_move", VBool(true), "caution");
    PutGet(d, "caution", c, "caution");
  }

  /** A caution that is not a number cannot be scaled: TypeError. */
  lemma CautionNotNumber(avoidance: real, d: Dict)
    requires Has(d, "paradox_proximity") && Float(Get(d, "paradox_proximity").value).Ok?
    requires Float(Get(d, "paradox_proximity").value).value > 0.5
    requires Has(d, "caution") && NumOf(Get(d, "caution").value).None?
    ensures Avoid(avoidance, d) == Err(TypeError)
  {
  }

  // ----- Hooks

  /** One hook: its result, or the action unchanged when it raises. */
  function Step(h: Hook, state: Dict, a: Action, data: TorsionData): Action {
    match h(state, a, data)
    case Some(b) => b
    case None => a
  }

  /** The hooks run in order, each on the action the previous one left. */
  function RunHooks(hooks: seq<Hook>, state: Dict, a: Action, data: TorsionData): Action
  {
    if |hooks| == 0 then a else RunHooks(hooks[1..], state, Step(hooks[0], state, a, data), data)
  }

  /** Registration order: a hook registered last runs last. */
  lemma {:induction false} RunHooksLast(hooks: seq<Hook>, h: Hook, state: Dict, a: Action, data: TorsionData)
    ensures RunHooks(hooks + [h], state, a, data) == Step(h, state, RunHooks(hooks, state, a, data), data)
  {
    if |hooks| > 0 {
      assert (hooks + [h])[1..] == hooks[1..] + [h];
      RunHooksLast(hooks[1..], h, state, Step(hooks[0], state, a, data), data);
    }
  }

  /** Hooks that always raise leave the action as it was. */
  lemma {:induction false} RaisingHooksKeep(hooks: seq<Hook>, state: Dict, a: Action, data: TorsionData)
    requires forall i :: 0 <= i < |hooks| ==> hooks[i](state, a, data).None?
    ensures RunHooks(hooks, state, a, data) == a
  {
    if |hooks| > 0 {
      RaisingHooksKeep(hooks[1..], state, a, data);
    }
  }

  /** A hook that raises on everything can be dropped from the list without
    * changing the outcome: it is skipped. */
  lemma {:induction false} RaisingHookSkipped(hooks: seq<Hook>, i: int, state: Dict, a: Action, data: TorsionData)
    requires 0 <= i < |hooks|
    requires forall b :: hooks[i](state, b, data).None?
    ensures RunHooks(hooks, state, a, data) == RunHooks(hooks[..i] + hooks[i + 1..], state, a, data)
  {
    if i == 0 {
      assert hooks[..0] + hooks[1..] == hooks[1..];
    } else {
      assert (hooks[..i] + hooks[i + 1..])[1..] == hooks[1..][..i - 1] + hooks[1..][i..];
      RaisingHookSkipped(hooks[1..], i - 1, state, Step(hooks[0], state, a, data), data);
    }
  }

  /** `hooks.pop(id)`: the hooks after `id` move down by one. */
  lemma RemovalShifts(hooks: seq<Hook>, id: int)
    requires 0 <= id < |hooks|
    ensures |hooks[..id] + hooks[id + 1..]| == |hooks| - 1
    ensures forall j :: 0 <= j < id ==> (hooks[..id] + hooks[id + 1..])[j] == hooks[j]
    ensures forall j :: id < j < |hooks| ==> (hooks[..id] + hooks[id + 1..])[j - 1] == hooks[j]
  {
  }

  // ----- The modal

  class TorsionModal {
    const params: Params
    var active: bool
    var fieldStrength: real
    var hooks: seq<Hook>

    /** The field is at its minimal strength 0.1 while active and 0 while not. */
    ghost predicate Valid()
      reads this
    {
      if active then fieldStrength == 0.1 else fieldStrength == 0.0
    }

    /** `TorsionModal(params)`: the given parameters or the defaults,
      * inactive, no field, no hooks. */
    constructor (given: Option<Params>)
      ensures params == (if given.Some? then given.value else DefaultParams)
      ensures !active && fieldStrength == 0.0 && hooks == []
      ensures Valid()
    {
      params := if given.Some? then given.value else DefaultParams;
      active := false;
      fieldStrength := 0.0;
      hooks := [];
    }

    /** `activate()`: refused when the parameters disable the modal;
      * otherwise active at minimal field strength. */
    method Activate() returns (ok: bool)
      requires Valid()
      modifies this
      ensures Valid()
      ensures ok == params.enabled
      ensures !ok ==> active == old(active) && fieldStrength == old(fieldStrength)
      ensures ok ==> active && fieldStrength == 0.1
      ensures hooks == old(hooks)
    {
      if !params.enabled {
        return false;
      }
      active := true;
      fieldStrength := 0.1;
      return true;
    }

    /** `deactivate()`: inactive with no field. */
    method Deactivate()
      requires Valid()
      modifies this
      ensures Valid()
      ensures !active && fieldStrength == 0.0
      ensures hooks == old(hooks)
    {
      if active {
        active := false;
        fieldStrength := 0.0;
      }
    }

    /** `register_hook(hook)`: appended; its id is its position. */
    method RegisterHook(h: Hook) returns (id: int)
      modifies this
      ensures id == |old(hooks)| && hooks == old(hooks) + [h] && hooks[id] == h
      ensures active == old(active) && fieldStrength == old(fieldStrength)
    {
      id := |hooks|;
      hooks := hooks + [h];
    }

    /** `remove_hook(id)`: only an id in range removes a hook. */
    method RemoveHook(id: int) returns (ok: bool)
      modifies this
      ensures ok <==> 0 <= id < |old(hooks)|
      ensures ok ==> hooks == old(hooks)[..id] + old(hooks)[id + 1..]
      ensures !ok ==> hooks == old(hooks)
      ensures active == old(active) && fieldStrength == old(fieldStrength)
    {
      if 0 <= id < |hooks| {
        hooks := hooks[..id] + hooks[id + 1..];
        return true;
      }
      return false;
    }

    /** `apply_torsion(state, action)`: nothing happens while inactive or
      * passive, nor below the activation threshold; otherwise the action is
      * transformed and handed through the hooks in order. An error while
      * reading the action's parameters propagates. */
    method ApplyTorsion(state: Dict, action: Action) returns (r: Result<(Action, Outcome)>)
      requires Valid()
      ensures !active || params.mode == Passive ==> r == Ok((action, NotApplied(None)))
      ensures active && params.mode != Passive && Calculate(params, fieldStrength, state, action).Err? ==>
        r == Err(Calculate(params, fieldStrength, state, action).error)
      ensures (active && params.mode != Passive && Calculate(params, fieldStrength, state, action).Ok? &&
               Calculate(params, fieldStrength, state, action).value.required < params.activationThreshold) ==>
        r == Ok((action, NotApplied(Some("below_threshold"))))
      ensures r.Ok? && r.value.1.Applied? <==>
        active && params.mode != Passive && Calculate(params, fieldStrength, state, action).Ok? &&
        Calculate(params, fieldStrength, state, action).value.required >= params.activationThreshold &&
        Transform(params, action, Calculate(params, fieldStrength, state, action).value.required).Ok?
      ensures r.Ok? && r.value.1.Applied? ==>
        r.value.1.data == Calculate(params, fieldStrength, state, action).value &&
        r.value.1.data.fieldStrength == 0.1 &&
        r.value.0 == RunHooks(hooks, state, Transform(params, action, r.value.1.data.required).value, r.value.1.data)
      ensures active && params.mode != Passive && Calculate(params, fieldStrength, state, action).Ok? &&
              Calculate(params, fieldStrength, state, action).value.required >= params.activationThreshold &&
              Transform(params, action, Calculate(params, fieldStrength, state, action).value.required).Err? ==>
        r == Err(Transform(params, action, Calculate(params, fieldStrength, state, action).value.required).error)
      ensures r.Err? ==> active && params.mode != Passive
    {
      if !active || params.mode == Passive {
        return Ok((action, NotApplied(None)));
      }
      var calculated := Calculate(params, fieldStrength, state, action);
      if calculated.Err? {
        return Err(calculated.error);
      }
      var data := calculated.value;
      if data.required < params.activationThreshold {
        return Ok((action, NotApplied(Some("below_threshold"))));
      }
      var transformed := Transform(params, action, data.required);
      if transformed.Err? {
        return Err(transformed.error);
      }
      var modified := transformed.value;
      var i := 0;
      while i < |hooks|
        invariant 0 <= i <= |hooks|
        invariant RunHooks(hooks, state, transformed.value, data) == RunHooks(hooks[i..], state, modified, data)
      {
        assert hooks[i..][1..] == hooks[i + 1..];
        var out := hooks[i](state, modified, data);
        if out.Some? {
          modified := out.value;
        }
        i := i + 1;
      }
      return Ok((modified, Applied(data)));
    }
  }
}
