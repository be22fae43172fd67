// The apophatic guard: forbidden keys, constraint-only keys and warning
// markers, checked over the dotted flattening of a context and a parameter
// dictionary (core/logic/apophatic_guard.py).
module ApophaticGuard {
  import opened Values

  /** The keys whose presence rejects, in the order the model reports them
    * (the source keeps them in a set, whose iteration order Python leaves
    * unspecified). */
  const ForbiddenKeys: seq<string> :=
    ["ground_is", "ultimate_name", "final_owner", "sovereign_claim", "ground_truth", "completion"]

  /** The keys that may only hold `True` or "enforced". */
  const ConstraintOnly: seq<string> :=
    ["no_image", "no_totalization", "no_equivalence", "no_exchange", "no_possession"]

  /** The keys reported as warnings without rejecting. */
  const WarnMarkers: seq<string> := ["meta_closure", "self_grounding", "category_violation"]

  /** The key a nested entry gets: `prefix.k`, or `k` at the top level. */
  function DottedKey(prefix: string, k: string): string {
    if prefix == "" then k else prefix + "." + k
  }

  /** The writes `_flatten_dict` makes into its accumulator for the first
    * `n` entries of the dictionary `parent`, in order. */
  function FlatWritesN(parent: Value, n: nat, prefix: string): Dict
    requires parent.VDict? && n <= |parent.entries|
    decreases parent, n
  {
    if n == 0 then []
    else
      assert parent.entries[n - 1] in parent.entries;
      FlatWritesN(parent, n - 1, prefix) + EntryWrites(parent.entries[n - 1].0, parent.entries[n - 1].1, prefix)
  }

  /** The writes for one entry: a nested dictionary is flattened under the
    * dotted key, any other value is written under its key. */
  function EntryWrites(k: string, v: Value, prefix: string): Dict
    decreases v, if v.VDict? then |v.entries| + 1 else 0
  {
    if v.VDict? then FlatWritesN(v, |v.entries|, DottedKey(prefix, k))
    else [(DottedKey(prefix, k), v)]
  }

  /** The writes `_flatten_dict(d, prefix, result)` makes into `result`. */
  function FlatWrites(d: Dict, prefix: string): Dict {
    FlatWritesN(VDict(d), |d|, prefix)
  }

  lemma {:induction false} MergeAppend(a: Dict, b: Dict, c: Dict)
    ensures Merge(a, b + c) == Merge(Merge(a, b), c)
    decreases |b|
  {
    if b != [] {
      assert (b + c)[0] == b[0];
      assert (b + c)[1..] == b[1..] + c;
      MergeAppend(Put(a, b[0].0, b[0].1), b[1..], c);
    } else {
      assert b + c == c;
    }
  }

  /** `_flatten_dict(d, prefix, acc)`: fills the accumulator in place with
    * the flattened entries of `d`, later writes overriding earlier ones. */
  method FlattenInto(d: Dict, prefix: string, acc: Dict) returns (r: Dict)
    ensures r == Merge(acc, FlatWrites(d, prefix))
    decreases VDict(d), 0
  {
    r := acc;
    var i := 0;
    while i < |d|
      invariant 0 <= i <= |d|
      invariant r == Merge(acc, FlatWritesN(VDict(d), i, prefix))
    {
      assert d[i] in d;
      MergeAppend(acc, FlatWritesN(VDict(d), i, prefix), EntryWrites(d[i].0, d[i].1, prefix));
      r := FlattenEntry(d[i].0, d[i].1, prefix, r);
      i := i + 1;
    }
  }

  /** One iteration of `_flatten_dict`'s loop. */
  method FlattenEntry(k: string, v: Value, prefix: string, acc: Dict) returns (r: Dict)
    ensures r == Merge(acc, EntryWrites(k, v, prefix))
    decreases v, 1
  {
    if v.VDict? {
      r := FlattenInto(v.entries, DottedKey(prefix, k), acc);
    } else {
      r := Put(acc, DottedKey(prefix, k), v);
      assert Merge(acc, [(DottedKey(prefix, k), v)]) == Merge(r, []);
    }
  }

  /** `_flatten_dict(d)` */
  function Flatten(d: Dict): Dict {
    Merge([], FlatWrites(d, ""))
  }

  /** `{**_flatten_dict(context), **_flatten_dict(params)}` */
  function Combined(context: Dict, params: Dict): Dict {
    Merge(Flatten(context), Flatten(params))
  }

  /** The keys of `keys` that `c` holds, in order. */
  function Present(c: Dict, keys: seq<string>): (r: seq<string>)
    ensures forall k :: k in r <==> k in keys && Has(c, k)
  {
    if keys == [] then []
    else (if Has(c, keys[0]) then [keys[0]] else []) + Present(c, keys[1..])
  }

  /** The constraint keys of `keys` that `c` holds with an unaccepted value. */
  function Violated(c: Dict, keys: seq<string>): (r: seq<string>)
    ensures forall k :: k in r <==> k in keys && Has(c, k) && !TrueOrEnforced(Get(c, k).value)
  {
    if keys == [] then []
    else (if Has(c, keys[0]) && !TrueOrEnforced(Get(c, keys[0]).value) then [keys[0]] else [])
         + Violated(c, keys[1..])
  }

  /** `admissible(context, params)`: no dotted key of the combined
    * flattening is forbidden, and every constraint-only key it holds is
    * `True` or "enforced" (Python's `==` lets `1` and `1.0` pass as `True`). */
  predicate Admissible(context: Dict, params: Dict) {
    var c := Combined(context, params);
    (forall k :: k in ForbiddenKeys ==> !Has(c, k)) &&
    (forall k :: k in ConstraintOnly && Has(c, k) ==> TrueOrEnforced(Get(c, k).value))
  }

  function Prefixed(tag: string, ks: seq<string>): (r: seq<string>)
    ensures |r| == |ks|
  {
    if ks == [] then [] else [tag + ks[0]] + Prefixed(tag, ks[1..])
  }

  /** `check_detailed(context, params)`: the verdict and the reasons, first
    * "forbidden:k", then "constraint_violation:k", then "warning:k". */
  function CheckDetailed(context: Dict, params: Dict): (r: (bool, seq<string>))
    ensures r.0 <==> Admissible(context, params)
    ensures r.0 <==> |r.1| == |Present(Combined(context, params), WarnMarkers)|
  {
    var c := Combined(context, params);
    var forbidden := Present(c, ForbiddenKeys);
    var violated := Violated(c, ConstraintOnly);
    var reasons := Prefixed("forbidden:", forbidden) + Prefixed("constraint_violation:", violated);
    var warnings := Prefixed("warning:", Present(c, WarnMarkers));
    assert forbidden == [] <==> forall k :: k in ForbiddenKeys ==> !Has(c, k) by {
      if forbidden != [] { assert forbidden[0] in forbidden; }
    }
    assert violated == [] <==>
      forall k :: k in ConstraintOnly && Has(c, k) ==> TrueOrEnforced(Get(c, k).value) by {
      if violated != [] { assert violated[0] in violated; }
    }
    (|reasons| == 0, reasons + warnings)
  }

  lemma {:induction false} PutKeepsKeysUnique(d: Dict, k: string, v: Value)
    requires UniqueKeys(d)
    ensures UniqueKeys(Put(d, k, v))
  {
    if d != [] && d[0].0 != k {
      PutKeepsKeysUnique(d[1..], k, v);
      var t := Put(d[1..], k, v);
      forall j | 0 <= j < |t| ensures t[j].0 != d[0].0 {
        if t[j].0 == d[0].0 {
          assert t[j] in t;
          InHas(t, d[0].0, t[j].1);
          PutGet(d[1..], k, v, d[0].0);
          GetIn(d[1..], d[0].0);
          assert false;
        }
      }
    }
  }

  lemma {:induction false} MergeKeepsKeysUnique(a: Dict, b: Dict)
    requires UniqueKeys(a)
    ensures UniqueKeys(Merge(a, b))
    decreases |b|
  {
    if b != [] {
      PutKeepsKeysUnique(a, b[0].0, b[0].1);
      MergeKeepsKeysUnique(Put(a, b[0].0, b[0].1), b[1..]);
    }
  }

  /** A flattened dictionary, and the combination of two, has each dotted
    * key once. */
  lemma FlattenUnique(d: Dict, context: Dict, params: Dict)
    ensures UniqueKeys(Flatten(d))
    ensures UniqueKeys(Combined(context, params))
  {
    MergeKeepsKeysUnique([], FlatWrites(d, ""));
    MergeKeepsKeysUnique([], FlatWrites(context, ""));
    MergeKeepsKeysUnique(Flatten(context), Flatten(params));
  }

  /** For every dotted key, the parameters' value wins over the context's. */
  lemma ParamsOverrideContext(context: Dict, params: Dict, k: string)
    ensures Get(Combined(context, params), k) ==
      if Has(Flatten(params), k) then Get(Flatten(params), k) else Get(Flatten(context), k)
  {
    MergeKeepsKeysUnique([], FlatWrites(params, ""));
    MergeGet(Flatten(context), Flatten(params), k);
  }

  /** So a constraint key set to `True` in the parameters hides a violating
    * value for it in the context, and a forbidden key anywhere rejects. */
  lemma ParamsMaskContextConstraint(context: Dict, params: Dict, k: string)
    requires k in ConstraintOnly
    requires Get(Flatten(params), k) == Some(VBool(true))
    ensures Get(Combined(context, params), k) == Some(VBool(true))
    ensures forall f :: f in ForbiddenKeys && Has(Flatten(context), f) ==> !Admissible(context, params)
  {
    ParamsOverrideContext(context, params, k);
    forall f | f in ForbiddenKeys && Has(Flatten(context), f) ensures !Admissible(context, params) {
      ParamsOverrideContext(context, params, f);
    }
  }

  /** The module's nested example flattens to one dotted key. */
  lemma NestedExampleFlattens()
    ensures Flatten([("deep", VDict([("deeper", VDict([("ground_is", VStr("hidden here"))]))]))])
         == [("deep.deeper.ground_is", VStr("hidden here"))]
  {
    var leaf := VStr("hidden here");
    var inner := VDict([("ground_is", leaf)]);
    var mid := VDict([("deeper", inner)]);
    var nested := [("deep", mid)];
    assert DottedKey("deep", "deeper") == "deep.deeper";
    assert DottedKey("deep.deeper", "ground_is") == "deep.deeper.ground_is";
    assert FlatWritesN(inner, 0, "deep.deeper") == [];
    assert FlatWritesN(inner, 1, "deep.deeper") == [("deep.deeper.ground_is", leaf)];
    assert FlatWritesN(mid, 0, "deep") == [];
    assert FlatWritesN(mid, 1, "deep") == [("deep.deeper.ground_is", leaf)];
    assert DottedKey("", "deep") == "deep";
    assert FlatWritesN(VDict(nested), 0, "") == [];
    assert FlatWritesN(VDict(nested), 1, "") == FlatWritesN(mid, 1, "deep");
    var c := [("deep.deeper.ground_is", leaf)];
    assert c[1..] == [];
    assert Put([], c[0].0, c[0].1) == c;
    assert Merge([], c) == Merge(c, []) == c;
  }

  /** A forbidden key nested below the top level is flattened to a dotted key
    * and so is not caught: the module's own nested example is admitted. */
  lemma NestedForbiddenKeyIsAdmitted()
    ensures var nested := [("deep", VDict([("deeper", VDict([("ground_is", VStr("hidden here"))]))]))];
      && Admissible([], nested)
      && CheckDetailed([], nested).0
  {
    var nested := [("deep", VDict([("deeper", VDict([("ground_is", VStr("hidden here"))]))]))];
    var c := [("deep.deeper.ground_is", VStr("hidden here"))];
    NestedExampleFlattens();
    assert c[1..] == [];
    assert Merge(c, c) == Merge(Put(c, c[0].0, c[0].1), []);
    assert Put(c, c[0].0, c[0].1) == c;
    assert Combined([], nested) == c;
    forall k | k in ForbiddenKeys ensures !Has(c, k) {
      assert |k| < |"deep.deeper.ground_is"|;
      assert c[0].0 != k;
      assert Get(c, k) == Get(c[1..], k) == Get([], k);
    }
    forall k | k in ConstraintOnly ensures !Has(c, k) {
      assert |k| < |"deep.deeper.ground_is"|;
      assert c[0].0 != k;
      assert Get(c, k) == Get(c[1..], k) == Get([], k);
    }
  }
}
