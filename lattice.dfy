// The memory lattice L0–L15 (core/memory/lattice.py): items are mirrored
// into the hypergraph store and, when they carry a vector, sent to the
// vector service; recall runs a search per layer, normalises and biases the
// scores, and merges the layers by taking each id's best score.
//
// The vector service is outside the model: upserts are recorded as the
// requests the lattice sends, and a search is a function from collection,
// query vector and k to the hits, or None when the service is unavailable.
// `exp(-x)` is a parameter with the range of the exponential.
module Lattice {
  import opened Values
  import Sorting
  import HG = HypergraphStore

  /** `LAYER_NAMES` */
  const LayerNames: seq<string> :=
    ["L0", "L1", "L2", "L3", "L4", "L5", "L6", "L7", "L8", "L9", "L10", "L11", "L12", "L13", "L14", "L15"]

  /** The remembrance anchors used when no vows file names others. */
  const DefaultAnchors: set<string> := {"L0", "L10", "L12", "L13"}

  /** `MemoryItem` */
  datatype MemoryItem = MemoryItem(id: string, layer: string, score: real, vector: Option<seq<real>>, payload: Value)

  /** `IntersectResult`; `byLayer` keeps the dictionary's insertion order. */
  datatype IntersectResult = IntersectResult(items: seq<MemoryItem>, byLayer: seq<(string, seq<MemoryItem>)>,
                                             diagnostics: Dict)

  /** One search hit: `(id, score, payload)`. */
  datatype Hit = Hit(pid: string, score: real, payload: Value)

  /** A point sent to the vector service. */
  datatype VectorPoint = VectorPoint(id: string, vector: seq<real>, payload: Value)

  /** One `upsert_vectors(collection, points)` request. */
  datatype UpsertRequest = UpsertRequest(collection: string, points: seq<VectorPoint>)

  /** The vector search: hits for a collection, query and k, or None when
    * the service raises QdrantNotAvailable. */
  type Search = (string, seq<real>, int) -> Option<seq<Hit>>

  /** `f"{prefix}_{layer}"` */
  function Collection(prefix: string, layer: string): string {
    prefix + "_" + layer
  }

  /** `payload.get("label", layer)` */
  function LabelOf(payload: Dict, layer: string): (r: Value)
    ensures !Has(payload, "label") ==> r == VStr(layer)
    ensures Has(payload, "label") ==> Get(payload, "label") == Some(r)
  {
    GetOr(payload, "label", VStr(layer))
  }

  /** What `math.exp(-x)` satisfies on [0, 2]: it is 1 at 0 and lies in
    * (0, 1]. */
  ghost predicate ExpNegInRange(expNeg: real -> real) {
    expNeg(0.0) == 1.0 && forall x :: 0.0 <= x <= 2.0 ==> 0.0 < expNeg(x) <= 1.0
  }

  // ----- Scores --------------------------------------------------------------

  /** `_normalize_score(raw)`: a distance in [0, 2] becomes `exp(-raw)`;
    * anything else is clamped to [0, 1]. */
  function NormalizeScore(expNeg: real -> real, raw: real): (r: real)
    ensures 0.0 <= raw <= 2.0 ==> r == expNeg(raw)
    ensures raw < 0.0 ==> r == 0.0
    ensures raw > 2.0 ==> r == 1.0
    ensures ExpNegInRange(expNeg) ==> 0.0 <= r <= 1.0
  {
    if 0.0 <= raw <= 2.0 then expNeg(raw) else Clamp01(raw)
  }

  /** The score an item of layer `layer` gets: normalised, and raised by
    * `bias` in an anchor layer, capped at 1. */
  function ItemScore(expNeg: real -> real, anchors: set<string>, layer: string, raw: real, bias: real): (r: real)
    ensures layer !in anchors ==> r == NormalizeScore(expNeg, raw)
    ensures layer in anchors ==> r <= 1.0
    ensures layer in anchors && NormalizeScore(expNeg, raw) + bias <= 1.0 ==> r == NormalizeScore(expNeg, raw) + bias
    ensures layer in anchors && NormalizeScore(expNeg, raw) + bias >= 1.0 ==> r == 1.0
    ensures ExpNegInRange(expNeg) && bias >= 0.0 ==> 0.0 <= r <= 1.0
  {
    var norm := NormalizeScore(expNeg, raw);
    if layer in anchors then Min(1.0, norm + bias) else norm
  }

  /** The fallback when the vector service is unavailable: the layer's
    * latest nodes, with raw score 0. */
  function FallbackHits(nodes: seq<HG.NodeRow>): (r: seq<Hit>)
    ensures |r| == |nodes|
    ensures forall i :: 0 <= i < |r| ==> r[i] == Hit(nodes[i].id, 0.0, nodes[i].payload)
  {
    if nodes == [] then [] else [Hit(nodes[0].id, 0.0, nodes[0].payload)] + FallbackHits(nodes[1..])
  }

  /** Everything a recall reads besides the query itself. */
  datatype Recall = Recall(st: HG.Store, search: Search, expNeg: real -> real, anchors: set<string>, prefix: string)

  /** The hits of one layer. */
  function LayerHits(env: Recall, query: seq<real>, layer: string, k: int): (r: seq<Hit>)
    ensures env.search(Collection(env.prefix, layer), query, k).Some? ==>
      r == env.search(Collection(env.prefix, layer), query, k).value
    ensures env.search(Collection(env.prefix, layer), query, k).None? ==>
      |r| == |HG.FindNodes(env.st, Some(layer), k)| && forall i :: 0 <= i < |r| ==> r[i].score == 0.0
  {
    match env.search(Collection(env.prefix, layer), query, k)
    case Some(hits) => hits
    case None => FallbackHits(HG.FindNodes(env.st, Some(layer), k))
  }

  /** `MemoryItem(id=str(pid), layer=L, score=norm, vector=None, payload=pl or {})` */
  function ItemOf(env: Recall, layer: string, hit: Hit, bias: real): (r: MemoryItem)
    ensures r.id == hit.pid && r.layer == layer && r.vector.None?
    ensures ExpNegInRange(env.expNeg) && bias >= 0.0 ==> 0.0 <= r.score <= 1.0
    ensures Truthy(hit.payload) ==> r.payload == hit.payload
    ensures !Truthy(hit.payload) ==> r.payload == VDict([])
  {
    MemoryItem(hit.pid, layer, ItemScore(env.expNeg, env.anchors, layer, hit.score, bias), None,
               if Truthy(hit.payload) then hit.payload else VDict([]))
  }

  /** The items of one layer, in hit order. */
  function ItemsOf(env: Recall, layer: string, hits: seq<Hit>, bias: real): (r: seq<MemoryItem>)
    ensures |r| == |hits|
    ensures forall i :: 0 <= i < |r| ==> r[i] == ItemOf(env, layer, hits[i], bias)
  {
    if hits == [] then [] else [ItemOf(env, layer, hits[0], bias)] + ItemsOf(env, layer, hits[1..], bias)
  }

  function ScoreKey(it: MemoryItem): real {
    it.score
  }

  /** A layer whose vector search is unavailable scores every fallback hit
    * `exp(0) = 1`, and an anchor bias that is not negative keeps it at 1. */
  lemma FallbackScoresOne(env: Recall, query: seq<real>, layer: string, k: int, bias: real)
    requires ExpNegInRange(env.expNeg) && bias >= 0.0
    requires env.search(Collection(env.prefix, layer), query, k).None?
    ensures forall it :: it in ItemsOf(env, layer, LayerHits(env, query, layer, k), bias) ==> it.score == 1.0
  {
    var hits := LayerHits(env, query, layer, k);
    var items := ItemsOf(env, layer, hits, bias);
    forall it | it in items ensures it.score == 1.0 {
      var i :| 0 <= i < |items| && items[i] == it;
      assert hits[i].score == 0.0;
      assert NormalizeScore(env.expNeg, 0.0) == 1.0;
    }
  }

  // ----- Association lists ---------------------------------------------------

  /** A Python dictionary with string keys, in insertion order. */
  function Lookup<V>(m: seq<(string, V)>, k: string): (r: Option<V>)
    ensures r.Some? <==> exists i :: 0 <= i < |m| && m[i].0 == k
  {
    if m == [] then None else if m[0].0 == k then Some(m[0].1) else Lookup(m[1..], k)
  }

  /** `m[k] = v`: an existing key keeps its place, a new one goes last. */
  function Assign<V>(m: seq<(string, V)>, k: string, v: V): (r: seq<(string, V)>)
    ensures Lookup(r, k) == Some(v)
    ensures forall j :: j != k ==> Lookup(r, j) == Lookup(m, j)
    ensures Lookup(m, k).None? ==> r == m + [(k, v)]
    ensures Lookup(m, k).Some? ==> |r| == |m|
  {
    if m == [] then [(k, v)]
    else if m[0].0 == k then [(k, v)] + m[1..]
    else [m[0]] + Assign(m[1..], k, v)
  }

  /** `d[k] = f(k)` for each key in turn, starting from an empty dictionary. */
  function Tabulate<V>(keys: seq<string>, f: string -> V): seq<(string, V)>
  {
    if |keys| == 0 then []
    else Assign(Tabulate(keys[..|keys| - 1], f), keys[|keys| - 1], f(keys[|keys| - 1]))
  }

  /** Every key that was written maps to its value, and no other key is present. */
  lemma {:induction false} TabulateLookup<V>(keys: seq<string>, f: string -> V, k: string)
    ensures Lookup(Tabulate(keys, f), k) == if k in keys then Some(f(k)) else None
  {
    if |keys| > 0 {
      var front := keys[..|keys| - 1];
      TabulateLookup(front, f, k);
      assert keys == front + [keys[|keys| - 1]];
    }
  }

  /** With distinct keys, the dictionary keeps them in the order they were written. */
  lemma {:induction false} TabulateInOrder<V>(keys: seq<string>, f: string -> V)
    requires HG.NoDuplicates(keys)
    ensures |Tabulate(keys, f)| == |keys|
    ensures forall i :: 0 <= i < |keys| ==> Tabulate(keys, f)[i] == (keys[i], f(keys[i]))
  {
    if |keys| > 0 {
      var front := keys[..|keys| - 1];
      var last := keys[|keys| - 1];
      assert HG.NoDuplicates(front) by {
        forall i, j | 0 <= i < j < |front| ensures front[i] != front[j] {
          assert front[i] == keys[i] && front[j] == keys[j];
        }
      }
      TabulateInOrder(front, f);
      TabulateLookup(front, f, last);
      assert last !in front by {
        forall i | 0 <= i < |front| ensures front[i] != last {
          assert front[i] == keys[i];
        }
      }
      assert Tabulate(keys, f) == Tabulate(front, f) + [(last, f(last))];
    }
  }

  /** `sum(f(k) for k in keys)` */
  function SumOver(keys: seq<string>, f: string -> int): int
  {
    if |keys| == 0 then 0 else SumOver(keys[..|keys| - 1], f) + f(keys[|keys| - 1])
  }

  /** Terms that are never negative have a sum that is not negative. */
  lemma {:induction false} SumNonNegative(keys: seq<string>, f: string -> int)
    requires forall x :: x in keys ==> f(x) >= 0
    ensures SumOver(keys, f) >= 0
  {
    if |keys| > 0 {
      var front := keys[..|keys| - 1];
      assert keys == front + [keys[|keys| - 1]];
      SumNonNegative(front, f);
    }
  }

  /** No single term exceeds such a sum. */
  lemma {:induction false} TermBelowSum(keys: seq<string>, f: string -> int, k: string)
    requires k in keys
    requires forall x :: x in keys ==> f(x) >= 0
    ensures f(k) <= SumOver(keys, f)
  {
    var front := keys[..|keys| - 1];
    assert keys == front + [keys[|keys| - 1]];
    if k != keys[|keys| - 1] {
      TermBelowSum(front, f, k);
    }
    SumNonNegative(front, f);
  }

  function ScoreOr0(m: seq<(string, real)>, k: string): real {
    match Lookup(m, k)
    case Some(s) => s
    case None => 0.0
  }

  /** `merged[pid] = max(merged.get(pid, 0.0), score)` for each item. */
  function MergeItems(m: seq<(string, real)>, items: seq<MemoryItem>): seq<(string, real)>
    decreases |items|
  {
    if items == [] then m
    else MergeItems(Assign(m, items[0].id, Max(ScoreOr0(m, items[0].id), items[0].score)), items[1..])
  }

  /** The best score of `id` among `items`, never below 0. */
  function BestScore(items: seq<MemoryItem>, id: string): (r: real)
    ensures r >= 0.0
    ensures forall i :: 0 <= i < |items| && items[i].id == id ==> items[i].score <= r
    ensures r == 0.0 || exists i :: 0 <= i < |items| && items[i].id == id && items[i].score == r
  {
    if items == [] then 0.0
    else
      var rest := BestScore(items[1..], id);
      assert forall i :: 1 <= i < |items| ==> items[i] == items[1..][i - 1];
      if items[0].id == id then
        if rest != 0.0 && items[0].score < rest then
          var i :| 0 <= i < |items[1..]| && items[1..][i].id == id && items[1..][i].score == rest;
          assert items[i + 1] == items[1..][i];
          rest
        else Max(items[0].score, rest)
      else
        if rest != 0.0 then
          var i :| 0 <= i < |items[1..]| && items[1..][i].id == id && items[1..][i].score == rest;
          assert items[i + 1] == items[1..][i];
          rest
        else rest
  }

  /** Merging keeps one entry per id met. */
  predicate Contributes(items: seq<MemoryItem>, id: string) {
    exists i :: 0 <= i < |items| && items[i].id == id
  }

  /** Merging takes, for every id, the maximum of its previous score and
    * every score it has among the items; ids not among them are untouched. */
  lemma {:induction false} MergeIsMax(m: seq<(string, real)>, items: seq<MemoryItem>, id: string)
    requires ScoreOr0(m, id) >= 0.0
    ensures Lookup(MergeItems(m, items), id).Some? <==> Lookup(m, id).Some? || Contributes(items, id)
    ensures Contributes(items, id) ==> ScoreOr0(MergeItems(m, items), id) == Max(ScoreOr0(m, id), BestScore(items, id))
    ensures !Contributes(items, id) ==> Lookup(MergeItems(m, items), id) == Lookup(m, id)
    decreases |items|
  {
    if items != [] {
      var rest := items[1..];
      var m' := Assign(m, items[0].id, Max(ScoreOr0(m, items[0].id), items[0].score));
      MergeIsMax(m', rest, id);
      MergeStep(items, id);
      if items[0].id == id && !Contributes(rest, id) {
        assert BestScore(rest, id) == 0.0;
      }
    }
  }

  /** How the first item bears on `Contributes` and `BestScore`. */
  lemma MergeStep(items: seq<MemoryItem>, id: string)
    requires items != []
    ensures Contributes(items, id) <==> items[0].id == id || Contributes(items[1..], id)
    ensures items[0].id == id ==> BestScore(items, id) == Max(items[0].score, BestScore(items[1..], id))
    ensures items[0].id != id ==> BestScore(items, id) == BestScore(items[1..], id)
    ensures !Contributes(items[1..], id) ==> BestScore(items[1..], id) == 0.0
  {
    var rest := items[1..];
    assert forall i :: 1 <= i < |items| ==> items[i] == rest[i - 1];
    if Contributes(rest, id) {
      var i :| 0 <= i < |rest| && rest[i].id == id;
      assert items[i + 1].id == id;
    }
    if Contributes(items, id) && items[0].id != id {
      var i :| 0 <= i < |items| && items[i].id == id;
      assert rest[i - 1].id == id;
    }
  }

  /** Merging layer after layer is merging their concatenation. */
  lemma {:induction false} MergeConcat(m: seq<(string, real)>, a: seq<MemoryItem>, b: seq<MemoryItem>)
    ensures MergeItems(m, a + b) == MergeItems(MergeItems(m, a), b)
    decreases |a|
  {
    if a == [] {
      assert a + b == b;
    } else {
      assert (a + b)[0] == a[0] && (a + b)[1..] == a[1..] + b;
      MergeConcat(Assign(m, a[0].id, Max(ScoreOr0(m, a[0].id), a[0].score)), a[1..], b);
    }
  }

  // ----- Intersection recall -------------------------------------------------

  /** The loop over the queried layers: each layer's items, sorted, go into
    * `per_layer`, and their scores into `merged`. */
  function Scan(env: Recall, query: seq<real>, k: int, bias: real, layers: seq<string>,
                perLayer: seq<(string, seq<MemoryItem>)>, merged: seq<(string, real)>)
    : (seq<(string, seq<MemoryItem>)>, seq<(string, real)>)
    decreases |layers|
  {
    if layers == [] then (perLayer, merged)
    else
      var items := ItemsOf(env, layers[0], LayerHits(env, query, layers[0], k), bias);
      Scan(env, query, k, bias, layers[1..], Assign(perLayer, layers[0], Sorting.SortDesc(items, ScoreKey)),
           MergeItems(merged, items))
  }

  /** The items of all queried layers, layer after layer. */
  function AllItems(env: Recall, query: seq<real>, k: int, bias: real, layers: seq<string>): seq<MemoryItem>
    decreases |layers|
  {
    if layers == [] then []
    else ItemsOf(env, layers[0], LayerHits(env, query, layers[0], k), bias) + AllItems(env, query, k, bias, layers[1..])
  }

  lemma {:induction false} ScanMerges(env: Recall, query: seq<real>, k: int, bias: real, layers: seq<string>,
                                      perLayer: seq<(string, seq<MemoryItem>)>, merged: seq<(string, real)>)
    ensures Scan(env, query, k, bias, layers, perLayer, merged).1 == MergeItems(merged, AllItems(env, query, k, bias, layers))
    decreases |layers|
  {
    if layers != [] {
      var items := ItemsOf(env, layers[0], LayerHits(env, query, layers[0], k), bias);
      ScanMerges(env, query, k, bias, layers[1..], Assign(perLayer, layers[0], Sorting.SortDesc(items, ScoreKey)),
                 MergeItems(merged, items));
      MergeConcat(merged, items, AllItems(env, query, k, bias, layers[1..]));
    }
  }

  /** Every per-layer list is its layer's items sorted by descending score
    * (a permutation of them), for the last query of that layer. */
  lemma {:induction false} ScanSortsLayers(env: Recall, query: seq<real>, k: int, bias: real, layers: seq<string>,
                                           perLayer: seq<(string, seq<MemoryItem>)>, merged: seq<(string, real)>,
                                           layer: string)
    requires forall l, items :: Lookup(perLayer, l) == Some(items) ==> Sorting.Descending(items, ScoreKey)
    ensures var p := Scan(env, query, k, bias, layers, perLayer, merged).0;
      forall items :: Lookup(p, layer) == Some(items) ==> Sorting.Descending(items, ScoreKey)
    ensures layer in layers ==>
      var p := Scan(env, query, k, bias, layers, perLayer, merged).0;
      var items := ItemsOf(env, layer, LayerHits(env, query, layer, k), bias);
      Lookup(p, layer).Some? && multiset(Lookup(p, layer).value) == multiset(items)
    decreases |layers|
  {
    if layers != [] {
      var items := ItemsOf(env, layers[0], LayerHits(env, query, layers[0], k), bias);
      var p' := Assign(perLayer, layers[0], Sorting.SortDesc(items, ScoreKey));
      forall l, its | Lookup(p', l) == Some(its) ensures Sorting.Descending(its, ScoreKey) {
        if l != layers[0] {
          assert Lookup(perLayer, l) == Some(its);
        }
      }
      ScanSortsLayers(env, query, k, bias, layers[1..], p', MergeItems(merged, items), layer);
      if layer in layers && layer !in layers[1..] {
        assert layer == layers[0];
        ScanKeeps(env, query, k, bias, layers[1..], p', MergeItems(merged, items), layer);
      }
    }
  }

  /** A layer not queried again keeps its per-layer entry. */
  lemma {:induction false} ScanKeeps(env: Recall, query: seq<real>, k: int, bias: real, layers: seq<string>,
                                     perLayer: seq<(string, seq<MemoryItem>)>, merged: seq<(string, real)>,
                                     layer: string)
    requires layer !in layers
    ensures Lookup(Scan(env, query, k, bias, layers, perLayer, merged).0, layer) == Lookup(perLayer, layer)
    decreases |layers|
  {
    if layers != [] {
      var items := ItemsOf(env, layers[0], LayerHits(env, query, layers[0], k), bias);
      assert layers[0] != layer;
      ScanKeeps(env, query, k, bias, layers[1..], Assign(perLayer, layers[0], Sorting.SortDesc(items, ScoreKey)),
                MergeItems(merged, items), layer);
    }
  }

  /** `[MemoryItem(id=i, layer="*", score=s, ...) for i, s in merged.items()]` */
  function MergedList(st: HG.Store, merged: seq<(string, real)>): (r: seq<MemoryItem>)
    ensures |r| == |merged|
    ensures forall i :: 0 <= i < |r| ==> r[i].id == merged[i].0 && r[i].score == merged[i].1 && r[i].layer == "*"
  {
    if merged == [] then []
    else
      var payload := HG.NodePayload(st.nodes, merged[0].0);
      [MemoryItem(merged[0].0, "*", merged[0].1, None,
                  if payload.Some? && Truthy(payload.value) then payload.value else VDict([]))] +
        MergedList(st, merged[1..])
  }

  /** `layers or LAYER_NAMES` */
  function Queried(layers: seq<string>): (r: seq<string>)
    ensures |r| > 0
    ensures layers != [] ==> r == layers
    ensures layers == [] ==> r == LayerNames
  {
    if layers == [] then LayerNames else layers
  }

  function Strings(s: seq<string>): (r: seq<Value>)
    ensures |r| == |s|
  {
    if s == [] then [] else [VStr(s[0])] + Strings(s[1..])
  }

  /** `search_intersect(query_vector, layers, k, anchors_bias)` at time `now`. */
  function Intersect(env: Recall, query: seq<real>, layers: seq<string>, k: int, bias: real, now: int): IntersectResult {
    var ls := Queried(layers);
    var scan := Scan(env, query, k, bias, ls, [], []);
    var items := HG.Limit(Sorting.SortDesc(MergedList(env.st, scan.1), ScoreKey), if k >= 8 then k else 8);
    IntersectResult(items, scan.0,
                    [("layers_queried", VList(Strings(ls))), ("anchors_bias", VReal(bias)),
                     ("merged_count", VInt(|items|)), ("ts", VInt(now))])
  }

  /** Each entry of the merged list is the best score of its id among the
    * items, for an id that occurs among them. */
  lemma MergedListScores(st: HG.Store, all: seq<MemoryItem>)
    ensures forall it :: it in MergedList(st, MergeItems([], all)) ==>
      Contributes(all, it.id) && it.score == BestScore(all, it.id)
  {
    var merged := MergeItems([], all);
    var list := MergedList(st, merged);
    MergeKeepsUnique([], all);
    forall it | it in list
      ensures Contributes(all, it.id) && it.score == BestScore(all, it.id)
    {
      var i :| 0 <= i < |list| && list[i] == it;
      MergeIsMax([], all, it.id);
      MergedScoreIsLookup(merged, i);
    }
  }

  /** The merged items: at most `max(k, 8)`, by descending score, each one
    * the best score of its id over all queried layers (never below 0),
    * and ids that appear in no layer are left out. */
  lemma IntersectMerges(env: Recall, query: seq<real>, layers: seq<string>, k: int, bias: real, now: int)
    ensures var r := Intersect(env, query, layers, k, bias, now);
      |r.items| <= (if k >= 8 then k else 8) &&
      Sorting.Descending(r.items, ScoreKey) &&
      (forall it :: it in r.items ==>
         Contributes(AllItems(env, query, k, bias, Queried(layers)), it.id) &&
         it.score == BestScore(AllItems(env, query, k, bias, Queried(layers)), it.id))
  {
    var ls := Queried(layers);
    var all := AllItems(env, query, k, bias, ls);
    ScanMerges(env, query, k, bias, ls, [], []);
    MergedListScores(env.st, all);
    var list := MergedList(env.st, MergeItems([], all));
    HG.TopFacts(list, ScoreKey, if k >= 8 then k else 8);
  }

  /** In a dictionary built by `Assign`, the entry at each index is the
    * first with its key. */
  lemma MergedScoreIsLookup(m: seq<(string, real)>, i: int)
    requires 0 <= i < |m|
    ensures Lookup(m, m[i].0).Some?
    ensures UniqueIds(m) ==> Lookup(m, m[i].0) == Some(m[i].1)
  {
    if i > 0 {
      MergedScoreIsLookup(m[1..], i - 1);
    }
  }

  predicate UniqueIds<V>(m: seq<(string, V)>) {
    forall i, j :: 0 <= i < j < |m| ==> m[i].0 != m[j].0
  }

  lemma {:induction false} AssignKeepsUnique<V>(m: seq<(string, V)>, k: string, v: V)
    requires UniqueIds(m)
    ensures UniqueIds(Assign(m, k, v))
    decreases |m|
  {
    if m != [] && m[0].0 != k {
      AssignKeepsUnique(m[1..], k, v);
      var r := Assign(m, k, v);
      var t := Assign(m[1..], k, v);
      assert r == [m[0]] + t;
      assert Lookup(m[1..], m[0].0).None? by {
        forall i | 0 <= i < |m[1..]| ensures m[1..][i].0 != m[0].0 {
          assert m[1..][i] == m[i + 1];
        }
      }
      assert Lookup(t, m[0].0).None?;
    } else if m != [] {
      assert Assign(m, k, v) == [(k, v)] + m[1..];
    }
  }

  lemma {:induction false} MergeKeepsUnique(m: seq<(string, real)>, items: seq<MemoryItem>)
    requires UniqueIds(m)
    ensures UniqueIds(MergeItems(m, items))
    decreases |items|
  {
    if items != [] {
      AssignKeepsUnique(m, items[0].id, Max(ScoreOr0(m, items[0].id), items[0].score));
      MergeKeepsUnique(Assign(m, items[0].id, Max(ScoreOr0(m, items[0].id), items[0].score)), items[1..]);
    }
  }

  // ----- Content hash --------------------------------------------------------

  /** Python's order on strings: code point by code point, a proper prefix
    * first. */
  predicate StrLess(a: string, b: string)
    decreases |a|
  {
    if a == [] then b != []
    else b != [] && (a[0] < b[0] || (a[0] == b[0] && StrLess(a[1..], b[1..])))
  }

  lemma {:induction false} StrLessAsymmetric(a: string, b: string)
    ensures StrLess(a, b) ==> !StrLess(b, a)
    decreases |a|
  {
    if a != [] && b != [] && a[0] == b[0] {
      StrLessAsymmetric(a[1..], b[1..]);
    }
  }

  lemma {:induction false} StrLessTotal(a: string, b: string)
    ensures a != b ==> StrLess(a, b) || StrLess(b, a)
    decreases |a|
  {
    if a != [] && b != [] && a[0] == b[0] {
      StrLessTotal(a[1..], b[1..]);
      assert a == [a[0]] + a[1..] && b == [b[0]] + b[1..];
    }
  }

  lemma {:induction false} StrLessTransitive(a: string, b: string, c: string)
    requires StrLess(a, b) && StrLess(b, c)
    ensures StrLess(a, c)
    decreases |a|
  {
    if a != [] && a[0] == b[0] && b[0] == c[0] {
      StrLessTransitive(a[1..], b[1..], c[1..]);
    }
  }

  type Entry = (string, Value)

  predicate KeysIncreasing(s: seq<Entry>) {
    forall i, j :: 0 <= i < j < |s| ==> StrLess(s[i].0, s[j].0)
  }

  /** Places `x` in front of the first entry with a greater key. */
  function InsertByKey(x: Entry, t: seq<Entry>): (r: seq<Entry>)
    ensures |r| == |t| + 1
    ensures multiset(r) == multiset{x} + multiset(t)
  {
    if t == [] || StrLess(x.0, t[0].0) then [x] + t
    else
      assert t == [t[0]] + t[1..];
      [t[0]] + InsertByKey(x, t[1..])
  }

  lemma {:induction false} InsertKeepsIncreasing(x: Entry, t: seq<Entry>)
    requires KeysIncreasing(t) && forall i :: 0 <= i < |t| ==> t[i].0 != x.0
    ensures KeysIncreasing(InsertByKey(x, t))
    decreases |t|
  {
    if t == [] {
    } else if StrLess(x.0, t[0].0) {
      var r := [x] + t;
      forall i, j | 0 <= i < j < |r| ensures StrLess(r[i].0, r[j].0) {
        if i == 0 && j > 1 {
          StrLessTransitive(x.0, t[0].0, t[j - 1].0);
        }
      }
    } else {
      StrLessTotal(x.0, t[0].0);
      InsertKeepsIncreasing(x, t[1..]);
      var rest := InsertByKey(x, t[1..]);
      var r := [t[0]] + rest;
      forall j | 0 <= j < |rest| ensures StrLess(t[0].0, rest[j].0) {
        assert rest[j] in multiset(rest);
        if rest[j] != x {
          assert rest[j] in multiset(t[1..]);
          var k :| 0 <= k < |t[1..]| && t[1..][k] == rest[j];
          assert t[k + 1] == rest[j];
        }
      }
    }
  }

  /** `sorted(d.items())` by key, as `json.dumps(..., sort_keys=True)` writes
    * a dictionary. */
  function SortByKey(d: seq<Entry>): (r: seq<Entry>)
    ensures multiset(r) == multiset(d)
  {
    if d == [] then []
    else
      assert d == [d[0]] + d[1..];
      InsertByKey(d[0], SortByKey(d[1..]))
  }

  lemma {:induction false} SortByKeyIncreasing(d: seq<Entry>)
    requires UniqueKeys(d)
    ensures KeysIncreasing(SortByKey(d))
    decreases |d|
  {
    if d != [] {
      SortByKeyIncreasing(d[1..]);
      var t := SortByKey(d[1..]);
      forall i | 0 <= i < |t| ensures t[i].0 != d[0].0 {
        assert t[i] in multiset(d[1..]);
        var k :| 0 <= k < |d[1..]| && d[1..][k] == t[i];
        assert d[k + 1] == t[i];
      }
      InsertKeepsIncreasing(d[0], t);
    }
  }

  /** Two key-sorted lists of the same entries are the same list. */
  lemma {:induction false} IncreasingIsUnique(s1: seq<Entry>, s2: seq<Entry>)
    requires KeysIncreasing(s1) && KeysIncreasing(s2) && multiset(s1) == multiset(s2)
    ensures s1 == s2
    decreases |s1|
  {
    if s1 == [] {
      assert |multiset(s2)| == 0;
    } else {
      assert |multiset(s2)| == |s1|;
      assert s1[0] in multiset(s2) && s2[0] in multiset(s1);
      var i :| 0 <= i < |s2| && s2[i] == s1[0];
      var j :| 0 <= j < |s1| && s1[j] == s2[0];
      if s1[0] != s2[0] {
        assert i > 0 && j > 0;
        StrLessAsymmetric(s1[0].0, s2[0].0);
        assert false;
      }
      assert s1 == [s1[0]] + s1[1..] && s2 == [s2[0]] + s2[1..];
      assert multiset(s1) == multiset{s1[0]} + multiset(s1[1..]);
      assert multiset(s2) == multiset{s1[0]} + multiset(s2[1..]);
      MultisetCancel(s1[0], multiset(s1[1..]), multiset(s2[1..]));
      IncreasingIsUnique(s1[1..], s2[1..]);
    }
  }

  lemma MultisetCancel<T>(x: T, b: multiset<T>, c: multiset<T>)
    requires multiset{x} + b == multiset{x} + c
    ensures b == c
  {
    forall y ensures b[y] == c[y] {
      assert (multiset{x} + b)[y] == (multiset{x} + c)[y];
    }
  }

  /** Applies `f` to every value, keeping the keys. */
  function MapValues<K, V>(d: seq<(K, V)>, f: V -> V): (r: seq<(K, V)>)
    ensures |r| == |d|
  {
    seq(|d|, i requires 0 <= i < |d| => (d[i].0, f(d[i].1)))
  }

  lemma MultisetRemove<T>(b: seq<T>, j: int)
    requires 0 <= j < |b|
    ensures multiset(b) == multiset{b[j]} + multiset(b[..j] + b[j + 1..])
  {
    assert b == b[..j] + [b[j]] + b[j + 1..];
  }

  lemma MapValuesRemove<K, V>(b: seq<(K, V)>, j: int, f: V -> V)
    requires 0 <= j < |b|
    ensures MapValues(b, f)[..j] + MapValues(b, f)[j + 1..] == MapValues(b[..j] + b[j + 1..], f)
  {
    var m := MapValues(b, f);
    var c := b[..j] + b[j + 1..];
    var l := m[..j] + m[j + 1..];
    var r := MapValues(c, f);
    forall i | 0 <= i < |l| ensures l[i] == r[i] {
      if i < j {
        assert l[i] == m[i] && c[i] == b[i];
      } else {
        assert l[i] == m[i + 1] && c[i] == b[i + 1];
      }
    }
  }

  lemma RemoveMatch<T>(a: seq<T>, b: seq<T>, i: int, j: int)
    requires 0 <= i < |a| && 0 <= j < |b| && a[i] == b[j]
    requires multiset(a) == multiset(b)
    ensures multiset(a[..i] + a[i + 1..]) == multiset(b[..j] + b[j + 1..])
  {
    MultisetRemove(a, i);
    MultisetRemove(b, j);
    MultisetCancel(a[i], multiset(a[..i] + a[i + 1..]), multiset(b[..j] + b[j + 1..]));
  }

  lemma AddBack<T>(a: seq<T>, b: seq<T>, i: int, j: int)
    requires 0 <= i < |a| && 0 <= j < |b| && a[i] == b[j]
    requires multiset(a[..i] + a[i + 1..]) == multiset(b[..j] + b[j + 1..])
    ensures multiset(a) == multiset(b)
  {
    MultisetRemove(a, i);
    MultisetRemove(b, j);
  }

  /** Mapping the same entries in another order gives the same entries. */
  lemma {:induction false} MapValuesMultiset<K, V>(a: seq<(K, V)>, b: seq<(K, V)>, f: V -> V)
    requires multiset(a) == multiset(b)
    ensures multiset(MapValues(a, f)) == multiset(MapValues(b, f))
    decreases |a|
  {
    if a == [] {
      assert |multiset(b)| == 0;
    } else {
      assert a[0] in multiset(b);
      var j :| 0 <= j < |b| && b[j] == a[0];
      var tail, rest := a[1..], b[..j] + b[j + 1..];
      assert multiset(tail) == multiset(rest) by {
        RemoveMatch(a, b, 0, j);
        assert a[..0] + a[1..] == tail;
      }
      MapValuesMultiset(tail, rest, f);
      var ma, mb := MapValues(a, f), MapValues(b, f);
      assert ma[..0] + ma[1..] == MapValues(tail, f) by {
        MapValuesRemove(a, 0, f);
      }
      assert mb[..j] + mb[j + 1..] == MapValues(rest, f) by {
        MapValuesRemove(b, j, f);
      }
      AddBack(ma, mb, 0, j);
    }
  }

  /** The value `json.dumps(obj, sort_keys=True)` writes out: every
    * dictionary, at any depth, with its entries sorted by key. */
  function Canonical(v: Value): (r: Value)
    ensures v.VList? ==> r.VList? && |r.items| == |v.items|
    ensures v.VDict? ==> r.VDict? && |r.entries| == |v.entries|
    ensures !v.VList? && !v.VDict? ==> r == v
    decreases v
  {
    match v
    case VList(items) => VList(seq(|items|, i requires 0 <= i < |items| => Canonical(items[i])))
    case VDict(d) => VDict(SortByKey(seq(|d|, i requires 0 <= i < |d| => (d[i].0, Canonical(d[i].1)))))
    case _ => v
  }

  /** `content_hash(obj)`; `digest` stands for BLAKE2b-128 over the UTF-8
    * JSON text of an already key-sorted value. */
  function ContentHash(digest: Value -> string, obj: Value): string {
    digest(Canonical(obj))
  }

  /** A dictionary with distinct keys is written with strictly increasing
    * keys, holding exactly its entries with their values canonicalised. */
  lemma CanonicalSortsKeys(d: Dict)
    requires UniqueKeys(d)
    ensures KeysIncreasing(Canonical(VDict(d)).entries)
    ensures multiset(Canonical(VDict(d)).entries) == multiset(MapValues(d, Canonical))
  {
    var c := seq(|d|, i requires 0 <= i < |d| => (d[i].0, Canonical(d[i].1)));
    assert c == MapValues(d, Canonical);
    assert UniqueKeys(c);
    SortByKeyIncreasing(c);
  }

  /** The hash sees only the sorted-key JSON: a dictionary's hash does not
    * depend on the order its entries were inserted in. */
  lemma ContentHashIgnoresKeyOrder(digest: Value -> string, d1: Dict, d2: Dict)
    requires UniqueKeys(d1) && multiset(d1) == multiset(d2)
    ensures ContentHash(digest, VDict(d1)) == ContentHash(digest, VDict(d2))
  {
    var c1 := seq(|d1|, i requires 0 <= i < |d1| => (d1[i].0, Canonical(d1[i].1)));
    var c2 := seq(|d2|, i requires 0 <= i < |d2| => (d2[i].0, Canonical(d2[i].1)));
    assert c1 == MapValues(d1, Canonical);
    assert c2 == MapValues(d2, Canonical);
    MapValuesMultiset(d1, d2, Canonical);
    assert UniqueKeys(c1);
    assert UniqueKeys(c2) by {
      forall i, j | 0 <= i < j < |d2| ensures d2[i].0 != d2[j].0 {
        DistinctKeysInPermutation(d1, d2, i, j);
      }
    }
    SortByKeyIncreasing(c1);
    SortByKeyIncreasing(c2);
    IncreasingIsUnique(SortByKey(c1), SortByKey(c2));
  }

  /** A reordering of a dictionary with distinct keys has distinct keys. */
  lemma DistinctKeysInPermutation(d1: Dict, d2: Dict, i: int, j: int)
    requires UniqueKeys(d1) && multiset(d1) == multiset(d2) && 0 <= i < j < |d2|
    ensures d2[i].0 != d2[j].0
  {
    if d2[i].0 == d2[j].0 {
      assert d2[i] in multiset(d1) && d2[j] in multiset(d1);
      var p :| 0 <= p < |d1| && d1[p] == d2[i];
      var q :| 0 <= q < |d1| && d1[q] == d2[j];
      if p == q {
        assert d2[i] == d2[j];
        var m := multiset(d2);
        assert d2 == d2[..i] + [d2[i]] + d2[i + 1..j] + [d2[j]] + d2[j + 1..];
        assert m[d2[i]] >= 2;
        assert multiset(d1)[d1[p]] >= 2;
        DuplicateInMultiset(d1, p);
      }
    }
  }

  lemma DuplicateInMultiset(d: Dict, p: int)
    requires UniqueKeys(d) && 0 <= p < |d|
    ensures multiset(d)[d[p]] == 1
  {
    assert d == d[..p] + [d[p]] + d[p + 1..];
    assert d[p] !in multiset(d[..p]) by {
      forall k | 0 <= k < p ensures d[..p][k] != d[p] { assert d[..p][k] == d[k]; }
    }
    var tail := d[p + 1..];
    assert d[p] !in multiset(tail) by {
      forall k | 0 <= k < |tail| ensures tail[k] != d[p] { assert tail[k] == d[p + 1 + k]; }
    }
  }

  // ----- Writes --------------------------------------------------------------

  /** The item `(id, vector, payload)` is sent as the point `p`. */
  predicate Carries(item: (string, Option<seq<real>>, Dict), p: VectorPoint) {
    item.1 == Some(p.vector) && p == VectorPoint(item.0, p.vector, VDict(item.2))
  }

  /** `[(i, v, p) for (i, v, p) in items if v is not None]` */
  function WithVectors(items: seq<(string, Option<seq<real>>, Dict)>): (r: seq<VectorPoint>)
    ensures |r| <= |items|
    ensures r == [] <==> forall i :: 0 <= i < |items| ==> items[i].1.None?
    ensures forall p :: p in r <==> exists i :: 0 <= i < |items| && Carries(items[i], p)
  {
    if items == [] then []
    else
      var rest := WithVectors(items[1..]);
      assert forall i :: 1 <= i < |items| ==> items[i] == items[1..][i - 1];
      var head := if items[0].1.Some? then [VectorPoint(items[0].0, items[0].1.value, VDict(items[0].2))] else [];
      assert forall p :: p in head <==> Carries(items[0], p);
      assert forall p :: (exists i :: 0 <= i < |items| && Carries(items[i], p)) ==> p in head || p in rest by {
        forall p | exists i :: 0 <= i < |items| && Carries(items[i], p)
          ensures p in head || p in rest
        {
          var i :| 0 <= i < |items| && Carries(items[i], p);
          if i > 0 { assert Carries(items[1..][i - 1], p); }
        }
      }
      head + rest
  }

  /** The node table after `add_node` for each item in turn. */
  function UpsertAll(nodes: seq<HG.NodeRow>, layer: string, items: seq<(string, Option<seq<real>>, Dict)>, now: int)
    : seq<HG.NodeRow>
    decreases |items|
  {
    if items == [] then nodes
    else
      var last := items[|items| - 1];
      HG.UpsertNode(UpsertAll(nodes, layer, items[..|items| - 1], now), last.0, LabelOf(last.2, layer), layer,
                    VDict(last.2), now)
  }

  /** The refusal `add_node` meets for an item's label, if any. */
  function ItemLabelError(layer: string, item: (string, Option<seq<real>>, Dict)): Option<PyError> {
    HG.LabelError(LabelOf(item.2, layer))
  }

  /** The position of the first item whose label the store refuses, or the
    * length of the batch when there is none. */
  function FirstRefused(layer: string, items: seq<(string, Option<seq<real>>, Dict)>): (k: nat)
    ensures k <= |items|
    ensures forall j :: 0 <= j < k ==> ItemLabelError(layer, items[j]).None?
    ensures k < |items| ==> ItemLabelError(layer, items[k]).Some?
  {
    if items == [] then 0
    else if ItemLabelError(layer, items[0]).Some? then 0
    else
      var k := FirstRefused(layer, items[1..]);
      assert forall j :: 1 <= j < k + 1 ==> items[j] == items[1..][j - 1];
      k + 1
  }

  /** A batch leaves the nodes of ids it does not mention untouched. */
  lemma {:induction false} UpsertAllKeepsOthers(nodes: seq<HG.NodeRow>, layer: string,
                                                items: seq<(string, Option<seq<real>>, Dict)>, now: int, id: string)
    requires forall i :: 0 <= i < |items| ==> items[i].0 != id
    ensures HG.FindNode(UpsertAll(nodes, layer, items, now), id) == HG.FindNode(nodes, id)
    decreases |items|
  {
    if items != [] {
      var front := items[..|items| - 1];
      var last := items[|items| - 1];
      assert forall i :: 0 <= i < |front| ==> front[i] == items[i];
      UpsertAllKeepsOthers(nodes, layer, front, now, id);
      HG.UpsertNodeFacts(UpsertAll(nodes, layer, front, now), last.0, LabelOf(last.2, layer), layer, VDict(last.2), now, id);
    }
  }

  /** After a batch, each item that no later item overrides has its node,
    * with its payload and label, in the layer, stamped `now`. */
  lemma {:induction false} UpsertAllLastWins(nodes: seq<HG.NodeRow>, layer: string,
                                             items: seq<(string, Option<seq<real>>, Dict)>, now: int, i: int)
    requires 0 <= i < |items| && forall j :: i < j < |items| ==> items[j].0 != items[i].0
    ensures var n := HG.FindNode(UpsertAll(nodes, layer, items, now), items[i].0);
      n.Some? && n.value.payload == VDict(items[i].2) && n.value.nodeLabel == LabelOf(items[i].2, layer) &&
      n.value.layer == layer && n.value.modifiedTs == now
    decreases |items|
  {
    var front := items[..|items| - 1];
    var last := items[|items| - 1];
    var before := UpsertAll(nodes, layer, front, now);
    HG.UpsertNodeFacts(before, last.0, LabelOf(last.2, layer), layer, VDict(last.2), now, items[i].0);
    if i < |items| - 1 {
      assert forall j :: 0 <= j < |front| ==> front[j] == items[j];
      UpsertAllLastWins(nodes, layer, front, now, i);
    }
  }

  /** `MemoryLattice` over a hypergraph store; `sent` lists the requests sent
    * to the vector service. */
  class MemoryLattice {
    const prefix: string
    const dim: int
    const anchors: set<string>
    const hg: HG.Hypergraph
    var sent: seq<UpsertRequest>

    predicate Valid()
      reads hg
    {
      hg.Valid()
    }

    /** `MemoryLattice(collection_prefix=prefix, vector_size=dim)` on the
      * store `hg`, with the anchors the vows name. */
    constructor (prefix: string, dim: int, anchors: set<string>, hg: HG.Hypergraph)
      requires hg.Valid()
      ensures this.prefix == prefix && this.dim == dim && this.anchors == anchors && this.hg == hg
      ensures sent == [] && Valid()
    {
      this.prefix := prefix;
      this.dim := dim;
      this.anchors := anchors;
      this.hg := hg;
      sent := [];
    }

    /** `upsert(layer, item_id, vector, payload)` at time `now`. */
    method Upsert(layer: string, itemId: string, vector: Option<seq<real>>, payload: Dict, now: int) returns (r: Result<()>)
      requires Valid()
      modifies this, hg
      ensures Valid()
      ensures layer !in LayerNames ==> r == Err(AssertionError) && sent == old(sent) && hg.Tables() == old(hg.Tables())
      ensures layer in LayerNames ==>
        r == if HG.LabelError(LabelOf(payload, layer)).Some? then Err(HG.LabelError(LabelOf(payload, layer)).value) else Ok(())
      ensures layer in LayerNames ==>
        sent == old(sent) + (if vector.Some? then [UpsertRequest(Collection(prefix, layer),
                                                                  [VectorPoint(itemId, vector.value, VDict(payload))])]
                             else [])
      ensures layer in LayerNames && HG.LabelError(LabelOf(payload, layer)).Some? ==> hg.Tables() == old(hg.Tables())
      ensures layer in LayerNames && HG.LabelError(LabelOf(payload, layer)).None? ==>
        hg.Tables() == old(hg.Tables()).(nodes := HG.UpsertNode(old(hg.nodes), itemId, LabelOf(payload, layer), layer,
                                                                VDict(payload), now))
    {
      if layer !in LayerNames {
        return Err(AssertionError);
      }
      var col := Collection(prefix, layer);
      if vector.Some? {
        sent := sent + [UpsertRequest(col, [VectorPoint(itemId, vector.value, VDict(payload))])];
      }
      var added := hg.AddNode(itemId, LabelOf(payload, layer), layer, VDict(payload), now);
      if added.Err? {
        return Err(added.error);
      }
      return Ok(());
    }

    /** `batch_upsert(layer, items)` at time `now`: one request with the
      * items that have vectors, if any, then a node per item, up to the
      * first item whose label the store refuses. */
    method BatchUpsert(layer: string, items: seq<(string, Option<seq<real>>, Dict)>, now: int) returns (r: Result<()>)
      requires Valid()
      modifies this, hg
      ensures Valid()
      ensures layer !in LayerNames ==> r == Err(AssertionError) && sent == old(sent) && hg.Tables() == old(hg.Tables())
      ensures layer in LayerNames ==>
        r == if FirstRefused(layer, items) < |items|
             then Err(ItemLabelError(layer, items[FirstRefused(layer, items)]).value) else Ok(())
      ensures layer in LayerNames ==>
        sent == old(sent) + (if WithVectors(items) != [] then [UpsertRequest(Collection(prefix, layer), WithVectors(items))]
                             else [])
      ensures layer in LayerNames ==>
        hg.Tables() == old(hg.Tables()).(nodes := UpsertAll(old(hg.nodes), layer, items[..FirstRefused(layer, items)], now))
    {
      if layer !in LayerNames {
        return Err(AssertionError);
      }
      var col := Collection(prefix, layer);
      var vectors := WithVectors(items);
      if vectors != [] {
        sent := sent + [UpsertRequest(col, vectors)];
      }
      var i := 0;
      while i < |items|
        invariant 0 <= i <= |items|
        invariant hg.Valid()
        invariant sent == old(sent) + (if vectors != [] then [UpsertRequest(col, vectors)] else [])
        invariant forall j :: 0 <= j < i ==> ItemLabelError(layer, items[j]).None?
        invariant hg.Tables() == old(hg.Tables()).(nodes := UpsertAll(old(hg.nodes), layer, items[..i], now))
      {
        var added := UpsertItem(layer, items, i, now, old(hg.Tables()));
        if added.Err? {
          return Err(added.error);
        }
        i := i + 1;
      }
      assert FirstRefused(layer, items) == |items|;
      assert items[..|items|] == items;
      return Ok(());
    }

    /** One iteration of the batch loop: the node of item `i`, or the
      * refusal of its label, which makes `i` the first refused item. */
    method UpsertItem(layer: string, items: seq<(string, Option<seq<real>>, Dict)>, i: nat, now: int, ghost start: HG.Store)
      returns (r: Result<string>)
      requires hg.Valid() && i < |items|
      requires forall j :: 0 <= j < i ==> ItemLabelError(layer, items[j]).None?
      requires hg.Tables() == start.(nodes := UpsertAll(start.nodes, layer, items[..i], now))
      modifies hg
      ensures hg.Valid()
      ensures r.Err? ==> FirstRefused(layer, items) == i && r == Err(ItemLabelError(layer, items[i]).value) &&
                         hg.Tables() == old(hg.Tables())
      ensures r.Ok? ==> (forall j :: 0 <= j < i + 1 ==> ItemLabelError(layer, items[j]).None?) &&
                        hg.Tables() == start.(nodes := UpsertAll(start.nodes, layer, items[..i + 1], now))
    {
      assert items[..i + 1][..i] == items[..i];
      var (id, _, p) := items[i];
      r := hg.AddNode(id, LabelOf(p, layer), layer, VDict(p), now);
    }

    /** `add_provenance(source_ids, target_id, payload)` at time `now`: a
      * "provenance" edge from the sources to the target. */
    method AddProvenance(sourceIds: seq<string>, targetId: string, payload: Value, now: int) returns (r: Result<int>)
      requires Valid()
      modifies hg
      ensures Valid()
      ensures hg.nodes == old(hg.nodes)
      ensures hg.edges == old(hg.edges) + [HG.EdgeRow(|old(hg.edges)| + 1, "provenance", payload, now)]
      ensures hg.connections == HG.EdgeConnections(old(hg.connections), |old(hg.edges)| + 1, sourceIds, [targetId]).0
      ensures HG.NoDuplicates(sourceIds) ==>
        r == Ok(|old(hg.edges)| + 1) &&
        hg.connections == old(hg.connections) + HG.ConnectionsFor(|old(hg.edges)| + 1, sourceIds, true) +
                          [HG.Connection(|old(hg.edges)| + 1, targetId, false)]
      ensures !HG.NoDuplicates(sourceIds) ==> r == Err(IntegrityError)
    {
      HG.EdgeConnectionsFresh(hg.connections, |hg.edges|, sourceIds, [targetId]);
      r := hg.AddEdge("provenance", sourceIds, [targetId], payload, now);
    }

    /** `get_provenance(node_id)` */
    method GetProvenance(nodeId: string) returns (r: seq<HG.EdgeView>)
      ensures r == HG.EdgesQuery(hg.Tables(), Some("provenance"), Some(nodeId), HG.DefaultLimit)
    {
      r := hg.GetEdges(Some("provenance"), Some(nodeId), HG.DefaultLimit);
    }

    /** `search_intersect(query_vector, layers, k, anchors_bias)` with the
      * vector search `search`, `exp(-x)` as `expNeg` and the clock at `now`. */
    method SearchIntersect(search: Search, expNeg: real -> real, query: seq<real>, layers: seq<string>, k: int,
                           bias: real, now: int) returns (r: IntersectResult)
      ensures r == Intersect(Recall(hg.Tables(), search, expNeg, anchors, prefix), query, layers, k, bias, now)
    {
      var env := Recall(hg.Tables(), search, expNeg, anchors, prefix);
      var ls := Queried(layers);
      var perLayer, merged := ScanAll(env, query, k, bias, ls);
      var list := MergedList(hg.Tables(), merged);
      var mergedItems := HG.Limit(Sorting.SortDesc(list, ScoreKey), if k >= 8 then k else 8);
      var diag := [("layers_queried", VList(Strings(ls))), ("anchors_bias", VReal(bias)),
                   ("merged_count", VInt(|mergedItems|)), ("ts", VInt(now))];
      r := IntersectResult(mergedItems, perLayer, diag);
    }
  }

  /** One iteration of the layer loop of `search_intersect`: the layer's
    * hits (from the vector search, or the node table when it is down),
    * scored, sorted into `perLayer` and merged. */
  /** The loop over the queried layers. */
  method ScanAll(env: Recall, query: seq<real>, k: int, bias: real, ls: seq<string>)
    returns (perLayer: seq<(string, seq<MemoryItem>)>, merged: seq<(string, real)>)
    ensures (perLayer, merged) == Scan(env, query, k, bias, ls, [], [])
  {
    perLayer, merged := [], [];
    var i := 0;
    while i < |ls|
      invariant 0 <= i <= |ls|
      invariant Scan(env, query, k, bias, ls, [], []) == Scan(env, query, k, bias, ls[i..], perLayer, merged)
    {
      assert ls[i..][1..] == ls[i + 1..];
      perLayer, merged := ScanLayer(env, query, k, bias, ls[i], perLayer, merged);
      i := i + 1;
    }
  }

  method ScanLayer(env: Recall, query: seq<real>, k: int, bias: real, layer: string,
                   perLayer: seq<(string, seq<MemoryItem>)>, merged: seq<(string, real)>)
    returns (perLayer': seq<(string, seq<MemoryItem>)>, merged': seq<(string, real)>)
    ensures perLayer' == Assign(perLayer, layer, Sorting.SortDesc(ItemsOf(env, layer, LayerHits(env, query, layer, k), bias), ScoreKey))
    ensures merged' == MergeItems(merged, ItemsOf(env, layer, LayerHits(env, query, layer, k), bias))
  {
    var found := env.search(Collection(env.prefix, layer), query, k);
    var hits := if found.Some? then found.value else FallbackHits(HG.FindNodes(env.st, Some(layer), k));
    var items;
    items, merged' := ScoreLayer(env, layer, hits, bias, merged);
    perLayer' := Assign(perLayer, layer, Sorting.SortDesc(items, ScoreKey));
  }

  /** The loop over one layer's hits in `search_intersect`: the layer's
    * items, and `merged` updated with their scores. */
  method ScoreLayer(env: Recall, layer: string, hits: seq<Hit>, bias: real, merged: seq<(string, real)>)
    returns (items: seq<MemoryItem>, merged': seq<(string, real)>)
    ensures items == ItemsOf(env, layer, hits, bias)
    ensures merged' == MergeItems(merged, items)
  {
    items := [];
    merged' := merged;
    var j := 0;
    while j < |hits|
      invariant 0 <= j <= |hits|
      invariant |items| == j && forall t :: 0 <= t < j ==> items[t] == ItemOf(env, layer, hits[t], bias)
      invariant MergeItems(merged, ItemsOf(env, layer, hits, bias)) == MergeItems(merged', ItemsOf(env, layer, hits[j..], bias))
    {
      assert hits[j..][1..] == hits[j + 1..];
      var it := ScoreHit(env, layer, hits[j], bias);
      assert ItemsOf(env, layer, hits[j..], bias) == [it] + ItemsOf(env, layer, hits[j + 1..], bias);
      items := items + [it];
      merged' := Assign(merged', it.id, Max(ScoreOr0(merged', it.id), it.score));
      j := j + 1;
    }
  }

  /** One hit of the loop: its item, with the normalised and biased score. */
  method ScoreHit(env: Recall, layer: string, hit: Hit, bias: real) returns (it: MemoryItem)
    ensures it == ItemOf(env, layer, hit, bias)
  {
    var norm := NormalizeScore(env.expNeg, hit.score);
    if layer in env.anchors {
      norm := Min(1.0, norm + bias);
    }
    it := MemoryItem(hit.pid, layer, norm, None, if Truthy(hit.payload) then hit.payload else VDict([]));
  }
}
