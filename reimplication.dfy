// What `reimplic` in core/memory/anamnesis_engine.py decides before it
// writes anything: which memories score high enough, how they group by
// layer, which pairs inside a layer get a `reimplic_assoc` edge, and which
// L8 concepts a synthetic L11 memory derives from.
module Reimplication {
  import opened Values
  import Sorting
  import HG = HypergraphStore
  import L = Lattice

  /** `by_layer`: layer to its high-scoring memories, in order of arrival. */
  type Layers = seq<(string, seq<L.MemoryItem>)>

  /** `[m for m in memories if m.score >= threshold]` */
  function HighScore(ms: seq<L.MemoryItem>, threshold: real): (r: seq<L.MemoryItem>)
    ensures |r| <= |ms|
    ensures forall i :: 0 <= i < |r| ==> r[i] in ms && r[i].score >= threshold
  {
    if |ms| == 0 then [] else (if ms[0].score >= threshold then [ms[0]] else []) + HighScore(ms[1..], threshold)
  }

  /** `by_layer.setdefault(m.layer, []).append(m)` */
  function AddToLayer(acc: Layers, m: L.MemoryItem): Layers {
    match L.Lookup(acc, m.layer)
    case None => L.Assign(acc, m.layer, [m])
    case Some(xs) => L.Assign(acc, m.layer, xs + [m])
  }

  /** The grouping loop. */
  function GroupByLayer(ms: seq<L.MemoryItem>, acc: Layers): (r: Layers)
    ensures forall l :: L.Lookup(acc, l).Some? ==> L.Lookup(r, l).Some?
    ensures forall i :: 0 <= i < |ms| ==> L.Lookup(r, ms[i].layer).Some?
    decreases |ms|
  {
    if |ms| == 0 then acc else GroupByLayer(ms[1..], AddToLayer(acc, ms[0]))
  }

  // ----- The edges of one layer --------------------------------------------
  // Items are named by their index in the layer's list; pairs are
  // (item, other).

  /** `min(min(max_connections_per_item, n - 1), n - 1)`: how many others
    * each item of a layer of `n` is offered. */
  function Bound(n: int, maxConn: int): int {
    var perItem := if maxConn <= n - 1 then maxConn else n - 1;
    if perItem <= n - 1 then perItem else n - 1
  }

  /** The inner loop for item `i`, from `j` on, with `count` edges made so
    * far: the other is `(i + j + 1) % n`, and the loop breaks as soon as
    * the count reaches `maxEdges`. */
  function Targets(n: int, i: int, j: int, bound: int, maxEdges: int, count: int): (r: seq<int>)
    requires n > 0 && 0 <= i && 0 <= j
    ensures Below(r, n)
    decreases bound - j
  {
    if j >= bound then []
    else [(i + j + 1) % n] + (if count + 1 >= maxEdges then [] else Targets(n, i, j + 1, bound, maxEdges, count + 1))
  }

  /** Every index in `ts` names an item of a layer of `n`. */
  predicate Below(ts: seq<int>, n: int) {
    forall k :: 0 <= k < |ts| ==> 0 <= ts[k] < n
  }

  /** Every pair in `ps` is (item, other) with the item at least `lo`, in a
    * layer of `n`. */
  predicate PairsIn(ps: seq<(int, int)>, lo: int, n: int) {
    forall k :: 0 <= k < |ps| ==> lo <= ps[k].0 < n && 0 <= ps[k].1 < n
  }

  function RowPairs(i: int, ts: seq<int>): (r: seq<(int, int)>)
    ensures |r| == |ts|
  {
    seq(|ts|, k requires 0 <= k < |ts| => (i, ts[k]))
  }

  /** The outer loop from item `i` on: it breaks once the count reaches
    * `maxEdges`. */
  function LayerFrom(n: int, i: int, bound: int, maxEdges: int, count: int): (r: seq<(int, int)>)
    requires n > 0 && 0 <= i
    ensures PairsIn(r, i, n)
    decreases n - i
  {
    if i >= n then []
    else
      var inner := Targets(n, i, 0, bound, maxEdges, count);
      var c := count + |inner|;
      var rest := if c >= maxEdges then [] else LayerFrom(n, i + 1, bound, maxEdges, c);
      assert PairsIn(RowPairs(i, inner), i, n);
      assert PairsIn(RowPairs(i, inner) + rest, i, n) by {
        var ps := RowPairs(i, inner) + rest;
        forall k | 0 <= k < |ps| ensures i <= ps[k].0 < n && 0 <= ps[k].1 < n {
          if k >= |inner| {
            assert ps[k] == rest[k - |inner|];
          }
        }
      }
      RowPairs(i, inner) + rest
  }

  /** The pairs linked in a layer of `n` items when `count` edges exist. */
  function LayerPairs(n: int, maxConn: int, maxEdges: int, count: int): (r: seq<(int, int)>)
    ensures PairsIn(r, 0, n)
  {
    if n < 2 then [] else LayerFrom(n, 0, Bound(n, maxConn), maxEdges, count)
  }

  function Links(items: seq<L.MemoryItem>, pairs: seq<(int, int)>): (r: seq<(L.MemoryItem, L.MemoryItem)>)
    requires PairsIn(pairs, 0, |items|)
    ensures |r| == |pairs|
  {
    seq(|pairs|, k requires 0 <= k < |pairs| => (items[pairs[k].0], items[pairs[k].1]))
  }

  /** Both ends of a link are memories of one layer. */
  predicate WithinLayer(groups: Layers, link: (L.MemoryItem, L.MemoryItem)) {
    exists g :: 0 <= g < |groups| && link.0 in groups[g].1 && link.1 in groups[g].1
  }

  /** Every (item, other) pair linked, layer after layer: a link never
    * crosses two layers. */
  function Plan(groups: Layers, maxConn: int, maxEdges: int, count: int): (r: seq<(L.MemoryItem, L.MemoryItem)>)
    ensures forall k :: 0 <= k < |r| ==> WithinLayer(groups, r[k])
    decreases |groups|
  {
    if |groups| == 0 then []
    else
      var items := groups[0].1;
      var ps := LayerPairs(|items|, maxConn, maxEdges, count);
      var here := Links(items, ps);
      var rest := Plan(groups[1..], maxConn, maxEdges, count + |ps|);
      assert forall k :: 0 <= k < |here| ==> WithinLayer(groups, here[k]) by {
        forall k | 0 <= k < |here| ensures WithinLayer(groups, here[k]) {
          assert here[k].0 in groups[0].1 && here[k].1 in groups[0].1;
        }
      }
      assert forall k :: 0 <= k < |rest| ==> WithinLayer(groups, rest[k]) by {
        forall k | 0 <= k < |rest| ensures WithinLayer(groups, rest[k]) {
          var g :| 0 <= g < |groups[1..]| && rest[k].0 in groups[1..][g].1 && rest[k].1 in groups[1..][g].1;
          assert groups[1..][g] == groups[g + 1];
        }
      }
      here + rest
  }

  /** One round of the loop over the layers: it had made `done` with
    * `count` edges, and now has made `done'` with `count'`. */
  lemma PlanStep(groups: Layers, g: int, maxConn: int, maxEdges: int, count: int, count': int,
                 all: seq<(L.MemoryItem, L.MemoryItem)>, done: seq<(L.MemoryItem, L.MemoryItem)>,
                 done': seq<(L.MemoryItem, L.MemoryItem)>)
    requires 0 <= g < |groups| && all == done + Plan(groups[g..], maxConn, maxEdges, count)
    requires var ps := LayerPairs(|groups[g].1|, maxConn, maxEdges, count);
             done' == done + Links(groups[g].1, ps) && count' == count + |ps|
    ensures all == done' + Plan(groups[g + 1..], maxConn, maxEdges, count')
  {
    var layer := Links(groups[g].1, LayerPairs(|groups[g].1|, maxConn, maxEdges, count));
    var rest := Plan(groups[g + 1..], maxConn, maxEdges, count');
    assert groups[g..][1..] == groups[g + 1..] && groups[g..][0] == groups[g];
    assert Plan(groups[g..], maxConn, maxEdges, count) == layer + rest;
    Shift(all, done, Plan(groups[g..], maxConn, maxEdges, count), layer, rest, done');
  }

  /** The edge payload of one link. */
  function LinkPayload(link: (L.MemoryItem, L.MemoryItem), now: int): Value {
    VDict([("operation", VStr("reimplic")), ("scores", VList([VReal(link.0.score), VReal(link.1.score)])),
           ("ts", VInt(now))])
  }

  const LinkType := "reimplic_assoc"

  /** The edge rows the links add after `base` existing edges. */
  function LinkRows(links: seq<(L.MemoryItem, L.MemoryItem)>, base: int, now: int): (r: seq<HG.EdgeRow>)
    ensures |r| == |links|
  {
    seq(|links|, k requires 0 <= k < |links| => HG.EdgeRow(base + k + 1, LinkType, LinkPayload(links[k], now), now))
  }

  /** Their connection rows: one source row and one target row per edge. */
  function LinkConnections(links: seq<(L.MemoryItem, L.MemoryItem)>, base: int): seq<HG.Connection>
    decreases |links|
  {
    if |links| == 0 then []
    else [HG.Connection(base + 1, links[0].0.id, true), HG.Connection(base + 1, links[0].1.id, false)] +
         LinkConnections(links[1..], base + 1)
  }

  /** The ids `add_edge` returns for them. */
  function LinkIds(n: int, base: int): (r: seq<int>)
    requires n >= 0
    ensures |r| == n
  {
    seq(n, k requires 0 <= k < n => base + k + 1)
  }

  // ----- The synthetic memory ------------------------------------------------

  function ScoreKey(m: L.MemoryItem): real { m.score }

  /** `sorted(concepts, key=score, reverse=True)[:3]` */
  function TopConcepts(concepts: seq<L.MemoryItem>): (r: seq<L.MemoryItem>)
    ensures |r| <= 3 && |r| <= |concepts|
    ensures |concepts| > 0 ==> |r| > 0
    ensures forall x :: x in r ==> x in concepts
  {
    var sorted := Sorting.SortDesc(concepts, ScoreKey);
    Sorting.SortDescMembers(concepts, ScoreKey);
    sorted[..if |sorted| < 3 then |sorted| else 3]
  }

  /** `[c.payload.get("label", "concept") for c in top]`: a payload that is
    * not a dictionary has no `get`. */
  function Components(top: seq<L.MemoryItem>): (r: Result<seq<Value>>)
    ensures r.Ok? ==> |r.value| == |top|
    ensures r.Err? <==> exists i :: 0 <= i < |top| && !top[i].payload.VDict?
  {
    if |top| == 0 then Ok([])
    else if !top[0].payload.VDict? then Err(AttributeError("get"))
    else
      var rest :- Components(top[1..]);
      assert forall i :: 1 <= i < |top| ==> top[i] == top[1..][i - 1];
      Ok([GetOr(top[0].payload.entries, "label", VStr("concept"))] + rest)
  }

  function IdList(top: seq<L.MemoryItem>): (r: seq<Value>)
    ensures |r| == |top|
  {
    seq(|top|, i requires 0 <= i < |top| => VStr(top[i].id))
  }

  function Ids(top: seq<L.MemoryItem>): (r: seq<string>)
    ensures |r| == |top|
  {
    seq(|top|, i requires 0 <= i < |top| => top[i].id)
  }

  /** `synth_payload` */
  function SynthPayload(top: seq<L.MemoryItem>, components: seq<Value>, now: int): (r: Dict)
    ensures Get(r, "label") == Some(VStr("synthetic_concept"))
    ensures Get(r, "derived_from").Some? && Get(r, "derived_from").value.VList?
    ensures |Get(r, "derived_from").value.items| == |top|
    ensures forall i :: 0 <= i < |top| ==> Get(r, "derived_from").value.items[i] == VStr(top[i].id)
  {
    [("label", VStr("synthetic_concept")), ("derived_from", VList(IdList(top))),
     ("components", VList(components)), ("ts", VInt(now))]
  }

  /** Whether a synthetic memory is attempted. */
  predicate WantsSynthetic(high: seq<L.MemoryItem>, groups: Layers)
    ensures WantsSynthetic(high, groups) ==> 1 <= |Top(groups)| <= 3
  {
    |high| >= 2 && L.Lookup(groups, "L8").Some? && L.Lookup(groups, "L8").value != []
  }

  /** The L8 concepts the synthetic memory derives from. */
  function Top(groups: Layers): (r: seq<L.MemoryItem>)
    ensures |r| <= 3
    ensures forall x :: x in r ==> x in ItemsIn(groups, "L8")
  {
    match L.Lookup(groups, "L8")
    case Some(concepts) => TopConcepts(concepts)
    case None => []
  }

  /** A synthetic memory always derives from one to three concepts. */
  lemma TopNotEmpty(groups: Layers)
    requires L.Lookup(groups, "L8").Some? && L.Lookup(groups, "L8").value != []
    ensures 1 <= |Top(groups)| <= 3
  {
  }

  /** `list(by_layer.keys())` */
  function LayerKeys(groups: Layers): (r: seq<Value>)
    ensures |r| == |groups|
  {
    seq(|groups|, i requires 0 <= i < |groups| => VStr(groups[i].0))
  }

  /** The diagnostics when no memory scores high enough. */
  function NoHighScore(threshold: real): Dict {
    [("status", VStr("no_high_score_items")), ("threshold", VReal(threshold))]
  }

  /** The diagnostics of a run that got past the threshold. */
  function Diagnostics(memories: seq<L.MemoryItem>, high: seq<L.MemoryItem>, groups: Layers, now: int): (r: Dict)
    ensures Get(r, "memories_processed") == Some(VInt(|memories|))
    ensures Get(r, "high_score_count") == Some(VInt(|high|))
    ensures Get(r, "layers_processed") == Some(VList(LayerKeys(groups)))
    ensures Get(r, "ts") == Some(VInt(now))
  {
    var tail: Dict := [("layers_processed", VList(LayerKeys(groups))), ("ts", VInt(now))];
    var d: Dict := [("memories_processed", VInt(|memories|)), ("high_score_count", VInt(|high|))] + tail;
    assert d[1..][1..] == tail;
    assert Get(tail, "ts") == Some(VInt(now));
    assert Get(d[1..], "layers_processed") == Get(tail, "layers_processed");
    assert Get(d[1..], "ts") == Get(tail, "ts");
    d
  }

  // ----- Which memories take part ------------------------------------------

  /** Exactly the memories scoring at least the threshold take part, in
    * their order; none at all when every score is below it. */
  lemma {:induction false} HighScoreMembers(ms: seq<L.MemoryItem>, threshold: real)
    ensures forall x :: x in HighScore(ms, threshold) <==> x in ms && x.score >= threshold
    ensures HighScore(ms, threshold) == [] <==> forall i :: 0 <= i < |ms| ==> ms[i].score < threshold
    decreases |ms|
  {
    if |ms| > 0 {
      HighScoreMembers(ms[1..], threshold);
      assert forall x :: x in ms <==> x == ms[0] || x in ms[1..];
      assert forall i :: 1 <= i < |ms| ==> ms[i] == ms[1..][i - 1];
    }
  }

  /** The memories of layer `l` in `groups`. */
  function ItemsIn(groups: Layers, l: string): seq<L.MemoryItem> {
    match L.Lookup(groups, l)
    case Some(xs) => xs
    case None => []
  }

  lemma AddToLayerFacts(acc: Layers, m: L.MemoryItem, l: string)
    ensures ItemsIn(AddToLayer(acc, m), l) == ItemsIn(acc, l) + (if m.layer == l then [m] else [])
    ensures L.UniqueIds(acc) ==> L.UniqueIds(AddToLayer(acc, m))
  {
    var v := if L.Lookup(acc, m.layer).Some? then L.Lookup(acc, m.layer).value + [m] else [m];
    assert AddToLayer(acc, m) == L.Assign(acc, m.layer, v);
    if L.UniqueIds(acc) {
      L.AssignKeepsUnique(acc, m.layer, v);
    }
  }

  /** Grouping puts every memory, in order, under its own layer, and under
    * no other; each layer has one entry. */
  lemma {:induction false} GroupByLayerFacts(ms: seq<L.MemoryItem>, acc: Layers, l: string)
    ensures ItemsIn(GroupByLayer(ms, acc), l) == ItemsIn(acc, l) + InLayer(ms, l)
    ensures L.UniqueIds(acc) ==> L.UniqueIds(GroupByLayer(ms, acc))
    decreases |ms|
  {
    if |ms| > 0 {
      var acc' := AddToLayer(acc, ms[0]);
      var here := if ms[0].layer == l then [ms[0]] else [];
      AddToLayerFacts(acc, ms[0], l);
      GroupByLayerFacts(ms[1..], acc', l);
      assert ItemsIn(GroupByLayer(ms, acc), l) == (ItemsIn(acc, l) + here) + InLayer(ms[1..], l);
      assert InLayer(ms, l) == here + InLayer(ms[1..], l);
    }
  }

  /** The memories of `ms` in layer `l`, in order. */
  function InLayer(ms: seq<L.MemoryItem>, l: string): seq<L.MemoryItem> {
    if |ms| == 0 then [] else (if ms[0].layer == l then [ms[0]] else []) + InLayer(ms[1..], l)
  }

  // ----- Who is linked to whom ---------------------------------------------

  /** The others item `i`'s inner loop would visit with no edge cap. */
  function Row(n: int, i: int, bound: int): (r: seq<int>)
    requires n > 0
    ensures |r| == if bound > 0 then bound else 0
  {
    seq(if bound > 0 then bound else 0, j requires 0 <= j < bound => (i + j + 1) % n)
  }

  lemma ModStep(s: int, n: int)
    requires 0 < n && 0 <= s < 2 * n
    ensures s % n == if s < n then s else s - n
  {
    if s >= n {
      assert s == n + (s - n);
      assert (s - n) % n == s - n;
    }
  }

  /** With at most n - 1 others, the row never returns to the item itself
    * and never visits another item twice. */
  lemma RowDistinct(n: int, i: int, bound: int)
    requires 0 <= i < n && bound <= n - 1
    ensures i !in Row(n, i, bound)
    ensures HG.NoDuplicates(Row(n, i, bound))
  {
    var r := Row(n, i, bound);
    forall j | 0 <= j < |r| ensures r[j] != i {
      ModStep(i + j + 1, n);
    }
    forall a, b | 0 <= a < b < |r| ensures r[a] != r[b] {
      ModStep(i + a + 1, n);
      ModStep(i + b + 1, n);
    }
  }

  /** The inner loop visits a prefix of the row. */
  lemma {:induction false} TargetsPrefix(n: int, i: int, j: int, bound: int, maxEdges: int, count: int)
    requires n > 0 && 0 <= i && 0 <= j <= bound
    ensures Targets(n, i, j, bound, maxEdges, count) <= Row(n, i, bound)[j..]
    decreases bound - j
  {
    if j < bound {
      TargetsPrefix(n, i, j + 1, bound, maxEdges, count + 1);
      assert Row(n, i, bound)[j..] == [(i + j + 1) % n] + Row(n, i, bound)[j + 1..];
    }
  }

  /** The others item `a` is linked to, in order. */
  function Others(pairs: seq<(int, int)>, a: int): seq<int> {
    if |pairs| == 0 then [] else (if pairs[0].0 == a then [pairs[0].1] else []) + Others(pairs[1..], a)
  }

  lemma {:induction false} OthersAppend(x: seq<(int, int)>, y: seq<(int, int)>, a: int)
    ensures Others(x + y, a) == Others(x, a) + Others(y, a)
    decreases |x|
  {
    if |x| > 0 {
      assert (x + y)[0] == x[0] && (x + y)[1..] == x[1..] + y;
      OthersAppend(x[1..], y, a);
      var h := if x[0].0 == a then [x[0].1] else [];
      assert Others(x + y, a) == h + Others(x[1..] + y, a);
      assert Others(x, a) == h + Others(x[1..], a);
    } else {
      assert x + y == y;
    }
  }

  lemma {:induction false} OthersOfRow(i: int, ts: seq<int>, a: int)
    ensures Others(RowPairs(i, ts), a) == if a == i then ts else []
    decreases |ts|
  {
    if |ts| > 0 {
      assert RowPairs(i, ts)[1..] == RowPairs(i, ts[1..]);
      OthersOfRow(i, ts[1..], a);
    }
  }

  /** One round of the outer loop: item `i`'s row of pairs, then the rounds
    * after it unless the cap was reached. */
  lemma LayerFromUnfold(n: int, i: int, bound: int, maxEdges: int, count: int)
    requires n > 0 && 0 <= i < n
    ensures var inner := Targets(n, i, 0, bound, maxEdges, count);
            var c := count + |inner|;
            LayerFrom(n, i, bound, maxEdges, count) ==
            RowPairs(i, inner) + (if c >= maxEdges then [] else LayerFrom(n, i + 1, bound, maxEdges, c))
  {
  }

  /** One round of the outer loop: item `i`'s own row, then the rest. */
  lemma OthersOfLayerFrom(n: int, i: int, bound: int, maxEdges: int, count: int, a: int)
    requires n > 0 && 0 <= i < n
    ensures var inner := Targets(n, i, 0, bound, maxEdges, count);
            var c := count + |inner|;
            Others(LayerFrom(n, i, bound, maxEdges, count), a) ==
            (if a == i then inner else []) + Others(if c >= maxEdges then [] else LayerFrom(n, i + 1, bound, maxEdges, c), a)
  {
    var inner := Targets(n, i, 0, bound, maxEdges, count);
    var c := count + |inner|;
    var rest := if c >= maxEdges then [] else LayerFrom(n, i + 1, bound, maxEdges, c);
    assert LayerFrom(n, i, bound, maxEdges, count) == RowPairs(i, inner) + rest;
    OthersAppend(RowPairs(i, inner), rest, a);
    OthersOfRow(i, inner, a);
  }

  lemma {:induction false} OthersNone(pairs: seq<(int, int)>, a: int)
    requires forall k :: 0 <= k < |pairs| ==> pairs[k].0 != a
    ensures Others(pairs, a) == []
    decreases |pairs|
  {
    if |pairs| > 0 {
      OthersNone(pairs[1..], a);
    }
  }

  /** Item `i`'s links from its own round are a prefix of its row, and no
    * later round adds any. */
  lemma OthersOwnRound(n: int, i: int, bound: int, maxEdges: int, count: int)
    requires n > 0 && 0 <= i < n
    ensures Others(LayerFrom(n, i, bound, maxEdges, count), i) <= Row(n, i, bound)
  {
    var inner := Targets(n, i, 0, bound, maxEdges, count);
    var c := count + |inner|;
    var rest := if c >= maxEdges then [] else LayerFrom(n, i + 1, bound, maxEdges, c);
    assert Others(LayerFrom(n, i, bound, maxEdges, count), i) == inner by {
      OthersOfLayerFrom(n, i, bound, maxEdges, count, i);
      assert Others(rest, i) == [] by {
        if c < maxEdges {
          OthersNone(rest, i);
        }
      }
      assert inner + [] == inner;
    }
    if bound >= 0 {
      TargetsPrefix(n, i, 0, bound, maxEdges, count);
    }
  }

  /** Item `a`'s links all come from its own inner loop. */
  lemma {:induction false} OthersInLayer(n: int, i: int, bound: int, maxEdges: int, count: int, a: int)
    requires n > 0 && 0 <= i && 0 <= a < n
    ensures Others(LayerFrom(n, i, bound, maxEdges, count), a) <= Row(n, a, bound)
    decreases n - i
  {
    if i < n {
      if a == i {
        OthersOwnRound(n, i, bound, maxEdges, count);
      } else {
        var inner := Targets(n, i, 0, bound, maxEdges, count);
        var c := count + |inner|;
        OthersOfLayerFrom(n, i, bound, maxEdges, count, a);
        if c < maxEdges {
          OthersInLayer(n, i + 1, bound, maxEdges, c, a);
        }
      }
    }
  }

  /** Within a layer no item is linked to itself, and each is linked to at
    * most min(max_connections_per_item, n - 1) others, no other twice. */
  lemma PerItemLinks(n: int, maxConn: int, maxEdges: int, count: int, a: int)
    requires 0 <= a < n
    ensures forall p :: p in LayerPairs(n, maxConn, maxEdges, count) ==> p.0 != p.1
    ensures a !in Others(LayerPairs(n, maxConn, maxEdges, count), a)
    ensures HG.NoDuplicates(Others(LayerPairs(n, maxConn, maxEdges, count), a))
    ensures |Others(LayerPairs(n, maxConn, maxEdges, count), a)| <= n - 1
    ensures |Others(LayerPairs(n, maxConn, maxEdges, count), a)| <= maxConn || Others(LayerPairs(n, maxConn, maxEdges, count), a) == []
  {
    if n >= 2 {
      var bound := Bound(n, maxConn);
      var ps := LayerPairs(n, maxConn, maxEdges, count);
      OthersInLayer(n, 0, bound, maxEdges, count, a);
      RowDistinct(n, a, bound);
      forall p | p in ps ensures p.0 != p.1 {
        OthersInLayer(n, 0, bound, maxEdges, count, p.0);
        OthersHas(ps, p);
        RowDistinct(n, p.0, bound);
      }
    }
  }

  lemma {:induction false} OthersHas(pairs: seq<(int, int)>, p: (int, int))
    requires p in pairs
    ensures p.1 in Others(pairs, p.0)
    decreases |pairs|
  {
    if pairs[0] != p {
      OthersHas(pairs[1..], p);
    }
  }

  // ----- How many edges ------------------------------------------------------

  lemma {:induction false} TargetsWithinCap(n: int, i: int, j: int, bound: int, maxEdges: int, count: int)
    requires n > 0 && 0 <= i && 0 <= j && count < maxEdges
    ensures count + |Targets(n, i, j, bound, maxEdges, count)| <= maxEdges
    decreases bound - j
  {
    if j < bound && count + 1 < maxEdges {
      TargetsWithinCap(n, i, j + 1, bound, maxEdges, count + 1);
    }
  }

  lemma {:induction false} LayerFromWithinCap(n: int, i: int, bound: int, maxEdges: int, count: int)
    requires n > 0 && 0 <= i && count < maxEdges
    ensures count + |LayerFrom(n, i, bound, maxEdges, count)| <= maxEdges
    decreases n - i
  {
    if i < n {
      var inner := Targets(n, i, 0, bound, maxEdges, count);
      TargetsWithinCap(n, i, 0, bound, maxEdges, count);
      if count + |inner| < maxEdges {
        LayerFromWithinCap(n, i + 1, bound, maxEdges, count + |inner|);
      }
    }
  }

  /** A layer reached below the cap stops at the cap... */
  lemma LayerWithinCap(n: int, maxConn: int, maxEdges: int, count: int)
    requires count < maxEdges
    ensures count + |LayerPairs(n, maxConn, maxEdges, count)| <= maxEdges
  {
    if n >= 2 {
      LayerFromWithinCap(n, 0, Bound(n, maxConn), maxEdges, count);
    }
  }

  /** ... but a layer of two or more items always adds an edge, whatever
    * the count already is. */
  lemma LayerAddsOne(n: int, maxConn: int, maxEdges: int, count: int)
    requires n >= 2 && maxConn >= 1
    ensures |LayerPairs(n, maxConn, maxEdges, count)| >= 1
  {
  }

  /** How many layers have two or more memories. */
  function Linkable(groups: Layers): nat {
    if |groups| == 0 then 0 else (if |groups[0].1| >= 2 then 1 else 0) + Linkable(groups[1..])
  }

  /** So the cap is not global: with at least one connection per item
    * allowed, every layer of two or more memories adds an edge, however
    * small `max_edges` is. */
  lemma {:induction false} PlanAtLeastOnePerLayer(groups: Layers, maxConn: int, maxEdges: int, count: int)
    requires maxConn >= 1
    ensures |Plan(groups, maxConn, maxEdges, count)| >= Linkable(groups)
    decreases |groups|
  {
    if |groups| > 0 {
      var ps := LayerPairs(|groups[0].1|, maxConn, maxEdges, count);
      if |groups[0].1| >= 2 {
        LayerAddsOne(|groups[0].1|, maxConn, maxEdges, count);
      }
      PlanAtLeastOnePerLayer(groups[1..], maxConn, maxEdges, count + |ps|);
    }
  }

  /** Two layers of two memories each with `max_edges` = 1 give two edges. */
  lemma TwoLayersPassTheCap(a: L.MemoryItem, b: L.MemoryItem, c: L.MemoryItem, d: L.MemoryItem)
    ensures |Plan([("L1", [a, b]), ("L2", [c, d])], 5, 1, 0)| == 2
  {
    var g: Layers := [("L1", [a, b]), ("L2", [c, d])];
    assert Bound(2, 5) == 1;
    assert Targets(2, 0, 0, 1, 1, 0) == [1];
    assert Targets(2, 0, 0, 1, 1, 1) == [1];
    assert |LayerPairs(2, 5, 1, 0)| == 1;
    assert |LayerPairs(2, 5, 1, 1)| == 1;
    assert g[1..][1..] == [];
    assert |Plan(g[1..][1..], 5, 1, 2)| == 0;
    assert |Plan(g[1..], 5, 1, 1)| == 1;
  }

  // ----- The synthetic memory's sources ------------------------------------

  /** The synthetic memory derives from at most three L8 concepts, and none
    * left out scores higher than one taken. */
  lemma TopConceptsFacts(concepts: seq<L.MemoryItem>)
    ensures |TopConcepts(concepts)| == if |concepts| < 3 then |concepts| else 3
    ensures var sorted := Sorting.SortDesc(concepts, ScoreKey);
      var k := |TopConcepts(concepts)|;
      TopConcepts(concepts) == sorted[..k] &&
      multiset(sorted[..k]) + multiset(sorted[k..]) == multiset(concepts) &&
      forall i, j :: 0 <= i < k <= j < |sorted| ==> sorted[i].score >= sorted[j].score
  {
    var sorted := Sorting.SortDesc(concepts, ScoreKey);
    var k := |TopConcepts(concepts)|;
    assert sorted == sorted[..k] + sorted[k..];
    forall i, j | 0 <= i < k <= j < |sorted| ensures sorted[i].score >= sorted[j].score {
      assert ScoreKey(sorted[i]) >= ScoreKey(sorted[j]);
    }
  }

  // ----- What the loops write ------------------------------------------------

  lemma RowPairsIn(i: int, ts: seq<int>, n: int)
    requires 0 <= i < n && Below(ts, n)
    ensures PairsIn(RowPairs(i, ts), 0, n)
  {
  }

  lemma RowPairsSnoc(i: int, ts: seq<int>, x: int)
    ensures RowPairs(i, ts + [x]) == RowPairs(i, ts) + [(i, x)]
  {
  }

  lemma LinksAppend(items: seq<L.MemoryItem>, p: seq<(int, int)>, q: seq<(int, int)>)
    requires PairsIn(p, 0, |items|) && PairsIn(q, 0, |items|)
    ensures PairsIn(p + q, 0, |items|)
    ensures Links(items, p + q) == Links(items, p) + Links(items, q)
  {
    assert forall k :: 0 <= k < |p + q| ==> (p + q)[k] == if k < |p| then p[k] else q[k - |p|];
  }

  /** Links written one after another get consecutive edge ids, and their
    * rows follow one another. */
  lemma {:induction false} LinkedAppend(a: seq<(L.MemoryItem, L.MemoryItem)>, b: seq<(L.MemoryItem, L.MemoryItem)>, base: int, now: int)
    ensures LinkRows(a + b, base, now) == LinkRows(a, base, now) + LinkRows(b, base + |a|, now)
    ensures LinkConnections(a + b, base) == LinkConnections(a, base) + LinkConnections(b, base + |a|)
    ensures LinkIds(|a + b|, base) == LinkIds(|a|, base) + LinkIds(|b|, base + |a|)
    decreases |a|
  {
    if |a| > 0 {
      assert (a + b)[0] == a[0] && (a + b)[1..] == a[1..] + b;
      LinkedAppend(a[1..], b, base + 1, now);
    } else {
      assert a + b == b;
    }
  }

  /** What one `add_edge` of the loop writes. */
  lemma LinkedOne(link: (L.MemoryItem, L.MemoryItem), base: int, now: int)
    ensures LinkRows([link], base, now) == [HG.EdgeRow(base + 1, LinkType, LinkPayload(link, now), now)]
    ensures LinkConnections([link], base) == [HG.Connection(base + 1, link.0.id, true), HG.Connection(base + 1, link.1.id, false)]
    ensures LinkIds(1, base) == [base + 1]
  {
    assert [link][1..] == [];
  }

  /** From the tables `e0`, `c0` and the id list `ids0`, writing `links` with
    * ids after `base` leads to `e`, `c` and `ids`. */
  predicate Wrote(e0: seq<HG.EdgeRow>, c0: seq<HG.Connection>, ids0: seq<int>,
                  e: seq<HG.EdgeRow>, c: seq<HG.Connection>, ids: seq<int>,
                  links: seq<(L.MemoryItem, L.MemoryItem)>, base: int, now: int)
  {
    e == e0 + LinkRows(links, base, now) && c == c0 + LinkConnections(links, base) && ids == ids0 + LinkIds(|links|, base)
  }

  lemma WroteNothing(e: seq<HG.EdgeRow>, c: seq<HG.Connection>, ids: seq<int>, base: int, now: int)
    ensures Wrote(e, c, ids, e, c, ids, [], base, now)
  {
    assert e + [] == e && c + [] == c && ids + [] == ids;
  }

  /** Two writes one after the other are one write of both lists. */
  lemma WroteBoth(e0: seq<HG.EdgeRow>, c0: seq<HG.Connection>, ids0: seq<int>,
                  e1: seq<HG.EdgeRow>, c1: seq<HG.Connection>, ids1: seq<int>,
                  e2: seq<HG.EdgeRow>, c2: seq<HG.Connection>, ids2: seq<int>,
                  a: seq<(L.MemoryItem, L.MemoryItem)>, b: seq<(L.MemoryItem, L.MemoryItem)>, base: int, mid: int, now: int)
    requires Wrote(e0, c0, ids0, e1, c1, ids1, a, base, now)
    requires mid == base + |a| && Wrote(e1, c1, ids1, e2, c2, ids2, b, mid, now)
    ensures Wrote(e0, c0, ids0, e2, c2, ids2, a + b, base, now)
  {
    LinkedAppend(a, b, base, now);
    assert e2 == e0 + (LinkRows(a, base, now) + LinkRows(b, base + |a|, now));
    assert c2 == c0 + (LinkConnections(a, base) + LinkConnections(b, base + |a|));
    assert ids2 == ids0 + (LinkIds(|a|, base) + LinkIds(|b|, base + |a|));
  }

  /** Two writes of pairs of `items`, one after the other, are one write of
    * both. */
  lemma WroteLinks(items: seq<L.MemoryItem>,
                   e0: seq<HG.EdgeRow>, c0: seq<HG.Connection>, ids0: seq<int>,
                   e1: seq<HG.EdgeRow>, c1: seq<HG.Connection>, ids1: seq<int>,
                   e2: seq<HG.EdgeRow>, c2: seq<HG.Connection>, ids2: seq<int>,
                   done: seq<(int, int)>, row: seq<(int, int)>, base: int, mid: int, now: int)
    requires PairsIn(done, 0, |items|) && PairsIn(row, 0, |items|)
    requires Wrote(e0, c0, ids0, e1, c1, ids1, Links(items, done), base, now)
    requires mid == base + |done| && Wrote(e1, c1, ids1, e2, c2, ids2, Links(items, row), mid, now)
    ensures PairsIn(done + row, 0, |items|)
    ensures Wrote(e0, c0, ids0, e2, c2, ids2, Links(items, done + row), base, now)
    ensures |ids2| == |ids1| + |row|
  {
    LinksAppend(items, done, row);
    WroteBoth(e0, c0, ids0, e1, c1, ids1, e2, c2, ids2, Links(items, done), Links(items, row), base, mid, now);
  }

  /** One more link of item `i`'s row, to `x`, written after the links of
    * the row so far. */
  lemma WroteNext(items: seq<L.MemoryItem>,
                  e0: seq<HG.EdgeRow>, c0: seq<HG.Connection>, ids0: seq<int>,
                  e1: seq<HG.EdgeRow>, c1: seq<HG.Connection>, ids1: seq<int>,
                  e2: seq<HG.EdgeRow>, c2: seq<HG.Connection>, ids2: seq<int>,
                  i: int, done: seq<int>, x: int, base: int, mid: int, now: int)
    requires 0 <= i < |items| && 0 <= x < |items| && Below(done, |items|)
    requires Wrote(e0, c0, ids0, e1, c1, ids1, Links(items, RowPairs(i, done)), base, now)
    requires mid == base + |done| && Wrote(e1, c1, ids1, e2, c2, ids2, [(items[i], items[x])], mid, now)
    ensures Below(done + [x], |items|) && PairsIn(RowPairs(i, done + [x]), 0, |items|)
    ensures Wrote(e0, c0, ids0, e2, c2, ids2, Links(items, RowPairs(i, done + [x])), base, now)
    ensures |ids2| == |ids1| + 1
  {
    assert Links(items, [(i, x)]) == [(items[i], items[x])];
    RowPairsIn(i, done, |items|);
    RowPairsIn(i, [x], |items|);
    WroteLinks(items, e0, c0, ids0, e1, c1, ids1, e2, c2, ids2, RowPairs(i, done), [(i, x)], base, mid, now);
    RowPairsSnoc(i, done, x);
    assert forall k :: 0 <= k < |done + [x]| ==> (done + [x])[k] == if k < |done| then done[k] else x;
  }

  // ----- The loops, round by round ---------------------------------------------
  // The loops build their lists from the front: `done` is what a loop has
  // made so far, and `all == done + <the rest of the loop>` is kept by
  // each round, so that once a loop ends `done` is the whole list.

  /** A round moves `row` from the front of what is left to the end of what
    * is done. */
  lemma Shift<T>(all: seq<T>, done: seq<T>, whole: seq<T>, row: seq<T>, rest: seq<T>, done': seq<T>)
    requires all == done + whole && whole == row + rest && done' == done + row
    ensures all == done' + rest
  {
  }

  lemma NoneLeft<T>(all: seq<T>, done: seq<T>, rest: seq<T>)
    requires all == done + rest && |rest| == 0
    ensures all == done
  {
    assert done + rest == done;
  }

  /** One round of the inner loop: it had made `done` with `c` edges, and
    * now has made `done'` with `c'`. */
  lemma TargetsStep(n: int, i: int, j: int, bound: int, maxEdges: int, c: int, c': int,
                    all: seq<int>, done: seq<int>, done': seq<int>)
    requires n > 0 && 0 <= i && 0 <= j < bound
    requires all == done + Targets(n, i, j, bound, maxEdges, c)
    requires done' == done + [(i + j + 1) % n] && c' == c + 1
    ensures c' >= maxEdges ==> all == done'
    ensures c' < maxEdges ==> all == done' + Targets(n, i, j + 1, bound, maxEdges, c')
  {
    var x := (i + j + 1) % n;
    var rest: seq<int> := if c' >= maxEdges then [] else Targets(n, i, j + 1, bound, maxEdges, c');
    assert Targets(n, i, j, bound, maxEdges, c) == [x] + rest;
    Shift(all, done, Targets(n, i, j, bound, maxEdges, c), [x], rest, done');
    if c' >= maxEdges {
      NoneLeft(all, done', rest);
    }
  }

  /** The inner loop ends after round `bound`. */
  lemma TargetsDone(n: int, i: int, j: int, bound: int, maxEdges: int, c: int,
                    all: seq<int>, done: seq<int>)
    requires n > 0 && 0 <= i && 0 <= j && bound <= j
    requires all == done + Targets(n, i, j, bound, maxEdges, c)
    ensures all == done
  {
    assert done + [] == done;
  }

  /** One round of the outer loop: it had made `done` with `c` edges, and
    * now has made `done'` with `c'`. */
  lemma LayerFromStep(n: int, i: int, bound: int, maxEdges: int, c: int, c': int,
                      all: seq<(int, int)>, done: seq<(int, int)>, done': seq<(int, int)>)
    requires 0 <= i < n && all == done + LayerFrom(n, i, bound, maxEdges, c)
    requires var row := RowPairs(i, Targets(n, i, 0, bound, maxEdges, c));
             done' == done + row && c' == c + |row|
    ensures c' >= maxEdges ==> all == done'
    ensures c' < maxEdges ==> all == done' + LayerFrom(n, i + 1, bound, maxEdges, c')
  {
    var inner := Targets(n, i, 0, bound, maxEdges, c);
    var row := RowPairs(i, inner);
    var rest: seq<(int, int)> := if c' >= maxEdges then [] else LayerFrom(n, i + 1, bound, maxEdges, c');
    LayerFromUnfold(n, i, bound, maxEdges, c);
    assert c' == c + |inner|;
    Shift(all, done, LayerFrom(n, i, bound, maxEdges, c), row, rest, done');
    if c' >= maxEdges {
      NoneLeft(all, done', rest);
    }
  }

  /** The outer loop ends after the last item. */
  lemma LayerFromDone(n: int, i: int, bound: int, maxEdges: int, c: int,
                      all: seq<(int, int)>, done: seq<(int, int)>)
    requires n > 0 && n <= i && all == done + LayerFrom(n, i, bound, maxEdges, c)
    ensures all == done
  {
    assert done + [] == done;
  }

  /** The loop over the layers ends after the last layer. */
  lemma PlanDone(groups: Layers, g: int, maxConn: int, maxEdges: int, count: int,
                 all: seq<(L.MemoryItem, L.MemoryItem)>, done: seq<(L.MemoryItem, L.MemoryItem)>)
    requires g == |groups| && all == done + Plan(groups[g..], maxConn, maxEdges, count)
    ensures all == done
  {
    assert groups[g..] == [];
    assert done + [] == done;
  }
}
