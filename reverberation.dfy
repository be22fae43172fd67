// Spreading activation through the hypergraph, as `reverberate` in
// core/memory/anamnesis_engine.py does it: from a list of memory ids, the
// nodes on the other ends of their edges, grouped by layer, scored with
// the reverb decay, and again from those with the decay applied once more
// per hop. Python's sets of ids are kept in insertion order; the order a
// set is iterated in is not part of what is proved.
module Reverberation {
  import opened Values
  import HG = HypergraphStore
  import L = Lattice

  /** `connected`: layer to the ids reached in that layer. */
  type Groups = seq<(string, seq<string>)>

  /** The result: layer to the memories activated in that layer. */
  type Reverbs = seq<(string, seq<L.MemoryItem>)>

  function Power(x: real, n: nat): real {
    if n == 0 then 1.0 else x * Power(x, n - 1)
  }

  /** Whether `r` has a node row in layer `l`. */
  predicate NodeLayer(nodes: seq<HG.NodeRow>, r: string, l: string) {
    HG.FindNode(nodes, r).Some? && HG.FindNode(nodes, r).value.layer == l
  }

  /** Whether group `l` of `c` holds `r`. */
  predicate InGroup(c: Groups, l: string, r: string) {
    L.Lookup(c, l).Some? && r in L.Lookup(c, l).value
  }

  /** One key per layer, and each layer's ids a set. */
  ghost predicate GroupsOk(c: Groups) {
    L.UniqueIds(c) && forall l :: L.Lookup(c, l).Some? ==> HG.NoDuplicates(L.Lookup(c, l).value)
  }

  // ----- The first hop ------------------------------------------------------

  /** `connected.setdefault(layer, set()).add(id)` */
  function AddId(c: Groups, layer: string, id: string): Groups {
    match L.Lookup(c, layer)
    case None => L.Assign(c, layer, [id])
    case Some(ids) => L.Assign(c, layer, if id in ids then ids else ids + [id])
  }

  /** One endpoint of an edge around `memId`: skipped when it is `memId`
    * itself or has no node, otherwise added to its node's layer. */
  function Visit(nodes: seq<HG.NodeRow>, memId: string, id: string, c: Groups): Groups {
    if id == memId then c
    else match HG.FindNode(nodes, id)
      case None => c
      case Some(n) => AddId(c, n.layer, id)
  }

  /** The loop over `source_ids + target_ids` of one edge. */
  function VisitAll(nodes: seq<HG.NodeRow>, memId: string, ids: seq<string>, c: Groups): Groups
    decreases |ids|
  {
    if ids == [] then c else VisitAll(nodes, memId, ids[1..], Visit(nodes, memId, ids[0], c))
  }

  /** The loop over the edges around `memId`. */
  function VisitEdges(nodes: seq<HG.NodeRow>, memId: string, es: seq<HG.EdgeView>, c: Groups): Groups
    decreases |es|
  {
    if es == [] then c
    else VisitEdges(nodes, memId, es[1..], VisitAll(nodes, memId, es[0].sourceIds + es[0].targetIds, c))
  }

  /** The loop over `memory_ids`, each with `get_edges(around=mem_id)`. */
  function Connected(g: HG.Graph, ids: seq<string>, c: Groups): Groups
    decreases |ids|
  {
    if ids == [] then c else Connected(g, ids[1..], VisitEdges(g.nodes, ids[0], g.adj(ids[0]), c))
  }

  /** `get_node_payload(item_id) or {}` */
  function PayloadOr(nodes: seq<HG.NodeRow>, id: string): Value {
    match HG.NodePayload(nodes, id)
    case Some(p) => if Truthy(p) then p else VDict([])
    case None => VDict([])
  }

  /** The memory items of one layer, each scored `decay`. */
  function ItemsFor(nodes: seq<HG.NodeRow>, layer: string, ids: seq<string>, decay: real): (r: seq<L.MemoryItem>)
    ensures |r| == |ids|
  {
    seq(|ids|, j requires 0 <= j < |ids| => L.MemoryItem(ids[j], layer, decay, None, PayloadOr(nodes, ids[j])))
  }

  /** The loop converting `connected` into `reverbs`. */
  function Activate(nodes: seq<HG.NodeRow>, c: Groups, decay: real): (r: Reverbs)
    ensures |r| == |c|
  {
    seq(|c|, i requires 0 <= i < |c| => (c[i].0, ItemsFor(nodes, c[i].0, c[i].1, decay)))
  }

  // ----- Later hops --------------------------------------------------------

  function IdsOf(items: seq<L.MemoryItem>): (r: seq<string>)
    ensures |r| == |items|
  {
    seq(|items|, j requires 0 <= j < |items| => items[j].id)
  }

  /** The ids of every activated item, layer by layer. */
  function Flatten(rv: Reverbs): seq<string> {
    if rv == [] then [] else IdsOf(rv[0].1) + Flatten(rv[1..])
  }

  /** An id is flattened exactly when some layer activated it. */
  lemma {:induction false} FlattenHolds(rv: Reverbs, r: string)
    ensures r in Flatten(rv) <==> exists k :: 0 <= k < |rv| && r in IdsOf(rv[k].1)
  {
    if rv != [] {
      FlattenHolds(rv[1..], r);
      assert forall k :: 1 <= k < |rv| ==> rv[k] == rv[1..][k - 1];
      if exists k :: 0 <= k < |rv| && r in IdsOf(rv[k].1) {
        var k :| 0 <= k < |rv| && r in IdsOf(rv[k].1);
        if k > 0 {
          assert r in IdsOf(rv[1..][k - 1].1);
        }
      }
    }
  }

  /** The items of a deeper hop with their scores decayed once more. */
  function Decayed(items: seq<L.MemoryItem>, decay: real): (r: seq<L.MemoryItem>)
    ensures |r| == |items|
  {
    seq(|items|, j requires 0 <= j < |items| => items[j].(score := items[j].score * decay))
  }

  lemma DecayedSnoc(items: seq<L.MemoryItem>, j: int, decay: real)
    requires 0 <= j < |items|
    ensures Decayed(items[..j + 1], decay) == Decayed(items[..j], decay) + [items[j].(score := items[j].score * decay)]
  {
    var a := Decayed(items[..j + 1], decay);
    var b := Decayed(items[..j], decay) + [items[j].(score := items[j].score * decay)];
    forall m | 0 <= m < |a| ensures a[m] == b[m] {
      assert items[..j + 1][m] == items[m];
      if m < j {
        assert items[..j][m] == items[m];
      }
    }
  }

  /** `reverbs[layer].extend(items)`, or `reverbs[layer] = items` for a new layer. */
  function MergeIn(rv: Reverbs, layer: string, items: seq<L.MemoryItem>): Reverbs {
    match L.Lookup(rv, layer)
    case Some(xs) => L.Assign(rv, layer, xs + items)
    case None => L.Assign(rv, layer, items)
  }

  /** The merge loop over `next_reverbs`. */
  function MergeAll(rv: Reverbs, next: Reverbs, decay: real): Reverbs
    decreases |next|
  {
    if next == [] then rv else MergeAll(MergeIn(rv, next[0].0, Decayed(next[0].1, decay)), next[1..], decay)
  }

  /** `reverberate(memory_ids, depth)` over the graph the store presents. */
  function Reverb(g: HG.Graph, decay: real, ids: seq<string>, depth: int): Reverbs
    decreases depth
  {
    if depth <= 0 || ids == [] then []
    else
      var first := Activate(g.nodes, Connected(g, ids, []), decay);
      if depth > 1 then MergeAll(first, Reverb(g, decay, Flatten(first), depth - 1), decay) else first
  }

  // ----- What the first hop reaches --------------------------------------

  /** Whether `r` is an endpoint of one of the edges `es`. */
  ghost predicate OnSomeEdge(es: seq<HG.EdgeView>, r: string) {
    exists e :: 0 <= e < |es| && r in es[e].sourceIds + es[e].targetIds
  }

  /** Whether an edge around `m` reaches `r`, another node. */
  ghost predicate Touches(g: HG.Graph, m: string, r: string) {
    r != m && OnSomeEdge(g.adj(m), r)
  }

  /** Whether the first hop from `ids` reaches `r` in layer `l`. */
  ghost predicate Reached(g: HG.Graph, ids: seq<string>, l: string, r: string) {
    NodeLayer(g.nodes, r, l) && exists k :: 0 <= k < |ids| && Touches(g, ids[k], r)
  }

  lemma AddIdFacts(c: Groups, layer: string, id: string, l: string, r: string)
    ensures InGroup(AddId(c, layer, id), l, r) <==> InGroup(c, l, r) || (l == layer && r == id)
    ensures GroupsOk(c) ==> GroupsOk(AddId(c, layer, id))
  {
    var ids := if L.Lookup(c, layer).Some? then L.Lookup(c, layer).value else [];
    var v := if id in ids then ids else ids + [id];
    assert AddId(c, layer, id) == L.Assign(c, layer, v) by {
      if L.Lookup(c, layer).None? {
        assert v == [id];
      }
    }
    if GroupsOk(c) {
      AddIdKeepsOk(c, layer, ids, id, v);
    }
  }

  lemma AddIdKeepsOk(c: Groups, layer: string, ids: seq<string>, id: string, v: seq<string>)
    requires GroupsOk(c)
    requires ids == if L.Lookup(c, layer).Some? then L.Lookup(c, layer).value else []
    requires v == if id in ids then ids else ids + [id]
    ensures GroupsOk(L.Assign(c, layer, v))
  {
    L.AssignKeepsUnique(c, layer, v);
    var c' := L.Assign(c, layer, v);
    assert HG.NoDuplicates(ids);
    assert HG.NoDuplicates(v) by {
      if id !in ids {
        forall i, j | 0 <= i < j < |v| ensures v[i] != v[j] {
          if j == |ids| {
            assert v[i] == ids[i];
          } else {
            assert v[i] == ids[i] && v[j] == ids[j];
          }
        }
      }
    }
    forall l' | L.Lookup(c', l').Some? ensures HG.NoDuplicates(L.Lookup(c', l').value) {
      if l' != layer {
        assert L.Lookup(c', l') == L.Lookup(c, l');
      }
    }
  }

  lemma VisitStep(nodes: seq<HG.NodeRow>, memId: string, id: string, c: Groups, l: string, r: string)
    ensures InGroup(Visit(nodes, memId, id, c), l, r) <==>
      InGroup(c, l, r) || (r == id && id != memId && NodeLayer(nodes, id, l))
    ensures GroupsOk(c) ==> GroupsOk(Visit(nodes, memId, id, c))
  {
    if id != memId && HG.FindNode(nodes, id).Some? {
      AddIdFacts(c, HG.FindNode(nodes, id).value.layer, id, l, r);
    }
  }

  lemma {:induction false} VisitAllFacts(nodes: seq<HG.NodeRow>, memId: string, ids: seq<string>, c: Groups,
                                         l: string, r: string)
    ensures InGroup(VisitAll(nodes, memId, ids, c), l, r) <==>
      InGroup(c, l, r) || (r in ids && r != memId && NodeLayer(nodes, r, l))
    ensures GroupsOk(c) ==> GroupsOk(VisitAll(nodes, memId, ids, c))
    decreases |ids|
  {
    if ids != [] {
      VisitStep(nodes, memId, ids[0], c, l, r);
      VisitAllFacts(nodes, memId, ids[1..], Visit(nodes, memId, ids[0], c), l, r);
      assert r in ids <==> r == ids[0] || r in ids[1..];
    }
  }

  lemma OnSomeEdgeCons(es: seq<HG.EdgeView>, r: string)
    requires es != []
    ensures OnSomeEdge(es, r) <==> r in es[0].sourceIds + es[0].targetIds || OnSomeEdge(es[1..], r)
  {
    if OnSomeEdge(es, r) {
      var e :| 0 <= e < |es| && r in es[e].sourceIds + es[e].targetIds;
      if e > 0 {
        assert es[1..][e - 1] == es[e];
      }
    }
    if OnSomeEdge(es[1..], r) {
      var e :| 0 <= e < |es[1..]| && r in es[1..][e].sourceIds + es[1..][e].targetIds;
      assert es[e + 1] == es[1..][e];
    }
  }

  lemma {:induction false} VisitEdgesFacts(nodes: seq<HG.NodeRow>, memId: string, es: seq<HG.EdgeView>, c: Groups,
                                           l: string, r: string)
    ensures InGroup(VisitEdges(nodes, memId, es, c), l, r) <==>
      InGroup(c, l, r) || (r != memId && NodeLayer(nodes, r, l) && OnSomeEdge(es, r))
    ensures GroupsOk(c) ==> GroupsOk(VisitEdges(nodes, memId, es, c))
    decreases |es|
  {
    if es != [] {
      VisitAllFacts(nodes, memId, es[0].sourceIds + es[0].targetIds, c, l, r);
      VisitEdgesFacts(nodes, memId, es[1..], VisitAll(nodes, memId, es[0].sourceIds + es[0].targetIds, c), l, r);
      OnSomeEdgeCons(es, r);
    }
  }

  lemma {:induction false} ConnectedFacts(g: HG.Graph, ids: seq<string>, c: Groups, l: string, r: string)
    ensures InGroup(Connected(g, ids, c), l, r) <==>
      InGroup(c, l, r) || (NodeLayer(g.nodes, r, l) && exists k :: 0 <= k < |ids| && Touches(g, ids[k], r))
    ensures GroupsOk(c) ==> GroupsOk(Connected(g, ids, c))
    decreases |ids|
  {
    if ids != [] {
      var c' := VisitEdges(g.nodes, ids[0], g.adj(ids[0]), c);
      VisitEdgesFacts(g.nodes, ids[0], g.adj(ids[0]), c, l, r);
      ConnectedFacts(g, ids[1..], c', l, r);
      if exists k :: 0 <= k < |ids| && Touches(g, ids[k], r) {
        var k :| 0 <= k < |ids| && Touches(g, ids[k], r);
        if k > 0 {
          assert ids[1..][k - 1] == ids[k];
        }
      }
      if exists k :: 0 <= k < |ids[1..]| && Touches(g, ids[1..][k], r) {
        var k :| 0 <= k < |ids[1..]| && Touches(g, ids[1..][k], r);
        assert ids[k + 1] == ids[1..][k];
      }
    }
  }

  // ----- What a reverberation holds ---------------------------------------

  /** Whether layer `l` of `rv` holds an item with id `r`. */
  predicate Hit(rv: Reverbs, l: string, r: string) {
    L.Lookup(rv, l).Some? && r in IdsOf(L.Lookup(rv, l).value)
  }

  lemma {:induction false} LookupActivate(nodes: seq<HG.NodeRow>, c: Groups, decay: real, l: string)
    ensures L.Lookup(Activate(nodes, c, decay), l) ==
      if L.Lookup(c, l).Some? then Some(ItemsFor(nodes, l, L.Lookup(c, l).value, decay)) else None
    decreases |c|
  {
    if c != [] {
      assert Activate(nodes, c, decay)[1..] == Activate(nodes, c[1..], decay);
      LookupActivate(nodes, c[1..], decay, l);
    }
  }

  lemma IdsOfItemsFor(nodes: seq<HG.NodeRow>, layer: string, ids: seq<string>, decay: real)
    ensures IdsOf(ItemsFor(nodes, layer, ids, decay)) == ids
  {
  }

  /** The first hop, before any merging, holds exactly what it reaches. */
  lemma FirstHop(g: HG.Graph, decay: real, ids: seq<string>, l: string, r: string)
    ensures Hit(Activate(g.nodes, Connected(g, ids, []), decay), l, r) <==> Reached(g, ids, l, r)
    ensures GroupsOk(Connected(g, ids, []))
  {
    var c := Connected(g, ids, []);
    ConnectedFacts(g, ids, [], l, r);
    LookupActivate(g.nodes, c, decay, l);
    if L.Lookup(c, l).Some? {
      IdsOfItemsFor(g.nodes, l, L.Lookup(c, l).value, decay);
    }
  }

  lemma {:induction false} AssignMembers<V>(m: seq<(string, V)>, k: string, v: V)
    ensures forall p :: p in L.Assign(m, k, v) ==> p == (k, v) || p in m
    decreases |m|
  {
    if m != [] && m[0].0 != k {
      AssignMembers(m[1..], k, v);
    }
  }

  lemma {:induction false} LookupMember<V>(m: seq<(string, V)>, k: string)
    ensures L.Lookup(m, k).Some? ==> (k, L.Lookup(m, k).value) in m
    decreases |m|
  {
    if m != [] && m[0].0 != k {
      LookupMember(m[1..], k);
    }
  }

  /** Merging only appends to a layer's items: what was there stays in front. */
  lemma {:induction false} MergeAllKeeps(rv: Reverbs, next: Reverbs, decay: real, l: string)
    requires L.Lookup(rv, l).Some?
    ensures L.Lookup(MergeAll(rv, next, decay), l).Some?
    ensures L.Lookup(rv, l).value <= L.Lookup(MergeAll(rv, next, decay), l).value
    decreases |next|
  {
    if next != [] {
      var rv' := MergeIn(rv, next[0].0, Decayed(next[0].1, decay));
      assert L.Lookup(rv', l).Some? && L.Lookup(rv, l).value <= L.Lookup(rv', l).value;
      MergeAllKeeps(rv', next[1..], decay, l);
    }
  }

  lemma PrefixIds(xs: seq<L.MemoryItem>, ys: seq<L.MemoryItem>, r: string)
    requires xs <= ys && r in IdsOf(xs)
    ensures r in IdsOf(ys)
  {
    var j :| 0 <= j < |xs| && IdsOf(xs)[j] == r;
    assert IdsOf(ys)[j] == r;
  }

  /** Every node the first hop reaches is in the reverberation at every
    * depth, under its own layer; at depth 1 nothing else is, and each
    * layer lists an id once. */
  lemma ReverbFirstHop(g: HG.Graph, decay: real, ids: seq<string>, depth: int, l: string, r: string)
    requires depth >= 1 && ids != []
    ensures Reached(g, ids, l, r) ==> Hit(Reverb(g, decay, ids, depth), l, r)
    ensures depth == 1 ==> (Hit(Reverb(g, decay, ids, depth), l, r) <==> Reached(g, ids, l, r))
    ensures depth == 1 && L.Lookup(Reverb(g, decay, ids, depth), l).Some? ==>
      HG.NoDuplicates(IdsOf(L.Lookup(Reverb(g, decay, ids, depth), l).value))
    ensures depth == 1 && L.Lookup(Reverb(g, decay, ids, depth), l).Some? ==>
      forall x :: x in L.Lookup(Reverb(g, decay, ids, depth), l).value ==> x.layer == l && x.score == decay
    ensures Reached(g, ids, l, r) ==> Holds(Reverb(g, decay, ids, depth), l, r, decay)
  {
    ReverbHolds(g, decay, ids, depth, l, r, decay);
    ReachedAtOne(g, ids, l, r);
    PowerSucc(decay, 0);
    var c := Connected(g, ids, []);
    var first := Activate(g.nodes, c, decay);
    FirstHop(g, decay, ids, l, r);
    LookupActivate(g.nodes, c, decay, l);
    if L.Lookup(c, l).Some? {
      IdsOfItemsFor(g.nodes, l, L.Lookup(c, l).value, decay);
    }
    if depth > 1 && Reached(g, ids, l, r) {
      var next := Reverb(g, decay, Flatten(first), depth - 1);
      MergeAllKeeps(first, next, decay, l);
      PrefixIds(L.Lookup(first, l).value, L.Lookup(MergeAll(first, next, decay), l).value, r);
    }
  }

  /** A reverberation with nothing to start from, or no depth, is empty. */
  lemma ReverbNothing(g: HG.Graph, decay: real, ids: seq<string>, depth: int)
    requires depth <= 0 || ids == []
    ensures Reverb(g, decay, ids, depth) == []
  {
  }

  // ----- Scores and layers -------------------------------------------------

  /** `x`, listed under layer `l`, is a node of that layer scored with the
    * decay raised to a hop count between 1 and `depth`. */
  ghost predicate ItemOk(nodes: seq<HG.NodeRow>, l: string, x: L.MemoryItem, decay: real, depth: int) {
    x.layer == l && NodeLayer(nodes, x.id, l) && exists h: nat :: 1 <= h <= depth && x.score == Power(decay, h)
  }

  /** One entry per layer, and every item well placed and scored. */
  ghost predicate Shaped(nodes: seq<HG.NodeRow>, rv: Reverbs, decay: real, depth: int) {
    L.UniqueIds(rv) && forall p, x :: p in rv && x in p.1 ==> ItemOk(nodes, p.0, x, decay, depth)
  }

  lemma {:induction false} LookupOfMember<V>(m: seq<(string, V)>, p: (string, V))
    requires L.UniqueIds(m) && p in m
    ensures L.Lookup(m, p.0) == Some(p.1)
    decreases |m|
  {
    if m[0] != p {
      assert m[0].0 != p.0;
      LookupOfMember(m[1..], p);
    }
  }

  lemma ActivateShaped(nodes: seq<HG.NodeRow>, c: Groups, decay: real, depth: int)
    requires GroupsOk(c) && depth >= 1
    requires forall l, r :: InGroup(c, l, r) ==> NodeLayer(nodes, r, l)
    ensures Shaped(nodes, Activate(nodes, c, decay), decay, depth)
  {
    var rv := Activate(nodes, c, decay);
    assert Power(decay, 1) == decay;
    forall p, x | p in rv && x in p.1 ensures ItemOk(nodes, p.0, x, decay, depth) {
      var i :| 0 <= i < |rv| && rv[i] == p;
      var j :| 0 <= j < |p.1| && p.1[j] == x;
      LookupOfMember(c, c[i]);
      assert InGroup(c, c[i].0, c[i].1[j]);
    }
    forall i, j | 0 <= i < j < |rv| ensures rv[i].0 != rv[j].0 {
      assert rv[i].0 == c[i].0 && rv[j].0 == c[j].0;
    }
  }

  lemma DecayedOk(nodes: seq<HG.NodeRow>, l: string, items: seq<L.MemoryItem>, decay: real, depth: int)
    requires forall x :: x in items ==> ItemOk(nodes, l, x, decay, depth - 1)
    ensures forall x :: x in Decayed(items, decay) ==> ItemOk(nodes, l, x, decay, depth)
  {
    forall x | x in Decayed(items, decay) ensures ItemOk(nodes, l, x, decay, depth) {
      var j :| 0 <= j < |items| && Decayed(items, decay)[j] == x;
      assert items[j] in items;
      var h: nat :| 1 <= h <= depth - 1 && items[j].score == Power(decay, h);
      assert x.score == Power(decay, h + 1);
    }
  }

  lemma MergeInShaped(nodes: seq<HG.NodeRow>, rv: Reverbs, layer: string, items: seq<L.MemoryItem>, decay: real, depth: int)
    requires Shaped(nodes, rv, decay, depth)
    requires forall x :: x in items ==> ItemOk(nodes, layer, x, decay, depth)
    ensures Shaped(nodes, MergeIn(rv, layer, items), decay, depth)
  {
    var v := if L.Lookup(rv, layer).Some? then L.Lookup(rv, layer).value + items else items;
    assert MergeIn(rv, layer, items) == L.Assign(rv, layer, v);
    L.AssignKeepsUnique(rv, layer, v);
    AssignMembers(rv, layer, v);
    LookupMember(rv, layer);
  }

  lemma {:induction false} MergeAllShaped(nodes: seq<HG.NodeRow>, rv: Reverbs, next: Reverbs, decay: real, depth: int)
    requires Shaped(nodes, rv, decay, depth)
    requires forall p, x :: p in next && x in p.1 ==> ItemOk(nodes, p.0, x, decay, depth - 1)
    ensures Shaped(nodes, MergeAll(rv, next, decay), decay, depth)
    decreases |next|
  {
    if next != [] {
      DecayedOk(nodes, next[0].0, next[0].1, decay, depth);
      MergeInShaped(nodes, rv, next[0].0, Decayed(next[0].1, decay), decay, depth);
      MergeAllShaped(nodes, MergeIn(rv, next[0].0, Decayed(next[0].1, decay)), next[1..], decay, depth);
    }
  }

  /** Every activated item sits under its own node's layer with score
    * `decay^h` for a hop count `h` between 1 and `depth`, and each layer
    * appears once. */
  lemma {:induction false} ReverbShape(g: HG.Graph, decay: real, ids: seq<string>, depth: int)
    ensures Shaped(g.nodes, Reverb(g, decay, ids, depth), decay, depth)
    decreases depth
  {
    if depth >= 1 && ids != [] {
      var c := Connected(g, ids, []);
      forall l, r | InGroup(c, l, r) ensures NodeLayer(g.nodes, r, l) {
        ConnectedFacts(g, ids, [], l, r);
      }
      FirstHop(g, decay, ids, "", "");
      var first := Activate(g.nodes, c, decay);
      ActivateShaped(g.nodes, c, decay, depth);
      if depth > 1 {
        ReverbShape(g, decay, Flatten(first), depth - 1);
        MergeAllShaped(g.nodes, first, Reverb(g, decay, Flatten(first), depth - 1), decay, depth);
      }
    }
  }

  // ----- Scores by hop count ------------------------------------------------

  /** Whether a walk of exactly `h` hops from the seeds `ids` ends at `m`:
    * each hop goes along an edge around the previous node to another node
    * that has a node row. */
  ghost predicate Walked(g: HG.Graph, ids: seq<string>, h: nat, m: string)
    decreases h
  {
    h >= 1 && HG.FindNode(g.nodes, m).Some? &&
    if h == 1 then exists k :: 0 <= k < |ids| && Touches(g, ids[k], m)
    else exists p :: Touches(g, p, m) && Walked(g, ids, h - 1, p)
  }

  /** Whether `r`, a node of layer `l`, ends a walk of `h` hops from `ids`. */
  ghost predicate ReachedAt(g: HG.Graph, ids: seq<string>, h: nat, l: string, r: string) {
    NodeLayer(g.nodes, r, l) && Walked(g, ids, h, r)
  }

  /** A walk of one hop is what the first hop reaches. */
  lemma ReachedAtOne(g: HG.Graph, ids: seq<string>, l: string, r: string)
    ensures ReachedAt(g, ids, 1, l, r) <==> Reached(g, ids, l, r)
  {
  }

  /** Whether some walk of 1 to `depth` hops reaches `r` in `l` with `s`
    * the decay raised to the number of hops. */
  ghost predicate Scored(g: HG.Graph, decay: real, ids: seq<string>, depth: int, l: string, r: string, s: real) {
    exists h: nat :: 1 <= h <= depth && ReachedAt(g, ids, h, l, r) && s == Power(decay, h)
  }

  /** Whether one of `items` has id `r` and score `s`. */
  predicate HasItem(items: seq<L.MemoryItem>, r: string, s: real) {
    exists j :: 0 <= j < |items| && items[j].id == r && items[j].score == s
  }

  /** Whether layer `l` of `rv` lists `r` with score `s`. */
  predicate Holds(rv: Reverbs, l: string, r: string, s: real) {
    L.Lookup(rv, l).Some? && HasItem(L.Lookup(rv, l).value, r, s)
  }

  lemma HasItemConcat(a: seq<L.MemoryItem>, b: seq<L.MemoryItem>, r: string, s: real)
    ensures HasItem(a + b, r, s) <==> HasItem(a, r, s) || HasItem(b, r, s)
  {
    if HasItem(a + b, r, s) {
      var j :| 0 <= j < |a + b| && (a + b)[j].id == r && (a + b)[j].score == s;
      if j >= |a| {
        assert b[j - |a|] == (a + b)[j];
      }
    }
    if HasItem(a, r, s) {
      var j :| 0 <= j < |a| && a[j].id == r && a[j].score == s;
      assert (a + b)[j] == a[j];
    }
    if HasItem(b, r, s) {
      var j :| 0 <= j < |b| && b[j].id == r && b[j].score == s;
      assert (a + b)[|a| + j] == b[j];
    }
  }

  /** Merging adds to layer `l` exactly the decayed items `next` lists under `l`. */
  lemma {:induction false} MergeAllHolds(rv: Reverbs, next: Reverbs, decay: real, l: string, r: string, s: real)
    requires L.UniqueIds(next)
    ensures Holds(MergeAll(rv, next, decay), l, r, s) <==>
      Holds(rv, l, r, s) || (L.Lookup(next, l).Some? && HasItem(Decayed(L.Lookup(next, l).value, decay), r, s))
    decreases |next|
  {
    if next != [] {
      var items := Decayed(next[0].1, decay);
      var rv' := MergeIn(rv, next[0].0, items);
      assert L.UniqueIds(next[1..]);
      MergeAllHolds(rv', next[1..], decay, l, r, s);
      if next[0].0 == l {
        assert L.Lookup(next[1..], l).None? by {
          forall i | 0 <= i < |next[1..]| ensures next[1..][i].0 != l {
            assert next[1..][i] == next[i + 1];
          }
        }
        if L.Lookup(rv, l).Some? {
          HasItemConcat(L.Lookup(rv, l).value, items, r, s);
        }
      }
    }
  }

  lemma DecayedHasItem(items: seq<L.MemoryItem>, decay: real, j: int)
    requires 0 <= j < |items|
    ensures HasItem(Decayed(items, decay), items[j].id, items[j].score * decay)
  {
    assert Decayed(items, decay)[j].score == items[j].score * decay;
  }

  lemma ItemsForHasItem(nodes: seq<HG.NodeRow>, layer: string, ids: seq<string>, decay: real, r: string, s: real)
    ensures HasItem(ItemsFor(nodes, layer, ids, decay), r, s) <==> r in ids && s == decay
  {
    var items := ItemsFor(nodes, layer, ids, decay);
    if r in ids && s == decay {
      var j :| 0 <= j < |ids| && ids[j] == r;
      assert items[j].id == r && items[j].score == s;
    }
  }

  /** The first hop lists `r` under `l` with score `s` exactly when it
    * reaches `r` in `l` and `s` is the decay. */
  lemma FirstHopHolds(g: HG.Graph, decay: real, ids: seq<string>, l: string, r: string, s: real)
    ensures Holds(Activate(g.nodes, Connected(g, ids, []), decay), l, r, s) <==> Reached(g, ids, l, r) && s == decay
  {
    var c := Connected(g, ids, []);
    ConnectedFacts(g, ids, [], l, r);
    LookupActivate(g.nodes, c, decay, l);
    if L.Lookup(c, l).Some? {
      ItemsForHasItem(g.nodes, l, L.Lookup(c, l).value, decay, r, s);
    }
  }

  /** The ids the second hop starts from are the ends of one-hop walks. */
  lemma FlattenFirst(g: HG.Graph, decay: real, ids: seq<string>, m: string)
    ensures m in Flatten(Activate(g.nodes, Connected(g, ids, []), decay)) <==> Walked(g, ids, 1, m)
  {
    var c := Connected(g, ids, []);
    var first := Activate(g.nodes, c, decay);
    FlattenHolds(first, m);
    FirstHop(g, decay, ids, "", "");
    if m in Flatten(first) {
      var k :| 0 <= k < |first| && m in IdsOf(first[k].1);
      IdsOfItemsFor(g.nodes, c[k].0, c[k].1, decay);
      LookupOfMember(c, c[k]);
      ConnectedFacts(g, ids, [], c[k].0, m);
    }
    if Walked(g, ids, 1, m) {
      var l := HG.FindNode(g.nodes, m).value.layer;
      ConnectedFacts(g, ids, [], l, m);
      LookupMember(c, l);
      var k :| 0 <= k < |c| && c[k] == (l, L.Lookup(c, l).value);
      IdsOfItemsFor(g.nodes, c[k].0, c[k].1, decay);
      assert m in IdsOf(first[k].1);
    }
  }

  /** A walk of `h` hops from the ends of the one-hop walks is a walk of
    * `h + 1` hops from the start. */
  lemma {:induction false} WalkedShift(g: HG.Graph, ids: seq<string>, seeds: seq<string>, h: nat, m: string)
    requires h >= 1
    requires forall p :: p in seeds <==> Walked(g, ids, 1, p)
    ensures Walked(g, seeds, h, m) <==> Walked(g, ids, h + 1, m)
    decreases h
  {
    if h == 1 {
      if Walked(g, seeds, 1, m) {
        var k :| 0 <= k < |seeds| && Touches(g, seeds[k], m);
        assert seeds[k] in seeds;
      }
      if Walked(g, ids, 2, m) {
        var p :| Touches(g, p, m) && Walked(g, ids, 1, p);
        assert p in seeds;
        var k :| 0 <= k < |seeds| && seeds[k] == p;
      }
    } else {
      forall p ensures Walked(g, seeds, h - 1, p) <==> Walked(g, ids, h, p) {
        WalkedShift(g, ids, seeds, h - 1, p);
      }
    }
  }

  lemma {:induction false} NoSeedsNoWalk(g: HG.Graph, h: nat, m: string)
    ensures !Walked(g, [], h, m)
    decreases h
  {
    if h > 1 && Walked(g, [], h, m) {
      var p :| Touches(g, p, m) && Walked(g, [], h - 1, p);
      NoSeedsNoWalk(g, h - 1, p);
    }
  }

  /** The ids the second hop starts from: every id the first hop activated. */
  function SeedsOf(g: HG.Graph, decay: real, ids: seq<string>): seq<string> {
    Flatten(Activate(g.nodes, Connected(g, ids, []), decay))
  }

  lemma SeedsAreOneHop(g: HG.Graph, decay: real, ids: seq<string>)
    ensures forall p :: p in SeedsOf(g, decay, ids) <==> Walked(g, ids, 1, p)
  {
    forall p ensures p in SeedsOf(g, decay, ids) <==> Walked(g, ids, 1, p) {
      FlattenFirst(g, decay, ids, p);
    }
  }

  /** A walk from the seeds, one decay step further, is a walk from the start. */
  lemma ScoredShift(g: HG.Graph, decay: real, ids: seq<string>, depth: int, l: string, r: string, t: real, s: real)
    requires depth > 1 && s == t * decay
    requires Scored(g, decay, SeedsOf(g, decay, ids), depth - 1, l, r, t)
    ensures Scored(g, decay, ids, depth, l, r, s)
  {
    var seeds := SeedsOf(g, decay, ids);
    SeedsAreOneHop(g, decay, ids);
    var h: nat :| 1 <= h <= depth - 1 && ReachedAt(g, seeds, h, l, r) && t == Power(decay, h);
    WalkedShift(g, ids, seeds, h, r);
    ScoreStep(decay, h, t, s);
    assert ReachedAt(g, ids, h + 1, l, r);
  }

  /** A walk of two hops or more from the start is a shorter walk from the seeds. */
  lemma ScoredUnshift(g: HG.Graph, decay: real, ids: seq<string>, depth: int, h: nat, l: string, r: string)
    requires 2 <= h <= depth && ReachedAt(g, ids, h, l, r)
    ensures Scored(g, decay, SeedsOf(g, decay, ids), depth - 1, l, r, Power(decay, h - 1))
  {
    var seeds := SeedsOf(g, decay, ids);
    SeedsAreOneHop(g, decay, ids);
    WalkedShift(g, ids, seeds, h - 1, r);
    assert ReachedAt(g, seeds, h - 1, l, r);
  }

  /** Layer `l` of a reverberation of depth `depth` lists `r` with score
    * `s` exactly when some walk of `h` hops, `1 <= h <= depth`, reaches
    * `r` in `l` and `s` is the decay raised to `h`: each deeper hop
    * contributes its own items, decayed once per hop, and none is merged. */
  lemma {:induction false} ReverbHolds(g: HG.Graph, decay: real, ids: seq<string>, depth: int, l: string, r: string, s: real)
    ensures Holds(Reverb(g, decay, ids, depth), l, r, s) <==> Scored(g, decay, ids, depth, l, r, s)
    decreases depth, 1
  {
    if ids == [] {
      forall h: nat ensures !Walked(g, ids, h, r) {
        NoSeedsNoWalk(g, h, r);
      }
    } else if depth == 1 {
      FirstHopScored(g, decay, ids, 1, l, r, s);
    } else if depth > 1 {
      DeeperForward(g, decay, ids, depth, l, r, s);
      DeeperBackward(g, decay, ids, depth, l, r, s);
    }
  }

  /** The first hop lists exactly the one-hop walks, scored `decay^1`. */
  lemma FirstHopScored(g: HG.Graph, decay: real, ids: seq<string>, depth: int, l: string, r: string, s: real)
    requires depth >= 1
    ensures Holds(Activate(g.nodes, Connected(g, ids, []), decay), l, r, s) <==>
      ReachedAt(g, ids, 1, l, r) && s == Power(decay, 1)
  {
    FirstHopHolds(g, decay, ids, l, r, s);
    ReachedAtOne(g, ids, l, r);
    PowerSucc(decay, 0);
  }

  /** Beyond the first hop, a reverberation is the first hop with the
    * decayed reverberation from the seeds merged in. */
  lemma DeeperSplit(g: HG.Graph, decay: real, ids: seq<string>, depth: int, l: string, r: string, s: real)
    requires ids != [] && depth > 1
    ensures var next := Reverb(g, decay, SeedsOf(g, decay, ids), depth - 1);
      Holds(Reverb(g, decay, ids, depth), l, r, s) <==>
        Holds(Activate(g.nodes, Connected(g, ids, []), decay), l, r, s) ||
        (L.Lookup(next, l).Some? && HasItem(Decayed(L.Lookup(next, l).value, decay), r, s))
  {
    var first := Activate(g.nodes, Connected(g, ids, []), decay);
    var seeds := SeedsOf(g, decay, ids);
    var next := Reverb(g, decay, seeds, depth - 1);
    assert Reverb(g, decay, ids, depth) == MergeAll(first, next, decay);
    ReverbShape(g, decay, seeds, depth - 1);
    MergeAllHolds(first, next, decay, l, r, s);
  }

  lemma {:induction false} DeeperForward(g: HG.Graph, decay: real, ids: seq<string>, depth: int, l: string, r: string, s: real)
    requires ids != [] && depth > 1
    ensures Holds(Reverb(g, decay, ids, depth), l, r, s) ==> Scored(g, decay, ids, depth, l, r, s)
    decreases depth, 0
  {
    DeeperSplit(g, decay, ids, depth, l, r, s);
    FirstHopScored(g, decay, ids, depth, l, r, s);
    var seeds := SeedsOf(g, decay, ids);
    var next := Reverb(g, decay, seeds, depth - 1);
    if L.Lookup(next, l).Some? && HasItem(Decayed(L.Lookup(next, l).value, decay), r, s) {
      var t := DecayedPick(L.Lookup(next, l).value, decay, r, s);
      ReverbHolds(g, decay, seeds, depth - 1, l, r, t);
      ScoredShift(g, decay, ids, depth, l, r, t, s);
    }
  }

  lemma {:induction false} DeeperBackward(g: HG.Graph, decay: real, ids: seq<string>, depth: int, l: string, r: string, s: real)
    requires ids != [] && depth > 1
    ensures Scored(g, decay, ids, depth, l, r, s) ==> Holds(Reverb(g, decay, ids, depth), l, r, s)
    decreases depth, 0
  {
    DeeperSplit(g, decay, ids, depth, l, r, s);
    FirstHopScored(g, decay, ids, depth, l, r, s);
    if Scored(g, decay, ids, depth, l, r, s) {
      var h: nat :| 1 <= h <= depth && ReachedAt(g, ids, h, l, r) && s == Power(decay, h);
      if h == 1 {
        assert Holds(Activate(g.nodes, Connected(g, ids, []), decay), l, r, s);
      } else {
        var seeds := SeedsOf(g, decay, ids);
        var next := Reverb(g, decay, seeds, depth - 1);
        ScoredUnshift(g, decay, ids, depth, h, l, r);
        ReverbHolds(g, decay, seeds, depth - 1, l, r, Power(decay, h - 1));
        var items: seq<L.MemoryItem> := L.Lookup(next, l).value;
        var j :| 0 <= j < |items| && items[j].id == r && items[j].score == Power(decay, h - 1);
        DecayedHasPower(items, decay, j, h);
      }
    }
  }

  /** A decayed item comes from an item scored before the decay. */
  lemma DecayedPick(items: seq<L.MemoryItem>, decay: real, r: string, s: real) returns (t: real)
    requires HasItem(Decayed(items, decay), r, s)
    ensures HasItem(items, r, t) && s == t * decay
  {
    var j :| 0 <= j < |items| && Decayed(items, decay)[j].id == r && Decayed(items, decay)[j].score == s;
    t := items[j].score;
  }

  lemma DecayedHasPower(items: seq<L.MemoryItem>, decay: real, j: int, h: nat)
    requires 0 <= j < |items| && h >= 1 && items[j].score == Power(decay, h - 1)
    ensures HasItem(Decayed(items, decay), items[j].id, Power(decay, h))
  {
    DecayedHasItem(items, decay, j);
    PowerSucc(decay, h - 1);
  }

  lemma PowerSucc(x: real, n: nat)
    ensures Power(x, n + 1) == Power(x, n) * x
  {
  }

  /** Decaying a score of `x^n` once more gives `x^(n+1)`. */
  lemma ScoreStep(x: real, n: nat, t: real, s: real)
    requires t == Power(x, n) && s == t * x
    ensures s == Power(x, n + 1)
  {
    PowerSucc(x, n);
  }

  lemma PowerPositive(x: real, n: nat)
    requires 0.0 < x
    ensures Power(x, n) > 0.0
  {
    if n > 0 {
      PowerPositive(x, n - 1);
    }
  }

  /** Below 1, one more hop scores strictly less. */
  lemma PowerShrinks(x: real, k: nat)
    requires 0.0 < x < 1.0
    ensures Power(x, k + 1) < Power(x, k)
  {
    PowerPositive(x, k);
    PowerSucc(x, k);
    ShrinkBy(x, Power(x, k));
  }

  lemma ShrinkBy(x: real, p: real)
    requires 0.0 < x < 1.0 && 0.0 < p
    ensures p * x < p
  {
    assert p - p * x == p * (1.0 - x);
  }

  /** Below 1, every further hop scores strictly less. */
  lemma {:induction false} PowerDecreasing(x: real, n: nat, m: nat)
    requires 0.0 < x < 1.0 && n < m
    ensures Power(x, m) < Power(x, n)
    decreases m
  {
    PowerShrinks(x, m - 1);
    if n < m - 1 {
      PowerDecreasing(x, n, m - 1);
    }
  }

  /** Below 1, a score is the power of exactly one hop count. */
  lemma PowerInjective(x: real, n: nat, m: nat)
    requires 0.0 < x < 1.0 && Power(x, n) == Power(x, m)
    ensures n == m
  {
    if n < m {
      PowerDecreasing(x, n, m);
    } else if m < n {
      PowerDecreasing(x, m, n);
    }
  }

  /** With a decay strictly between 0 and 1, the score names the hop: layer
    * `l` lists `r` with score `decay^h` exactly when a walk of `h` hops
    * reaches `r` in `l`. */
  lemma ReverbScores(g: HG.Graph, decay: real, ids: seq<string>, depth: int, h: nat, l: string, r: string)
    requires 1 <= h <= depth && 0.0 < decay < 1.0
    ensures ReachedAt(g, ids, h, l, r) <==> Holds(Reverb(g, decay, ids, depth), l, r, Power(decay, h))
  {
    ReverbHolds(g, decay, ids, depth, l, r, Power(decay, h));
    if Holds(Reverb(g, decay, ids, depth), l, r, Power(decay, h)) {
      var h': nat :| 1 <= h' <= depth && ReachedAt(g, ids, h', l, r) && Power(decay, h) == Power(decay, h');
      PowerInjective(decay, h, h');
    }
  }
}
