// The Anamnesis engine (core/memory/anamnesis_engine.py): storing memories
// with provenance and a bounded cache, recall with reverberations through
// the hypergraph, re-implication of high-scoring memories, and the
// anti-amnesia count. The engine works on a `MemoryLattice` it is given;
// the clock, the digest behind `content_hash` and Python's `str()` are
// parameters.
module Anamnesis {
  import opened Values
  import Sorting
  import HG = HypergraphStore
  import L = Lattice
  import RV = Reverberation
  import RI = Reimplication
  import AA = AntiAmnesia

  /** `AnamnesisSettings` */
  datatype Settings = Settings(maxReverbDepth: int, reverbDecay: real, reimplicThreshold: real,
                               maxConnectionsPerItem: int, forgettingWindowDays: int, anchorRatio: real,
                               paradoxDetectThreshold: real, paradoxBufferTtlDays: int, maxCacheItems: int)

  /** The defaults of `AnamnesisSettings()`. */
  const DefaultSettings := Settings(2, 0.3, 0.75, 5, 30, 0.10, 0.85, 7, 1000)

  /** `RemembranceAtom` */
  datatype Atom = Atom(id: string, layer: string, content: Dict, vector: Option<seq<real>>,
                       timestamp: int, score: real, sources: seq<string>)

  /** `ReImplicationResult` */
  datatype ReimplicResult = ReimplicResult(newEdges: seq<int>, newMemories: seq<string>, diagnostics: Dict)

  // ----- The cache -----------------------------------------------------------
  // `self.cache` maps an atom's id to the atom; it is the list of its
  // atoms in insertion order, one per id.

  predicate UniqueAtoms(c: seq<Atom>) {
    forall i, j :: 0 <= i < j < |c| ==> c[i].id != c[j].id
  }

  predicate HasId(c: seq<Atom>, id: string) {
    exists i :: 0 <= i < |c| && c[i].id == id
  }

  /** The position of `id` in the cache, if any. */
  function FindAt(c: seq<Atom>, id: string): (r: Option<nat>)
    ensures r.Some? ==> r.value < |c| && c[r.value].id == id
    ensures r.None? <==> !HasId(c, id)
  {
    if c == [] then None
    else if c[0].id == id then Some(0)
    else
      assert forall i :: 1 <= i < |c| ==> c[i] == c[1..][i - 1];
      match FindAt(c[1..], id)
      case Some(i) => Some(i + 1)
      case None => None
  }

  /** `cache[m.id] = m`: an existing entry is replaced where it stands, a
    * new id goes last. */
  function PutAtom(c: seq<Atom>, m: Atom): (r: seq<Atom>)
    ensures HasId(c, m.id) ==> |r| == |c|
    ensures !HasId(c, m.id) ==> r == c + [m]
  {
    match FindAt(c, m.id)
    case Some(i) => c[i := m]
    case None => c + [m]
  }

  /** `PutAtom` keeps one atom per id, holds `m`, and keeps every other atom. */
  lemma PutFacts(c: seq<Atom>, m: Atom)
    requires UniqueAtoms(c)
    ensures UniqueAtoms(PutAtom(c, m))
    ensures forall x :: x in PutAtom(c, m) <==> x == m || (x in c && x.id != m.id)
  {
    var r := PutAtom(c, m);
    match FindAt(c, m.id)
    case Some(i) =>
      assert r == c[i := m];
      forall x ensures x in r <==> x == m || (x in c && x.id != m.id) {
        if x in r {
          var k :| 0 <= k < |r| && r[k] == x;
          if k != i {
            assert x == c[k];
          }
        }
        if x != m && x in c && x.id != m.id {
          var k :| 0 <= k < |c| && c[k] == x;
          assert k != i && r[k] == x;
        }
        if x == m {
          assert r[i] == m;
        }
      }
    case None =>
      assert r == c + [m];
  }

  /** `del cache[id]` */
  function Delete(c: seq<Atom>, id: string): seq<Atom> {
    if c == [] then [] else (if c[0].id == id then [] else [c[0]]) + Delete(c[1..], id)
  }

  /** `del cache[id]` keeps exactly the atoms of other ids. */
  lemma {:induction false} DeleteMembers(c: seq<Atom>, id: string)
    ensures forall x :: x in Delete(c, id) <==> x in c && x.id != id
  {
    if c != [] {
      DeleteMembers(c[1..], id);
      assert c == [c[0]] + c[1..];
    }
  }

  /** The cache without position `p`. */
  function Without(c: seq<Atom>, p: int): seq<Atom>
    requires 0 <= p < |c|
  {
    c[..p] + c[p + 1..]
  }

  lemma {:induction false} DeleteAbsent(c: seq<Atom>, id: string)
    requires !HasId(c, id)
    ensures Delete(c, id) == c
  {
    if c != [] {
      assert c[0].id != id;
      var t := c[1..];
      assert !HasId(t, id) by {
        forall i | 0 <= i < |t| ensures t[i].id != id {
          assert t[i] == c[i + 1];
        }
      }
      DeleteAbsent(t, id);
      assert Delete(c, id) == [c[0]] + Delete(t, id);
      assert c == [c[0]] + t;
    }
  }

  /** In a cache with one atom per id, `del cache[c[p].id]` removes
    * position `p`. */
  lemma {:induction false} DeleteAt(c: seq<Atom>, p: int)
    requires UniqueAtoms(c) && 0 <= p < |c|
    ensures Delete(c, c[p].id) == Without(c, p)
  {
    var t := c[1..];
    if p == 0 {
      forall i | 0 <= i < |t| ensures t[i].id != c[0].id {
        assert t[i] == c[i + 1];
      }
      DeleteAbsent(t, c[0].id);
      assert Without(c, 0) == t;
    } else {
      assert UniqueAtoms(t) by {
        forall i, j | 0 <= i < j < |t| ensures t[i].id != t[j].id {
          assert t[i] == c[i + 1] && t[j] == c[j + 1];
        }
      }
      assert t[p - 1] == c[p];
      DeleteAt(t, p - 1);
      assert c[..p] == [c[0]] + t[..p - 1];
      assert c[p + 1..] == t[p..];
      assert Without(c, p) == [c[0]] + Without(t, p - 1);
    }
  }

  /** Removing a position keeps one atom per id, and every other id. */
  lemma WithoutFacts(c: seq<Atom>, p: int)
    requires UniqueAtoms(c) && 0 <= p < |c|
    ensures UniqueAtoms(Without(c, p))
    ensures |Without(c, p)| == |c| - 1
    ensures forall id :: id != c[p].id && HasId(c, id) ==> HasId(Without(c, p), id)
  {
    var w := Without(c, p);
    assert forall k :: 0 <= k < |w| ==> w[k] == c[if k < p then k else k + 1];
    forall id | id != c[p].id && HasId(c, id) ensures HasId(w, id) {
      var i :| 0 <= i < |c| && c[i].id == id;
      assert w[if i < p then i else i - 1] == c[i];
    }
  }

  /** Deleting the ids of `ds`, one after another. */
  function DeleteAll(c: seq<Atom>, ds: seq<Atom>): seq<Atom>
    decreases |ds|
  {
    if ds == [] then c else DeleteAll(Delete(c, ds[0].id), ds[1..])
  }

  /** Deleting the ids of `ds` keeps exactly the atoms of other ids. */
  lemma {:induction false} DeleteAllMembers(c: seq<Atom>, ds: seq<Atom>)
    ensures forall x :: x in DeleteAll(c, ds) <==> x in c && !HasId(ds, x.id)
    decreases |ds|
  {
    if ds != [] {
      var r := DeleteAll(Delete(c, ds[0].id), ds[1..]);
      DeleteMembers(c, ds[0].id);
      DeleteAllMembers(Delete(c, ds[0].id), ds[1..]);
      forall x ensures x in r <==> x in c && !HasId(ds, x.id) {
        assert HasId(ds, x.id) <==> ds[0].id == x.id || HasId(ds[1..], x.id) by {
          if HasId(ds, x.id) && ds[0].id != x.id {
            var i :| 0 <= i < |ds| && ds[i].id == x.id;
            assert ds[1..][i - 1] == ds[i];
          }
          if HasId(ds[1..], x.id) {
            var i :| 0 <= i < |ds[1..]| && ds[1..][i].id == x.id;
            assert ds[i + 1] == ds[1..][i];
          }
        }
      }
    }
  }

  lemma {:induction false} DeleteAllSnoc(c: seq<Atom>, ds: seq<Atom>, d: Atom)
    ensures DeleteAll(c, ds + [d]) == Delete(DeleteAll(c, ds), d.id)
    decreases |ds|
  {
    if ds != [] {
      assert (ds + [d])[1..] == ds[1..] + [d];
      DeleteAllSnoc(Delete(c, ds[0].id), ds[1..], d);
    } else {
      assert ([d])[1..] == [];
    }
  }

  /** Deleting the distinct ids of `ds`, all present, removes `|ds|` atoms. */
  lemma {:induction false} DeleteAllCount(c: seq<Atom>, ds: seq<Atom>)
    requires UniqueAtoms(c) && UniqueAtoms(ds)
    requires forall k :: 0 <= k < |ds| ==> HasId(c, ds[k].id)
    ensures UniqueAtoms(DeleteAll(c, ds))
    ensures |DeleteAll(c, ds)| == |c| - |ds|
    decreases |ds|
  {
    if ds != [] {
      var p := FindAt(c, ds[0].id).value;
      DeleteAt(c, p);
      WithoutFacts(c, p);
      var c' := Without(c, p);
      var t := ds[1..];
      forall k | 0 <= k < |t| ensures HasId(c', t[k].id) {
        assert t[k] == ds[k + 1];
      }
      assert UniqueAtoms(t) by {
        forall i, j | 0 <= i < j < |t| ensures t[i].id != t[j].id {
          assert t[i] == ds[i + 1] && t[j] == ds[j + 1];
        }
      }
      DeleteAllCount(c', t);
    }
  }

  function TsKey(a: Atom): real { a.timestamp as real }

  /** How many atoms `_cache_memory` evicts from a cache of `n`:
    * `n - limit` when over the limit, but never more than there are. */
  function EvictCount(n: nat, limit: int): (r: nat)
    ensures r <= n
  {
    if n <= limit then 0 else if limit >= 0 then n - limit else n
  }

  /** The oldest atoms, by timestamp, that the eviction deletes. */
  function Evicted(c: seq<Atom>, limit: int): seq<Atom> {
    Sorting.SortAsc(c, TsKey)[..EvictCount(|c|, limit)]
  }

  function Evict(c: seq<Atom>, limit: int): seq<Atom> {
    DeleteAll(c, Evicted(c, limit))
  }

  /** The cache after `_cache_memory(m)` with `max_cache_items == limit`. */
  function Cached(c: seq<Atom>, m: Atom, limit: int): seq<Atom> {
    Evict(PutAtom(c, m), limit)
  }

  /** A permutation of atoms with distinct ids has distinct ids. */
  lemma PermutationKeepsUniqueAtoms(s: seq<Atom>, t: seq<Atom>)
    requires UniqueAtoms(s) && multiset(s) == multiset(t)
    ensures UniqueAtoms(t)
  {
    forall i, j | 0 <= i < j < |t| ensures t[i].id != t[j].id {
      if t[i].id == t[j].id {
        assert t[i] in multiset(s) && t[j] in multiset(s);
        var p :| 0 <= p < |s| && s[p] == t[i];
        var q :| 0 <= q < |s| && s[q] == t[j];
        assert p == q;
        assert HG.NoDuplicates(s);
        HG.MultisetTwice(t, i, j);
        HG.MultisetOnce(s, t[i]);
      }
    }
  }

  /** The evicted atoms are distinct cache atoms, and come first in the
    * timestamp order. */
  lemma EvictedFacts(c: seq<Atom>, limit: int)
    requires UniqueAtoms(c)
    ensures UniqueAtoms(Evicted(c, limit))
    ensures |Evicted(c, limit)| == EvictCount(|c|, limit)
    ensures forall k :: 0 <= k < |Evicted(c, limit)| ==> HasId(c, Evicted(c, limit)[k].id)
  {
    var sorted := Sorting.SortAsc(c, TsKey);
    var ds := Evicted(c, limit);
    PermutationKeepsUniqueAtoms(c, sorted);
    forall k | 0 <= k < |ds| ensures HasId(c, ds[k].id) {
      assert ds[k] == sorted[k];
      assert sorted[k] in multiset(c);
      var p :| 0 <= p < |c| && c[p] == sorted[k];
    }
    forall i, j | 0 <= i < j < |ds| ensures ds[i].id != ds[j].id {
      assert ds[i] == sorted[i] && ds[j] == sorted[j];
    }
  }

  /** No evicted atom is newer than a kept one. */
  lemma EvictOrder(c: seq<Atom>, limit: int, e: Atom, x: Atom)
    requires e in Evicted(c, limit) && x in Evict(c, limit)
    ensures e.timestamp <= x.timestamp
  {
    var sorted := Sorting.SortAsc(c, TsKey);
    var n := EvictCount(|c|, limit);
    var ds := Evicted(c, limit);
    var i :| 0 <= i < |ds| && ds[i] == e;
    DeleteAllMembers(c, ds);
    assert x in c && !HasId(ds, x.id);
    assert x in multiset(sorted);
    var k :| 0 <= k < |sorted| && sorted[k] == x;
    forall j | 0 <= j < n ensures sorted[j].id != x.id {
      assert ds[j] == sorted[j];
    }
    assert k >= n;
    assert sorted[i] == e;
    assert TsKey(sorted[i]) <= TsKey(sorted[k]);
  }

  /** Eviction leaves at most `limit` atoms (none for a negative limit), all
    * from the cache, and deletes exactly the evicted ones, which are no
    * newer than any atom it keeps. */
  lemma EvictFacts(c: seq<Atom>, limit: int)
    requires UniqueAtoms(c)
    ensures UniqueAtoms(Evict(c, limit))
    ensures |Evict(c, limit)| == if |c| <= limit then |c| else if limit >= 0 then limit else 0
    ensures forall x :: x in Evict(c, limit) <==> x in c && !HasId(Evicted(c, limit), x.id)
    ensures forall e, x :: e in Evicted(c, limit) && x in Evict(c, limit) ==> e.timestamp <= x.timestamp
  {
    EvictedFacts(c, limit);
    DeleteAllCount(c, Evicted(c, limit));
    DeleteAllMembers(c, Evicted(c, limit));
    forall e, x | e in Evicted(c, limit) && x in Evict(c, limit) ensures e.timestamp <= x.timestamp {
      EvictOrder(c, limit, e, x);
    }
  }

  /** The first atom in timestamp order is a cache atom no newer than any. */
  lemma OldestFirst(p: seq<Atom>, x: Atom)
    requires x in p
    ensures |Sorting.SortAsc(p, TsKey)| > 0
    ensures Sorting.SortAsc(p, TsKey)[0] in p
    ensures Sorting.SortAsc(p, TsKey)[0].timestamp <= x.timestamp
  {
    var sorted := Sorting.SortAsc(p, TsKey);
    assert x in multiset(sorted);
    var k :| 0 <= k < |sorted| && sorted[k] == x;
    assert TsKey(sorted[0]) <= TsKey(sorted[k]);
    assert sorted[0] in multiset(p);
  }

  lemma DistinctIds(p: seq<Atom>, o: Atom, m: Atom)
    requires UniqueAtoms(p) && o in p && m in p && o != m
    ensures o.id != m.id
  {
    var a :| 0 <= a < |p| && p[a] == o;
    var b :| 0 <= b < |p| && p[b] == m;
    assert a != b;
  }

  /** Over the limit by one, the eviction removes only the oldest atom, and
    * so not `m` when some other atom is strictly older. */
  lemma OldestGoes(p: seq<Atom>, m: Atom, limit: int, x: Atom)
    requires UniqueAtoms(p) && limit >= 1 && |p| == limit + 1
    requires x in p && m in p && x.id != m.id && x.timestamp < m.timestamp
    ensures !HasId(Evicted(p, limit), m.id)
  {
    OldestFirst(p, x);
    var o := Sorting.SortAsc(p, TsKey)[0];
    DistinctIds(p, o, m);
    assert EvictCount(|p|, limit) == 1;
    assert Evicted(p, limit) == [o];
  }

  /** Over the limit by one, a new atom stays when some other atom is
    * strictly older. */
  lemma NewestStays(c: seq<Atom>, m: Atom, limit: int, x: Atom)
    requires UniqueAtoms(c) && limit >= 1 && |c| <= limit
    requires x in c && x.id != m.id && x.timestamp < m.timestamp
    ensures m in Cached(c, m, limit)
  {
    PutFacts(c, m);
    var p := PutAtom(c, m);
    EvictFacts(p, limit);
    assert x in p && m in p;
    if |p| > limit {
      OldestGoes(p, m, limit, x);
    } else {
      assert Evicted(p, limit) == [];
    }
  }

  /** `_cache_memory(m)`: with a limit that is not negative the cache never
    * holds more than `limit` atoms; it keeps one atom per id; the atoms it
    * keeps are `m` and old atoms of other ids; and `m` stays when no
    * eviction is due. */
  lemma CachedFacts(c: seq<Atom>, m: Atom, limit: int)
    requires UniqueAtoms(c)
    ensures UniqueAtoms(Cached(c, m, limit))
    ensures limit >= 0 ==> |Cached(c, m, limit)| <= limit
    ensures forall x :: x in Cached(c, m, limit) ==> x == m || (x in c && x.id != m.id)
    ensures |PutAtom(c, m)| <= limit ==> m in Cached(c, m, limit)
  {
    PutFacts(c, m);
    var p := PutAtom(c, m);
    EvictFacts(p, limit);
    if |p| <= limit {
      assert Evicted(p, limit) == [];
      assert m in p;
    }
  }

  // ----- Memory ids ----------------------------------------------------------

  /** `content.get("id") or f"{layer}:{content_hash(content)}"`: a truthy
    * `id` entry names the memory (through `str()` when it is not a string),
    * otherwise the layer and the digest of the canonical content do. */
  function MemId(digest: Value -> string, text: Value -> string, content: Dict, layer: string): string {
    var given := GetOr(content, "id", VNone);
    if Truthy(given) then (if given.VStr? then given.s else text(given))
    else layer + ":" + L.ContentHash(digest, VDict(content))
  }

  /** A content without an `id` entry is named `<layer>:<hash>`, so two
    * layers never share such a name, and the name does not depend on the
    * order of the content's keys. */
  lemma MemIdOfUnnamedContent(digest: Value -> string, text: Value -> string, d1: Dict, d2: Dict, layer: string)
    requires UniqueKeys(d1) && multiset(d1) == multiset(d2)
    requires forall i :: 0 <= i < |d1| ==> d1[i].0 != "id"
    ensures MemId(digest, text, d1, layer) == layer + ":" + L.ContentHash(digest, VDict(d1))
    ensures MemId(digest, text, d1, layer) == MemId(digest, text, d2, layer)
  {
    AbsentKey(d1, "id");
    forall i | 0 <= i < |d2| ensures d2[i].0 != "id" {
      assert d2[i] in multiset(d1);
      var p :| 0 <= p < |d1| && d1[p] == d2[i];
    }
    AbsentKey(d2, "id");
    L.ContentHashIgnoresKeyOrder(digest, d1, d2);
  }

  lemma {:induction false} AbsentKey(d: Dict, k: string)
    requires forall i :: 0 <= i < |d| ==> d[i].0 != k
    ensures !Has(d, k)
  {
    if d != [] {
      assert forall i :: 0 <= i < |d[1..]| ==> d[1..][i] == d[i + 1];
      AbsentKey(d[1..], k);
    }
  }

  /** With a truthy string `id`, that string is the name whatever the layer. */
  lemma MemIdOfNamedContent(digest: Value -> string, text: Value -> string, content: Dict, layer: string, layer': string)
    requires GetOr(content, "id", VNone).VStr? && GetOr(content, "id", VNone).s != ""
    ensures MemId(digest, text, content, layer) == GetOr(content, "id", VNone).s == MemId(digest, text, content, layer')
  {
  }

  /** What `store_memory` needs to succeed: a lattice layer, a label the
    * node table accepts, and source ids without repeats (the provenance
    * edge's connection rows are unique). */
  predicate Storable(layer: string, content: Dict, sourceIds: seq<string>) {
    layer in L.LayerNames && HG.LabelError(L.LabelOf(content, layer)).None? && HG.NoDuplicates(sourceIds)
  }

  /** Whether the `j`th item of a batch can be stored. */
  predicate StorableAt(items: seq<(Dict, string, Option<seq<real>>, seq<string>)>, j: int)
    requires 0 <= j < |items|
  {
    Storable(items[j].1, items[j].0, items[j].3)
  }

  /** One more stored item extends the batch's invariants. */
  lemma BatchStep(items: seq<(Dict, string, Option<seq<real>>, seq<string>)>, i: int, results: seq<string>, id: string,
                  digest: Value -> string, text: Value -> string)
    requires 0 <= i < |items| && |results| == i
    requires forall j :: 0 <= j < i ==> StorableAt(items, j)
    requires forall j :: 0 <= j < i ==> results[j] == MemId(digest, text, items[j].0, items[j].1)
    requires StorableAt(items, i) && id == MemId(digest, text, items[i].0, items[i].1)
    ensures forall j :: 0 <= j < i + 1 ==> StorableAt(items, j)
    ensures forall j :: 0 <= j < i + 1 ==> (results + [id])[j] == MemId(digest, text, items[j].0, items[j].1)
  {
  }

  /** The provenance payload of `store_memory`. */
  function ProvenancePayload(now: int): Value {
    VDict([("operation", VStr("store_memory")), ("ts", VInt(now))])
  }

  // ----- The state storing leaves ------------------------------------------

  /** What `store_memory` changes: the lattice's three tables, the vector
    * requests the lattice has sent, and the engine's cache. */
  datatype Memory = Memory(tables: HG.Store, sent: seq<L.UpsertRequest>, cache: seq<Atom>)

  /** The request `upsert` sends before it writes the node: one point to the
    * layer's collection, when the layer is a lattice layer and a vector is
    * given. */
  function SentAfter(sent: seq<L.UpsertRequest>, prefix: string, layer: string, id: string,
                     vector: Option<seq<real>>, content: Dict): seq<L.UpsertRequest>
  {
    if layer in L.LayerNames && vector.Some? then
      sent + [L.UpsertRequest(L.Collection(prefix, layer), [L.VectorPoint(id, vector.value, VDict(content))])]
    else sent
  }

  /** The tables after `store_memory` stores `content` as `id`: the node
    * upserted when the layer is known and the label accepted; then, with
    * sources, the provenance edge and its connection rows, up to the first
    * row the primary key refuses. */
  function StoredTables(t: HG.Store, content: Dict, layer: string, sourceIds: seq<string>, id: string, now: int): HG.Store
  {
    if layer !in L.LayerNames || HG.LabelError(L.LabelOf(content, layer)).Some? then t
    else
      var nodes := HG.UpsertNode(t.nodes, id, L.LabelOf(content, layer), layer, VDict(content), now);
      if sourceIds == [] then t.(nodes := nodes)
      else HG.Store(nodes, t.edges + [HG.EdgeRow(|t.edges| + 1, "provenance", ProvenancePayload(now), now)],
                    HG.EdgeConnections(t.connections, |t.edges| + 1, sourceIds, [id]).0)
  }

  /** One `store_memory` call, as a step on the whole state: the cache takes
    * the new atom only when the call returns. */
  function StoreStep(m: Memory, prefix: string, limit: int, content: Dict, layer: string, vector: Option<seq<real>>,
                     sourceIds: seq<string>, id: string, now: int): Memory
  {
    Memory(StoredTables(m.tables, content, layer, sourceIds, id, now),
           SentAfter(m.sent, prefix, layer, id, vector, content),
           if Storable(layer, content, sourceIds) then Cached(m.cache, Atom(id, layer, content, vector, now, 1.0, sourceIds), limit)
           else m.cache)
  }

  /** A stored memory reads back as its node, with the new label, layer,
    * payload and time; other nodes read as before; with sources it gets one
    * source row per source and one target row for itself on a fresh
    * provenance edge; and the cache keeps one atom per id, holding the new
    * one when it was not full. */
  lemma StoreStepFacts(m: Memory, prefix: string, limit: int, content: Dict, layer: string, vector: Option<seq<real>>,
                       sourceIds: seq<string>, id: string, now: int, other: string)
    requires HG.WellFormed(m.tables) && UniqueAtoms(m.cache)
    ensures var m' := StoreStep(m, prefix, limit, content, layer, vector, sourceIds, id, now);
      UniqueAtoms(m'.cache) &&
      (Storable(layer, content, sourceIds) ==>
        HG.FindNode(m'.tables.nodes, id).Some? &&
        HG.FindNode(m'.tables.nodes, id).value.payload == VDict(content) &&
        HG.FindNode(m'.tables.nodes, id).value.layer == layer &&
        HG.FindNode(m'.tables.nodes, id).value.modifiedTs == now) &&
      (other != id ==> HG.FindNode(m'.tables.nodes, other) == HG.FindNode(m.tables.nodes, other)) &&
      (Storable(layer, content, sourceIds) && sourceIds != [] ==>
        m'.tables.connections == m.tables.connections + HG.ConnectionsFor(|m.tables.edges| + 1, sourceIds, true) +
                                 [HG.Connection(|m.tables.edges| + 1, id, false)]) &&
      (Storable(layer, content, sourceIds) && |m.cache| < limit ==> Atom(id, layer, content, vector, now, 1.0, sourceIds) in m'.cache)
  {
    var t := m.tables;
    HG.UpsertNodeFacts(t.nodes, id, L.LabelOf(content, layer), layer, VDict(content), now, other);
    if Storable(layer, content, sourceIds) {
      var a := Atom(id, layer, content, vector, now, 1.0, sourceIds);
      CachedFacts(m.cache, a, limit);
      if sourceIds != [] {
        HG.EdgeConnectionsFresh(t.connections, |t.edges|, sourceIds, [id]);
        assert HG.ConnectionsFor(|t.edges| + 1, [id], false) == [HG.Connection(|t.edges| + 1, id, false)];
      }
    }
  }

  /** `batch_store(items)`: each item stored from the state the one before
    * left; the first item that cannot be stored ends the batch with its own
    * partial effects in place. */
  function BatchStored(m: Memory, prefix: string, limit: int, digest: Value -> string, text: Value -> string,
                       items: seq<(Dict, string, Option<seq<real>>, seq<string>)>, now: int): Memory
    decreases |items|
  {
    if items == [] then m
    else
      var it := items[0];
      var m1 := StoreStep(m, prefix, limit, it.0, it.1, it.2, it.3, MemId(digest, text, it.0, it.1), now);
      if Storable(it.1, it.0, it.3) then BatchStored(m1, prefix, limit, digest, text, items[1..], now) else m1
  }

  /** A batch whose first `k` items can all be stored runs them, then the
    * rest from the state they leave. */
  lemma {:induction false} BatchStoredSplit(m: Memory, prefix: string, limit: int, digest: Value -> string,
                                            text: Value -> string, items: seq<(Dict, string, Option<seq<real>>, seq<string>)>,
                                            k: int, now: int)
    requires 0 <= k <= |items| && forall j :: 0 <= j < k ==> StorableAt(items, j)
    ensures BatchStored(m, prefix, limit, digest, text, items, now) ==
            BatchStored(BatchStored(m, prefix, limit, digest, text, items[..k], now), prefix, limit, digest, text, items[k..], now)
    decreases k
  {
    if k == 0 {
      assert items[..0] == [] && items[0..] == items;
    } else {
      var it := items[0];
      var m1 := StoreStep(m, prefix, limit, it.0, it.1, it.2, it.3, MemId(digest, text, it.0, it.1), now);
      assert StorableAt(items, 0);
      var rest := items[1..];
      forall j | 0 <= j < k - 1 ensures StorableAt(rest, j) {
        assert StorableAt(items, j + 1);
      }
      BatchStoredSplit(m1, prefix, limit, digest, text, rest, k - 1, now);
      assert items[..k][0] == it && items[..k][1..] == rest[..k - 1];
      assert items[k..] == rest[k - 1..];
    }
  }

  /** When item `k` is the first that cannot be stored, the batch leaves
    * exactly the state that item's own call leaves after the items before
    * it were stored. */
  lemma FirstFailureState(m: Memory, prefix: string, limit: int, digest: Value -> string,
                          text: Value -> string, items: seq<(Dict, string, Option<seq<real>>, seq<string>)>, k: int, now: int)
    requires 0 <= k < |items| && !StorableAt(items, k) && forall j :: 0 <= j < k ==> StorableAt(items, j)
    ensures var before := BatchStored(m, prefix, limit, digest, text, items[..k], now);
      BatchStored(m, prefix, limit, digest, text, items, now) ==
      StoreStep(before, prefix, limit, items[k].0, items[k].1, items[k].2, items[k].3,
                MemId(digest, text, items[k].0, items[k].1), now)
  {
    BatchStoredSplit(m, prefix, limit, digest, text, items, k, now);
    assert items[k..][0] == items[k];
  }

  /** After a batch that stores every item, each returned id names a node,
    * and the cache still keeps one atom per id. */
  lemma {:induction false} BatchStoredFindsAll(m: Memory, prefix: string, limit: int, digest: Value -> string,
                                               text: Value -> string, items: seq<(Dict, string, Option<seq<real>>, seq<string>)>,
                                               now: int, known: set<string>)
    requires HG.WellFormed(m.tables) && UniqueAtoms(m.cache)
    requires forall j :: 0 <= j < |items| ==> StorableAt(items, j)
    requires forall x :: x in known ==> HG.FindNode(m.tables.nodes, x).Some?
    ensures var m' := BatchStored(m, prefix, limit, digest, text, items, now);
      UniqueAtoms(m'.cache) &&
      (forall x :: x in known ==> HG.FindNode(m'.tables.nodes, x).Some?) &&
      (forall j :: 0 <= j < |items| ==> HG.FindNode(m'.tables.nodes, MemId(digest, text, items[j].0, items[j].1)).Some?)
    decreases |items|
  {
    if items != [] {
      var it := items[0];
      var id := MemId(digest, text, it.0, it.1);
      var m1 := StoreStep(m, prefix, limit, it.0, it.1, it.2, it.3, id, now);
      assert StorableAt(items, 0);
      forall x | x in known + {id} ensures HG.FindNode(m1.tables.nodes, x).Some? {
        StoreStepFacts(m, prefix, limit, it.0, it.1, it.2, it.3, id, now, x);
      }
      StoreStepFacts(m, prefix, limit, it.0, it.1, it.2, it.3, id, now, id);
      StoredTablesWellFormed(m.tables, it.0, it.1, it.3, id, now);
      var rest := items[1..];
      forall j | 0 <= j < |rest| ensures StorableAt(rest, j) {
        assert StorableAt(items, j + 1);
      }
      BatchStoredFindsAll(m1, prefix, limit, digest, text, rest, now, known + {id});
      forall j | 0 <= j < |items|
        ensures HG.FindNode(BatchStored(m, prefix, limit, digest, text, items, now).tables.nodes,
                            MemId(digest, text, items[j].0, items[j].1)).Some?
      {
        if j > 0 {
          assert rest[j - 1] == items[j];
        }
      }
    }
  }

  /** Storing keeps the tables well formed: node ids unique, edge ids dense,
    * connection rows unique and on existing edges. */
  lemma StoredTablesWellFormed(t: HG.Store, content: Dict, layer: string, sourceIds: seq<string>, id: string, now: int)
    requires HG.WellFormed(t)
    ensures HG.WellFormed(StoredTables(t, content, layer, sourceIds, id, now))
  {
    if layer in L.LayerNames && HG.LabelError(L.LabelOf(content, layer)).None? {
      HG.UpsertKeepsIdsUnique(t.nodes, id, L.LabelOf(content, layer), layer, VDict(content), now);
      if sourceIds != [] {
        var n := |t.edges| + 1;
        HG.ConnectKeepsWellFormed(t.connections, n, sourceIds, true, n);
        var s := HG.Connect(t.connections, n, sourceIds, true);
        if s.1 {
          HG.ConnectKeepsWellFormed(s.0, n, [id], false, n);
        }
      }
    }
  }

  // ----- Recall --------------------------------------------------------------

  /** `RecallResult` */
  datatype RecallResult = RecallResult(primary: seq<L.MemoryItem>, reverberations: RV.Reverbs,
                                       provenance: seq<(string, seq<HG.EdgeView>)>, diagnostics: Dict)

  /** `sum(len(items) for items in reverbs.values())` */
  function ReverbCount(rv: RV.Reverbs): nat
  {
    if |rv| == 0 then 0 else |rv[0].1| + ReverbCount(rv[1..])
  }

  /** The count is the number of activated ids, layer by layer. */
  lemma {:induction false} ReverbCountIsFlattened(rv: RV.Reverbs)
    ensures ReverbCount(rv) == |RV.Flatten(rv)|
  {
    if |rv| > 0 {
      ReverbCountIsFlattened(rv[1..]);
    }
  }

  /** What `get_provenance` answers for a node. */
  function ProvenanceQuery(st: HG.Store): string -> seq<HG.EdgeView>
  {
    id => HG.EdgesQuery(st, Some("provenance"), Some(id), HG.DefaultLimit)
  }

  /** The `anchors_bias` `recall` leaves at its default. */
  const AnchorsBias := 0.10

  /** The ids `recall` reverberates from: those of the first three items. */
  function TopIds(items: seq<L.MemoryItem>): (r: seq<string>)
    ensures |r| == if |items| < 3 then |items| else 3
    ensures forall j :: 0 <= j < |r| ==> r[j] == items[j].id
  {
    RV.IdsOf(items[..if |items| < 3 then |items| else 3])
  }

  // ----- The engine ----------------------------------------------------------

  /** `AnamnesisEngine(lattice, settings)`; `digest` is the hash behind
    * `content_hash` and `text` is `str()`. */
  class Engine {
    const lattice: L.MemoryLattice
    const settings: Settings
    const digest: Value -> string
    const text: Value -> string
    var cache: seq<Atom>

    predicate Valid()
      reads this, lattice, lattice.hg
    {
      lattice.Valid() && UniqueAtoms(cache)
    }

    constructor (lattice: L.MemoryLattice, settings: Settings, digest: Value -> string, text: Value -> string)
      requires lattice.Valid()
      ensures this.lattice == lattice && this.settings == settings && this.digest == digest && this.text == text
      ensures cache == [] && Valid()
    {
      this.lattice := lattice;
      this.settings := settings;
      this.digest := digest;
      this.text := text;
      cache := [];
    }

    /** `_cache_memory(m)` */
    method CacheMemory(m: Atom)
      requires UniqueAtoms(cache)
      modifies this
      ensures cache == Cached(old(cache), m, settings.maxCacheItems)
    {
      var limit := settings.maxCacheItems;
      cache := PutAtom(cache, m);
      if |cache| > limit {
        var items := Sorting.SortAsc(cache, TsKey);
        assert items[..EvictCount(|cache|, limit)] == Evicted(cache, limit);
        DeleteFirst(items, |items| - limit);
      } else {
        assert Evicted(cache, limit) == [];
      }
    }

    /** The eviction loop of `_cache_memory`: `for i in range(count)`,
      * deleting `items[i].id` while `i < len(items)`. */
    method DeleteFirst(items: seq<Atom>, count: int)
      modifies this
      ensures cache == DeleteAll(old(cache), items[..if count < |items| then (if count < 0 then 0 else count) else |items|])
    {
      ghost var start := cache;
      var i := 0;
      while i < count
        invariant 0 <= i && (count >= 0 ==> i <= count) && (count < 0 ==> i == 0)
        invariant cache == DeleteAll(start, items[..if i < |items| then i else |items|])
      {
        if i < |items| {
          DeleteAllSnoc(start, items[..i], items[i]);
          assert items[..i + 1] == items[..i] + [items[i]];
          cache := Delete(cache, items[i].id);
        }
        i := i + 1;
      }
    }

    /** The state storing changes. */
    function State(): Memory
      reads this, lattice, lattice.hg
    {
      Memory(lattice.hg.Tables(), lattice.sent, cache)
    }

    /** `store_memory(content, layer, vector, source_ids)` at time `now`. */
    method StoreMemory(content: Dict, layer: string, vector: Option<seq<real>>, sourceIds: seq<string>, now: int)
      returns (r: Result<string>)
      requires Valid()
      modifies this, lattice, lattice.hg
      ensures Valid()
      ensures r.Ok? <==> Storable(layer, content, sourceIds)
      ensures layer !in L.LayerNames ==> r == Err(AssertionError) && lattice.hg.Tables() == old(lattice.hg.Tables())
      ensures layer in L.LayerNames && HG.LabelError(L.LabelOf(content, layer)).Some? ==>
        r == Err(HG.LabelError(L.LabelOf(content, layer)).value) && lattice.hg.Tables() == old(lattice.hg.Tables())
      ensures layer in L.LayerNames && HG.LabelError(L.LabelOf(content, layer)).None? && !HG.NoDuplicates(sourceIds) ==>
        r == Err(IntegrityError)
      ensures r.Ok? ==> r.value == MemId(digest, text, content, layer)
      ensures r.Ok? ==> cache == Cached(old(cache), Atom(r.value, layer, content, vector, now, 1.0, sourceIds),
                                        settings.maxCacheItems)
      ensures r.Ok? && |old(cache)| < settings.maxCacheItems ==>
        Atom(r.value, layer, content, vector, now, 1.0, sourceIds) in cache
      ensures r.Err? ==> cache == old(cache)
      ensures State() == StoreStep(old(State()), lattice.prefix, settings.maxCacheItems, content, layer, vector, sourceIds,
                                   MemId(digest, text, content, layer), now)
      ensures r.Ok? && sourceIds != [] ==>
        lattice.hg.connections == old(lattice.hg.connections) + HG.ConnectionsFor(|old(lattice.hg.edges)| + 1, sourceIds, true) +
                                  [HG.Connection(|old(lattice.hg.edges)| + 1, r.value, false)]
      ensures layer in L.LayerNames && HG.LabelError(L.LabelOf(content, layer)).None? ==>
        lattice.hg.nodes == HG.UpsertNode(old(lattice.hg.nodes), MemId(digest, text, content, layer),
                                          L.LabelOf(content, layer), layer, VDict(content), now)
      ensures layer in L.LayerNames && HG.LabelError(L.LabelOf(content, layer)).None? ==>
        lattice.hg.edges == old(lattice.hg.edges) +
          (if sourceIds == [] then [] else [HG.EdgeRow(|old(lattice.hg.edges)| + 1, "provenance", ProvenancePayload(now), now)])
    {
      var id := MemId(digest, text, content, layer);
      var stored := StoreRows(content, layer, vector, sourceIds, now, id);
      if stored.Err? {
        return Err(stored.error);
      }
      var atom := Atom(id, layer, content, vector, now, 1.0, sourceIds);
      CachedFacts(cache, atom, settings.maxCacheItems);
      CacheMemory(atom);
      return Ok(id);
    }

    /** The lattice half of `store_memory`: the node `id` upserted, then, when
      * there are sources, the provenance edge from them to it. */
    method StoreRows(content: Dict, layer: string, vector: Option<seq<real>>, sourceIds: seq<string>, now: int, id: string)
      returns (r: Result<()>)
      requires lattice.Valid()
      modifies lattice, lattice.hg
      ensures lattice.Valid()
      ensures r.Ok? <==> Storable(layer, content, sourceIds)
      ensures layer !in L.LayerNames ==> r == Err(AssertionError) && lattice.hg.Tables() == old(lattice.hg.Tables())
      ensures layer in L.LayerNames && HG.LabelError(L.LabelOf(content, layer)).Some? ==>
        r == Err(HG.LabelError(L.LabelOf(content, layer)).value) && lattice.hg.Tables() == old(lattice.hg.Tables())
      ensures layer in L.LayerNames && HG.LabelError(L.LabelOf(content, layer)).None? && !HG.NoDuplicates(sourceIds) ==>
        r == Err(IntegrityError)
      ensures lattice.hg.Tables() == StoredTables(old(lattice.hg.Tables()), content, layer, sourceIds, id, now)
      ensures lattice.sent == SentAfter(old(lattice.sent), lattice.prefix, layer, id, vector, content)
      ensures r.Ok? && sourceIds != [] ==>
        lattice.hg.connections == old(lattice.hg.connections) + HG.ConnectionsFor(|old(lattice.hg.edges)| + 1, sourceIds, true) +
                                  [HG.Connection(|old(lattice.hg.edges)| + 1, id, false)]
      ensures layer in L.LayerNames && HG.LabelError(L.LabelOf(content, layer)).None? ==>
        lattice.hg.nodes == HG.UpsertNode(old(lattice.hg.nodes), id, L.LabelOf(content, layer), layer, VDict(content), now)
      ensures layer in L.LayerNames && HG.LabelError(L.LabelOf(content, layer)).None? ==>
        lattice.hg.edges == old(lattice.hg.edges) +
          (if sourceIds == [] then [] else [HG.EdgeRow(|old(lattice.hg.edges)| + 1, "provenance", ProvenancePayload(now), now)])
    {
      ghost var t0 := lattice.hg.Tables();
      var u := lattice.Upsert(layer, id, vector, content, now);
      if u.Err? {
        return Err(u.error);
      }
      assert lattice.hg.Tables() == t0.(nodes := HG.UpsertNode(t0.nodes, id, L.LabelOf(content, layer), layer, VDict(content), now));
      if sourceIds != [] {
        var p := lattice.AddProvenance(sourceIds, id, ProvenancePayload(now), now);
        assert lattice.hg.Tables() == StoredTables(t0, content, layer, sourceIds, id, now);
        if p.Err? {
          return Err(p.error);
        }
      }
      return Ok(());
    }

    /** `batch_store(items)` at time `now`: the items in order, up to the
      * first that raises. */
    method BatchStore(items: seq<(Dict, string, Option<seq<real>>, seq<string>)>, now: int) returns (r: Result<seq<string>>)
      requires Valid()
      modifies this, lattice, lattice.hg
      ensures Valid()
      ensures r.Ok? <==> forall i :: 0 <= i < |items| ==> StorableAt(items, i)
      ensures r.Ok? ==> |r.value| == |items| &&
                        forall i :: 0 <= i < |items| ==> r.value[i] == MemId(digest, text, items[i].0, items[i].1)
      ensures State() == BatchStored(old(State()), lattice.prefix, settings.maxCacheItems, digest, text, items, now)
    {
      ghost var start := State();
      var results: seq<string> := [];
      var i := 0;
      while i < |items|
        invariant 0 <= i <= |items|
        invariant Valid()
        invariant forall j :: 0 <= j < i ==> StorableAt(items, j)
        invariant |results| == i
        invariant forall j :: 0 <= j < i ==> results[j] == MemId(digest, text, items[j].0, items[j].1)
        invariant BatchStored(start, lattice.prefix, settings.maxCacheItems, digest, text, items, now) ==
                  BatchStored(State(), lattice.prefix, settings.maxCacheItems, digest, text, items[i..], now)
      {
        assert items[i..][0] == items[i] && items[i..][1..] == items[i + 1..];
        var id := StoreMemory(items[i].0, items[i].1, items[i].2, items[i].3, now);
        if id.Err? {
          assert !StorableAt(items, i);
          return Err(id.error);
        }
        BatchStep(items, i, results, id.value, digest, text);
        results := results + [id.value];
        i := i + 1;
      }
      assert items[i..] == [];
      return Ok(results);
    }
  
    /** The graph `reverberate` reads: the node rows and `get_edges(around=id)`. */
    function Graph(): HG.Graph
      reads lattice.hg
    {
      HG.GraphOf(lattice.hg.Tables())
    }

    /** The loop over one edge's endpoints. */
    method VisitEndpoints(memId: string, all: seq<string>, c: RV.Groups) returns (r: RV.Groups)
      ensures r == RV.VisitAll(lattice.hg.nodes, memId, all, c)
    {
      var nodes := lattice.hg.nodes;
      r := c;
      var j := 0;
      while j < |all|
        invariant 0 <= j <= |all|
        invariant RV.VisitAll(nodes, memId, all, c) == RV.VisitAll(nodes, memId, all[j..], r)
      {
        assert all[j..][1..] == all[j + 1..];
        var relatedId := all[j];
        if relatedId != memId {
          var node := HG.FindNode(nodes, relatedId);
          if node.Some? {
            r := RV.AddId(r, node.value.layer, relatedId);
          }
        }
        j := j + 1;
      }
    }

    /** The loop over the edges around `memId`. */
    method VisitAround(memId: string, edges: seq<HG.EdgeView>, c: RV.Groups) returns (r: RV.Groups)
      ensures r == RV.VisitEdges(lattice.hg.nodes, memId, edges, c)
    {
      r := c;
      var e := 0;
      while e < |edges|
        invariant 0 <= e <= |edges|
        invariant RV.VisitEdges(lattice.hg.nodes, memId, edges, c) == RV.VisitEdges(lattice.hg.nodes, memId, edges[e..], r)
      {
        assert edges[e..][1..] == edges[e + 1..];
        r := VisitEndpoints(memId, edges[e].sourceIds + edges[e].targetIds, r);
        e := e + 1;
      }
    }

    /** The memory items of one layer of `connected`. */
    method ItemsOf(layer: string, ids: seq<string>) returns (items: seq<L.MemoryItem>)
      ensures items == RV.ItemsFor(lattice.hg.nodes, layer, ids, settings.reverbDecay)
    {
      items := [];
      var j := 0;
      while j < |ids|
        invariant 0 <= j <= |ids|
        invariant items == RV.ItemsFor(lattice.hg.nodes, layer, ids[..j], settings.reverbDecay)
      {
        var payload := HG.NodePayload(lattice.hg.nodes, ids[j]);
        var p := if payload.Some? && Truthy(payload.value) then payload.value else VDict([]);
        items := items + [L.MemoryItem(ids[j], layer, settings.reverbDecay, None, p)];
        j := j + 1;
      }
      assert ids[..|ids|] == ids;
    }

    /** The items of a deeper hop with their scores decayed once more. */
    method DecayItems(items: seq<L.MemoryItem>) returns (decayed: seq<L.MemoryItem>)
      ensures decayed == RV.Decayed(items, settings.reverbDecay)
    {
      var decay := settings.reverbDecay;
      decayed := [];
      var j := 0;
      while j < |items|
        invariant 0 <= j <= |items|
        invariant decayed == RV.Decayed(items[..j], decay)
      {
        var x := items[j].(score := items[j].score * decay);
        RV.DecayedSnoc(items, j, decay);
        assert RV.Decayed(items[..j + 1], decay) == RV.Decayed(items[..j], decay) + [x];
        decayed := decayed + [x];
        j := j + 1;
      }
      assert items[..|items|] == items;
    }

    /** The merge loop: each deeper layer's items, decayed once more,
      * extend or create the layer in `reverbs`. */
    method MergeNext(reverbs: RV.Reverbs, next: RV.Reverbs) returns (r: RV.Reverbs)
      ensures r == RV.MergeAll(reverbs, next, settings.reverbDecay)
    {
      var decay := settings.reverbDecay;
      r := reverbs;
      var k := 0;
      while k < |next|
        invariant 0 <= k <= |next|
        invariant RV.MergeAll(reverbs, next, decay) == RV.MergeAll(r, next[k..], decay)
      {
        assert next[k..][1..] == next[k + 1..];
        var decayed := DecayItems(next[k].1);
        var present := L.Lookup(r, next[k].0);
        if present.Some? {
          r := L.Assign(r, next[k].0, present.value + decayed);
        } else {
          r := L.Assign(r, next[k].0, decayed);
        }
        k := k + 1;
      }
    }

    /** The loop turning `connected` into `reverbs`, one new layer at a time. */
    method Convert(connected: RV.Groups) returns (r: RV.Reverbs)
      requires L.UniqueIds(connected)
      ensures r == RV.Activate(lattice.hg.nodes, connected, settings.reverbDecay)
    {
      r := [];
      var k := 0;
      while k < |connected|
        invariant 0 <= k <= |connected|
        invariant r == RV.Activate(lattice.hg.nodes, connected[..k], settings.reverbDecay)
      {
        var items := ItemsOf(connected[k].0, connected[k].1);
        assert L.Lookup(r, connected[k].0).None? by {
          forall m | 0 <= m < |r| ensures r[m].0 != connected[k].0 {
            assert r[m].0 == connected[m].0;
          }
        }
        r := L.Assign(r, connected[k].0, items);
        assert connected[..k + 1][..k] == connected[..k];
        k := k + 1;
      }
      assert connected[..|connected|] == connected;
    }

    /** `reverberate(memory_ids, depth)` */
    method Reverberate(memoryIds: seq<string>, depth: int) returns (r: RV.Reverbs)
      ensures r == RV.Reverb(Graph(), settings.reverbDecay, memoryIds, depth)
      decreases depth
    {
      if depth <= 0 || memoryIds == [] {
        return [];
      }
      var g := Graph();
      var connected: RV.Groups := [];
      var i := 0;
      while i < |memoryIds|
        invariant 0 <= i <= |memoryIds|
        invariant RV.Connected(g, memoryIds, []) == RV.Connected(g, memoryIds[i..], connected)
      {
        assert memoryIds[i..][1..] == memoryIds[i + 1..];
        var edges := lattice.hg.GetEdges(None, Some(memoryIds[i]), HG.DefaultLimit);
        assert edges == g.adj(memoryIds[i]);
        connected := VisitAround(memoryIds[i], edges, connected);
        i := i + 1;
      }
      RV.FirstHop(g, settings.reverbDecay, memoryIds, "", "");
      r := Convert(connected);
      if depth > 1 {
        var next := Reverberate(RV.Flatten(r), depth - 1);
        r := MergeNext(r, next);
      }
    }

    /** The provenance loop of `recall`: `prov[item.id] = get_provenance(item.id)` for each item. */
    method Provenances(items: seq<L.MemoryItem>) returns (prov: seq<(string, seq<HG.EdgeView>)>)
      ensures prov == L.Tabulate(RV.IdsOf(items), ProvenanceQuery(lattice.hg.Tables()))
    {
      ghost var ids := RV.IdsOf(items);
      ghost var query := ProvenanceQuery(lattice.hg.Tables());
      prov := [];
      var i := 0;
      while i < |items|
        invariant 0 <= i <= |items|
        invariant prov == L.Tabulate(ids[..i], query)
      {
        var edges := lattice.GetProvenance(items[i].id);
        assert ids[..i + 1][..i] == ids[..i];
        prov := L.Assign(prov, items[i].id, edges);
        i := i + 1;
      }
      assert ids[..|items|] == ids;
    }

    /** What `recall` adds around its direct matches `r.primary`: the
      * reverberations from the first three of them (when asked for and
      * there are matches), the provenance edges of each match (likewise),
      * and the diagnostics counting both. */
    ghost predicate Around(r: RecallResult, reverberate: bool, getProvenance: bool, now: int)
      reads lattice.hg
    {
      var reverbs := reverberate && |r.primary| > 0;
      var prov := getProvenance && |r.primary| > 0;
      (reverbs ==> r.reverberations == RV.Reverb(Graph(), settings.reverbDecay, TopIds(r.primary), settings.maxReverbDepth)) &&
      (!reverbs ==> r.reverberations == []) &&
      r.diagnostics == [("direct_count", VInt(|r.primary|)), ("ts", VInt(now))] +
                       (if reverbs then [("reverb_count", VInt(|RV.Flatten(r.reverberations)|))] else []) &&
      (prov ==> r.provenance == L.Tabulate(RV.IdsOf(r.primary), ProvenanceQuery(lattice.hg.Tables()))) &&
      (!prov ==> r.provenance == [])
    }

    /** Steps 2 and 3 of `recall`, around the direct matches `items`. */
    method RecallAround(items: seq<L.MemoryItem>, reverberate: bool, getProvenance: bool, now: int)
      returns (r: RecallResult)
      ensures r.primary == items && Around(r, reverberate, getProvenance, now)
    {
      var reverbs: RV.Reverbs := [];
      var prov: seq<(string, seq<HG.EdgeView>)> := [];
      var diag: Dict := [("direct_count", VInt(|items|)), ("ts", VInt(now))];
      if reverberate && |items| > 0 {
        reverbs := Reverberate(TopIds(items), settings.maxReverbDepth);
        ReverbCountIsFlattened(reverbs);
        diag := diag + [("reverb_count", VInt(ReverbCount(reverbs)))];
      }
      if getProvenance && |items| > 0 {
        prov := Provenances(items);
      }
      r := RecallResult(items, reverbs, prov, diag);
    }

    /** `recall(query_vector, layers, k, reverberate, get_provenance)` with
      * the vector search `search`, `exp(-x)` as `expNeg` and the clock at
      * `now`: the lattice's merged matches over the queried layers, and
      * what `Around` says is added to them. */
    method Recall(search: L.Search, expNeg: real -> real, query: seq<real>, layers: seq<string>, k: int,
                  reverberate: bool, getProvenance: bool, now: int) returns (r: RecallResult)
      ensures r.primary == L.Intersect(L.Recall(lattice.hg.Tables(), search, expNeg, lattice.anchors, lattice.prefix),
                                       query, layers, k, AnchorsBias, now).items
      ensures Around(r, reverberate, getProvenance, now)
    {
      var res := lattice.SearchIntersect(search, expNeg, query, L.Queried(layers), k, AnchorsBias, now);
      assert L.Queried(L.Queried(layers)) == L.Queried(layers);
      r := RecallAround(res.items, reverberate, getProvenance, now);
    }

    // ----- Re-implication ----------------------------------------------------

    /** One `add_edge` of the re-implication loop: from `item` to `other`. */
    method AddLink(item: L.MemoryItem, other: L.MemoryItem, now: int, ids: seq<int>) returns (ids': seq<int>)
      requires lattice.hg.Valid()
      modifies lattice.hg
      ensures lattice.hg.Valid() && lattice.hg.nodes == old(lattice.hg.nodes)
      ensures RI.Wrote(old(lattice.hg.edges), old(lattice.hg.connections), ids,
                       lattice.hg.edges, lattice.hg.connections, ids', [(item, other)], |old(lattice.hg.edges)|, now)
    {
      var hg := lattice.hg;
      var base := |hg.edges|;
      HG.EdgeConnectionsFresh(hg.connections, base, [item.id], [other.id]);
      assert HG.ConnectionsFor(base + 1, [item.id], true) == [HG.Connection(base + 1, item.id, true)];
      assert HG.ConnectionsFor(base + 1, [other.id], false) == [HG.Connection(base + 1, other.id, false)];
      RI.LinkedOne((item, other), base, now);
      var r := hg.AddEdge(RI.LinkType, [item.id], [other.id], RI.LinkPayload((item, other), now), now);
      ids' := ids + [r.value];
    }

    /** The inner loop of `reimplic` for item `i` of a layer's `items`:
      * `ids` are the edge ids made so far. */
    method LinkItem(items: seq<L.MemoryItem>, i: int, bound: int, maxEdges: int, now: int, ids: seq<int>)
      returns (ids': seq<int>)
      requires lattice.hg.Valid() && 0 <= i < |items|
      modifies lattice.hg
      ensures lattice.hg.Valid() && lattice.hg.nodes == old(lattice.hg.nodes)
      ensures RI.PairsIn(RI.RowPairs(i, RI.Targets(|items|, i, 0, bound, maxEdges, |ids|)), 0, |items|)
      ensures RI.Wrote(old(lattice.hg.edges), old(lattice.hg.connections), ids, lattice.hg.edges, lattice.hg.connections, ids',
                       RI.Links(items, RI.RowPairs(i, RI.Targets(|items|, i, 0, bound, maxEdges, |ids|))),
                       |old(lattice.hg.edges)|, now)
    {
      var n := |items|;
      ghost var edges0 := lattice.hg.edges;
      ghost var conns0 := lattice.hg.connections;
      var base := |lattice.hg.edges|;
      ghost var all := RI.Targets(n, i, 0, bound, maxEdges, |ids|);
      ghost var done: seq<int> := [];
      ids' := ids;
      RI.WroteNothing(edges0, conns0, ids, base, now);
      assert all == done + all;
      if bound <= 0 {
        RI.TargetsDone(n, i, 0, bound, maxEdges, |ids|, all, done);
      }
      var j := 0;
      while j < bound
        invariant 0 <= j && |done| == j && |ids'| == |ids| + j
        invariant lattice.hg.Valid() && lattice.hg.nodes == old(lattice.hg.nodes)
        invariant RI.Below(done, n)
        invariant all == done + RI.Targets(n, i, j, bound, maxEdges, |ids'|)
        invariant j >= bound ==> all == done
        invariant RI.Wrote(edges0, conns0, ids, lattice.hg.edges, lattice.hg.connections, ids', RI.Links(items, RI.RowPairs(i, done)), base, now)
      {
        var x := (i + j + 1) % n;
        ghost var e1, c1, ids1 := lattice.hg.edges, lattice.hg.connections, ids';
        assert |e1| == base + j;
        ids' := AddLink(items[i], items[x], now, ids');
        RI.WroteNext(items, edges0, conns0, ids, e1, c1, ids1, lattice.hg.edges, lattice.hg.connections, ids', i, done, x, base, |e1|, now);
        ghost var done1 := done;
        done := done + [x];
        assert (|ids'| >= maxEdges ==> all == done) &&
               (|ids'| < maxEdges ==> all == done + RI.Targets(n, i, j + 1, bound, maxEdges, |ids'|)) by {
          RI.TargetsStep(n, i, j, bound, maxEdges, |ids1|, |ids'|, all, done1, done);
        }
        j := j + 1;
        if |ids'| >= maxEdges {
          break;
        }
        if j >= bound {
          RI.TargetsDone(n, i, j, bound, maxEdges, |ids'|, all, done);
        }
      }
    }

    /** One round of the loop of `LinkLayer`: the links of item `i` are
      * written after the pairs `done` written so far. */
    method LinkRow(items: seq<L.MemoryItem>, i: int, bound: int, maxEdges: int, now: int, ids: seq<int>,
                   ghost edges0: seq<HG.EdgeRow>, ghost conns0: seq<HG.Connection>, ghost ids0: seq<int>, ghost base: int,
                   ghost all: seq<(int, int)>, ghost done: seq<(int, int)>)
      returns (ids': seq<int>, ghost done': seq<(int, int)>)
      requires lattice.hg.Valid() && 0 <= i < |items|
      requires base == |edges0| && |ids| == |ids0| + |done| && RI.PairsIn(done, 0, |items|)
      requires all == done + RI.LayerFrom(|items|, i, bound, maxEdges, |ids|)
      requires RI.Wrote(edges0, conns0, ids0, lattice.hg.edges, lattice.hg.connections, ids, RI.Links(items, done), base, now)
      modifies lattice.hg
      ensures lattice.hg.Valid() && lattice.hg.nodes == old(lattice.hg.nodes)
      ensures |ids'| == |ids0| + |done'| && RI.PairsIn(done', 0, |items|)
      ensures |ids'| >= maxEdges ==> all == done'
      ensures |ids'| < maxEdges ==> all == done' + RI.LayerFrom(|items|, i + 1, bound, maxEdges, |ids'|)
      ensures RI.Wrote(edges0, conns0, ids0, lattice.hg.edges, lattice.hg.connections, ids', RI.Links(items, done'), base, now)
    {
      ghost var e1, c1 := lattice.hg.edges, lattice.hg.connections;
      ghost var row := RI.RowPairs(i, RI.Targets(|items|, i, 0, bound, maxEdges, |ids|));
      ids' := LinkItem(items, i, bound, maxEdges, now, ids);
      RI.WroteLinks(items, edges0, conns0, ids0, e1, c1, ids, lattice.hg.edges, lattice.hg.connections, ids', done, row, base, |e1|, now);
      done' := done + row;
      RI.LayerFromStep(|items|, i, bound, maxEdges, |ids|, |ids'|, all, done, done');
    }

    /** The loop over one layer's `items` (at least two), which stops once
      * `max_edges` edges exist. */
    method LinkLayer(items: seq<L.MemoryItem>, maxEdges: int, now: int, ids: seq<int>) returns (ids': seq<int>)
      requires lattice.hg.Valid() && |items| >= 2
      modifies lattice.hg
      ensures lattice.hg.Valid() && lattice.hg.nodes == old(lattice.hg.nodes)
      ensures RI.Wrote(old(lattice.hg.edges), old(lattice.hg.connections), ids, lattice.hg.edges, lattice.hg.connections, ids',
                       RI.Links(items, RI.LayerPairs(|items|, settings.maxConnectionsPerItem, maxEdges, |ids|)),
                       |old(lattice.hg.edges)|, now)
    {
      var n := |items|;
      var maxPerItem := if settings.maxConnectionsPerItem <= n - 1 then settings.maxConnectionsPerItem else n - 1;
      var bound := if maxPerItem <= n - 1 then maxPerItem else n - 1;
      assert bound == RI.Bound(n, settings.maxConnectionsPerItem);
      ghost var all := RI.LayerPairs(n, settings.maxConnectionsPerItem, maxEdges, |ids|);
      assert all == RI.LayerFrom(n, 0, bound, maxEdges, |ids|);
      ids' := LinkEach(items, bound, maxEdges, now, ids, all);
    }

    /** The loop of `LinkLayer` over the items, from the first, writing the
      * pairs `all` planned for the layer. */
    method LinkEach(items: seq<L.MemoryItem>, bound: int, maxEdges: int, now: int, ids: seq<int>, ghost all: seq<(int, int)>)
      returns (ids': seq<int>)
      requires lattice.hg.Valid() && |items| >= 2 && all == RI.LayerFrom(|items|, 0, bound, maxEdges, |ids|)
      modifies lattice.hg
      ensures lattice.hg.Valid() && lattice.hg.nodes == old(lattice.hg.nodes)
      ensures RI.Wrote(old(lattice.hg.edges), old(lattice.hg.connections), ids, lattice.hg.edges, lattice.hg.connections, ids',
                       RI.Links(items, all), |old(lattice.hg.edges)|, now)
    {
      var n := |items|;
      ghost var edges0 := lattice.hg.edges;
      ghost var conns0 := lattice.hg.connections;
      var base := |lattice.hg.edges|;
      ghost var done: seq<(int, int)> := [];
      ids' := ids;
      RI.WroteNothing(edges0, conns0, ids, base, now);
      assert all == done + all;
      var i := 0;
      while i < n
        invariant 0 <= i <= n && |ids'| == |ids| + |done|
        invariant lattice.hg.Valid() && lattice.hg.nodes == old(lattice.hg.nodes)
        invariant RI.PairsIn(done, 0, n)
        invariant all == done + RI.LayerFrom(n, i, bound, maxEdges, |ids'|)
        invariant RI.Wrote(edges0, conns0, ids, lattice.hg.edges, lattice.hg.connections, ids', RI.Links(items, done), base, now)
      {
        ids', done := LinkRow(items, i, bound, maxEdges, now, ids', edges0, conns0, ids, base, all, done);
        if |ids'| >= maxEdges {
          break;
        }
        i := i + 1;
      }
      if |ids'| < maxEdges {
        RI.LayerFromDone(n, i, bound, maxEdges, |ids'|, all, done);
      }
      assert all == done;
    }

    /** One round of the loop over the layers: a layer of fewer than two
      * memories is skipped. */
    method LinkGroup(items: seq<L.MemoryItem>, maxEdges: int, now: int, ids: seq<int>) returns (ids': seq<int>)
      requires lattice.hg.Valid()
      modifies lattice.hg
      ensures lattice.hg.Valid() && lattice.hg.nodes == old(lattice.hg.nodes)
      ensures RI.Wrote(old(lattice.hg.edges), old(lattice.hg.connections), ids, lattice.hg.edges, lattice.hg.connections, ids',
                       RI.Links(items, RI.LayerPairs(|items|, settings.maxConnectionsPerItem, maxEdges, |ids|)),
                       |old(lattice.hg.edges)|, now)
    {
      if |items| >= 2 {
        ids' := LinkLayer(items, maxEdges, now, ids);
      } else {
        ids' := ids;
        RI.WroteNothing(lattice.hg.edges, lattice.hg.connections, ids, |lattice.hg.edges|, now);
      }
    }

    /** The loop over the layers, in the order they were first seen. */
    method LinkAll(groups: RI.Layers, maxEdges: int, now: int) returns (ids: seq<int>)
      requires lattice.hg.Valid()
      modifies lattice.hg
      ensures lattice.hg.Valid() && lattice.hg.nodes == old(lattice.hg.nodes)
      ensures RI.Wrote(old(lattice.hg.edges), old(lattice.hg.connections), [], lattice.hg.edges, lattice.hg.connections, ids,
                       RI.Plan(groups, settings.maxConnectionsPerItem, maxEdges, 0), |old(lattice.hg.edges)|, now)
    {
      var hg := lattice.hg;
      var maxConn := settings.maxConnectionsPerItem;
      ghost var edges0 := hg.edges;
      ghost var conns0 := hg.connections;
      var base := |hg.edges|;
      ghost var all := RI.Plan(groups, maxConn, maxEdges, 0);
      ghost var done: seq<(L.MemoryItem, L.MemoryItem)> := [];
      ids := [];
      RI.WroteNothing(edges0, conns0, [], base, now);
      assert all == done + all;
      var g := 0;
      while g < |groups|
        invariant 0 <= g <= |groups| && |ids| == |done|
        invariant hg.Valid() && hg.nodes == old(hg.nodes)
        invariant all == done + RI.Plan(groups[g..], maxConn, maxEdges, |ids|)
        invariant RI.Wrote(edges0, conns0, [], hg.edges, hg.connections, ids, done, base, now)
      {
        ghost var e1, c1, ids1 := hg.edges, hg.connections, ids;
        ghost var layer := RI.Links(groups[g].1, RI.LayerPairs(|groups[g].1|, settings.maxConnectionsPerItem, maxEdges, |ids|));
        assert |e1| == base + |done|;
        ids := LinkGroup(groups[g].1, maxEdges, now, ids);
        RI.WroteBoth(edges0, conns0, [], e1, c1, ids1, hg.edges, hg.connections, ids, done, layer, base, |e1|, now);
        ghost var done1 := done;
        done := done + layer;
        RI.PlanStep(groups, g, maxConn, maxEdges, |ids1|, |ids|, all, done1, done);
        g := g + 1;
      }
      RI.PlanDone(groups, g, maxConn, maxEdges, |ids|, all, done);
      assert RI.Wrote(edges0, conns0, [], hg.edges, hg.connections, ids, all, base, now);
    }

    /** `reimplic(memories, max_edges)` at time `now`: the high-scoring
      * memories are linked layer by layer as `Plan` says, and when at least
      * two score high and some are L8 concepts, a synthetic L11 memory is
      * stored that derives from the top three of them. A concept payload
      * that is not a dictionary, or a repeated concept id, makes it raise
      * after the links were written. */
    method Reimplic(memories: seq<L.MemoryItem>, maxEdges: int, now: int)
      returns (r: Result<ReimplicResult>, ghost linked: HG.Store)
      requires Valid()
      modifies this, lattice, lattice.hg
      ensures Valid()
      ensures |RI.HighScore(memories, settings.reimplicThreshold)| == 0 ==>
        r == Ok(ReimplicResult([], [], RI.NoHighScore(settings.reimplicThreshold))) && State() == old(State())
      ensures |RI.HighScore(memories, settings.reimplicThreshold)| > 0 ==>
        linked == HG.Store(old(lattice.hg.nodes),
                           old(lattice.hg.edges) + RI.LinkRows(Planned(memories, maxEdges), |old(lattice.hg.edges)|, now),
                           old(lattice.hg.connections) + RI.LinkConnections(Planned(memories, maxEdges), |old(lattice.hg.edges)|))
      ensures |RI.HighScore(memories, settings.reimplicThreshold)| > 0 &&
              !(Synthetic(memories) && RI.Components(RI.Top(Groups(memories))).Ok?) ==>
        State() == Memory(linked, old(lattice.sent), old(cache))
      ensures r.Ok? && |RI.HighScore(memories, settings.reimplicThreshold)| > 0 ==>
        r.value.newEdges == RI.LinkIds(|Planned(memories, maxEdges)|, |old(lattice.hg.edges)|) &&
        r.value.diagnostics == RI.Diagnostics(memories, RI.HighScore(memories, settings.reimplicThreshold),
                                              Groups(memories), now)
      ensures |RI.HighScore(memories, settings.reimplicThreshold)| > 0 && !Synthetic(memories) ==>
        r.Ok? && r.value.newMemories == [] && cache == old(cache) && lattice.hg.nodes == old(lattice.hg.nodes) &&
        RI.Wrote(old(lattice.hg.edges), old(lattice.hg.connections), [], lattice.hg.edges, lattice.hg.connections,
                 r.value.newEdges, Planned(memories, maxEdges), |old(lattice.hg.edges)|, now)
      ensures Synthetic(memories) && RI.Components(RI.Top(Groups(memories))).Err? ==>
        r == Err(RI.Components(RI.Top(Groups(memories))).error)
      ensures Synthetic(memories) && RI.Components(RI.Top(Groups(memories))).Ok? ==>
        (r.Ok? <==> HG.NoDuplicates(RI.Ids(RI.Top(Groups(memories))))) &&
        (r.Ok? ==> r.value.newMemories == [SynthId(memories, now)])
      ensures Synthetic(memories) && RI.Components(RI.Top(Groups(memories))).Ok? ==>
        State() == StoreStep(Memory(linked, old(lattice.sent), old(cache)), lattice.prefix, settings.maxCacheItems,
                             RI.SynthPayload(RI.Top(Groups(memories)), RI.Components(RI.Top(Groups(memories))).value, now),
                             "L11", None, RI.Ids(RI.Top(Groups(memories))), SynthId(memories, now), now)
    {
      linked := lattice.hg.Tables();
      var high := RI.HighScore(memories, settings.reimplicThreshold);
      if |high| == 0 {
        return Ok(ReimplicResult([], [], RI.NoHighScore(settings.reimplicThreshold))), linked;
      }
      var groups := RI.GroupByLayer(high, []);
      assert groups == Groups(memories) && (RI.WantsSynthetic(high, groups) <==> Synthetic(memories));
      ghost var before := State();
      var edgeIds := LinkAll(groups, maxEdges, now);
      linked := lattice.hg.Tables();
      ghost var planned := Planned(memories, maxEdges);
      assert linked == HG.Store(before.tables.nodes, before.tables.edges + RI.LinkRows(planned, |before.tables.edges|, now),
                                before.tables.connections + RI.LinkConnections(planned, |before.tables.edges|));
      assert State() == Memory(linked, before.sent, before.cache);
      var newMemories := Synthesize(high, groups, now);
      if newMemories.Err? {
        return Err(newMemories.error), linked;
      }
      r := Ok(ReimplicResult(edgeIds, newMemories.value, RI.Diagnostics(memories, high, groups, now)));
    }

    /** The synthetic L11 memory of `reimplic`, derived from the top L8
      * concepts: the stored id, none when no synthetic memory is due. */
    method Synthesize(high: seq<L.MemoryItem>, groups: RI.Layers, now: int) returns (r: Result<seq<string>>)
      requires Valid()
      modifies this, lattice, lattice.hg
      ensures Valid()
      ensures !RI.WantsSynthetic(high, groups) || RI.Components(RI.Top(groups)).Err? ==> State() == old(State())
      ensures !RI.WantsSynthetic(high, groups) ==> r == Ok([])
      ensures RI.WantsSynthetic(high, groups) && RI.Components(RI.Top(groups)).Err? ==>
        r == Err(RI.Components(RI.Top(groups)).error)
      ensures RI.WantsSynthetic(high, groups) && RI.Components(RI.Top(groups)).Ok? ==>
        (r.Ok? <==> HG.NoDuplicates(RI.Ids(RI.Top(groups)))) &&
        (r.Ok? ==> r.value == [MemId(digest, text, RI.SynthPayload(RI.Top(groups), RI.Components(RI.Top(groups)).value, now), "L11")])
      ensures RI.WantsSynthetic(high, groups) && RI.Components(RI.Top(groups)).Ok? ==>
        var top := RI.Top(groups);
        var payload := RI.SynthPayload(top, RI.Components(top).value, now);
        State() == StoreStep(old(State()), lattice.prefix, settings.maxCacheItems, payload, "L11", None, RI.Ids(top),
                             MemId(digest, text, payload, "L11"), now)
      ensures RI.WantsSynthetic(high, groups) && r.Ok? ==>
        var top := RI.Top(groups);
        var payload := RI.SynthPayload(top, RI.Components(top).value, now);
        lattice.hg.nodes == HG.UpsertNode(old(lattice.hg.nodes), r.value[0], L.LabelOf(payload, "L11"), "L11", VDict(payload), now) &&
        lattice.hg.edges == old(lattice.hg.edges) + [HG.EdgeRow(|old(lattice.hg.edges)| + 1, "provenance", ProvenancePayload(now), now)] &&
        lattice.hg.connections == old(lattice.hg.connections) + HG.ConnectionsFor(|old(lattice.hg.edges)| + 1, RI.Ids(top), true) +
                                  [HG.Connection(|old(lattice.hg.edges)| + 1, r.value[0], false)] &&
        cache == Cached(old(cache), Atom(r.value[0], "L11", payload, None, now, 1.0, RI.Ids(top)), settings.maxCacheItems)
    {
      if !RI.WantsSynthetic(high, groups) {
        return Ok([]);
      }
      var top := RI.Top(groups);
      var components := RI.Components(top);
      if components.Err? {
        return Err(components.error);
      }
      RI.TopNotEmpty(groups);
      assert RI.Ids(top) != [];
      assert "L11" in L.LayerNames by { assert L.LayerNames[11] == "L11"; }
      var id := StoreMemory(RI.SynthPayload(top, components.value, now), "L11", None, RI.Ids(top), now);
      if id.Err? {
        return Err(id.error);
      }
      return Ok([id.value]);
    }

    /** `check_amnesia()` at time `now`. */
    method CheckAmnesia(now: int) returns (r: AA.AmnesiaReport)
      ensures r == AA.Amnesia(lattice.hg.Tables(), settings.forgettingWindowDays, settings.anchorRatio, now)
    {
      r := AA.Check(settings.forgettingWindowDays, settings.anchorRatio, now, L.LayerNames, AA.FoundRows(lattice.hg.Tables()));
    }

    /** The layers of the high-scoring memories. */
    function Groups(memories: seq<L.MemoryItem>): RI.Layers
    {
      RI.GroupByLayer(RI.HighScore(memories, settings.reimplicThreshold), [])
    }

    /** The pairs `reimplic` links. */
    function Planned(memories: seq<L.MemoryItem>, maxEdges: int): seq<(L.MemoryItem, L.MemoryItem)>
    {
      RI.Plan(Groups(memories), settings.maxConnectionsPerItem, maxEdges, 0)
    }

    /** Whether `reimplic` attempts the synthetic memory. */
    predicate Synthetic(memories: seq<L.MemoryItem>)
    {
      RI.WantsSynthetic(RI.HighScore(memories, settings.reimplicThreshold), Groups(memories))
    }

    /** The id of the synthetic memory. */
    function SynthId(memories: seq<L.MemoryItem>, now: int): string
      requires RI.Components(RI.Top(Groups(memories))).Ok?
    {
      var top := RI.Top(Groups(memories));
      MemId(digest, text, RI.SynthPayload(top, RI.Components(top).value, now), "L11")
    }
  }
}
