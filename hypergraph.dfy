// The hypergraph store (core/memory/hyperedges_sqlite.py): nodes, hyperedges
// and the connection rows that attach each edge to its source and target
// nodes. The three SQLite tables are sequences of rows in insertion (rowid)
// order; a query that sorts on a timestamp keeps rowid order among equal
// timestamps. The clock is the `now` argument. Labels and payloads are kept
// as the values given, not as the text SQLite stores.
module HypergraphStore {
  import opened Values
  import Sorting

  /** A row of `nodes`. */
  datatype NodeRow = NodeRow(id: string, nodeLabel: Value, layer: string, payload: Value, createdTs: int, modifiedTs: int)

  /** A row of `edges`. */
  datatype EdgeRow = EdgeRow(id: int, edgeType: string, payload: Value, createdTs: int)

  /** A row of `edge_connections`: `is_source` is 1 for a source, 0 for a target. */
  datatype Connection = Connection(edgeId: int, nodeId: string, isSource: bool)

  /** An edge as `get_edges` returns it, with its endpoint ids. */
  datatype EdgeView = EdgeView(id: int, edgeType: string, payload: Value, createdTs: int,
                               sourceIds: seq<string>, targetIds: seq<string>)

  /** The three tables. */
  datatype Store = Store(nodes: seq<NodeRow>, edges: seq<EdgeRow>, connections: seq<Connection>)

  /** The `limit` every internal `get_edges` call uses. */
  const DefaultLimit := 100

  /** `id` is the primary key of `nodes`. */
  predicate UniqueNodeIds(nodes: seq<NodeRow>) {
    forall i, j :: 0 <= i < j < |nodes| ==> nodes[i].id != nodes[j].id
  }

  /** With AUTOINCREMENT and no deletions, the i-th edge row has id i + 1. */
  predicate DenseEdgeIds(edges: seq<EdgeRow>) {
    forall i :: 0 <= i < |edges| ==> edges[i].id == i + 1
  }

  /** `(edge_id, node_id, is_source)` is the primary key of `edge_connections`,
    * and every connection belongs to an inserted edge. */
  /** Rows `i` and `j` of the connections table are the same row. */
  predicate SameRow(connections: seq<Connection>, i: int, j: int) {
    0 <= i < |connections| && 0 <= j < |connections| && connections[i] == connections[j]
  }

  predicate WellFormedConnections(connections: seq<Connection>, edgeCount: int) {
    (forall i, j :: 0 <= i < j < |connections| ==> !SameRow(connections, i, j)) &&
    (forall i :: 0 <= i < |connections| ==> 1 <= connections[i].edgeId <= edgeCount)
  }

  predicate WellFormed(st: Store) {
    UniqueNodeIds(st.nodes) && DenseEdgeIds(st.edges) && WellFormedConnections(st.connections, |st.edges|)
  }

  // ----- Nodes -------------------------------------------------------------

  /** `SELECT * FROM nodes WHERE id = ?`: `get_node`, None for an unknown id. */
  function FindNode(nodes: seq<NodeRow>, id: string): (r: Option<NodeRow>)
    ensures r.Some? <==> exists i :: 0 <= i < |nodes| && nodes[i].id == id
    ensures r.Some? ==> r.value.id == id && r.value in nodes
  {
    if nodes == [] then None
    else if nodes[0].id == id then Some(nodes[0])
    else FindNode(nodes[1..], id)
  }

  /** `get_node_payload(node_id)` */
  function NodePayload(nodes: seq<NodeRow>, id: string): (r: Option<Value>)
    ensures r.Some? <==> FindNode(nodes, id).Some?
    ensures r.Some? ==> r.value == FindNode(nodes, id).value.payload
  {
    match FindNode(nodes, id)
    case Some(n) => Some(n.payload)
    case None => None
  }

  /** The `nodes` table after `add_node(item_id, label, layer, payload)` at
    * time `now`: an existing row is updated in place, a new id is inserted
    * last. */
  function UpsertNode(nodes: seq<NodeRow>, id: string, nodeLabel: Value, layer: string, payload: Value, now: int): (r: seq<NodeRow>)
    ensures FindNode(nodes, id).None? ==> r == nodes + [NodeRow(id, nodeLabel, layer, payload, now, now)]
  {
    if nodes == [] then [NodeRow(id, nodeLabel, layer, payload, now, now)]
    else if nodes[0].id == id then [nodes[0].(nodeLabel := nodeLabel, layer := layer, payload := payload, modifiedTs := now)] + nodes[1..]
    else [nodes[0]] + UpsertNode(nodes[1..], id, nodeLabel, layer, payload, now)
  }

  /** After `add_node`, the id's row has the new label, layer, payload and
    * modification time, and keeps its creation time when it existed (both
    * times are `now` otherwise); every other id reads as before. */
  lemma {:induction false} UpsertNodeFacts(nodes: seq<NodeRow>, id: string, nodeLabel: Value, layer: string, payload: Value, now: int, other: string)
    ensures FindNode(UpsertNode(nodes, id, nodeLabel, layer, payload, now), id) ==
      Some(NodeRow(id, nodeLabel, layer, payload, if FindNode(nodes, id).Some? then FindNode(nodes, id).value.createdTs else now, now))
    ensures other != id ==> FindNode(UpsertNode(nodes, id, nodeLabel, layer, payload, now), other) == FindNode(nodes, other)
    ensures FindNode(nodes, id).Some? ==> |UpsertNode(nodes, id, nodeLabel, layer, payload, now)| == |nodes|
  {
    if nodes != [] && nodes[0].id != id {
      UpsertNodeFacts(nodes[1..], id, nodeLabel, layer, payload, now, other);
    }
  }

  /** `add_node` keeps node ids unique. */
  lemma {:induction false} UpsertKeepsIdsUnique(nodes: seq<NodeRow>, id: string, nodeLabel: Value, layer: string, payload: Value, now: int)
    requires UniqueNodeIds(nodes)
    ensures UniqueNodeIds(UpsertNode(nodes, id, nodeLabel, layer, payload, now))
  {
    if nodes != [] && nodes[0].id != id {
      var rest := UpsertNode(nodes[1..], id, nodeLabel, layer, payload, now);
      UpsertKeepsIdsUnique(nodes[1..], id, nodeLabel, layer, payload, now);
      forall j | 0 <= j < |rest| ensures rest[j].id != nodes[0].id {
        UpsertNodeFacts(nodes[1..], id, nodeLabel, layer, payload, now, nodes[0].id);
        assert FindNode(nodes[1..], nodes[0].id).None? by {
          forall k | 0 <= k < |nodes[1..]| ensures nodes[1..][k].id != nodes[0].id {
            assert nodes[1..][k] == nodes[k + 1];
          }
        }
        assert FindNode(rest, rest[j].id).Some?;
      }
      assert UpsertNode(nodes, id, nodeLabel, layer, payload, now) == [nodes[0]] + rest;
    }
  }

  /** `[:limit]` of a query with `LIMIT limit`; SQLite reads a negative
    * limit as no limit. */
  function Limit<T>(s: seq<T>, limit: int): (r: seq<T>)
    ensures limit >= 0 ==> |r| <= limit
    ensures r <= s
    ensures limit < 0 || |s| <= limit ==> r == s
  {
    if limit < 0 || |s| <= limit then s else s[..limit]
  }

  /** The rows of `nodes` in the given layer; every row for no (or an empty) layer. */
  function InLayer(nodes: seq<NodeRow>, layer: Option<string>): (r: seq<NodeRow>)
    ensures forall n :: n in r <==> n in nodes && (layer.Some? && layer.value != "" ==> n.layer == layer.value)
  {
    if nodes == [] then []
    else (if layer.None? || layer.value == "" || nodes[0].layer == layer.value then [nodes[0]] else []) + InLayer(nodes[1..], layer)
  }

  function ModifiedKey(n: NodeRow): real { n.modifiedTs as real }

  /** `find_nodes(layer, limit)`: the layer's rows, most recently modified first. */
  function FindNodes(st: Store, layer: Option<string>, limit: int): (r: seq<NodeRow>)
    ensures limit >= 0 ==> |r| <= limit
    ensures forall n :: n in r ==> n in st.nodes && (layer.Some? && layer.value != "" ==> n.layer == layer.value)
    ensures forall i, j :: 0 <= i < j < |r| ==> r[i].modifiedTs >= r[j].modifiedTs
  {
    var sorted := Sorting.SortDesc(InLayer(st.nodes, layer), ModifiedKey);
    Sorting.SortDescMembers(InLayer(st.nodes, layer), ModifiedKey);
    Limit(sorted, limit)
  }

  // ----- Edges -------------------------------------------------------------

  /** The connections `add_edge` inserts for one list of endpoints, in order;
    * the flag is false when an insert hits a row already present
    * (sqlite3.IntegrityError), and the rows inserted before it stay. */
  function Connect(connections: seq<Connection>, edgeId: int, ids: seq<string>, isSource: bool): (r: (seq<Connection>, bool))
    ensures |connections| <= |r.0| <= |connections| + |ids| && r.0[..|connections|] == connections
    ensures forall i :: |connections| <= i < |r.0| ==> r.0[i].edgeId == edgeId && r.0[i].isSource == isSource
    decreases |ids|
  {
    if ids == [] then (connections, true)
    else if HasRow(connections, Connection(edgeId, ids[0], isSource)) then (connections, false)
    else Connect(connections + [Connection(edgeId, ids[0], isSource)], edgeId, ids[1..], isSource)
  }

  predicate NoDuplicates<T(==)>(s: seq<T>) {
    forall i, j :: 0 <= i < j < |s| ==> s[i] != s[j]
  }

  function ConnectionsFor(edgeId: int, ids: seq<string>, isSource: bool): (r: seq<Connection>)
    ensures |r| == |ids|
    ensures forall i :: 0 <= i < |ids| ==> r[i] == Connection(edgeId, ids[i], isSource)
  {
    if ids == [] then [] else [Connection(edgeId, ids[0], isSource)] + ConnectionsFor(edgeId, ids[1..], isSource)
  }

  /** When no endpoint is listed twice and none already has a row on this
    * side of the edge, every insert succeeds and each endpoint gets one row
    * with the given flag, in the order listed. */
  lemma {:induction false} ConnectFresh(connections: seq<Connection>, edgeId: int, ids: seq<string>, isSource: bool)
    requires NoDuplicates(ids)
    requires forall k :: 0 <= k < |ids| ==> !HasRow(connections, Connection(edgeId, ids[k], isSource))
    ensures Connect(connections, edgeId, ids, isSource) == (connections + ConnectionsFor(edgeId, ids, isSource), true)
    decreases |ids|
  {
    if ids == [] {
      assert connections + ConnectionsFor(edgeId, ids, isSource) == connections;
    } else {
      var c := Connection(edgeId, ids[0], isSource);
      var tail := ids[1..];
      var grown := connections + [c];
      assert !HasRow(connections, c);
      assert Connect(connections, edgeId, ids, isSource) == Connect(grown, edgeId, tail, isSource);
      assert NoDuplicates(tail) by {
        forall i, j | 0 <= i < j < |tail| ensures tail[i] != tail[j] {
          assert tail[i] == ids[i + 1] && tail[j] == ids[j + 1];
        }
      }
      forall k | 0 <= k < |tail| ensures !HasRow(grown, Connection(edgeId, tail[k], isSource)) {
        assert tail[k] == ids[k + 1] && ids[0] != ids[k + 1];
        HasRowAppend(connections, c, Connection(edgeId, tail[k], isSource));
      }
      ConnectFresh(grown, edgeId, tail, isSource);
      assert ConnectionsFor(edgeId, ids, isSource) == [c] + ConnectionsFor(edgeId, tail, isSource);
      AppendAssoc(connections, c, ConnectionsFor(edgeId, tail, isSource));
    }
  }

  lemma AppendAssoc<T>(a: seq<T>, x: T, b: seq<T>)
    ensures (a + [x]) + b == a + ([x] + b)
  {
  }

  predicate HasRow(connections: seq<Connection>, c: Connection) {
    c in connections
  }

  lemma HasRowAppend(connections: seq<Connection>, c: Connection, x: Connection)
    ensures HasRow(connections + [c], x) <==> HasRow(connections, x) || x == c
  {
  }

  /** An endpoint listed twice makes `add_edge` raise IntegrityError. */
  lemma {:induction false} ConnectRejectsRepeat(connections: seq<Connection>, edgeId: int, ids: seq<string>, isSource: bool, i: int, j: int)
    requires 0 <= i < j < |ids| && ids[i] == ids[j]
    ensures !Connect(connections, edgeId, ids, isSource).1
    decreases |ids|
  {
    if !HasRow(connections, Connection(edgeId, ids[0], isSource)) {
      var c' := connections + [Connection(edgeId, ids[0], isSource)];
      if i == 0 {
        assert ids[1..][j - 1] == ids[0];
        ConnectStopsOnRepeat(c', edgeId, ids[1..], isSource, j - 1);
      } else {
        assert ids[1..][i - 1] == ids[1..][j - 1];
        ConnectRejectsRepeat(c', edgeId, ids[1..], isSource, i - 1, j - 1);
      }
    }
  }

  /** An endpoint whose row is already present makes the inserts fail. */
  lemma {:induction false} ConnectStopsOnRepeat(connections: seq<Connection>, edgeId: int, ids: seq<string>, isSource: bool, k: int)
    requires 0 <= k < |ids| && HasRow(connections, Connection(edgeId, ids[k], isSource))
    ensures !Connect(connections, edgeId, ids, isSource).1
    decreases |ids|
  {
    if k > 0 && !HasRow(connections, Connection(edgeId, ids[0], isSource)) {
      ConnectStopsOnRepeat(connections + [Connection(edgeId, ids[0], isSource)], edgeId, ids[1..], isSource, k - 1);
    }
  }

  /** Whether the edge has a connection row for `nodeId`. */
  predicate Touches(connections: seq<Connection>, edgeId: int, nodeId: string) {
    exists i :: 0 <= i < |connections| && connections[i].edgeId == edgeId && connections[i].nodeId == nodeId
  }

  /** The `WHERE` of `get_edges`: edges touching a named (non-empty) node,
    * and of a named type, each edge once (`DISTINCT`). */
  function Selected(st: Store, edges: seq<EdgeRow>, edgeType: Option<string>, around: Option<string>): (r: seq<EdgeRow>)
    ensures forall e :: e in r <==> (e in edges &&
      (around.Some? && around.value != "" ==> Touches(st.connections, e.id, around.value)) &&
      (edgeType.Some? && edgeType.value != "" ==> e.edgeType == edgeType.value))
    ensures |r| <= |edges|
  {
    if edges == [] then []
    else
      var e := edges[0];
      var keep := (around.None? || around.value == "" || Touches(st.connections, e.id, around.value)) &&
                  (edgeType.None? || edgeType.value == "" || e.edgeType == edgeType.value);
      (if keep then [e] else []) + Selected(st, edges[1..], edgeType, around)
  }

  /** The endpoints of an edge on one side, in connection order, joined
    * with `nodes`: ids without a node row are dropped. */
  function Endpoints(st: Store, connections: seq<Connection>, edgeId: int, isSource: bool): (r: seq<string>)
    ensures forall x :: x in r ==> FindNode(st.nodes, x).Some?
    ensures forall x :: x in r <==> (FindNode(st.nodes, x).Some? &&
      exists i :: 0 <= i < |connections| && connections[i] == Connection(edgeId, x, isSource))
  {
    if connections == [] then []
    else
      var c := connections[0];
      var here := if c.edgeId == edgeId && c.isSource == isSource && FindNode(st.nodes, c.nodeId).Some? then [c.nodeId] else [];
      var rest := Endpoints(st, connections[1..], edgeId, isSource);
      assert forall i :: 1 <= i < |connections| ==> connections[i] == connections[1..][i - 1];
      here + rest
  }

  function CreatedKey(e: EdgeRow): real { e.createdTs as real }

  /** The rows the `get_edges` query returns, newest first. */
  function EdgeRows(st: Store, edgeType: Option<string>, around: Option<string>, limit: int): seq<EdgeRow> {
    Limit(Sorting.SortDesc(Selected(st, st.edges, edgeType, around), CreatedKey), limit)
  }

  /** They are selected rows, newest first, at most `limit` of them, and
    * distinct when the selection is. */
  lemma EdgeRowsFacts(st: Store, edgeType: Option<string>, around: Option<string>, limit: int)
    ensures var r := EdgeRows(st, edgeType, around, limit);
      (limit >= 0 ==> |r| <= limit) &&
      (forall e :: e in r ==> e in Selected(st, st.edges, edgeType, around)) &&
      (forall i, j :: 0 <= i < j < |r| ==> r[i].createdTs >= r[j].createdTs) &&
      (NoDuplicates(Selected(st, st.edges, edgeType, around)) ==> NoDuplicates(r))
  {
    TopRowsFacts(Selected(st, st.edges, edgeType, around), limit);
  }

  /** The same for any list of edge rows. */
  lemma TopRowsFacts(sel: seq<EdgeRow>, limit: int)
    ensures var r := Limit(Sorting.SortDesc(sel, CreatedKey), limit);
      (limit >= 0 ==> |r| <= limit) &&
      (forall e :: e in r ==> e in sel) &&
      (forall i, j :: 0 <= i < j < |r| ==> r[i].createdTs >= r[j].createdTs) &&
      (NoDuplicates(sel) ==> NoDuplicates(r))
  {
    var r := Limit(Sorting.SortDesc(sel, CreatedKey), limit);
    TopFacts(sel, CreatedKey, limit);
    forall i, j | 0 <= i < j < |r| ensures r[i].createdTs >= r[j].createdTs {
      assert CreatedKey(r[i]) >= CreatedKey(r[j]);
    }
  }

  /** The first `limit` of a stable descending sort. */
  lemma TopFacts<T>(s: seq<T>, key: T -> real, limit: int)
    ensures var r := Limit(Sorting.SortDesc(s, key), limit);
      (limit >= 0 ==> |r| <= limit) &&
      (forall x :: x in r ==> x in s) &&
      (forall i, j :: 0 <= i < j < |r| ==> key(r[i]) >= key(r[j])) &&
      (NoDuplicates(s) ==> NoDuplicates(r))
  {
    var sorted := Sorting.SortDesc(s, key);
    Sorting.SortDescMembers(s, key);
    PermutationKeepsDistinct(s, sorted);
    var r := Limit(sorted, limit);
    assert forall i :: 0 <= i < |r| ==> r[i] == sorted[i];
  }

  lemma PermutationKeepsDistinct<T>(s: seq<T>, t: seq<T>)
    requires multiset(s) == multiset(t)
    ensures NoDuplicates(s) ==> NoDuplicates(t)
  {
    if NoDuplicates(s) {
      forall i, j | 0 <= i < j < |t| ensures t[i] != t[j] {
        if t[i] == t[j] {
          MultisetTwice(t, i, j);
          MultisetOnce(s, t[i]);
        }
      }
    }
  }

  lemma MultisetTwice<T>(s: seq<T>, i: int, j: int)
    requires 0 <= i < j < |s| && s[i] == s[j]
    ensures multiset(s)[s[i]] >= 2
  {
    assert s == s[..i] + [s[i]] + s[i + 1..j] + [s[j]] + s[j + 1..];
  }

  lemma {:induction false} MultisetOnce<T>(s: seq<T>, x: T)
    requires NoDuplicates(s)
    ensures multiset(s)[x] <= 1
  {
    if s != [] {
      assert s == [s[0]] + s[1..];
      MultisetOnce(s[1..], x);
      assert s[0] !in s[1..] by {
        forall k | 0 <= k < |s[1..]| ensures s[1..][k] != s[0] { assert s[1..][k] == s[k + 1]; }
      }
    }
  }

  /** One edge row with its endpoints attached. */
  function ViewOf(st: Store, e: EdgeRow): EdgeView {
    EdgeView(e.id, e.edgeType, e.payload, e.createdTs,
             Endpoints(st, st.connections, e.id, true), Endpoints(st, st.connections, e.id, false))
  }

  function Views(st: Store, rows: seq<EdgeRow>): (r: seq<EdgeView>)
    ensures |r| == |rows|
    ensures forall i :: 0 <= i < |rows| ==> r[i] == ViewOf(st, rows[i])
  {
    if rows == [] then [] else Views(st, rows[..|rows| - 1]) + [ViewOf(st, rows[|rows| - 1])]
  }

  /** `get_edges(edge_type, around, limit)` */
  function EdgesQuery(st: Store, edgeType: Option<string>, around: Option<string>, limit: int): seq<EdgeView> {
    Views(st, EdgeRows(st, edgeType, around, limit))
  }

  /** Distinct edge rows select distinct edges. */
  lemma {:induction false} SelectedDistinct(st: Store, edges: seq<EdgeRow>, edgeType: Option<string>, around: Option<string>)
    requires NoDuplicates(edges)
    ensures NoDuplicates(Selected(st, edges, edgeType, around))
  {
    if edges != [] {
      SelectedDistinct(st, edges[1..], edgeType, around);
      assert edges[0] !in edges[1..] by {
        forall k | 0 <= k < |edges[1..]| ensures edges[1..][k] != edges[0] { assert edges[1..][k] == edges[k + 1]; }
      }
    }
  }

  /** `get_edges(around=n)` returns only edges touching n, each once, newest
    * first and at most `limit` of them, and lists only endpoints that have
    * a node row. */
  lemma EdgesQueryFacts(st: Store, edgeType: Option<string>, around: string, limit: int)
    requires WellFormed(st) && around != ""
    ensures var r := EdgesQuery(st, edgeType, Some(around), limit);
      (limit >= 0 ==> |r| <= limit) &&
      (forall i :: 0 <= i < |r| ==> Touches(st.connections, r[i].id, around)) &&
      (edgeType.Some? && edgeType.value != "" ==> forall i :: 0 <= i < |r| ==> r[i].edgeType == edgeType.value) &&
      (forall i, j :: 0 <= i < j < |r| ==> r[i].id != r[j].id && r[i].createdTs >= r[j].createdTs) &&
      (forall i :: 0 <= i < |r| ==> forall x :: x in r[i].sourceIds || x in r[i].targetIds ==> FindNode(st.nodes, x).Some?)
  {
    QueryRowsFacts(st, edgeType, around, limit);
    ViewsOfRows(st, EdgeRows(st, edgeType, Some(around), limit), edgeType, around, limit);
  }

  /** The rows behind `get_edges(around=n)`: at most `limit`, each touching
    * n and of the type, with distinct ids, newest first. */
  lemma QueryRowsFacts(st: Store, edgeType: Option<string>, around: string, limit: int)
    requires WellFormed(st) && around != ""
    ensures var rows := EdgeRows(st, edgeType, Some(around), limit);
      (limit >= 0 ==> |rows| <= limit) &&
      (forall i :: 0 <= i < |rows| ==> Touches(st.connections, rows[i].id, around)) &&
      (edgeType.Some? && edgeType.value != "" ==> forall i :: 0 <= i < |rows| ==> rows[i].edgeType == edgeType.value) &&
      (forall i, j :: 0 <= i < j < |rows| ==> rows[i].id != rows[j].id && rows[i].createdTs >= rows[j].createdTs)
  {
    var rows := EdgeRows(st, edgeType, Some(around), limit);
    EdgeRowsFacts(st, edgeType, Some(around), limit);
    DenseRowsAreDistinct(st.edges);
    SelectedDistinct(st, st.edges, edgeType, Some(around));
    DistinctEdgeRowsHaveDistinctIds(st.edges, rows);
  }

  /** The views of such rows keep those facts, and list only endpoints that
    * have a node row. */
  lemma ViewsOfRows(st: Store, rows: seq<EdgeRow>, edgeType: Option<string>, around: string, limit: int)
    requires (limit >= 0 ==> |rows| <= limit) &&
      (forall i :: 0 <= i < |rows| ==> Touches(st.connections, rows[i].id, around)) &&
      (edgeType.Some? && edgeType.value != "" ==> forall i :: 0 <= i < |rows| ==> rows[i].edgeType == edgeType.value) &&
      (forall i, j :: 0 <= i < j < |rows| ==> rows[i].id != rows[j].id && rows[i].createdTs >= rows[j].createdTs)
    ensures var r := Views(st, rows);
      (limit >= 0 ==> |r| <= limit) &&
      (forall i :: 0 <= i < |r| ==> Touches(st.connections, r[i].id, around)) &&
      (edgeType.Some? && edgeType.value != "" ==> forall i :: 0 <= i < |r| ==> r[i].edgeType == edgeType.value) &&
      (forall i, j :: 0 <= i < j < |r| ==> r[i].id != r[j].id && r[i].createdTs >= r[j].createdTs) &&
      (forall i :: 0 <= i < |r| ==> forall x :: x in r[i].sourceIds || x in r[i].targetIds ==> FindNode(st.nodes, x).Some?)
  {
  }

  lemma DenseRowsAreDistinct(edges: seq<EdgeRow>)
    requires DenseEdgeIds(edges)
    ensures NoDuplicates(edges)
  {
    forall i, j | 0 <= i < j < |edges| ensures edges[i] != edges[j] {
      assert edges[i].id == i + 1 && edges[j].id == j + 1;
    }
  }

  /** Distinct rows drawn from the edge table have distinct ids. */
  lemma DistinctEdgeRowsHaveDistinctIds(edges: seq<EdgeRow>, rows: seq<EdgeRow>)
    requires DenseEdgeIds(edges) && NoDuplicates(rows)
    requires forall e :: e in rows ==> e in edges
    ensures forall i, j :: 0 <= i < j < |rows| ==> rows[i].id != rows[j].id
  {
    forall i, j | 0 <= i < j < |rows| ensures rows[i].id != rows[j].id {
      assert rows[i] in edges && rows[j] in edges;
      var p :| 0 <= p < |edges| && edges[p] == rows[i];
      var q :| 0 <= q < |edges| && edges[q] == rows[j];
      assert p != q;
    }
  }

  // ----- Path search -------------------------------------------------------

  /** An element of a path: the start marker `{"id": start_id}`, a node row
    * or an edge. */
  datatype PathItem = StartItem(startId: string) | NodeItem(node: NodeRow) | EdgeItem(edge: EdgeView)

  type Path = seq<PathItem>

  /** `path[-1][0]["id"]` for a path that ends in a node. */
  function LastId(p: Path): string {
    if p == [] then ""
    else match p[|p| - 1]
      case StartItem(id) => id
      case NodeItem(n) => n.id
      case EdgeItem(_) => ""
  }

  /** The search state of one depth: the visited edge ids, the paths that
    * reached the end node and the frontier for the next depth. */
  datatype Level = Level(visited: set<int>, found: seq<Path>, next: seq<Path>)

  /** `_get_connected_edges(node_id, is_source)`: the edges around the node,
    * whichever side it is on. */
  function Around(st: Store, nodeId: string): seq<EdgeView> {
    EdgesQuery(st, None, Some(nodeId), DefaultLimit)
  }

  /** What the search reads of the store: the node rows and the edges
    * around each node. */
  datatype Graph = Graph(nodes: seq<NodeRow>, adj: string -> seq<EdgeView>)

  function GraphOf(st: Store): Graph {
    Graph(st.nodes, id => Around(st, id))
  }

  /** The inner loop over an edge's endpoint ids: each id with a node row
    * extends the path by the edge and that node. */
  function Extend(g: Graph, path: Path, edge: EdgeView, endId: string, ids: seq<string>, acc: Level): (r: Level)
    ensures r.visited == acc.visited
    decreases |ids|
  {
    if ids == [] then acc
    else
      var acc' := match FindNode(g.nodes, ids[0])
        case None => acc
        case Some(n) =>
          var np := path + [EdgeItem(edge), NodeItem(n)];
          if ids[0] == endId then acc.(found := acc.found + [np]) else acc.(next := acc.next + [np]);
      Extend(g, path, edge, endId, ids[1..], acc')
  }

  /** The loop over the edges around a path's last node, moving to target
    * ids; an edge already visited is skipped. */
  function Forward(g: Graph, path: Path, endId: string, es: seq<EdgeView>, acc: Level): (r: Level)
    ensures acc.visited <= r.visited
    ensures forall i :: 0 <= i < |es| ==> es[i].id in r.visited
    decreases |es|
  {
    if es == [] then acc
    else if es[0].id in acc.visited then Forward(g, path, endId, es[1..], acc)
    else Forward(g, path, endId, es[1..], Extend(g, path, es[0], endId, es[0].targetIds, acc.(visited := acc.visited + {es[0].id})))
  }

  /** The second loop over the same edges, moving to source ids. */
  function Backward(g: Graph, path: Path, endId: string, es: seq<EdgeView>, acc: Level): (r: Level)
    ensures acc.visited <= r.visited
    ensures forall i :: 0 <= i < |es| ==> es[i].id in r.visited
    decreases |es|
  {
    if es == [] then acc
    else if es[0].id in acc.visited then Backward(g, path, endId, es[1..], acc)
    else Backward(g, path, endId, es[1..], Extend(g, path, es[0], endId, es[0].sourceIds, acc.(visited := acc.visited + {es[0].id})))
  }

  /** One depth of the search: both loops for every path of the frontier. */
  function ExpandAll(g: Graph, endId: string, paths: seq<Path>, acc: Level): (r: Level)
    ensures acc.visited <= r.visited
    decreases |paths|
  {
    if paths == [] then acc
    else
      var es := g.adj(LastId(paths[0]));
      ExpandAll(g, endId, paths[1..], Backward(g, paths[0], endId, es, Forward(g, paths[0], endId, es, acc)))
  }

  /** The depth loop: stop with the paths found at the first depth that
    * found any, or with none when the frontier empties or the depth runs out. */
  function Search(g: Graph, endId: string, paths: seq<Path>, visited: set<int>, depth: int): seq<Path>
    decreases depth
  {
    if depth <= 0 then []
    else
      var l := ExpandAll(g, endId, paths, Level(visited, [], []));
      if l.found != [] then l.found
      else if l.next == [] then []
      else Search(g, endId, l.next, l.visited, depth - 1)
  }

  /** One round of the search: expand the level, stop on a hit or a dead end. */
  lemma SearchUnfold(g: Graph, endId: string, paths: seq<Path>, visited: set<int>, depth: int, l: Level)
    requires depth > 0
    requires l == ExpandAll(g, endId, paths, Level(visited, [], []))
    ensures l.found != [] ==> Search(g, endId, paths, visited, depth) == l.found
    ensures l.found == [] && l.next == [] ==> Search(g, endId, paths, visited, depth) == []
    ensures l.found == [] && l.next != [] ==> Search(g, endId, paths, visited, depth) == Search(g, endId, l.next, l.visited, depth - 1)
  {
  }

  /** `find_paths(start_id, end_id, max_depth)` */
  function PathsBetween(st: Store, startId: string, endId: string, maxDepth: int): seq<Path> {
    Search(GraphOf(st), endId, [[StartItem(startId)]], {}, maxDepth)
  }

  /** The reverse loop finds every edge already visited by the forward loop
    * over the same list, so it never changes the search state. */
  lemma {:induction false} BackwardIsIdle(g: Graph, path: Path, endId: string, es: seq<EdgeView>, acc: Level)
    requires forall i :: 0 <= i < |es| ==> es[i].id in acc.visited
    ensures Backward(g, path, endId, es, acc) == acc
    decreases |es|
  {
    if es != [] {
      BackwardIsIdle(g, path, endId, es[1..], acc);
    }
  }

  /** One depth of the search without the reverse loop. */
  function ForwardAll(g: Graph, endId: string, paths: seq<Path>, acc: Level): Level
    decreases |paths|
  {
    if paths == [] then acc
    else ForwardAll(g, endId, paths[1..], Forward(g, paths[0], endId, g.adj(LastId(paths[0])), acc))
  }

  /** Traversal only follows edges from a node to their targets: dropping
    * the reverse loop changes nothing. */
  lemma {:induction false} OnlyForwardMoves(g: Graph, endId: string, paths: seq<Path>, acc: Level)
    ensures ExpandAll(g, endId, paths, acc) == ForwardAll(g, endId, paths, acc)
    decreases |paths|
  {
    if paths != [] {
      var es := g.adj(LastId(paths[0]));
      BackwardIsIdle(g, paths[0], endId, es, Forward(g, paths[0], endId, es, acc));
      OnlyForwardMoves(g, endId, paths[1..], Forward(g, paths[0], endId, es, acc));
    }
  }

  /** A step from node `fromId` along an edge around it to one of the edge's
    * targets that has a node row. */
  predicate Step(g: Graph, fromId: string, e: EdgeView, n: NodeRow) {
    e in g.adj(fromId) && n.id in e.targetIds && FindNode(g.nodes, n.id) == Some(n)
  }

  /** A path from `startId`: the start marker followed by edge/node steps. */
  predicate IsPath(g: Graph, startId: string, p: Path)
    decreases |p|
  {
    if |p| <= 1 then p == [StartItem(startId)]
    else |p| >= 3 && IsPath(g, startId, p[..|p| - 2]) && p[|p| - 2].EdgeItem? && p[|p| - 1].NodeItem? &&
         Step(g, LastId(p[..|p| - 2]), p[|p| - 2].edge, p[|p| - 1].node)
  }

  /** Every found path ends at `endId`, and every found and frontier path is
    * a path from `startId` of length `len`. */
  predicate Sound(g: Graph, startId: string, endId: string, len: nat, l: Level) {
    (forall i :: 0 <= i < |l.found| ==> IsPath(g, startId, l.found[i]) && |l.found[i]| == len && LastId(l.found[i]) == endId) &&
    (forall i :: 0 <= i < |l.next| ==> IsPath(g, startId, l.next[i]) && |l.next[i]| == len)
  }

  lemma ExtendedPath(g: Graph, startId: string, path: Path, e: EdgeView, n: NodeRow)
    requires IsPath(g, startId, path) && Step(g, LastId(path), e, n)
    ensures IsPath(g, startId, path + [EdgeItem(e), NodeItem(n)])
    ensures LastId(path + [EdgeItem(e), NodeItem(n)]) == n.id
  {
    var np := path + [EdgeItem(e), NodeItem(n)];
    assert np[..|np| - 2] == path;
  }

  lemma {:induction false} ExtendSound(g: Graph, startId: string, path: Path, e: EdgeView, endId: string, ids: seq<string>, acc: Level)
    requires IsPath(g, startId, path) && e in g.adj(LastId(path))
    requires forall i :: 0 <= i < |ids| ==> ids[i] in e.targetIds
    requires Sound(g, startId, endId, |path| + 2, acc)
    ensures Sound(g, startId, endId, |path| + 2, Extend(g, path, e, endId, ids, acc))
    decreases |ids|
  {
    if ids != [] {
      var acc' := match FindNode(g.nodes, ids[0])
        case None => acc
        case Some(n) =>
          var np := path + [EdgeItem(e), NodeItem(n)];
          if ids[0] == endId then acc.(found := acc.found + [np]) else acc.(next := acc.next + [np]);
      if FindNode(g.nodes, ids[0]).Some? {
        ExtendedPath(g, startId, path, e, FindNode(g.nodes, ids[0]).value);
      }
      assert Sound(g, startId, endId, |path| + 2, acc');
      ExtendSound(g, startId, path, e, endId, ids[1..], acc');
    }
  }

  lemma {:induction false} ForwardSound(g: Graph, startId: string, path: Path, endId: string, es: seq<EdgeView>, acc: Level)
    requires IsPath(g, startId, path)
    requires forall i :: 0 <= i < |es| ==> es[i] in g.adj(LastId(path))
    requires Sound(g, startId, endId, |path| + 2, acc)
    ensures Sound(g, startId, endId, |path| + 2, Forward(g, path, endId, es, acc))
    decreases |es|
  {
    if es != [] {
      if es[0].id in acc.visited {
        ForwardSound(g, startId, path, endId, es[1..], acc);
      } else {
        var acc' := acc.(visited := acc.visited + {es[0].id});
        ExtendSound(g, startId, path, es[0], endId, es[0].targetIds, acc');
        ForwardSound(g, startId, path, endId, es[1..], Extend(g, path, es[0], endId, es[0].targetIds, acc'));
      }
    }
  }

  lemma {:induction false} ForwardAllSound(g: Graph, startId: string, endId: string, len: nat, paths: seq<Path>, acc: Level)
    requires forall i :: 0 <= i < |paths| ==> IsPath(g, startId, paths[i]) && |paths[i]| == len
    requires Sound(g, startId, endId, len + 2, acc)
    ensures Sound(g, startId, endId, len + 2, ForwardAll(g, endId, paths, acc))
    decreases |paths|
  {
    if paths != [] {
      var es := g.adj(LastId(paths[0]));
      ForwardSound(g, startId, paths[0], endId, es, acc);
      ForwardAllSound(g, startId, endId, len, paths[1..], Forward(g, paths[0], endId, es, acc));
    }
  }

  /** Paths from `startId` that all end at `endId` and have one length. */
  predicate SameLengthPathsTo(g: Graph, startId: string, endId: string, r: seq<Path>) {
    forall i :: 0 <= i < |r| ==> IsPath(g, startId, r[i]) && LastId(r[i]) == endId && |r[i]| == |r[0]|
  }

  lemma {:induction false} SearchSound(g: Graph, startId: string, endId: string, len: nat, paths: seq<Path>, visited: set<int>, depth: int)
    requires forall i :: 0 <= i < |paths| ==> IsPath(g, startId, paths[i]) && |paths[i]| == len
    ensures SameLengthPathsTo(g, startId, endId, Search(g, endId, paths, visited, depth))
    decreases depth
  {
    if depth > 0 {
      var l := ExpandAll(g, endId, paths, Level(visited, [], []));
      OnlyForwardMoves(g, endId, paths, Level(visited, [], []));
      ForwardAllSound(g, startId, endId, len, paths, Level(visited, [], []));
      if l.found == [] && l.next != [] {
        assert Search(g, endId, paths, visited, depth) == Search(g, endId, l.next, l.visited, depth - 1);
        SearchSound(g, startId, endId, len + 2, l.next, l.visited, depth - 1);
      }
    }
  }

  /** `find_paths` returns paths from the start node that all end at the
    * end node and all have the same number of hops: those of the first
    * depth at which any reached it. A depth bound below 1 finds nothing. */
  lemma PathsBetweenAreShortestFound(st: Store, startId: string, endId: string, maxDepth: int)
    ensures SameLengthPathsTo(GraphOf(st), startId, endId, PathsBetween(st, startId, endId, maxDepth))
    ensures maxDepth <= 0 ==> PathsBetween(st, startId, endId, maxDepth) == []
  {
    var g := GraphOf(st);
    assert IsPath(g, startId, [StartItem(startId)]);
    SearchSound(g, startId, endId, 1, [[StartItem(startId)]], {}, maxDepth);
  }

  function Elems(x: seq<int>): set<int> {
    set i | 0 <= i < |x| :: x[i]
  }

  lemma ElemsCons(a: int, t: seq<int>)
    ensures Elems([a] + t) == {a} + Elems(t)
  {
    var x := [a] + t;
    assert x[0] == a;
    forall v | v in Elems(x) ensures v in {a} + Elems(t) {
      var i :| 0 <= i < |x| && x[i] == v;
      if i > 0 { assert t[i - 1] == v; }
    }
    forall v | v in Elems(t) ensures v in Elems(x) {
      var i :| 0 <= i < |t| && t[i] == v;
      assert x[i + 1] == v;
    }
  }

  /** The edge ids the forward loop expands, in order: each id not yet
    * visited, once. */
  function Expanded(es: seq<EdgeView>, visited: set<int>): seq<int>
    decreases |es|
  {
    if es == [] then []
    else if es[0].id in visited then Expanded(es[1..], visited)
    else [es[0].id] + Expanded(es[1..], visited + {es[0].id})
  }

  lemma {:induction false} ExpandedFacts(g: Graph, path: Path, endId: string, es: seq<EdgeView>, acc: Level)
    ensures var x := Expanded(es, acc.visited);
      NoDuplicates(x) && (forall i :: 0 <= i < |x| ==> x[i] !in acc.visited) &&
      Forward(g, path, endId, es, acc).visited == acc.visited + Elems(x)
    decreases |es|
  {
    if es != [] {
      if es[0].id in acc.visited {
        ExpandedFacts(g, path, endId, es[1..], acc);
      } else {
        var acc' := acc.(visited := acc.visited + {es[0].id});
        var acc'' := Extend(g, path, es[0], endId, es[0].targetIds, acc');
        ExpandedFacts(g, path, endId, es[1..], acc'');
        var x := Expanded(es, acc.visited);
        var t := Expanded(es[1..], acc''.visited);
        assert x == [es[0].id] + t;
        ElemsCons(es[0].id, t);
      }
    }
  }

  /** The edge ids one depth of the search expands, in order. */
  function ExpandedAll(g: Graph, endId: string, paths: seq<Path>, acc: Level): seq<int>
    decreases |paths|
  {
    if paths == [] then []
    else
      var es := g.adj(LastId(paths[0]));
      Expanded(es, acc.visited) + ExpandedAll(g, endId, paths[1..], Forward(g, paths[0], endId, es, acc))
  }

  lemma ConcatDistinct(a: seq<int>, b: seq<int>, v: set<int>)
    requires NoDuplicates(a) && NoDuplicates(b)
    requires forall i :: 0 <= i < |a| ==> a[i] !in v
    requires forall i :: 0 <= i < |b| ==> b[i] !in v + Elems(a)
    ensures NoDuplicates(a + b) && forall i :: 0 <= i < |a + b| ==> (a + b)[i] !in v
    ensures Elems(a + b) == Elems(a) + Elems(b)
  {
    var ab := a + b;
    forall i, j | 0 <= i < j < |ab| ensures ab[i] != ab[j] {
      if i < |a| && j >= |a| {
        assert ab[i] in Elems(a);
        assert ab[j] == b[j - |a|];
      }
    }
    forall x | x in Elems(ab) ensures x in Elems(a) + Elems(b) {
      var i :| 0 <= i < |ab| && ab[i] == x;
      if i >= |a| { assert b[i - |a|] == x; }
    }
    forall x | x in Elems(a) + Elems(b) ensures x in Elems(ab) {
      if x in Elems(a) {
        var i :| 0 <= i < |a| && a[i] == x;
        assert ab[i] == x;
      } else {
        var i :| 0 <= i < |b| && b[i] == x;
        assert ab[i + |a|] == x;
      }
    }
  }

  /** Within one depth no edge is expanded twice, none visited at an earlier
    * depth is expanded again, and the visited set grows by exactly the
    * expanded edges. */
  lemma {:induction false} ExpandedAllFacts(g: Graph, endId: string, paths: seq<Path>, acc: Level)
    ensures var x := ExpandedAll(g, endId, paths, acc);
      NoDuplicates(x) && (forall i :: 0 <= i < |x| ==> x[i] !in acc.visited) &&
      ForwardAll(g, endId, paths, acc).visited == acc.visited + Elems(x)
    decreases |paths|
  {
    if paths != [] {
      var es := g.adj(LastId(paths[0]));
      var acc' := Forward(g, paths[0], endId, es, acc);
      ExpandedFacts(g, paths[0], endId, es, acc);
      ExpandedAllFacts(g, endId, paths[1..], acc');
      ConcatDistinct(Expanded(es, acc.visited), ExpandedAll(g, endId, paths[1..], acc'), acc.visited);
    }
  }

  /** The edge ids the whole search expands, depth after depth. */
  function SearchExpanded(g: Graph, endId: string, paths: seq<Path>, visited: set<int>, depth: int): seq<int>
    decreases depth
  {
    if depth <= 0 then []
    else
      var l := ExpandAll(g, endId, paths, Level(visited, [], []));
      ExpandedAll(g, endId, paths, Level(visited, [], [])) +
        (if l.found != [] || l.next == [] then [] else SearchExpanded(g, endId, l.next, l.visited, depth - 1))
  }

  /** Each edge is expanded at most once per search. */
  lemma {:induction false} EachEdgeExpandedOnce(g: Graph, endId: string, paths: seq<Path>, visited: set<int>, depth: int)
    ensures var x := SearchExpanded(g, endId, paths, visited, depth);
      NoDuplicates(x) && forall i :: 0 <= i < |x| ==> x[i] !in visited
    decreases depth
  {
    if depth > 0 {
      var l0 := Level(visited, [], []);
      var l := ExpandAll(g, endId, paths, l0);
      OnlyForwardMoves(g, endId, paths, l0);
      ExpandedAllFacts(g, endId, paths, l0);
      var x := ExpandedAll(g, endId, paths, l0);
      if l.found != [] || l.next == [] {
        assert SearchExpanded(g, endId, paths, visited, depth) == x + [];
        ConcatDistinct(x, [], visited);
      } else {
        EachEdgeExpandedOnce(g, endId, l.next, l.visited, depth - 1);
        ConcatDistinct(x, SearchExpanded(g, endId, l.next, l.visited, depth - 1), visited);
      }
    }
  }

  // ----- The store ---------------------------------------------------------

  /** rows appended by `add_edge` for the sources, then for the targets. */
  function EdgeConnections(connections: seq<Connection>, edgeId: int, sourceIds: seq<string>, targetIds: seq<string>): (seq<Connection>, bool) {
    var s := Connect(connections, edgeId, sourceIds, true);
    if !s.1 then s else Connect(s.0, edgeId, targetIds, false)
  }

  lemma {:induction false} ConnectKeepsWellFormed(connections: seq<Connection>, edgeId: int, ids: seq<string>, isSource: bool, n: int)
    requires WellFormedConnections(connections, n) && 1 <= edgeId <= n
    ensures WellFormedConnections(Connect(connections, edgeId, ids, isSource).0, n)
    decreases |ids|
  {
    if ids != [] && !HasRow(connections, Connection(edgeId, ids[0], isSource)) {
      var x := Connection(edgeId, ids[0], isSource);
      var c' := connections + [x];
      forall i, j | 0 <= i < j < |c'| ensures !SameRow(c', i, j) {
        if j < |connections| {
          assert !SameRow(connections, i, j);
        } else {
          assert c'[i] == connections[i] && c'[j] == x;
        }
      }
      assert WellFormedConnections(c', n);
      ConnectKeepsWellFormed(c', edgeId, ids[1..], isSource, n);
    }
  }

  lemma OldRowsBelongToOldEdges(connections: seq<Connection>, n: int, x: string, isSource: bool)
    requires WellFormedConnections(connections, n)
    ensures !HasRow(connections, Connection(n + 1, x, isSource))
  {
  }

  /** A fresh edge whose endpoint lists have no repeats gets one row per
    * listed source (flag 1) and then per listed target (flag 0); a repeat
    * makes the insert raise. */
  lemma EdgeConnectionsFresh(connections: seq<Connection>, n: int, sourceIds: seq<string>, targetIds: seq<string>)
    requires WellFormedConnections(connections, n)
    ensures EdgeConnections(connections, n + 1, sourceIds, targetIds).1 <==> NoDuplicates(sourceIds) && NoDuplicates(targetIds)
    ensures NoDuplicates(sourceIds) && NoDuplicates(targetIds) ==>
      EdgeConnections(connections, n + 1, sourceIds, targetIds).0 ==
        connections + ConnectionsFor(n + 1, sourceIds, true) + ConnectionsFor(n + 1, targetIds, false)
  {
    forall k | 0 <= k < |sourceIds| ensures !HasRow(connections, Connection(n + 1, sourceIds[k], true)) {
      OldRowsBelongToOldEdges(connections, n, sourceIds[k], true);
    }
    if !NoDuplicates(sourceIds) {
      var i, j :| 0 <= i < j < |sourceIds| && sourceIds[i] == sourceIds[j];
      ConnectRejectsRepeat(connections, n + 1, sourceIds, true, i, j);
    } else {
      ConnectFresh(connections, n + 1, sourceIds, true);
      var s := connections + ConnectionsFor(n + 1, sourceIds, true);
      forall k | 0 <= k < |targetIds| ensures !HasRow(s, Connection(n + 1, targetIds[k], false)) {
        OldRowsBelongToOldEdges(connections, n, targetIds[k], false);
        assert forall c :: c in ConnectionsFor(n + 1, sourceIds, true) ==> c.isSource;
      }
      if !NoDuplicates(targetIds) {
        var i, j :| 0 <= i < j < |targetIds| && targetIds[i] == targetIds[j];
        ConnectRejectsRepeat(s, n + 1, targetIds, false, i, j);
      } else {
        ConnectFresh(s, n + 1, targetIds, false);
      }
    }
  }

  /** Why SQLite refuses a node label: the column is `label TEXT NOT NULL`,
    * so None violates the constraint, and a list or a dictionary cannot be
    * bound as a parameter at all. */
  function LabelError(nodeLabel: Value): (r: Option<PyError>)
    ensures r.Some? <==> nodeLabel.VNone? || nodeLabel.VList? || nodeLabel.VDict?
    ensures nodeLabel.VNone? ==> r == Some(IntegrityError)
    ensures nodeLabel.VStr? ==> r == None
  {
    match nodeLabel
    case VNone => Some(IntegrityError)
    case VList(_) => Some(BindingError)
    case VDict(_) => Some(BindingError)
    case _ => None
  }

  /** `Hypergraph`: the three tables of one database. */
  class Hypergraph {
    var nodes: seq<NodeRow>
    var edges: seq<EdgeRow>
    var connections: seq<Connection>

    function Tables(): Store
      reads this
    {
      Store(nodes, edges, connections)
    }

    predicate Valid()
      reads this
    {
      WellFormed(Tables())
    }

    /** A new, empty database. */
    constructor ()
      ensures Tables() == Store([], [], []) && Valid()
    {
      nodes := [];
      edges := [];
      connections := [];
    }

    /** `add_node(item_id, label, layer, payload)` at time `now`. */
    method AddNode(itemId: string, nodeLabel: Value, layer: string, payload: Value, now: int) returns (r: Result<string>)
      requires Valid()
      modifies this
      ensures LabelError(nodeLabel).Some? ==> r == Err(LabelError(nodeLabel).value) && nodes == old(nodes)
      ensures LabelError(nodeLabel).None? ==>
        r == Ok(itemId) && nodes == UpsertNode(old(nodes), itemId, nodeLabel, layer, payload, now)
      ensures edges == old(edges) && connections == old(connections)
      ensures Valid()
    {
      var refused := LabelError(nodeLabel);
      if refused.Some? {
        return Err(refused.value);
      }
      UpsertKeepsIdsUnique(nodes, itemId, nodeLabel, layer, payload, now);
      var present := FindNode(nodes, itemId).Some?;
      if present {
        nodes := UpsertNode(nodes, itemId, nodeLabel, layer, payload, now);
      } else {
        nodes := nodes + [NodeRow(itemId, nodeLabel, layer, payload, now, now)];
      }
      return Ok(itemId);
    }

    /** `add_edge(edge_type, source_ids, target_ids, payload)` at time `now`:
      * the new edge gets the next id, then one connection row per source
      * and per target; a repeated endpoint raises IntegrityError after the
      * rows before it were written. */
    method AddEdge(edgeType: string, sourceIds: seq<string>, targetIds: seq<string>, payload: Value, now: int)
      returns (r: Result<int>)
      requires Valid()
      modifies this
      ensures nodes == old(nodes)
      ensures edges == old(edges) + [EdgeRow(|old(edges)| + 1, edgeType, payload, now)]
      ensures connections == EdgeConnections(old(connections), |old(edges)| + 1, sourceIds, targetIds).0
      ensures r == if EdgeConnections(old(connections), |old(edges)| + 1, sourceIds, targetIds).1
                   then Ok(|old(edges)| + 1) else Err(IntegrityError)
      ensures Valid()
    {
      var edgeId := |edges| + 1;
      edges := edges + [EdgeRow(edgeId, edgeType, payload, now)];
      ghost var start := connections;
      ConnectKeepsWellFormed(start, edgeId, sourceIds, true, edgeId);
      var i := 0;
      while i < |sourceIds|
        invariant 0 <= i <= |sourceIds|
        invariant nodes == old(nodes) && edges == old(edges) + [EdgeRow(edgeId, edgeType, payload, now)]
        invariant Connect(start, edgeId, sourceIds, true) == Connect(connections, edgeId, sourceIds[i..], true)
      {
        assert sourceIds[i..][1..] == sourceIds[i + 1..];
        var row := Connection(edgeId, sourceIds[i], true);
        if HasRow(connections, row) {
          return Err(IntegrityError);
        }
        connections := connections + [row];
        i := i + 1;
      }
      ghost var middle := connections;
      ConnectKeepsWellFormed(middle, edgeId, targetIds, false, edgeId);
      var j := 0;
      while j < |targetIds|
        invariant 0 <= j <= |targetIds|
        invariant nodes == old(nodes) && edges == old(edges) + [EdgeRow(edgeId, edgeType, payload, now)]
        invariant Connect(middle, edgeId, targetIds, false) == Connect(connections, edgeId, targetIds[j..], false)
      {
        assert targetIds[j..][1..] == targetIds[j + 1..];
        var row := Connection(edgeId, targetIds[j], false);
        if HasRow(connections, row) {
          return Err(IntegrityError);
        }
        connections := connections + [row];
        j := j + 1;
      }
      return Ok(edgeId);
    }

    /** One round of the loop of `get_edges`: the row's source ids, then
      * its target ids, each joined with `nodes`. */
    method ViewRow(row: EdgeRow) returns (v: EdgeView)
      ensures v == ViewOf(Tables(), row)
    {
      var sources := Endpoints(Tables(), connections, row.id, true);
      var targets := Endpoints(Tables(), connections, row.id, false);
      v := EdgeView(row.id, row.edgeType, row.payload, row.createdTs, sources, targets);
    }

    /** `get_edges(edge_type, around, limit)`: the query's rows, each with its
      * endpoint ids. */
    method GetEdges(edgeType: Option<string>, around: Option<string>, limit: int) returns (r: seq<EdgeView>)
      ensures r == EdgesQuery(Tables(), edgeType, around, limit)
    {
      var rows := EdgeRows(Tables(), edgeType, around, limit);
      r := ViewAll(rows);
    }

    /** The loop of `get_edges` over the rows the query returned. */
    method ViewAll(rows: seq<EdgeRow>) returns (r: seq<EdgeView>)
      ensures r == Views(Tables(), rows)
    {
      ghost var st := Tables();
      r := [];
      var i := 0;
      while i < |rows|
        invariant 0 <= i <= |rows|
        invariant r == Views(st, rows[..i])
      {
        var row := rows[i];
        var v := ViewRow(row);
        r := r + [v];
        assert rows[..i + 1][..i] == rows[..i];
        assert Views(st, rows[..i + 1]) == Views(st, rows[..i]) + [ViewOf(st, row)];
        i := i + 1;
      }
      assert rows[..|rows|] == rows;
    }

    /** `_get_connected_edges(node_id, is_source)`: `is_source` is ignored. */
    method ConnectedEdges(nodeId: string, isSource: bool) returns (r: seq<EdgeView>)
      ensures r == Around(Tables(), nodeId)
    {
      r := GetEdges(None, Some(nodeId), DefaultLimit);
    }

    /** The loop over one edge's endpoint ids in `find_paths`. */
    method ExtendBy(path: Path, edge: EdgeView, endId: string, ids: seq<string>, acc: Level) returns (l: Level)
      ensures l == Extend(GraphOf(Tables()), path, edge, endId, ids, acc)
    {
      l := acc;
      var i := 0;
      while i < |ids|
        invariant 0 <= i <= |ids|
        invariant Extend(GraphOf(Tables()), path, edge, endId, ids, acc) == Extend(GraphOf(Tables()), path, edge, endId, ids[i..], l)
      {
        assert ids[i..][1..] == ids[i + 1..];
        var id := ids[i];
        var node := FindNode(nodes, id);
        if node.Some? {
          var newPath := path + [EdgeItem(edge), NodeItem(node.value)];
          if id == endId {
            l := l.(found := l.found + [newPath]);
          } else {
            l := l.(next := l.next + [newPath]);
          }
        }
        i := i + 1;
      }
    }

    /** The loop over the edges out of a path's last node. */
    method FollowOut(path: Path, endId: string, es: seq<EdgeView>, acc: Level) returns (l: Level)
      ensures l == Forward(GraphOf(Tables()), path, endId, es, acc)
    {
      l := acc;
      var i := 0;
      while i < |es|
        invariant 0 <= i <= |es|
        invariant Forward(GraphOf(Tables()), path, endId, es, acc) == Forward(GraphOf(Tables()), path, endId, es[i..], l)
      {
        assert es[i..][1..] == es[i + 1..];
        var edge := es[i];
        if edge.id !in l.visited {
          l := l.(visited := l.visited + {edge.id});
          l := ExtendBy(path, edge, endId, edge.targetIds, l);
        }
        i := i + 1;
      }
    }

    /** The loop over the edges into a path's last node. */
    method FollowIn(path: Path, endId: string, es: seq<EdgeView>, acc: Level) returns (l: Level)
      ensures l == Backward(GraphOf(Tables()), path, endId, es, acc)
    {
      l := acc;
      var i := 0;
      while i < |es|
        invariant 0 <= i <= |es|
        invariant Backward(GraphOf(Tables()), path, endId, es, acc) == Backward(GraphOf(Tables()), path, endId, es[i..], l)
      {
        assert es[i..][1..] == es[i + 1..];
        var edge := es[i];
        if edge.id !in l.visited {
          l := l.(visited := l.visited + {edge.id});
          l := ExtendBy(path, edge, endId, edge.sourceIds, l);
        }
        i := i + 1;
      }
    }

    /** One depth of `find_paths`: both loops for every frontier path. */
    method ExpandLevel(endId: string, paths: seq<Path>, visited: set<int>) returns (l: Level)
      ensures l == ExpandAll(GraphOf(Tables()), endId, paths, Level(visited, [], []))
    {
      l := Level(visited, [], []);
      var i := 0;
      while i < |paths|
        invariant 0 <= i <= |paths|
        invariant ExpandAll(GraphOf(Tables()), endId, paths, Level(visited, [], [])) == ExpandAll(GraphOf(Tables()), endId, paths[i..], l)
      {
        assert paths[i..][1..] == paths[i + 1..];
        var path := paths[i];
        var lastId := LastId(path);
        var outEdges := ConnectedEdges(lastId, true);
        l := FollowOut(path, endId, outEdges, l);
        var inEdges := ConnectedEdges(lastId, false);
        l := FollowIn(path, endId, inEdges, l);
        i := i + 1;
      }
    }

    /** `find_paths(start_id, end_id, max_depth)` */
    method FindPaths(startId: string, endId: string, maxDepth: int) returns (r: seq<Path>)
      ensures r == PathsBetween(Tables(), startId, endId, maxDepth)
    {
      r := SearchFrom(GraphOf(Tables()), endId, [[StartItem(startId)]], {}, maxDepth);
    }

    /** The depth loop of `find_paths`, from a given frontier, visited set
      * and depth bound, with its early returns. */
    method SearchFrom(ghost g: Graph, endId: string, paths0: seq<Path>, visited0: set<int>, maxDepth: int) returns (r: seq<Path>)
      requires g == GraphOf(Tables())
      ensures r == Search(g, endId, paths0, visited0, maxDepth)
    {
      var visited := visited0;
      var paths := paths0;
      var d := 0;
      while d < maxDepth
        invariant 0 <= d || maxDepth <= 0
        invariant Search(g, endId, paths0, visited0, maxDepth) == Search(g, endId, paths, visited, maxDepth - d)
      {
        var l := ExpandLevel(endId, paths, visited);
        SearchUnfold(g, endId, paths, visited, maxDepth - d, l);
        if l.found != [] {
          return l.found;
        }
        paths := l.next;
        visited := l.visited;
        if paths == [] {
          return [];
        }
        assert Search(g, endId, paths0, visited0, maxDepth) == Search(g, endId, paths, visited, maxDepth - d - 1);
        d := d + 1;
        assert maxDepth - d == maxDepth - (d - 1) - 1;
      }
      return [];
    }
  }
}
