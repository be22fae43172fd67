// The anti-amnesia count of the Anamnesis engine
// (core/memory/anamnesis_engine.py, `check_amnesia`): how many memories of
// each layer were created inside the forgetting window, and whether the
// L10 anchors (values, vows, laws) fall short of their target.
module AntiAmnesia {
  import opened Values
  import HG = HypergraphStore
  import L = Lattice

  /** The dictionary `check_amnesia()` returns. */
  datatype AmnesiaReport = AmnesiaReport(windowDays: int, totalMemories: int, byLayer: seq<(string, int)>,
                                         anchorRatio: real, anchorTarget: int, anchorCount: int,
                                         needAnchors: bool, ts: int)

  /** `[n for n in nodes if n["created_ts"] >= window_start]` */
  function Recent(nodes: seq<HG.NodeRow>, windowStart: int): (r: seq<HG.NodeRow>)
    ensures |r| <= |nodes|
    ensures forall n :: n in r <==> n in nodes && n.createdTs >= windowStart
    ensures (forall i :: 0 <= i < |nodes| ==> nodes[i].createdTs < windowStart) ==> |r| == 0
  {
    if |nodes| == 0 then []
    else
      var front := Recent(nodes[..|nodes| - 1], windowStart);
      var last := nodes[|nodes| - 1];
      assert nodes == nodes[..|nodes| - 1] + [last];
      if last.createdTs >= windowStart then front + [last] else front
  }

  /** The rows `find_nodes(layer=layer)` lists for each layer: at most 100,
    * most recently modified first. */
  function FoundRows(st: HG.Store): string -> seq<HG.NodeRow>
  {
    layer => HG.FindNodes(st, Some(layer), HG.DefaultLimit)
  }

  /** How many of the rows listed for each layer were created in the window. */
  function LayerCount(rows: string -> seq<HG.NodeRow>, windowStart: int): string -> int
  {
    layer => |Recent(rows(layer), windowStart)|
  }

  /** `now - days * 86400` */
  function WindowStart(now: int, days: int): int {
    now - days * 86400
  }

  /** `max(3, int(total * anchor_ratio))` */
  function AnchorTarget(total: int, ratio: real): (r: int)
    ensures r >= 3
  {
    var t := Trunc(total as real * ratio);
    if t >= 3 then t else 3
  }

  /** The report `check_amnesia()` makes at time `now`, with a window of
    * `days` days and the ratio `ratio`, from the rows listed for each of
    * `layers`. */
  function Report(days: int, ratio: real, now: int, layers: seq<string>, rows: string -> seq<HG.NodeRow>): AmnesiaReport
  {
    var count := LayerCount(rows, WindowStart(now, days));
    var byLayer := L.Tabulate(layers, count);
    var total := L.SumOver(layers, count);
    var anchors := match L.Lookup(byLayer, "L10") case Some(c) => c case None => 0;
    var target := AnchorTarget(total, ratio);
    AmnesiaReport(days, total, byLayer, ratio, target, anchors, anchors < target, now)
  }

  /** `check_amnesia()` on the store `st`: every layer of `LAYER_NAMES`, as
    * `find_nodes` lists it. */
  function Amnesia(st: HG.Store, days: int, ratio: real, now: int): AmnesiaReport
  {
    Report(days, ratio, now, L.LayerNames, FoundRows(st))
  }

  /** The loop of `check_amnesia()`: for each layer, the rows `rows` lists
    * for it are filtered to the window and counted. */
  method CountLayers(layers: seq<string>, rows: string -> seq<HG.NodeRow>, windowStart: int)
    returns (byLayer: seq<(string, int)>, total: int)
    ensures byLayer == L.Tabulate(layers, LayerCount(rows, windowStart))
    ensures total == L.SumOver(layers, LayerCount(rows, windowStart))
  {
    ghost var count := LayerCount(rows, windowStart);
    total := 0;
    byLayer := [];
    var i := 0;
    while i < |layers|
      invariant 0 <= i <= |layers|
      invariant byLayer == L.Tabulate(layers[..i], count)
      invariant total == L.SumOver(layers[..i], count)
    {
      var layer := layers[i];
      var inWindow := Recent(rows(layer), windowStart);
      assert layers[..i + 1][..i] == layers[..i];
      byLayer := L.Assign(byLayer, layer, |inWindow|);
      total := total + |inWindow|;
      i := i + 1;
    }
    assert layers[..|layers|] == layers;
  }

  /** `check_amnesia()` at time `now` over `layers`, with the rows `rows` lists for each. */
  method Check(days: int, ratio: real, now: int, layers: seq<string>, rows: string -> seq<HG.NodeRow>)
    returns (r: AmnesiaReport)
    ensures r == Report(days, ratio, now, layers, rows)
  {
    var byLayer, total := CountLayers(layers, rows, WindowStart(now, days));
    var anchorCount := match L.Lookup(byLayer, "L10") case Some(c) => c case None => 0;
    var anchorTarget := AnchorTarget(total, ratio);
    r := AmnesiaReport(days, total, byLayer, ratio, anchorTarget, anchorCount, anchorCount < anchorTarget, now);
  }

  lemma LayerNamesDistinct()
    ensures HG.NoDuplicates(L.LayerNames) && "L10" in L.LayerNames
  {
    assert L.LayerNames[10] == "L10";
  }

  /** The report has one count per layer, in order, and each counts only
    * the listed rows created inside the window. */
  lemma ReportLayers(days: int, ratio: real, now: int, layers: seq<string>, rows: string -> seq<HG.NodeRow>)
    requires HG.NoDuplicates(layers)
    ensures |Report(days, ratio, now, layers, rows).byLayer| == |layers|
    ensures forall i :: 0 <= i < |layers| ==>
      Report(days, ratio, now, layers, rows).byLayer[i] == (layers[i], |Recent(rows(layers[i]), WindowStart(now, days))|)
  {
    L.TabulateInOrder(layers, LayerCount(rows, WindowStart(now, days)));
  }

  /** The anchors are the L10 count, which is never more than the total. */
  lemma ReportAnchors(days: int, ratio: real, now: int, layers: seq<string>, rows: string -> seq<HG.NodeRow>)
    requires "L10" in layers
    ensures Report(days, ratio, now, layers, rows).anchorCount == |Recent(rows("L10"), WindowStart(now, days))|
    ensures 0 <= Report(days, ratio, now, layers, rows).anchorCount <= Report(days, ratio, now, layers, rows).totalMemories
  {
    var count := LayerCount(rows, WindowStart(now, days));
    L.TabulateLookup(layers, count, "L10");
    L.TermBelowSum(layers, count, "L10");
  }

  /** The target is computed from the total and is at least 3, and anchors
    * are asked for exactly when there are fewer of them than the target. */
  lemma ReportVerdict(days: int, ratio: real, now: int, layers: seq<string>, rows: string -> seq<HG.NodeRow>)
    ensures Report(days, ratio, now, layers, rows).anchorTarget ==
            AnchorTarget(Report(days, ratio, now, layers, rows).totalMemories, ratio)
    ensures Report(days, ratio, now, layers, rows).anchorTarget >= 3
    ensures Report(days, ratio, now, layers, rows).needAnchors <==>
            Report(days, ratio, now, layers, rows).anchorCount < Report(days, ratio, now, layers, rows).anchorTarget
  {
  }

  /** The target is the ratio's share of the total, truncated, but never below 3. */
  lemma AnchorTargetIsShare(total: int, ratio: real)
    ensures AnchorTarget(total, ratio) >= 3
    ensures AnchorTarget(total, ratio) >= Trunc(total as real * ratio)
    ensures 0.0 <= total as real * ratio ==> AnchorTarget(total, ratio) as real > total as real * ratio - 1.0
    ensures 3.0 <= total as real * ratio ==> AnchorTarget(total, ratio) as real <= total as real * ratio
  {
  }

  /** Layers whose listed rows all predate the window add up to 0. */
  lemma {:induction false} NoneRecent(layers: seq<string>, rows: string -> seq<HG.NodeRow>, windowStart: int)
    requires forall k, i :: k in layers && 0 <= i < |rows(k)| ==> rows(k)[i].createdTs < windowStart
    ensures L.SumOver(layers, LayerCount(rows, windowStart)) == 0
  {
    if |layers| > 0 {
      var last := layers[|layers| - 1];
      assert last in layers;
      NoneRecent(layers[..|layers| - 1], rows, windowStart);
    }
  }

  /** A store with nothing created in the window always asks for anchors. */
  lemma EmptyWindowNeedsAnchors(st: HG.Store, days: int, ratio: real, now: int)
    requires forall n :: n in st.nodes ==> n.createdTs < WindowStart(now, days)
    ensures Amnesia(st, days, ratio, now).totalMemories == 0
    ensures Amnesia(st, days, ratio, now).needAnchors
  {
    var rows := FoundRows(st);
    forall k, i | k in L.LayerNames && 0 <= i < |rows(k)| ensures rows(k)[i].createdTs < WindowStart(now, days) {
      assert rows(k)[i] in HG.FindNodes(st, Some(k), HG.DefaultLimit);
    }
    NoneRecent(L.LayerNames, rows, WindowStart(now, days));
    LayerNamesDistinct();
    ReportAnchors(days, ratio, now, L.LayerNames, rows);
    ReportVerdict(days, ratio, now, L.LayerNames, rows);
  }
}
