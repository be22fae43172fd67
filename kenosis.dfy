// The kenosis index (core/metrics/kenosis.py): repair follow-through,
// rollback readiness and de-escalation, read from recent ledger rows. The
// rows `iter_ledger_recent` yields and the number of harm_repair edges
// `get_edges` returns are inputs, and so is `str()` on a payload.
module Kenosis {
  import opened Values

  /** One ledger row as `compute` reads it. */
  datatype LedgerRow = LedgerRow(kind: string, payload: Value)

  /** The counters of the scan. */
  datatype Counts = Counts(harms: nat, rbReady: nat, deesc: nat, decisions: nat)

  const NoCounts := Counts(0, 0, 0, 0)

  /** `KenosisSnapshot` */
  datatype KenosisSnapshot = KenosisSnapshot(k: real, components: Dict, notes: string)

  const KenosisNotes := "Kenosis from repair follow-through, rollback readiness, de-escalation."

  /** `row["payload"] or {}` */
  function PayloadOf(row: LedgerRow): Value {
    if Truthy(row.payload) then row.payload else VDict([])
  }

  /** `payload.get(k)` on a dictionary; any other object has no `get`. */
  function PayloadGet(payload: Value, k: string): (r: Result<Value>)
    ensures r.Err? <==> !payload.VDict?
  {
    match payload
    case VDict(d) => Ok(GetOr(d, k, VNone))
    case _ => Err(AttributeError("get"))
  }

  /** Whether a decision's payload mentions de-escalation, as
    * `str(pay).lower().find("de-escalat") >= 0`. */
  predicate DeEscalates(repr: Value -> string, payload: Value) {
    Contains(Lower(repr(payload)), "de-escalat")
  }

  /** One pass of the loop body. */
  function Step(c: Counts, row: LedgerRow, repr: Value -> string): (r: Result<Counts>)
    ensures r.Err? <==> row.kind == "externality_assessment" && !PayloadOf(row).VDict?
  {
    if row.kind == "harm_event" then Ok(c.(harms := c.harms + 1))
    else if row.kind == "externality_assessment" then
      var ready :- PayloadGet(PayloadOf(row), "rollback_ready");
      Ok(if Truthy(ready) then c.(rbReady := c.rbReady + 1) else c)
    else if row.kind == "decision" then
      var c' := c.(decisions := c.decisions + 1);
      Ok(if DeEscalates(repr, PayloadOf(row)) then c'.(deesc := c'.deesc + 1) else c')
    else Ok(c)
  }

  /** The counters after scanning `rows` from `c`, stopping at the first
    * row that raises. */
  function Tally(c: Counts, rows: seq<LedgerRow>, repr: Value -> string): Result<Counts>
    decreases |rows|
  {
    if rows == [] then Ok(c)
    else
      var c' :- Step(c, rows[0], repr);
      Tally(c', rows[1..], repr)
  }

  /** How many rows have the given kind. */
  function CountKind(rows: seq<LedgerRow>, kind: string): nat {
    if rows == [] then 0 else (if rows[0].kind == kind then 1 else 0) + CountKind(rows[1..], kind)
  }

  /** A row raises only for an externality assessment whose payload is a
    * truthy non-dictionary. */
  predicate BadRow(row: LedgerRow) {
    row.kind == "externality_assessment" && !PayloadOf(row).VDict?
  }

  /** A row moves at most one of the harm, rollback and decision counters,
    * by at most one, chosen by its kind; de-escalation moves only with a
    * decision. */
  lemma StepMovesOneCounter(c: Counts, row: LedgerRow, repr: Value -> string)
    requires Step(c, row, repr).Ok?
    ensures var c' := Step(c, row, repr).value;
      c'.harms == c.harms + (if row.kind == "harm_event" then 1 else 0) &&
      c'.decisions == c.decisions + (if row.kind == "decision" then 1 else 0) &&
      c.rbReady <= c'.rbReady <= c.rbReady + (if row.kind == "externality_assessment" then 1 else 0) &&
      c.deesc <= c'.deesc <= c.deesc + (if row.kind == "decision" then 1 else 0) &&
      (c'.deesc == c.deesc + 1 <==> row.kind == "decision" && DeEscalates(repr, PayloadOf(row)))
  {
  }

  /** The scan counts every harm_event and decision row, never more
    * rollbacks than assessments nor more de-escalations than decisions,
    * and raises exactly when some row is bad. */
  lemma {:induction false} TallyCounts(c: Counts, rows: seq<LedgerRow>, repr: Value -> string)
    ensures Tally(c, rows, repr).Err? <==> exists i :: 0 <= i < |rows| && BadRow(rows[i])
    ensures Tally(c, rows, repr).Ok? ==>
      var t := Tally(c, rows, repr).value;
      t.harms == c.harms + CountKind(rows, "harm_event") &&
      t.decisions == c.decisions + CountKind(rows, "decision") &&
      c.rbReady <= t.rbReady <= c.rbReady + CountKind(rows, "externality_assessment") &&
      c.deesc <= t.deesc <= c.deesc + CountKind(rows, "decision")
    decreases |rows|
  {
    if rows != [] {
      if Step(c, rows[0], repr).Ok? {
        StepMovesOneCounter(c, rows[0], repr);
        TallyCounts(Step(c, rows[0], repr).value, rows[1..], repr);
        assert forall i :: 1 <= i < |rows| ==> rows[i] == rows[1..][i - 1];
        if exists i :: 0 <= i < |rows| && BadRow(rows[i]) {
          var i :| 0 <= i < |rows| && BadRow(rows[i]);
          assert i > 0 && BadRow(rows[1..][i - 1]);
        }
      } else {
        assert BadRow(rows[0]);
      }
    }
  }

  /** `repairs / harms if harms else 1.0` */
  function HarmRepairRate(repairs: nat, harms: nat): (r: real)
    ensures harms == 0 ==> r == 1.0
    ensures harms > 0 ==> r * (harms as real) == repairs as real
    ensures r >= 0.0
  {
    if harms > 0 then (repairs as real) / (harms as real) else 1.0
  }

  /** `n / max(1, total_d)` */
  function PerDecision(n: nat, decisions: nat): (r: real)
    ensures r >= 0.0
    ensures decisions == 0 ==> r == n as real
    ensures n <= decisions ==> r <= 1.0
  {
    var d := if decisions >= 1 then decisions else 1;
    if n <= decisions then (RatioAtMostOne(n, d); (n as real) / (d as real))
    else (n as real) / (d as real)
  }

  lemma RatioAtMostOne(n: nat, d: nat)
    requires 0 < d && n <= d
    ensures (n as real) / (d as real) <= 1.0
  {
    var q := (n as real) / (d as real);
    assert q * (d as real) == n as real;
  }

  /** K from the counters and the repair-edge count. */
  function SnapshotFrom(c: Counts, repairs: nat): (r: KenosisSnapshot)
    ensures 0.0 <= r.k <= 1.0
    ensures forall i :: 0 <= i < |r.components| ==> r.components[i].1.VReal? && FourDecimals(r.components[i].1.r)
  {
    var hr := HarmRepairRate(repairs, c.harms);
    var rb := PerDecision(c.rbReady, c.decisions);
    var de := PerDecision(c.deesc, c.decisions);
    KenosisSnapshot(Clamp01(0.45 * hr + 0.35 * rb + 0.20 * de),
                    [("harm_repair_rate", VReal(Round4(hr))), ("rollback_density", VReal(Round4(rb))),
                     ("deescalation_rate", VReal(Round4(de)))],
                    KenosisNotes)
  }

  /** `compute()` over the rows and the repair edges. */
  function KenosisOf(rows: seq<LedgerRow>, repairEdges: nat, repr: Value -> string): (r: Result<KenosisSnapshot>)
    ensures r.Ok? ==> 0.0 <= r.value.k <= 1.0
  {
    var c :- Tally(NoCounts, rows, repr);
    Ok(SnapshotFrom(c, repairEdges))
  }

  /** `Kenosis.compute()`: the scan as a loop over the rows. */
  method Compute(rows: seq<LedgerRow>, repairEdges: nat, repr: Value -> string) returns (r: Result<KenosisSnapshot>)
    ensures r == KenosisOf(rows, repairEdges, repr)
  {
    var c := NoCounts;
    var i := 0;
    while i < |rows|
      invariant 0 <= i <= |rows|
      invariant Tally(NoCounts, rows, repr) == Tally(c, rows[i..], repr)
    {
      assert rows[i..][1..] == rows[i + 1..];
      var row := rows[i];
      if row.kind == "harm_event" {
        c := c.(harms := c.harms + 1);
      } else if row.kind == "externality_assessment" {
        var payload := PayloadOf(row);
        if !payload.VDict? {
          return Err(AttributeError("get"));
        }
        if Truthy(GetOr(payload.entries, "rollback_ready", VNone)) {
          c := c.(rbReady := c.rbReady + 1);
        }
      } else if row.kind == "decision" {
        c := c.(decisions := c.decisions + 1);
        if DeEscalates(repr, PayloadOf(row)) {
          c := c.(deesc := c.deesc + 1);
        }
      }
      i := i + 1;
    }
    return Ok(SnapshotFrom(c, repairEdges));
  }

  /** With no harm rows, no decisions and no repair edges, K is 0.45: the
    * harm-repair rate alone, at its default of 1. */
  lemma EmptyLedgerKenosis()
    ensures KenosisOf([], 0, x => "") == Ok(SnapshotFrom(NoCounts, 0))
    ensures SnapshotFrom(NoCounts, 0).k == 0.45
  {
  }

  /** Every harm repaired, every decision rollback-ready and de-escalating
    * gives K = 1. */
  lemma FullKenosis(c: Counts)
    requires c.harms > 0 && c.decisions > 0 && c.rbReady == c.decisions && c.deesc == c.decisions
    ensures SnapshotFrom(c, c.harms).k == 1.0
  {
    var h := c.harms as real;
    var d := c.decisions as real;
    assert HarmRepairRate(c.harms, c.harms) == 1.0 by {
      var q := HarmRepairRate(c.harms, c.harms);
      assert q * h == h;
    }
    assert PerDecision(c.decisions, c.decisions) == 1.0 by {
      var q := PerDecision(c.decisions, c.decisions);
      assert q * d == d;
    }
  }
}
