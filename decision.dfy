// The lexicographic decision rails (core/planner/decision_core.py): the
// consent and apophatic rails, the minimal-clean-move solver over scored
// candidates, the baseline Paradox-Gate decision and the orchestrator.
module DecisionCore {
  import opened Values
  import ApophaticGuard
  import WillKernels

  datatype Truth = T | F | B | N
  datatype Decision = Answer | Refuse | Stand

  function TruthName(t: Truth): string {
    match t
    case T => "T"
    case F => "F"
    case B => "B"
    case N => "N"
  }

  function DecisionName(d: Decision): string {
    match d
    case Answer => "Answer"
    case Refuse => "Refuse"
    case Stand => "Stand"
  }

  /** The planner's consent ticket: unlike the consent checker's, it has no
    * invocation budget. */
  datatype Ticket = Ticket(holder: string, scope: string, ttlSeconds: int, issuedAt: real, terms: Dict)

  /** `ConsentTicket.is_valid()` with the clock reading `now`. */
  predicate IsValid(t: Ticket, now: real) {
    now <= t.issuedAt + t.ttlSeconds as real
  }

  /** A ticket stays valid until its lifetime has passed: valid later means
    * valid now, it is valid when issued exactly when its lifetime is not
    * negative, and a negative lifetime makes it invalid from then on. */
  lemma ValidUntilExpiry(t: Ticket, now: real, later: real)
    requires now <= later
    ensures IsValid(t, later) ==> IsValid(t, now)
    ensures IsValid(t, t.issuedAt) <==> t.ttlSeconds >= 0
    ensures t.ttlSeconds < 0 && now >= t.issuedAt ==> !IsValid(t, now)
  {
  }

  /** `t.__dict__` */
  function TicketDict(t: Ticket): Dict {
    [("holder", VStr(t.holder)), ("scope", VStr(t.scope)), ("ttl_seconds", VInt(t.ttlSeconds)),
     ("issued_at", VReal(t.issuedAt)), ("terms", VDict(t.terms))]
  }

  datatype Action = Action(id: string, description: string, params: Dict, reversible: bool, predictedTruth: Truth)

  datatype State = State(context: Dict, stage: string, willOperator: string, tickets: seq<Ticket>, paradoxNearby: bool)

  datatype ProofBundle = ProofBundle(logic: Dict, ethics: Dict, consent: Dict, phenomenology: Dict, repairHorizon: Option<real>)

  datatype DecisionResult = DecisionResult(
    decision: Decision, chosenAction: Option<Action>, deltaE: Option<real>, grace: Option<real>,
    truth: Option<Truth>, proofs: ProofBundle, ledgerId: Option<string>)

  /** `all(t.is_valid() for t in tickets)` */
  function AllValid(tickets: seq<Ticket>, now: real): (r: bool)
    ensures r <==> forall i :: 0 <= i < |tickets| ==> IsValid(tickets[i], now)
  {
    if tickets == [] then true
    else
      assert forall i :: 1 <= i < |tickets| ==> tickets[i] == tickets[1..][i - 1];
      IsValid(tickets[0], now) && AllValid(tickets[1..], now)
  }

  /** `check_consent(state, action)`: every ticket is within its lifetime
    * (so no ticket at all passes), with the tickets as the evidence. */
  function CheckConsent(state: State, now: real): (r: (bool, Dict))
    ensures r.0 <==> forall i :: 0 <= i < |state.tickets| ==> now <= state.tickets[i].issuedAt + state.tickets[i].ttlSeconds as real
    ensures state.tickets == [] ==> r.0
    ensures Get(r.1, "tickets").Some? && Get(r.1, "tickets").value.VList?
    ensures |Get(r.1, "tickets").value.items| == |state.tickets|
  {
    var ts := state.tickets;
    (AllValid(ts, now), [("tickets", VList(seq(|ts|, i requires 0 <= i < |ts| => VDict(TicketDict(ts[i])))))])
  }

  /** `check_apophatic(state, action)`: reads `action.params`, so a missing
    * action raises AttributeError. */
  function CheckApophatic(state: State, action: Option<Action>): (r: Result<(bool, Dict)>)
    ensures action.None? ==> r == Err(AttributeError("params"))
    ensures action.Some? ==> r.Ok? && (r.value.0 <==> ApophaticGuard.Admissible(state.context, action.value.params))
    ensures r.Ok? ==> r.value.1 == [("apophatic_ok", VBool(r.value.0))]
  {
    match action
    case None => Err(AttributeError("params"))
    case Some(a) =>
      var ok := ApophaticGuard.Admissible(state.context, a.params);
      Ok((ok, [("apophatic_ok", VBool(ok))]))
  }

  /** A candidate with its shaped energy E·K, its energy E and its grace G. */
  datatype Scored = Scored(action: Action, ek: real, e: real, g: real)

  /** `E`, `K` and `G` of one candidate, in that order; of the three scorers
    * only the kernel weight can raise. */
  function Score(a: Action, energy: Action -> real, kernel: Action -> Result<real>, grace: Action -> real): Result<Scored> {
    var k :- kernel(a);
    Ok(Scored(a, energy(a) * k, energy(a), grace(a)))
  }

  /** The scoring loop over the first `n` candidates: it raises the error of
    * the first kernel weight that raises, and otherwise scores every one. */
  function ScoresOf(cs: seq<Action>, n: nat, energy: Action -> real, kernel: Action -> Result<real>, grace: Action -> real): (r: Result<seq<Scored>>)
    requires n <= |cs|
    ensures r.Ok? <==> forall i :: 0 <= i < n ==> kernel(cs[i]).Ok?
    ensures r.Ok? ==> |r.value| == n && forall i :: 0 <= i < n ==> Score(cs[i], energy, kernel, grace) == Ok(r.value[i])
    ensures r.Err? ==> exists j :: 0 <= j < n && kernel(cs[j]) == Err(r.error) && forall i :: 0 <= i < j ==> kernel(cs[i]).Ok?
  {
    if n == 0 then Ok([])
    else
      var s :- ScoresOf(cs, n - 1, energy, kernel, grace);
      var x :- Score(cs[n - 1], energy, kernel, grace);
      Ok(s + [x])
  }

  function Scores(cs: seq<Action>, energy: Action -> real, kernel: Action -> Result<real>, grace: Action -> real): Result<seq<Scored>> {
    ScoresOf(cs, |cs|, energy, kernel, grace)
  }

  /** When scoring succeeds, entry `i` is candidate `i` with its shaped
    * energy `E·K`, its energy `E` and its grace `G`. */
  lemma ScoredEntry(cs: seq<Action>, energy: Action -> real, kernel: Action -> Result<real>, grace: Action -> real, i: nat)
    requires i < |cs| && Scores(cs, energy, kernel, grace).Ok?
    ensures kernel(cs[i]).Ok?
    ensures Scores(cs, energy, kernel, grace).value[i]
              == Scored(cs[i], energy(cs[i]) * kernel(cs[i]).value, energy(cs[i]), grace(cs[i]))
  {
    assert Score(cs[i], energy, kernel, grace) == Ok(Scores(cs, energy, kernel, grace).value[i]);
  }

  /** Once the scoring loop has raised, later candidates change nothing. */
  lemma {:induction false} ScoresErrPropagates(cs: seq<Action>, n: nat, energy: Action -> real, kernel: Action -> Result<real>, grace: Action -> real)
    requires n <= |cs| && ScoresOf(cs, n, energy, kernel, grace).Err?
    ensures Scores(cs, energy, kernel, grace) == ScoresOf(cs, n, energy, kernel, grace)
    decreases |cs| - n
  {
    if n < |cs| {
      ScoresErrPropagates(cs, n + 1, energy, kernel, grace);
    }
  }

  /** The solver's order: lower E·K, then higher G, then lower E. */
  predicate Precedes(x: Scored, y: Scored) {
    x.ek < y.ek || (x.ek == y.ek && (x.g > y.g || (x.g == y.g && x.e < y.e)))
  }

  /** The fallback's order, `sort(key=(-G, E))`: higher G, then lower E. */
  predicate GraceFirst(x: Scored, y: Scored) {
    x.g > y.g || (x.g == y.g && x.e < y.e)
  }

  /** The index the selection loop holds after the first `n` candidates: a
    * candidate replaces the current best only when it strictly precedes it. */
  function BestOf(s: seq<Scored>, n: nat): (r: Option<nat>)
    requires n <= |s|
    ensures r.Some? ==> r.value < n
    ensures r.None? <==> n == 0
  {
    if n == 0 then None
    else
      var b := BestOf(s, n - 1);
      if b.None? || Precedes(s[n - 1], s[b.value]) then Some(n - 1) else b
  }

  /** The first element, after the stable sort by `(-G, E)`, of the
    * candidates among the first `n` whose E is below the threshold. */
  function FallbackOf(s: seq<Scored>, n: nat, minDeltaE: real): (r: Option<nat>)
    requires n <= |s|
    ensures r.Some? ==> r.value < n && s[r.value].e < minDeltaE
  {
    if n == 0 then None
    else
      var b := FallbackOf(s, n - 1, minDeltaE);
      if s[n - 1].e < minDeltaE && (b.None? || GraceFirst(s[n - 1], s[b.value])) then Some(n - 1) else b
  }

  /** What `minimal_clean_move` returns: nothing, or an action with its raw
    * energy and its grace. */
  datatype Move = NoMove | Move(action: Action, deltaE: real, grace: real)

  function CleanMove(s: seq<Scored>, minDeltaE: real, minGrace: real): Move {
    match BestOf(s, |s|)
    case None => NoMove
    case Some(w) =>
      if s[w].e >= minDeltaE then NoMove
      else if s[w].g < minGrace then
        match FallbackOf(s, |s|, minDeltaE)
        case None => NoMove
        case Some(v) => if s[v].g >= minGrace then Move(s[v].action, s[v].e, s[v].g) else NoMove
      else Move(s[w].action, s[w].e, s[w].g)
  }

  /** `minimal_clean_move(state, candidates)`, with the energy, kernel-weight
    * and grace scorers of the state as parameters and the two vow
    * thresholds as inputs: it raises what the first raising kernel weight
    * raises, and otherwise returns the solver's move on the scores. */
  method MinimalCleanMove(candidates: seq<Action>, energy: Action -> real, kernel: Action -> Result<real>,
                          grace: Action -> real, minDeltaE: real, minGrace: real)
    returns (m: Result<Move>)
    ensures Scores(candidates, energy, kernel, grace).Err? ==> m == Err(Scores(candidates, energy, kernel, grace).error)
    ensures Scores(candidates, energy, kernel, grace).Ok? ==>
      m == Ok(CleanMove(Scores(candidates, energy, kernel, grace).value, minDeltaE, minGrace))
  {
    var scored: seq<Scored> := [];
    for i := 0 to |candidates|
      invariant ScoresOf(candidates, i, energy, kernel, grace) == Ok(scored)
    {
      var a := candidates[i];
      var e := energy(a);
      var k := kernel(a);
      if k.Err? {
        assert ScoresOf(candidates, i + 1, energy, kernel, grace) == Err(k.error);
        ScoresErrPropagates(candidates, i + 1, energy, kernel, grace);
        return Err(k.error);
      }
      assert Score(a, energy, kernel, grace).Ok?;
      assert Score(a, energy, kernel, grace).value.ek == e * k.value;
      assert Score(a, energy, kernel, grace) == Ok(Scored(a, e * k.value, e, grace(a)));
      scored := scored + [Scored(a, e * k.value, e, grace(a))];
    }

    var best: Option<nat> := None;
    var bestEK, bestE, bestG := 0.0, 0.0, 0.0;
    for i := 0 to |scored|
      invariant best == BestOf(scored, i)
      invariant best.Some? ==> scored[best.value] == Scored(scored[best.value].action, bestEK, bestE, bestG)
    {
      var x := scored[i];
      if best.None? || x.ek < bestEK || (x.ek == bestEK && (x.g > bestG || (x.g == bestG && x.e < bestE))) {
        best, bestEK, bestE, bestG := Some(i), x.ek, x.e, x.g;
      }
    }

    if best.None? {
      return Ok(NoMove);
    }
    var deltaE := bestE;
    if deltaE >= minDeltaE {
      return Ok(NoMove);
    }
    if bestG < minGrace {
      var v := FallbackOf(scored, |scored|, minDeltaE);
      if v.Some? {
        var y := scored[v.value];
        if y.g >= minGrace {
          return Ok(Move(y.action, y.e, y.g));
        }
      }
      return Ok(NoMove);
    }
    m := Ok(Move(scored[best.value].action, deltaE, bestG));
  }

  /** `kernel_weight(state, a)`: `weight_for(state.will_operator, state, a)`
    * with the Will kernels' operator table and clamp configuration. */
  function KernelWeight(operators: map<string, Dict>, cfg: WillKernels.KernelConfig, state: State): Action -> Result<real> {
    a => WillKernels.WeightFor(operators, state.willOperator, WillKernels.KernelState(state.paradoxNearby), KernelArg(a), cfg)
  }

  /** A planner action as the kernels see it: an object with its parameters,
    * its reversibility and its predicted truth. */
  function KernelArg(a: Action): WillKernels.ActionArg {
    WillKernels.ActionObject(Some(a.params), Some(VBool(a.reversible)), Some(VStr(TruthName(a.predictedTruth))))
  }

  /** Under a will operator the kernels do not know, scoring raises KeyError
    * as soon as there is a candidate, and succeeds only on none. */
  lemma UnknownOperatorRaises(cs: seq<Action>, energy: Action -> real, grace: Action -> real,
                              operators: map<string, Dict>, cfg: WillKernels.KernelConfig, state: State)
    requires state.willOperator !in operators
    ensures Scores(cs, energy, KernelWeight(operators, cfg, state), grace)
              == if cs == [] then Ok([]) else Err(KeyError(state.willOperator))
  {
    var kernel := KernelWeight(operators, cfg, state);
    if cs != [] {
      assert kernel(cs[0]) == Err(KeyError(state.willOperator));
      var r := Scores(cs, energy, kernel, grace);
      assert r.Err?;
      var j :| 0 <= j < |cs| && kernel(cs[j]) == Err(r.error);
    }
  }

  /** With a consistent clamp, every shaped energy the solver compares is the
    * candidate's energy scaled by a weight inside the clamp interval. */
  lemma KernelWeightsClamped(cs: seq<Action>, energy: Action -> real, grace: Action -> real,
                             operators: map<string, Dict>, cfg: WillKernels.KernelConfig, state: State, i: nat)
    requires cfg.kMin <= cfg.kMax
    requires i < |cs| && Scores(cs, energy, KernelWeight(operators, cfg, state), grace).Ok?
    ensures var k := KernelWeight(operators, cfg, state)(cs[i]);
      && k.Ok? && cfg.kMin <= k.value <= cfg.kMax
      && Scores(cs, energy, KernelWeight(operators, cfg, state), grace).value[i].ek == energy(cs[i]) * k.value
  {
    ScoredEntry(cs, energy, KernelWeight(operators, cfg, state), grace, i);
    WeightWithinClamp(operators, cfg, state, cs[i]);
  }

  lemma WeightWithinClamp(operators: map<string, Dict>, cfg: WillKernels.KernelConfig, state: State, a: Action)
    requires cfg.kMin <= cfg.kMax
    ensures var k := KernelWeight(operators, cfg, state)(a); k.Ok? ==> cfg.kMin <= k.value <= cfg.kMax
  {
  }

  lemma PrecedesIsAStrictOrder(x: Scored, y: Scored, z: Scored)
    ensures !Precedes(x, x)
    ensures Precedes(x, y) && Precedes(y, z) ==> Precedes(x, z)
    ensures !Precedes(x, y) && !Precedes(y, x) ==> x.ek == y.ek && x.g == y.g && x.e == y.e
  {
  }

  lemma GraceFirstIsAStrictOrder(x: Scored, y: Scored, z: Scored)
    ensures !GraceFirst(x, x)
    ensures GraceFirst(x, y) && GraceFirst(y, z) ==> GraceFirst(x, z)
    ensures !GraceFirst(x, y) && !GraceFirst(y, x) ==> x.g == y.g && x.e == y.e
  {
  }

  /** The selection loop keeps the first candidate that no other candidate
    * precedes: the least E·K, among those the greatest G, then the least E;
    * on an exact tie the earlier candidate wins. */
  lemma {:induction false} BestOfIsFirstMinimum(s: seq<Scored>, n: nat)
    requires 0 < n <= |s|
    ensures var w := BestOf(s, n).value;
      && (forall j :: 0 <= j < n ==> !Precedes(s[j], s[w]))
      && (forall j :: 0 <= j < w ==> Precedes(s[w], s[j]))
  {
    var w := BestOf(s, n).value;
    if n > 1 {
      BestOfIsFirstMinimum(s, n - 1);
      var b := BestOf(s, n - 1).value;
      forall j | 0 <= j < n ensures !Precedes(s[j], s[w]) {
        PrecedesIsAStrictOrder(s[j], s[b], s[n - 1]);
        PrecedesIsAStrictOrder(s[j], s[n - 1], s[b]);
      }
      forall j | 0 <= j < w ensures Precedes(s[w], s[j]) {
        if w == n - 1 {
          PrecedesIsAStrictOrder(s[n - 1], s[b], s[j]);
          PrecedesIsAStrictOrder(s[j], s[b], s[n - 1]);
          PrecedesIsAStrictOrder(s[b], s[j], s[n - 1]);
        }
      }
    }
  }

  /** The fallback is the first below-threshold candidate that no other one
    * beats on (higher G, lower E), and it exists whenever one is below the
    * threshold. */
  lemma {:induction false} FallbackOfIsFirstMaxGrace(s: seq<Scored>, n: nat, minDeltaE: real)
    requires n <= |s|
    ensures FallbackOf(s, n, minDeltaE).None? <==> forall j :: 0 <= j < n ==> s[j].e >= minDeltaE
    ensures FallbackOf(s, n, minDeltaE).Some? ==>
      var v := FallbackOf(s, n, minDeltaE).value;
      && (forall j :: 0 <= j < n && s[j].e < minDeltaE ==> !GraceFirst(s[j], s[v]))
      && (forall j :: 0 <= j < v && s[j].e < minDeltaE ==> GraceFirst(s[v], s[j]))
  {
    if n > 0 {
      FallbackOfIsFirstMaxGrace(s, n - 1, minDeltaE);
      var b := FallbackOf(s, n - 1, minDeltaE);
      var r := FallbackOf(s, n, minDeltaE);
      if r.Some? {
        var v := r.value;
        forall j | 0 <= j < n && s[j].e < minDeltaE ensures !GraceFirst(s[j], s[v]) {
          if b.Some? {
            GraceFirstIsAStrictOrder(s[j], s[b.value], s[n - 1]);
            GraceFirstIsAStrictOrder(s[j], s[n - 1], s[b.value]);
          }
        }
        forall j | 0 <= j < v && s[j].e < minDeltaE ensures GraceFirst(s[v], s[j]) {
          if v == n - 1 && b.Some? {
            GraceFirstIsAStrictOrder(s[n - 1], s[b.value], s[j]);
            GraceFirstIsAStrictOrder(s[j], s[b.value], s[n - 1]);
            GraceFirstIsAStrictOrder(s[b.value], s[j], s[n - 1]);
          }
        }
      }
    }
  }

  /** Whatever the solver returns passes both thresholds and reports the raw
    * energy, not E·K; no candidates give no move. */
  lemma CleanMoveMeetsThresholds(s: seq<Scored>, minDeltaE: real, minGrace: real)
    ensures s == [] ==> CleanMove(s, minDeltaE, minGrace) == NoMove
    ensures CleanMove(s, minDeltaE, minGrace).Move? ==>
      var m := CleanMove(s, minDeltaE, minGrace);
      && m.deltaE < minDeltaE && m.grace >= minGrace
      && exists i :: 0 <= i < |s| && s[i].action == m.action && s[i].e == m.deltaE && s[i].g == m.grace
  {
    var m := CleanMove(s, minDeltaE, minGrace);
    if m.Move? {
      var w := BestOf(s, |s|).value;
      if s[w].g < minGrace {
        var v := FallbackOf(s, |s|, minDeltaE).value;
        assert s[v].action == m.action && s[v].e == m.deltaE;
      } else {
        assert s[w].action == m.action && s[w].e == m.deltaE;
      }
    }
  }

  /** When the solver's pick is too costly it returns nothing, even if a
    * lower-ranked candidate would pass both thresholds. */
  lemma CostlyWinnerBlocksTheRest(s: seq<Scored>, minDeltaE: real, minGrace: real)
    requires s != [] && s[BestOf(s, |s|).value].e >= minDeltaE
    ensures CleanMove(s, minDeltaE, minGrace) == NoMove
  {
  }

  /** The two-candidate case: a cheap-to-shape but costly candidate beats one
    * that would pass, so nothing is returned. */
  lemma CostlyWinnerExample(a: Action, b: Action)
    ensures var s := [Scored(a, 0.05, 0.2, 0.9), Scored(b, 0.36, 0.09, 0.9)];
      && CleanMove(s, 0.1, 0.5) == NoMove
      && CleanMove([s[1]], 0.1, 0.5) == Move(b, 0.09, 0.9)
  {
    var s := [Scored(a, 0.05, 0.2, 0.9), Scored(b, 0.36, 0.09, 0.9)];
    assert BestOf(s, 1) == Some(0);
    assert BestOf(s, 2) == Some(0);
    assert BestOf([s[1]], 1) == Some(0);
  }

  /** When the pick lacks grace, the fallback is the graceful-most candidate
    * below the energy threshold, and it is taken only when it has enough grace. */
  lemma FallbackWhenGraceless(s: seq<Scored>, minDeltaE: real, minGrace: real)
    requires s != []
    requires var w := BestOf(s, |s|).value; s[w].e < minDeltaE && s[w].g < minGrace
    ensures FallbackOf(s, |s|, minDeltaE).Some?
    ensures var v := FallbackOf(s, |s|, minDeltaE).value;
      && (forall j :: 0 <= j < |s| && s[j].e < minDeltaE ==> s[j].g <= s[v].g)
      && CleanMove(s, minDeltaE, minGrace) == if s[v].g >= minGrace then Move(s[v].action, s[v].e, s[v].g) else NoMove
  {
    FallbackOfIsFirstMaxGrace(s, |s|, minDeltaE);
    var w := BestOf(s, |s|).value;
    assert s[w].e < minDeltaE;
  }

  /** `pgl_decide(state, action, proofs, truth)` of the decision core. With
    * no action: Refuse when the consent or the apophatic flag of the proofs
    * is false (a missing flag counts as true), Stand otherwise. With an
    * action: T and B answer whether or not a paradox is near, N stands,
    * F refuses. */
  function PglDecide(state: State, action: Option<Action>, proofs: ProofBundle, truth: Truth): (r: Decision)
    ensures action.None? ==>
      (r == Refuse <==> !Truthy(GetOr(proofs.consent, "ok", VBool(true))) || !Truthy(GetOr(proofs.logic, "apophatic_ok", VBool(true))))
    ensures action.None? ==> r != Answer
    ensures action.Some? ==> r == (if truth == T || truth == B then Answer else if truth == N then Stand else Refuse)
  {
    if action.None? then
      var consentOk := GetOr(proofs.consent, "ok", VBool(true));
      var apophOk := GetOr(proofs.logic, "apophatic_ok", VBool(true));
      if !Truthy(consentOk) || !Truthy(apophOk) then Refuse else Stand
    else if truth == T || truth == B then
      if !state.paradoxNearby then Answer else Answer
    else if truth == N then Stand
    else Refuse
  }

  /** The collaborators `decide` calls, as inputs: the scorers, the
    * externality pricing, the counter-context (None when it raises, which
    * `decide` swallows) and the ledger store; and the vow configuration. */
  datatype Seams = Seams(
    energy: Action -> real, kernel: Action -> Result<real>, grace: Action -> real,
    price: Action -> Dict, counterContext: Action -> Option<Dict>,
    store: (string, ProofBundle) -> string)

  datatype Vows = Vows(minDeltaE: real, minGrace: real, maxRepairDays: real, ledgerRequired: bool)

  const Noop := Action("noop", "noop", [], true, T)

  /** `{"ok": ok, **info}` */
  function OkAnd(ok: bool, info: Dict): Dict {
    Merge([("ok", VBool(ok))], info)
  }

  lemma OkAndConsent(ok: bool, state: State, now: real)
    ensures Get(OkAnd(ok, CheckConsent(state, now).1), "ok") == Some(VBool(ok))
  {
    MergeGet([("ok", VBool(ok))], CheckConsent(state, now).1, "ok");
  }

  /** What `decide` returns or raises once both rails have passed. */
  function RailsPassed(state: State, candidates: seq<Action>, seams: Seams, vows: Vows,
                       consentInfo: Dict, apophInfo: Dict, now: real): Result<DecisionResult>
  {
    var scored :- Scores(candidates, seams.energy, seams.kernel, seams.grace);
    var m := CleanMove(scored, vows.minDeltaE, vows.minGrace);
    var action := if m.Move? then Some(m.action) else None;
    var truth := if m.Move? then m.action.predictedTruth else N;
    var ethics := if state.willOperator == "EXP" || state.stage == "S11"
                  then seams.price(if candidates != [] then candidates[0] else Noop) else [];
    var shadow := if candidates != [] && seams.counterContext(candidates[0]).Some?
                  then seams.counterContext(candidates[0]).value else [];
    var horizon := if state.paradoxNearby then Some(now + vows.maxRepairDays * 86400.0) else None;
    var proofs := ProofBundle(Merge([("truth", VStr(TruthName(truth)))], apophInfo), ethics,
                              OkAnd(true, consentInfo), shadow, horizon);
    var decision := PglDecide(state, action, proofs, truth);
    var answerText := if decision == Answer && action.Some? then action.value.description else DecisionName(decision);
    Ok(DecisionResult(decision, action, if m.Move? then Some(m.deltaE) else None,
                      if m.Move? then Some(m.grace) else None, Some(truth), proofs,
                      if vows.ledgerRequired then Some(seams.store(answerText, proofs)) else None))
  }

  /** Once the rails pass: `decide` raises exactly what scoring raises;
    * otherwise the result carries the solver's move, the truth is the chosen
    * action's predicted truth (N when nothing is chosen), and the repair
    * horizon is set exactly when a paradox is near. */
  lemma RailsPassedChoice(state: State, candidates: seq<Action>, seams: Seams, vows: Vows, consentInfo: Dict, apophInfo: Dict, now: real)
    ensures var scored := Scores(candidates, seams.energy, seams.kernel, seams.grace);
      scored.Err? ==> RailsPassed(state, candidates, seams, vows, consentInfo, apophInfo, now) == Err(scored.error)
    ensures var scored := Scores(candidates, seams.energy, seams.kernel, seams.grace);
      scored.Ok? ==>
      var res := RailsPassed(state, candidates, seams, vows, consentInfo, apophInfo, now).value;
      var m := CleanMove(scored.value, vows.minDeltaE, vows.minGrace);
      && RailsPassed(state, candidates, seams, vows, consentInfo, apophInfo, now).Ok?
      && res.chosenAction == (if m.Move? then Some(m.action) else None)
      && res.deltaE == (if m.Move? then Some(m.deltaE) else None)
      && res.grace == (if m.Move? then Some(m.grace) else None)
      && res.truth == Some(if m.Move? then m.action.predictedTruth else N)
      && (res.proofs.repairHorizon.Some? <==> state.paradoxNearby)
      && (state.paradoxNearby ==> res.proofs.repairHorizon == Some(now + vows.maxRepairDays * 86400.0))
  {
  }

  /** Once the rails pass, no choice means Stand, and a chosen action answers
    * on T or B, stands on N and refuses on F; an answer stores the action's
    * description, anything else the decision's name. */
  lemma RailsPassedDecision(state: State, candidates: seq<Action>, seams: Seams, vows: Vows, consentNow: real, now: real)
    requires Scores(candidates, seams.energy, seams.kernel, seams.grace).Ok?
    ensures var res := RailsPassed(state, candidates, seams, vows, CheckConsent(state, consentNow).1, [("apophatic_ok", VBool(true))], now).value;
      var m := CleanMove(Scores(candidates, seams.energy, seams.kernel, seams.grace).value, vows.minDeltaE, vows.minGrace);
      && res.decision == (if m.NoMove? then Stand
                          else if m.action.predictedTruth == T || m.action.predictedTruth == B then Answer
                          else if m.action.predictedTruth == N then Stand else Refuse)
      && res.ledgerId == (if vows.ledgerRequired then Some(seams.store(
           if res.decision == Answer then m.action.description else DecisionName(res.decision), res.proofs)) else None)
  {
    var res := RailsPassed(state, candidates, seams, vows, CheckConsent(state, consentNow).1, [("apophatic_ok", VBool(true))], now).value;
    var m := CleanMove(Scores(candidates, seams.energy, seams.kernel, seams.grace).value, vows.minDeltaE, vows.minGrace);
    var truth := if m.Move? then m.action.predictedTruth else N;
    OkAndConsent(true, state, consentNow);
    MergeGet([("truth", VStr(TruthName(truth)))], [("apophatic_ok", VBool(true))], "apophatic_ok");
    assert Get(res.proofs.consent, "ok") == Some(VBool(true));
    assert Get(res.proofs.logic, "apophatic_ok") == Some(VBool(true));
  }

  /** Steps 1-8 of `decide` once the two rails have been evaluated; `apophatic`
    * is what `check_apophatic` returned or raised. */
  method DecideFrom(state: State, candidates: seq<Action>, apophatic: Result<(bool, Dict)>,
                    seams: Seams, vows: Vows, consentNow: real, now: real)
    returns (r: Result<DecisionResult>)
    requires apophatic.Ok? ==> apophatic.value.1 == [("apophatic_ok", VBool(apophatic.value.0))]
    ensures apophatic.Err? ==> r == Err(apophatic.error)
    ensures apophatic.Ok? && !(CheckConsent(state, consentNow).0 && apophatic.value.0) ==>
      r == Ok(DecisionResult(Refuse, None, None, None, None,
        ProofBundle([("apophatic_ok", VBool(apophatic.value.0))], [],
                    OkAnd(CheckConsent(state, consentNow).0, CheckConsent(state, consentNow).1), [], None), None))
    ensures apophatic.Ok? && CheckConsent(state, consentNow).0 && apophatic.value.0 ==>
      r == RailsPassed(state, candidates, seams, vows, CheckConsent(state, consentNow).1, apophatic.value.1, now)
  {
    var consent := CheckConsent(state, consentNow);
    if apophatic.Err? {
      return Err(apophatic.error);
    }
    var apophOk := apophatic.value.0;
    var apophInfo := apophatic.value.1;
    if !consent.0 || !apophOk {
      var proofs := ProofBundle([("apophatic_ok", VBool(apophOk))], [], OkAnd(consent.0, consent.1), [], None);
      return Ok(DecisionResult(Refuse, None, None, None, None, proofs, None));
    }

    var ethicsInfo: Dict := [];
    if state.willOperator == "EXP" || state.stage == "S11" {
      ethicsInfo := seams.price(if candidates != [] then candidates[0] else Noop);
    }

    var shadowInfo: Dict := [];
    if candidates != [] {
      var shadow := seams.counterContext(candidates[0]);
      if shadow.Some? {
        shadowInfo := shadow.value;
      }
    }

    var solved := MinimalCleanMove(candidates, seams.energy, seams.kernel, seams.grace, vows.minDeltaE, vows.minGrace);
    if solved.Err? {
      return Err(solved.error);
    }
    var m := solved.value;
    var action := if m.Move? then Some(m.action) else None;

    var truth := if m.Move? then m.action.predictedTruth else N;

    var repairHorizon: Option<real> := None;
    if state.paradoxNearby {
      repairHorizon := Some(now + vows.maxRepairDays * 86400.0);
    }

    var proofs := ProofBundle(Merge([("truth", VStr(TruthName(truth)))], apophInfo), ethicsInfo,
                              OkAnd(consent.0, consent.1), shadowInfo, repairHorizon);
    var decision := PglDecide(state, action, proofs, truth);

    var answerText := if decision == Answer && action.Some? then action.value.description else DecisionName(decision);
    var ledgerId := if vows.ledgerRequired then Some(seams.store(answerText, proofs)) else None;

    r := Ok(DecisionResult(decision, action, if m.Move? then Some(m.deltaE) else None,
                           if m.Move? then Some(m.grace) else None, Some(truth), proofs, ledgerId));
  }

  /** `decide(state, candidates)`: the apophatic rail is called with no
    * action and so always raises before anything else happens. */
  method Decide(state: State, candidates: seq<Action>, seams: Seams, vows: Vows, consentNow: real, now: real)
    returns (r: Result<DecisionResult>)
    ensures r == Err(AttributeError("params"))
  {
    r := DecideFrom(state, candidates, CheckApophatic(state, None), seams, vows, consentNow, now);
  }
}
