// Consent tickets: a scope, a time-to-live and an invocation budget, and the
// extraction of tickets from a decision context
// (core/logic/consent_checker.py).
module ConsentChecker {
  import opened Values

  /** The consent scopes, from most to least constrained. */
  const ScopeNames: seq<string> := ["self", "dyad", "group", "org", "public"]

  function ScopeLevel(s: string): Option<nat> {
    if s == "self" then Some(0)
    else if s == "dyad" then Some(1)
    else if s == "group" then Some(2)
    else if s == "org" then Some(3)
    else if s == "public" then Some(4)
    else None
  }

  /** `ConsentScope.can_escalate`: consent given for `fromScope` covers
    * `toScope` exactly when both are known scopes and `toScope` comes no
    * later in the lattice. */
  function CanEscalate(fromScope: string, toScope: string): (r: bool)
    ensures r <==> exists i, j :: 0 <= j <= i < |ScopeNames| &&
                                  ScopeNames[i] == fromScope && ScopeNames[j] == toScope
  {
    var f, t := ScopeLevel(fromScope), ScopeLevel(toScope);
    if f.None? || t.None? then
      assert fromScope !in ScopeNames || toScope !in ScopeNames;
      false
    else
      assert ScopeNames[f.value] == fromScope && ScopeNames[t.value] == toScope;
      f.value >= t.value
  }

  lemma CanEscalateIsAPreorder(a: string, b: string, c: string)
    ensures a in ScopeNames ==> CanEscalate(a, a)
    ensures CanEscalate(a, b) && CanEscalate(b, c) ==> CanEscalate(a, c)
    ensures a in ScopeNames ==> CanEscalate("public", a) && (CanEscalate(a, "self"))
    ensures CanEscalate("self", a) <==> a == "self"
    ensures CanEscalate(a, b) && CanEscalate(b, a) ==> a == b
  {
  }

  /** The state of one `ConsentTicket`. */
  datatype Ticket = Ticket(scope: string, issuedAt: real, ttlSeconds: real,
                           maxInvocations: int, invocations: int)

  /** `ConsentTicket.is_valid` at time `now`: not past its time-to-live and
    * with invocations left. */
  predicate IsValid(t: Ticket, now: real) {
    if now > t.issuedAt + t.ttlSeconds then false
    else if t.invocations >= t.maxInvocations then false
    else true
  }

  /** `ConsentTicket.use` at time `now`: whether it succeeded, and the ticket
    * afterwards. */
  function Used(t: Ticket, now: real): (r: (bool, Ticket))
    ensures r.0 <==> now <= t.issuedAt + t.ttlSeconds && t.invocations < t.maxInvocations
    ensures r.1.scope == t.scope && r.1.issuedAt == t.issuedAt && r.1.ttlSeconds == t.ttlSeconds
    ensures r.1.maxInvocations == t.maxInvocations
    ensures r.1.invocations == t.invocations + (if r.0 then 1 else 0)
  {
    if !IsValid(t, now) then (false, t)
    else (true, t.(invocations := t.invocations + 1))
  }

  /** A ticket is valid exactly when `use` would succeed on it; once valid
    * it stays valid at every earlier time, and past its time-to-live it is
    * never valid again. */
  lemma ValidityExpires(t: Ticket, now: real, later: real)
    requires now <= later
    ensures IsValid(t, now) <==> Used(t, now).0
    ensures IsValid(t, later) ==> IsValid(t, now)
    ensures now > t.issuedAt + t.ttlSeconds ==> !IsValid(t, later)
    ensures t.invocations >= t.maxInvocations ==> !IsValid(t, now)
  {
  }

  /** `n` calls of `use`, the i-th at time `nows[i]`: how many succeeded, and
    * the ticket afterwards. */
  function UseAll(t: Ticket, nows: seq<real>): (nat, Ticket)
    decreases nows
  {
    if nows == [] then (0, t)
    else
      var (ok, t1) := Used(t, nows[0]);
      var (n, t2) := UseAll(t1, nows[1..]);
      (n + (if ok then 1 else 0), t2)
  }

  /** However the calls are timed, a ticket grants at most its remaining
    * invocations; once they are spent it is invalid at every time; and
    * within its time-to-live it grants exactly as many as are asked, up to
    * that budget. */
  lemma {:induction false} UseAllSpendsTheBudget(t: Ticket, nows: seq<real>)
    requires t.invocations <= t.maxInvocations
    decreases nows
    ensures var (n, t') := UseAll(t, nows);
      && n <= t.maxInvocations - t.invocations
      && t'.invocations == t.invocations + n
      && t'.scope == t.scope && t'.maxInvocations == t.maxInvocations
      && (n == t.maxInvocations - t.invocations ==> forall later :: !IsValid(t', later))
      && ((forall i :: 0 <= i < |nows| ==> nows[i] <= t.issuedAt + t.ttlSeconds) ==>
            n == if |nows| <= t.maxInvocations - t.invocations then |nows|
                 else t.maxInvocations - t.invocations)
  {
    if nows != [] {
      var (ok, t1) := Used(t, nows[0]);
      UseAllSpendsTheBudget(t1, nows[1..]);
      if forall i :: 0 <= i < |nows| ==> nows[i] <= t.issuedAt + t.ttlSeconds {
        assert forall i :: 0 <= i < |nows[1..]| ==> nows[1..][i] == nows[i + 1];
      }
    }
  }

  /** A `ConsentTicket` object; `use` changes it in place. */
  class ConsentTicket {
    var scope: string
    var issuedAt: real
    var ttlSeconds: real
    var maxInvocations: int
    var invocations: int

    function Snapshot(): Ticket
      reads this
    {
      Ticket(scope, issuedAt, ttlSeconds, maxInvocations, invocations)
    }

    constructor (t: Ticket)
      ensures Snapshot() == t
    {
      scope := t.scope;
      issuedAt := t.issuedAt;
      ttlSeconds := t.ttlSeconds;
      maxInvocations := t.maxInvocations;
      invocations := t.invocations;
    }

    /** `use()` at time `now`. */
    method Use(now: real) returns (ok: bool)
      modifies this
      ensures (ok, Snapshot()) == Used(old(Snapshot()), now)
    {
      if !IsValid(Snapshot(), now) {
        return false;
      }
      invocations := invocations + 1;
      return true;
    }
  }

  /** `ConsentChecker.create_ticket`: issued at `now`, never used. */
  method CreateTicket(scope: string, ttlSeconds: real, maxInvocations: int, now: real)
    returns (t: ConsentTicket)
    ensures fresh(t)
    ensures t.Snapshot() == Ticket(scope, now, ttlSeconds, maxInvocations, 0)
  {
    t := new ConsentTicket(Ticket(scope, now, ttlSeconds, maxInvocations, 0));
  }

  /** The ticket-shaped entries of a context dictionary that `ConsentChecker`
    * reads; `None` is a missing key. */
  datatype TicketFields = TicketFields(
    scope: Option<string>,
    issuedAt: Option<real>,
    ttlSeconds: Option<real>,
    maxInvocations: Option<int>,
    invocations: Option<int>)

  /** `context["consent"]`: a dictionary (with its "valid" entry, if any) or
    * something else. */
  datatype ConsentField = ConsentDict(fields: TicketFields, valid: Option<Value>) | ConsentNotDict

  /** One element of `context["consent_tickets"]`. */
  datatype TicketEntry = EntryDict(fields: TicketFields) | EntryTicket(ticket: ConsentTicket) | EntryOther

  /** `context["consent_tickets"]`: a list or something else. */
  datatype TicketsField = TicketsList(entries: seq<TicketEntry>) | TicketsNotList

  datatype ConsentContext = ConsentContext(consent: Option<ConsentField>, consentTickets: Option<TicketsField>)

  /** A ticket built from a dictionary, with `ConsentChecker`'s defaults: issued a
    * minute before `now`, one hour to live, one invocation, none used. */
  function FromFields(f: TicketFields, scope: string, now: real): Ticket {
    Ticket(scope,
           match f.issuedAt case Some(x) => x case None => now - 60.0,
           match f.ttlSeconds case Some(x) => x case None => 3600.0,
           match f.maxInvocations case Some(x) => x case None => 1,
           match f.invocations case Some(x) => x case None => 0)
  }

  /** The ticket `context["consent"]` yields: only a dictionary with a scope
    * and a truthy "valid" entry yields one. */
  function ConsentTickets(c: Option<ConsentField>, now: real): (r: seq<Ticket>)
    ensures |r| <= 1
    ensures |r| == 1 <==> c.Some? && c.value.ConsentDict? && c.value.fields.scope.Some? &&
                          c.value.valid.Some? && Truthy(c.value.valid.value)
    ensures |r| == 1 ==> r[0].scope == c.value.fields.scope.value
  {
    match c
    case Some(ConsentDict(f, Some(v))) =>
      if f.scope.Some? && Truthy(v) then [FromFields(f, f.scope.value, now)] else []
    case _ => []
  }

  /** The ticket one element of `context["consent_tickets"]` contributes:
    * a dictionary becomes a ticket, of scope "self" unless it names one; a
    * ticket object is taken as it is; anything else is skipped. */
  function EntryTicketOf(e: TicketEntry, now: real): (r: seq<Ticket>)
    reads if e.EntryTicket? then {e.ticket} else {}
    ensures |r| == if e.EntryOther? then 0 else 1
    ensures e.EntryDict? && e.fields.scope.None? ==> r[0].scope == "self"
  {
    match e
    case EntryDict(f) => [FromFields(f, match f.scope case Some(s) => s case None => "self", now)]
    case EntryTicket(o) => [o.Snapshot()]
    case EntryOther => []
  }

  /** The tickets a prefix of `context["consent_tickets"]` contributes. */
  function EntryTickets(es: seq<TicketEntry>, now: real): (r: seq<Ticket>)
    reads set i | 0 <= i < |es| && es[i].EntryTicket? :: es[i].ticket
    ensures |r| <= |es|
  {
    if es == [] then []
    else
      var init := es[..|es| - 1];
      EntryTickets(init, now) + EntryTicketOf(es[|es| - 1], now)
  }

  /** A list of dictionaries and ticket objects only yields one ticket per entry. */
  lemma {:induction false} EveryEntryYieldsATicket(es: seq<TicketEntry>, now: real)
    requires forall i :: 0 <= i < |es| ==> !es[i].EntryOther?
    ensures |EntryTickets(es, now)| == |es|
    decreases |es|
  {
    if es != [] {
      EveryEntryYieldsATicket(es[..|es| - 1], now);
    }
  }

  /** The tickets `extract_from_context` returns, in order. */
  function Extracted(ctx: ConsentContext, now: real): seq<Ticket>
    reads if ctx.consentTickets.Some? && ctx.consentTickets.value.TicketsList?
          then set i | 0 <= i < |ctx.consentTickets.value.entries| &&
                       ctx.consentTickets.value.entries[i].EntryTicket? :: ctx.consentTickets.value.entries[i].ticket
          else {}
  {
    ConsentTickets(ctx.consent, now) +
      match ctx.consentTickets
      case Some(TicketsList(es)) => EntryTickets(es, now)
      case _ => []
  }

  /** The ticket that one element of `context["consent_tickets"]` adds. */
  method TicketOf(e: TicketEntry, now: real) returns (t: Option<ConsentTicket>)
    ensures |EntryTicketOf(e, now)| == if t.Some? then 1 else 0
    ensures t.Some? ==> t.value.Snapshot() == EntryTicketOf(e, now)[0]
    ensures t.Some? ==> (e.EntryTicket? && t.value == e.ticket) || (e.EntryDict? && fresh(t.value))
    ensures e.EntryTicket? ==> t == Some(e.ticket)
  {
    match e {
      case EntryDict(f) =>
        var o := new ConsentTicket(FromFields(f, match f.scope case Some(s) => s case None => "self", now));
        t := Some(o);
      case EntryTicket(o) =>
        t := Some(o);
      case EntryOther =>
        t := None;
    }
  }

  /** One round of the loop of `extract_from_context` over
    * `context["consent_tickets"]`: the ticket entry `e` adds, after the
    * tickets `tickets` of the entries before it. */
  method AddEntry(tickets: seq<ConsentTicket>, ghost spec: seq<Ticket>, e: TicketEntry, now: real)
    returns (tickets': seq<ConsentTicket>, ghost spec': seq<Ticket>)
    requires |tickets| == |spec| && forall j :: 0 <= j < |tickets| ==> tickets[j].Snapshot() == spec[j]
    ensures spec' == spec + EntryTicketOf(e, now)
    ensures |tickets'| == |spec'| && forall j :: 0 <= j < |tickets'| ==> tickets'[j].Snapshot() == spec'[j]
  {
    var t := TicketOf(e, now);
    spec' := spec + EntryTicketOf(e, now);
    if t.Some? {
      tickets' := tickets + [t.value];
    } else {
      tickets' := tickets;
    }
  }

  /** The loop of `extract_from_context` over `context["consent_tickets"]`. */
  method ExtractEntries(es: seq<TicketEntry>, now: real) returns (tickets: seq<ConsentTicket>)
    ensures |tickets| == |EntryTickets(es, now)|
    ensures forall j :: 0 <= j < |tickets| ==> tickets[j].Snapshot() == EntryTickets(es, now)[j]
  {
    tickets := [];
    ghost var spec: seq<Ticket> := [];
    var i := 0;
    while i < |es|
      invariant 0 <= i <= |es|
      invariant spec == EntryTickets(es[..i], now)
      invariant |tickets| == |spec|
      invariant forall j :: 0 <= j < |tickets| ==> tickets[j].Snapshot() == spec[j]
    {
      assert es[..i + 1][..i] == es[..i];
      tickets, spec := AddEntry(tickets, spec, es[i], now);
      i := i + 1;
    }
    assert es[..|es|] == es;
  }

  /** `ConsentChecker.extract_from_context`. */
  method ExtractFromContext(ctx: ConsentContext, now: real) returns (tickets: seq<ConsentTicket>)
    ensures |tickets| == |Extracted(ctx, now)|
    ensures forall i :: 0 <= i < |tickets| ==> tickets[i].Snapshot() == Extracted(ctx, now)[i]
  {
    tickets := [];
    var first := ConsentTickets(ctx.consent, now);
    if first != [] {
      var t := new ConsentTicket(first[0]);
      tickets := [t];
    }
    assert |tickets| == |first| && forall i :: 0 <= i < |tickets| ==> tickets[i].Snapshot() == first[i];
    if ctx.consentTickets.Some? && ctx.consentTickets.value.TicketsList? {
      var rest := ExtractEntries(ctx.consentTickets.value.entries, now);
      ghost var before := tickets;
      tickets := tickets + rest;
      forall i | 0 <= i < |tickets|
        ensures tickets[i].Snapshot() == (first + EntryTickets(ctx.consentTickets.value.entries, now))[i]
      {
        if i < |before| {
          assert tickets[i] == before[i];
        } else {
          assert tickets[i] == rest[i - |before|];
        }
      }
    }
  }

  /** What `check_context` decides for a list of tickets: some ticket is
    * valid and, when a target scope is given, covers it. */
  predicate Permits(ts: seq<Ticket>, targetScope: Option<string>, now: real) {
    exists i :: 0 <= i < |ts| && IsValid(ts[i], now) &&
      (targetScope.None? || CanEscalate(ts[i].scope, targetScope.value))
  }

  /** `ConsentChecker.check_context`. */
  method CheckContext(ctx: ConsentContext, targetScope: Option<string>, now: real) returns (r: bool)
    ensures r == Permits(Extracted(ctx, now), targetScope, now)
  {
    var tickets := ExtractFromContext(ctx, now);
    if |tickets| == 0 {
      return false;
    }
    ghost var ts := Extracted(ctx, now);
    r := false;
    var i := 0;
    while i < |tickets|
      invariant 0 <= i <= |tickets|
      invariant r <==> (exists j :: 0 <= j < i && IsValid(ts[j], now) &&
                                    (targetScope.None? || CanEscalate(ts[j].scope, targetScope.value)))
    {
      var t := tickets[i].Snapshot();
      if IsValid(t, now) && (targetScope.None? || CanEscalate(t.scope, targetScope.value)) {
        r := true;
      }
      i := i + 1;
    }
  }

  /** Consent for a scope is consent for every narrower scope, and any
    * permitted scope implies some valid ticket. */
  lemma PermitsNarrowerScopes(ts: seq<Ticket>, a: string, b: string, now: real)
    ensures Permits(ts, Some(a), now) && CanEscalate(a, b) ==> Permits(ts, Some(b), now)
    ensures Permits(ts, Some(a), now) ==> Permits(ts, None, now)
    ensures a !in ScopeNames ==> !Permits(ts, Some(a), now)
    ensures ts == [] ==> !Permits(ts, None, now)
  {
    if Permits(ts, Some(a), now) && CanEscalate(a, b) {
      var i :| 0 <= i < |ts| && IsValid(ts[i], now) && CanEscalate(ts[i].scope, a);
      CanEscalateIsAPreorder(ts[i].scope, a, b);
    }
  }

  /** The context of the module's own walk-through: a valid "dyad" consent
    * dictionary permits any scope query, "self", but not "org". */
  lemma DyadConsentExample(now: real)
    ensures var ctx := ConsentContext(
              Some(ConsentDict(TicketFields(Some("dyad"), None, Some(3600.0), None, None), Some(VBool(true)))),
              None);
      && Extracted(ctx, now) == [Ticket("dyad", now - 60.0, 3600.0, 1, 0)]
      && Permits(Extracted(ctx, now), None, now)
      && Permits(Extracted(ctx, now), Some("self"), now)
      && !Permits(Extracted(ctx, now), Some("org"), now)
  {
    var ctx := ConsentContext(
      Some(ConsentDict(TicketFields(Some("dyad"), None, Some(3600.0), None, None), Some(VBool(true)))),
      None);
    var t := Ticket("dyad", now - 60.0, 3600.0, 1, 0);
    assert Extracted(ctx, now) == [t];
    assert IsValid(Extracted(ctx, now)[0], now) && CanEscalate("dyad", "self");
    assert !CanEscalate("dyad", "org");
  }
}
