// The harms ledger (core/ethics/harms_ledger.py): harm events by id, each
// recorded once and resolved by appending a resolution note. `_log_event`
// only prints and is not part of this model.
module HarmsLedger {
  import opened Values

  /** `HarmEvent`; the timestamp is a number of seconds. */
  datatype HarmEvent = HarmEvent(id: string, timestamp: real, agent: string, category: string,
                                 severity: real, intentionality: real, mitigationSteps: seq<string>,
                                 resolved: bool, notes: Option<string>)

  /** The note `resolve_event` appends. */
  function ResolutionLine(resolutionNotes: string): string {
    "\n[Resolution] " + resolutionNotes
  }

  /** The event after `resolve_event`: resolved, with the resolution line
    * appended to its notes (empty when it had none). */
  function Resolved(e: HarmEvent, resolutionNotes: string): (r: HarmEvent)
    ensures r.resolved && r.notes.Some?
    ensures r.notes.value == (if e.notes.Some? then e.notes.value else "") + ResolutionLine(resolutionNotes)
    ensures r.(resolved := e.resolved, notes := e.notes) == e
  {
    e.(resolved := true, notes := Some((if e.notes.Some? then e.notes.value else "") + ResolutionLine(resolutionNotes)))
  }

  /** Resolving twice appends both lines, in order. */
  lemma ResolveTwiceAppendsTwice(e: HarmEvent, first: string, second: string)
    ensures Resolved(Resolved(e, first), second).notes ==
      Some((if e.notes.Some? then e.notes.value else "") + ResolutionLine(first) + ResolutionLine(second))
  {
  }

  /** `HarmsLedger`: the recorded events by id. */
  class Ledger {
    var events: map<string, HarmEvent>

    constructor ()
      ensures events == map[]
    {
      events := map[];
    }

    /** `record_event(event)`: a new id is stored; a known id raises and
      * changes nothing. */
    method RecordEvent(event: HarmEvent) returns (r: Result<()>)
      modifies this
      ensures event.id in old(events) ==> r == Err(ValueError) && events == old(events)
      ensures event.id !in old(events) ==> r == Ok(()) && events == old(events)[event.id := event]
    {
      if event.id in events {
        return Err(ValueError);
      }
      events := events[event.id := event];
      return Ok(());
    }

    /** `resolve_event(event_id, resolution_notes)`: an unknown id raises
      * KeyError; otherwise that event alone is marked resolved. */
    method ResolveEvent(eventId: string, resolutionNotes: string) returns (r: Result<()>)
      modifies this
      ensures eventId !in old(events) ==> r == Err(KeyError(eventId)) && events == old(events)
      ensures eventId in old(events) ==> r == Ok(()) && events == old(events)[eventId := Resolved(old(events)[eventId], resolutionNotes)]
    {
      if eventId !in events {
        return Err(KeyError(eventId));
      }
      var event := events[eventId];
      event := event.(resolved := true);
      event := event.(notes := Some((if event.notes.Some? then event.notes.value else "") + ResolutionLine(resolutionNotes)));
      events := events[eventId := event];
      return Ok(());
    }
  }

  /** On the ledger's map: recording then resolving an event leaves it
    * resolved with exactly the resolution line as notes when it had none,
    * and touches no other id. */
  lemma RecordThenResolve(events: map<string, HarmEvent>, e: HarmEvent, notes: string, other: string)
    requires e.id !in events && e.notes.None?
    ensures var after := events[e.id := e][e.id := Resolved(e, notes)];
      after[e.id].resolved && after[e.id].notes == Some(ResolutionLine(notes)) &&
      (other != e.id ==> (other in after <==> other in events) && (other in events ==> after[other] == events[other]))
  {
    assert "" + ResolutionLine(notes) == ResolutionLine(notes);
  }
}
