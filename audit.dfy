/** The in-memory half of the audit trail: an append-only list of events with
    filtered queries. Writing each event to a JSON-Lines file and the lock
    around the list are not part of this model. */
module Audit {
  import opened Wrappers
  import opened Domain
  import opened Seqs

  const SystemActor := "system"
  const HumanActor := "human"

  /** Python truthiness of an optional filter: `None` and `""` both mean "do not filter". */
  predicate Active(f: Option<string>) {
    f.Some? && f.value != ""
  }

  /** Whether `e` passes the given filters. */
  predicate Selected(e: AuditEvent, decisionId: Option<string>, layer: Option<string>) {
    && (Active(decisionId) ==> e.decisionId == decisionId)
    && (Active(layer) ==> e.layer == layer.value)
  }

  /** The two list comprehensions of `get_events`, applied one after the other. */
  function SelectEvents(events: seq<AuditEvent>, decisionId: Option<string>, layer: Option<string>): (r: seq<AuditEvent>)
    ensures |r| <= |events|
    ensures forall i :: 0 <= i < |r| ==> r[i] in events && Selected(r[i], decisionId, layer)
    ensures forall i :: 0 <= i < |events| && Selected(events[i], decisionId, layer) ==> events[i] in r
  {
    var byDecision := if Active(decisionId) then Filter(events, (e: AuditEvent) => e.decisionId == decisionId) else events;
    if Active(layer) then Filter(byDecision, (e: AuditEvent) => e.layer == layer.GetOr("")) else byDecision
  }

  /** Appending an event appends it to every view that selects it and leaves
      every other view as it was: the views only grow, in log order. */
  lemma SelectAppend(events: seq<AuditEvent>, e: AuditEvent, decisionId: Option<string>, layer: Option<string>)
    ensures SelectEvents(events + [e], decisionId, layer)
         == SelectEvents(events, decisionId, layer) + (if Selected(e, decisionId, layer) then [e] else [])
  {
    var pd := (x: AuditEvent) => x.decisionId == decisionId;
    var pl := (x: AuditEvent) => x.layer == layer.GetOr("");
    if Active(decisionId) {
      FilterAppend(events, [e], pd);
      if Active(layer) {
        FilterAppend(Filter(events, pd), Filter([e], pd), pl);
      }
    } else if Active(layer) {
      FilterAppend(events, [e], pl);
    }
  }

  /** With no active filter the whole log comes back, in order. */
  lemma SelectUnfiltered(events: seq<AuditEvent>, decisionId: Option<string>, layer: Option<string>)
    requires !Active(decisionId) && !Active(layer)
    ensures SelectEvents(events, decisionId, layer) == events
  {
  }

  class AuditLogger {
    var events: seq<AuditEvent>

    constructor ()
      ensures events == []
    {
      events := [];
    }

    /** `_append`: the only place the list changes, and only at its end. */
    method Append(e: AuditEvent)
      modifies this
      ensures events == old(events) + [e]
    {
      events := events + [e];
    }

    /** `log`: builds the event (payload `{}` when none is given), appends it and returns it. */
    method Log(layer: string, eventType: string, payload: Option<Payload>, decisionId: Option<string>, actor: string)
      returns (e: AuditEvent)
      modifies this
      ensures e == AuditEvent(|old(events)|, layer, eventType, payload.GetOr(map[]), decisionId, actor)
      ensures events == old(events) + [e]
    {
      e := AuditEvent(|events|, layer, eventType, payload.GetOr(map[]), decisionId, actor);
      Append(e);
    }

    /** `log_override`: a `reasoning`/`human_override` event by the human actor. */
    method LogOverride(o: HumanOverride) returns (e: AuditEvent)
      modifies this
      ensures e == AuditEvent(|old(events)|, "reasoning", "human_override", OverridePayload(o), Some(o.decisionId), HumanActor)
      ensures events == old(events) + [e]
    {
      e := Log("reasoning", "human_override", Some(OverridePayload(o)), Some(o.decisionId), HumanActor);
    }

    /** `get_events`: the events that pass both filters, in the order they were logged. */
    function GetEvents(decisionId: Option<string>, layer: Option<string>): (r: seq<AuditEvent>)
      reads this
      ensures forall i :: 0 <= i < |r| ==> r[i] in events && Selected(r[i], decisionId, layer)
      ensures forall i :: 0 <= i < |events| && Selected(events[i], decisionId, layer) ==> events[i] in r
    {
      SelectEvents(events, decisionId, layer)
    }

    /** `get_decision_trace(d)`: the same as `get_events(decision_id=d)`; an empty
        id is falsy, so it yields the whole log. */
    function GetDecisionTrace(decisionId: string): (r: seq<AuditEvent>)
      reads this
      ensures r == GetEvents(Some(decisionId), None)
      ensures decisionId == "" ==> r == events
      ensures forall i :: 0 <= i < |r| ==> r[i] in events && (decisionId != "" ==> r[i].decisionId == Some(decisionId))
    {
      GetEvents(Some(decisionId), None)
    }
  }
}
