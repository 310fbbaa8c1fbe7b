/** The decision agent: a small state machine over the agent's state and a
    single slot for the decision waiting for a human. The two language models
    it consults are oracles passed in by the caller; the uuid of each new
    decision and override is a parameter too. */
module Agent {
  import opened Wrappers
  import opened Seqs
  import opened PyText
  import opened Domain
  import opened Audit
  import opened Policy

  const DeniedAnswer := "[DENIED] Policy violation: action not permitted."
  const ApprovalMarker := "[AWAITING APPROVAL] "
  const RejectedTag := "[REJECTED]"
  const NoEvidenceAnswer := "No evidence found. Cannot answer without grounded data."
  const EvidenceLead := "Based on available evidence "
  const FallbackChars := 500
  const NoKeyAudit := "audit_skipped:no_api_key"
  const FailedAudit := "audit_skipped:api_error"

  /** The part of the settings the agent reads. */
  datatype AgentSettings = AgentSettings(orchestratorModel: string, auditorModel: string, humanInLoop: bool)

  /** What one model call comes to: a reply, no API key configured, or a failed request. */
  datatype CallOutcome = Replied(text: string) | NoApiKey | CallFailed

  /** The orchestrator, asked `(query, evidence)`. */
  type Orchestrator = (string, RetrievalResponse) -> CallOutcome

  /** The auditor, asked `(query, answer, evidence)`. */
  type Auditor = (string, string, RetrievalResponse) -> CallOutcome

  // ---------------------------------------------------------------- the fallback answer

  function CitationTag(c: Citation): string {
    "[doc=" + c.docId + ", page=" + IntToString(c.page) + "]"
  }

  function CitationTags(cs: seq<Citation>): (r: seq<string>)
    ensures |r| == |cs| && forall i :: 0 <= i < |cs| ==> r[i] == CitationTag(cs[i])
  {
    seq(|cs|, i requires 0 <= i < |cs| => CitationTag(cs[i]))
  }

  /** `_fallback_answer`: a fixed refusal without evidence, otherwise the top
      result's citations followed by the start of its text. */
  function FallbackAnswer(query: string, evidence: RetrievalResponse): (a: string)
    ensures evidence.results == [] ==> a == NoEvidenceAnswer
    ensures evidence.results != [] ==>
      var snippet := PyPrefix(evidence.results[0].text, FallbackChars);
      && StartsWith(a, EvidenceLead)
      && |snippet| + 2 <= |a|
      && a[|a| - |snippet| - 2..] == ": " + snippet
      && snippet == evidence.results[0].text[..|snippet|]
      && |snippet| == if |evidence.results[0].text| < FallbackChars then |evidence.results[0].text| else FallbackChars
  {
    if evidence.results == [] then NoEvidenceAnswer
    else
      var top := evidence.results[0];
      EvidenceLead + Join(", ", CitationTags(top.citations)) + ": " + PyPrefix(top.text, FallbackChars)
  }

  /** The fallback names the document and page of every citation of the top result. */
  lemma FallbackCites(query: string, evidence: RetrievalResponse, k: nat)
    requires evidence.results != [] && k < |evidence.results[0].citations|
    ensures IsIn(CitationTag(evidence.results[0].citations[k]), FallbackAnswer(query, evidence))
  {
    var top := evidence.results[0];
    var tags := CitationTags(top.citations);
    var joined := Join(", ", tags);
    JoinHas(", ", tags, k);
    var a := FallbackAnswer(query, evidence);
    assert a == EvidenceLead + joined + (": " + PyPrefix(top.text, FallbackChars));
    var l := |EvidenceLead|;
    assert a[l..l + |joined|] == joined;
    IsInSlice(tags[k], a, l, l + |joined|);
  }

  // ---------------------------------------------------------------- the model calls

  /** `_call_orchestrator`: the model's reply; without a key, or when the call fails, the fallback. */
  function OrchestratorAnswer(o: CallOutcome, query: string, evidence: RetrievalResponse): (a: string)
    ensures o.Replied? ==> a == o.text
    ensures !o.Replied? ==> a == FallbackAnswer(query, evidence)
  {
    match o
    case Replied(text) => text
    case _ => FallbackAnswer(query, evidence)
  }

  /** `_call_auditor`: the model's reply, or a marker saying why the audit was skipped. */
  function AuditorResult(o: CallOutcome): (a: string)
    ensures o.Replied? ==> a == o.text
    ensures o == NoApiKey ==> a == NoKeyAudit
    ensures o == CallFailed ==> a == FailedAudit
  {
    match o
    case Replied(text) => text
    case NoApiKey => NoKeyAudit
    case CallFailed => FailedAudit
  }

  // ---------------------------------------------------------------- the state machine

  /** The two fields `decide`, `approve` and `reject` change. */
  datatype AgentView = AgentView(state: AgentState, pending: Option<Decision>)

  const Initial := AgentView(Running, None)

  /** How `decide` ends once the policies are evaluated: the agent afterwards,
      the decision handed to the caller and the event logged. */
  datatype Concluded = Concluded(view: AgentView, decision: Decision, eventType: string, payload: Payload)

  /** Steps 2 to 7 of `decide`. `answer` and `auditResult` are what the two models
      said; on a DENY they were never asked and the two are ignored. */
  function Conclude(pending: Option<Decision>, query: string, evidence: RetrievalResponse, evaluations: seq<PolicyEvaluation>,
                    decisionId: string, answer: string, auditResult: string, settings: AgentSettings): (c: Concluded)
    ensures c.decision.decisionId == decisionId && c.decision.query == query
    ensures c.decision.evidence == evidence.results && c.decision.policyEvaluations == evaluations
    ensures c.decision.agentState == c.view.state
    ensures c.view.state in {Failed, WaitingApproval, Completed}
    ensures c.view.state == Failed <==> Aggregate(evaluations) == Deny
    ensures c.view.state == Failed ==>
      && c.decision.answer == DeniedAnswer && c.view.pending == pending
      && c.decision.modelUsed == "" && c.decision.auditorModel == ""
      && c.eventType == "decision_denied" && c.payload == map["query" := Str(query)]
    ensures c.view.state == WaitingApproval <==> Aggregate(evaluations) == NeedsApproval && settings.humanInLoop
    ensures c.view.state == WaitingApproval ==>
      && c.view.pending.Some?
      && var held := c.view.pending.value;
      && held.decisionId == decisionId && held.agentState == Completed && held.answer == answer
      && c.decision == held.(agentState := WaitingApproval, answer := ApprovalMarker + answer)
      && c.eventType == "decision_pending_approval"
    ensures c.view.state == Completed ==>
      && c.view.pending == pending && c.decision.answer == answer
      && c.eventType == "decision_completed"
    ensures c.view.state != Failed ==>
      && c.decision.modelUsed == settings.orchestratorModel && c.decision.auditorModel == settings.auditorModel
      && c.payload == map["query" := Str(query), "audit_result" := Str(auditResult)]
  {
    var verdict := Aggregate(evaluations);
    if verdict == Deny then
      Concluded(AgentView(Failed, pending),
                Decision(decisionId, query, DeniedAnswer, evidence.results, evaluations, Failed, "", ""),
                "decision_denied", map["query" := Str(query)])
    else
      var decision := Decision(decisionId, query, answer, evidence.results, evaluations, Completed,
                               settings.orchestratorModel, settings.auditorModel);
      var payload := map["query" := Str(query), "audit_result" := Str(auditResult)];
      if verdict == NeedsApproval && settings.humanInLoop then
        Concluded(AgentView(WaitingApproval, Some(decision)),
                  decision.(agentState := WaitingApproval, answer := ApprovalMarker + answer),
                  "decision_pending_approval", payload)
      else
        Concluded(AgentView(Completed, pending), decision, "decision_completed", payload)
  }

  /** Whether the slot holds the decision with this id. */
  predicate Holds(pending: Option<Decision>, id: string) {
    pending.Some? && pending.value.decisionId == id
  }

  /** The approved copy: COMPLETED, the marker taken out of the answer, every other field kept. */
  function Approved(d: Decision): (a: Decision)
    ensures a == d.(agentState := Completed, answer := a.answer)
  {
    d.(agentState := Completed, answer := ReplaceAll(d.answer, ApprovalMarker, ""))
  }

  /** Approval leaves an answer without the marker as it is, and approving the
      prefixed copy the caller saw gives the same answer as approving the held one. */
  lemma ApprovedAnswer(d: Decision)
    ensures !IsIn(ApprovalMarker, d.answer) ==> Approved(d).answer == d.answer
    ensures Approved(d.(answer := ApprovalMarker + d.answer)).answer == Approved(d).answer
  {
    ReplaceLeading(ApprovalMarker, d.answer, "");
    if !IsIn(ApprovalMarker, d.answer) {
      ReplaceAbsent(d.answer, ApprovalMarker, "");
    }
  }

  /** The answer of a rejected decision: the tag, then the reason when there is one. */
  function RejectionAnswer(reason: string): (s: string)
    ensures StartsWith(s, RejectedTag)
    ensures s == RejectedTag <==> reason == ""
    ensures reason != "" ==> |s| == |RejectedTag| + 1 + |reason| && s[|RejectedTag| + 1..] == reason
  {
    if reason != "" then RejectedTag + " " + reason else RejectedTag
  }

  /** `approve(id)`: the agent afterwards and the approved decision, if the slot held that id. */
  function ApproveStep(v: AgentView, id: string): (r: (AgentView, Option<Decision>))
    ensures r.1.Some? <==> Holds(v.pending, id)
    ensures r.1.None? ==> r.0 == v
    ensures r.1.Some? ==> r.0 == AgentView(Completed, None) && r.1.value.decisionId == id
                          && r.1.value == Approved(v.pending.value)
  {
    if Holds(v.pending, id) then (AgentView(Completed, None), Some(Approved(v.pending.value)))
    else (v, None)
  }

  /** `reject(id, reason)`: the agent afterwards and the rejected decision, if the slot held that id. */
  function RejectStep(v: AgentView, id: string, reason: string): (r: (AgentView, Option<Decision>))
    ensures r.1.Some? <==> Holds(v.pending, id)
    ensures r.1.None? ==> r.0 == v
    ensures r.1.Some? ==> r.0 == AgentView(Failed, None) && r.1.value.decisionId == id
                          && r.1.value == v.pending.value.(agentState := Failed, answer := RejectionAnswer(reason))
  {
    if Holds(v.pending, id) then
      (AgentView(Failed, None), Some(v.pending.value.(agentState := Failed, answer := RejectionAnswer(reason))))
    else (v, None)
  }

  /** One call on the agent, with what the outside world contributed to it. */
  datatype Op =
    | Deciding(query: string, evidence: RetrievalResponse, evaluations: Result<seq<PolicyEvaluation>, PolicyError>,
               decisionId: string, answer: string, auditResult: string)
    | Approving(id: string)
    | Rejecting(id: string, reason: string)
    | Overriding

  /** The agent after one call. A policy error leaves it RUNNING, the state `decide` set first. */
  function Step(settings: AgentSettings, v: AgentView, op: Op): AgentView {
    match op
    case Deciding(query, evidence, evaluations, decisionId, answer, auditResult) =>
      if evaluations.Err? then AgentView(Running, v.pending)
      else Conclude(v.pending, query, evidence, evaluations.value, decisionId, answer, auditResult, settings).view
    case Approving(id) => ApproveStep(v, id).0
    case Rejecting(id, reason) => RejectStep(v, id, reason).0
    case Overriding => v
  }

  /** The agent after a sequence of calls. */
  function Run(settings: AgentSettings, v: AgentView, ops: seq<Op>): AgentView
    decreases |ops|
  {
    if ops == [] then v else Run(settings, Step(settings, v, ops[0]), ops[1..])
  }

  /** Proof helper, not a property: `Step`'s `Deciding` case unfolded as one
      equation, so that `Decide` need not unfold `Step` itself. */
  lemma StepDeciding(settings: AgentSettings, v: AgentView, query: string, evidence: RetrievalResponse,
                     evaluations: Result<seq<PolicyEvaluation>, PolicyError>, decisionId: string, answer: string, auditResult: string)
    ensures evaluations.Err? ==> Step(settings, v, Deciding(query, evidence, evaluations, decisionId, answer, auditResult)) == AgentView(Running, v.pending)
    ensures evaluations.Ok? ==>
      Step(settings, v, Deciding(query, evidence, evaluations, decisionId, answer, auditResult))
        == Conclude(v.pending, query, evidence, evaluations.value, decisionId, answer, auditResult, settings).view
  {
  }

  /** What every reachable agent satisfies: it is never PAUSED, it waits only
      with a decision in the slot, and the slot holds a COMPLETED copy. */
  predicate Sound(v: AgentView) {
    && v.state != Paused
    && (v.state == WaitingApproval ==> v.pending.Some?)
    && (v.pending.Some? ==> v.pending.value.agentState == Completed)
  }

  lemma StepSound(settings: AgentSettings, v: AgentView, op: Op)
    requires Sound(v)
    ensures Sound(Step(settings, v, op))
  {
  }

  /** No sequence of calls ever makes the agent PAUSED, nor breaks the slot invariant. */
  lemma {:induction false} RunSound(settings: AgentSettings, v: AgentView, ops: seq<Op>)
    requires Sound(v)
    ensures Sound(Run(settings, v, ops))
    decreases |ops|
  {
    if ops != [] {
      StepSound(settings, v, ops[0]);
      RunSound(settings, Step(settings, v, ops[0]), ops[1..]);
    }
  }

  /** In particular, from a freshly built agent. */
  lemma NeverPaused(settings: AgentSettings, ops: seq<Op>)
    ensures Run(settings, Initial, ops).state != Paused
  {
    RunSound(settings, Initial, ops);
  }

  /** After a successful approve or reject, no approve or reject, for any id, succeeds again. */
  lemma SettledOnce(v: AgentView, id: string, reason: string, id2: string, reason2: string)
    ensures ApproveStep(v, id).1.Some? ==>
      ApproveStep(ApproveStep(v, id).0, id2).1 == None && RejectStep(ApproveStep(v, id).0, id2, reason2).1 == None
    ensures RejectStep(v, id, reason).1.Some? ==>
      ApproveStep(RejectStep(v, id, reason).0, id2).1 == None && RejectStep(RejectStep(v, id, reason).0, id2, reason2).1 == None
  {
  }

  /** A second decision that needs approval takes the slot: the earlier one can
      no longer be approved or rejected. */
  lemma PendingOverwritten(v: AgentView, query: string, evidence: RetrievalResponse, evaluations: seq<PolicyEvaluation>,
                           decisionId: string, answer: string, auditResult: string, settings: AgentSettings, earlier: string)
    requires Aggregate(evaluations) == NeedsApproval && settings.humanInLoop
    requires earlier != decisionId
    ensures var c := Conclude(v.pending, query, evidence, evaluations, decisionId, answer, auditResult, settings);
      && c.view.pending.value.decisionId == decisionId
      && ApproveStep(c.view, earlier).1 == None
      && RejectStep(c.view, earlier, "").1 == None
  {
  }

  /** Waiting for approval and then approving yields exactly the decision the
      agent would have returned without a human in the loop, when the model's
      answer does not itself contain the marker. Approving the caller's prefixed
      copy gives the same answer. */
  lemma ApprovalRoundTrip(v: AgentView, query: string, evidence: RetrievalResponse, evaluations: seq<PolicyEvaluation>,
                          decisionId: string, answer: string, auditResult: string, settings: AgentSettings)
    requires Aggregate(evaluations) == NeedsApproval && settings.humanInLoop
    requires !IsIn(ApprovalMarker, answer)
    ensures var c := Conclude(v.pending, query, evidence, evaluations, decisionId, answer, auditResult, settings);
      var direct := Conclude(v.pending, query, evidence, evaluations, decisionId, answer, auditResult, settings.(humanInLoop := false));
      && ApproveStep(c.view, decisionId).1 == Some(direct.decision)
      && Approved(c.decision).answer == direct.decision.answer
  {
    var c := Conclude(v.pending, query, evidence, evaluations, decisionId, answer, auditResult, settings);
    ApprovedAnswer(c.view.pending.value);
  }

  /** The event `decide` logs for its decision. */
  function DecisionEvent(n: nat, c: Concluded): AuditEvent {
    AuditEvent(n, "reasoning", c.eventType, c.payload, Some(c.decision.decisionId), SystemActor)
  }

  /** The event the policy engine logs for its evaluation. */
  function EvaluationEvent(n: nat, query: string, rules: seq<PolicyRule>, evaluations: seq<PolicyEvaluation>): AuditEvent {
    AuditEvent(n, "reasoning", "policy_evaluation", EvaluationPayload(query, |rules|, evaluations), None, SystemActor)
  }

  class DecisionAgent {
    const settings: AgentSettings
    const policy: PolicyEngine
    const audit: AuditLogger
    var state: AgentState
    var pending: Option<Decision>
    /** How often each model was consulted. */
    ghost var orchestratorCalls: nat
    ghost var auditorCalls: nat

    constructor (settings: AgentSettings, policy: PolicyEngine, audit: AuditLogger)
      ensures this.settings == settings && this.policy == policy && this.audit == audit
      ensures AgentView(state, pending) == Initial
      ensures orchestratorCalls == 0 && auditorCalls == 0
    {
      this.settings := settings;
      this.policy := policy;
      this.audit := audit;
      state := Running;
      pending := None;
      orchestratorCalls := 0;
      auditorCalls := 0;
    }

    /** `decide`: evaluate the policies, then deny, wait for a human, or complete.
        A pattern that does not compile propagates out of the evaluation. The
        engine may write to this agent's logger or to another one. */
    method Decide(query: string, evidence: RetrievalResponse, context: Option<map<string, string>>, search: Search,
                  decisionId: string, orchestrator: Orchestrator, auditor: Auditor)
      returns (r: Result<Decision, PolicyError>)
      modifies this, policy.audit, audit
      ensures var ev := EvaluateAll(policy.rules, query, evidence, context.GetOr(map[]), search);
        var answer := OrchestratorAnswer(orchestrator(query, evidence), query, evidence);
        AgentView(state, pending)
          == Step(settings, old(AgentView(state, pending)),
                  Deciding(query, evidence, ev, decisionId, answer, AuditorResult(auditor(query, answer, evidence))))
      ensures var ev := EvaluateAll(policy.rules, query, evidence, context.GetOr(map[]), search);
        ev.Err? ==>
          && r == Err(ev.error)
          && audit.events == old(audit.events) && policy.audit.events == old(policy.audit.events)
          && orchestratorCalls == old(orchestratorCalls) && auditorCalls == old(auditorCalls)
      ensures var ev := EvaluateAll(policy.rules, query, evidence, context.GetOr(map[]), search);
        var answer := OrchestratorAnswer(orchestrator(query, evidence), query, evidence);
        ev.Ok? ==>
          var c := Conclude(old(pending), query, evidence, ev.value, decisionId,
                            answer, AuditorResult(auditor(query, answer, evidence)), settings);
          var consulted := if Aggregate(ev.value) == Deny then 0 else 1;
          var evaluated := EvaluationEvent(|old(policy.audit.events)|, query, policy.rules, ev.value);
          && r == Ok(c.decision)
          && orchestratorCalls == old(orchestratorCalls) + consulted
          && auditorCalls == old(auditorCalls) + consulted
          && (policy.audit == audit ==>
                audit.events == old(audit.events) + [evaluated, DecisionEvent(|old(audit.events)| + 1, c)])
          && (policy.audit != audit ==>
                && policy.audit.events == old(policy.audit.events) + [evaluated]
                && audit.events == old(audit.events) + [DecisionEvent(|old(audit.events)|, c)])
    {
      ghost var pending0, orchestrated0, audited0 := pending, orchestratorCalls, auditorCalls;
      state := Running;
      ghost var rules := policy.rules;
      var evaluations := policy.Evaluate(query, evidence, context, search);
      assert policy.rules == rules;
      assert pending == pending0 && orchestratorCalls == orchestrated0 && auditorCalls == audited0;
      if evaluations.Err? {
        return Err(evaluations.error);
      }
      ghost var answer := OrchestratorAnswer(orchestrator(query, evidence), query, evidence);
      StepDeciding(settings, AgentView(state, pending0), query, evidence, evaluations, decisionId, answer, AuditorResult(auditor(query, answer, evidence)));
      ghost var evaluated := EvaluationEvent(|old(policy.audit.events)|, query, rules, evaluations.value);
      assert policy.audit.events == old(policy.audit.events) + [evaluated];
      ghost var logged := audit.events;
      assert policy.audit == audit ==> logged == old(audit.events) + [evaluated];
      assert policy.audit != audit ==> logged == old(audit.events);
      var decision := Finish(query, evidence, evaluations.value, decisionId, orchestrator, auditor);
      r := Ok(decision);
    }

    /** Steps 2 to 7 of `decide`, once the policies are evaluated. */
    method Finish(query: string, evidence: RetrievalResponse, evaluations: seq<PolicyEvaluation>,
                  decisionId: string, orchestrator: Orchestrator, auditor: Auditor)
      returns (decision: Decision)
      modifies this, audit
      ensures var answer := OrchestratorAnswer(orchestrator(query, evidence), query, evidence);
        var c := Conclude(old(pending), query, evidence, evaluations, decisionId,
                          answer, AuditorResult(auditor(query, answer, evidence)), settings);
        var consulted := if Aggregate(evaluations) == Deny then 0 else 1;
        && decision == c.decision
        && AgentView(state, pending) == c.view
        && audit.events == old(audit.events) + [DecisionEvent(|old(audit.events)|, c)]
        && orchestratorCalls == old(orchestratorCalls) + consulted
        && auditorCalls == old(auditorCalls) + consulted
    {
      var verdict := policy.CheckAllowed(evaluations);
      if verdict == Deny {
        state := Failed;
        decision := Decision(decisionId, query, DeniedAnswer, evidence.results, evaluations, Failed, "", "");
        var _ := audit.Log("reasoning", "decision_denied", Some(map["query" := Str(query)]), Some(decisionId), SystemActor);
        return;
      }
      orchestratorCalls := orchestratorCalls + 1;
      var answer := OrchestratorAnswer(orchestrator(query, evidence), query, evidence);
      auditorCalls := auditorCalls + 1;
      var auditResult := AuditorResult(auditor(query, answer, evidence));
      decision := Decision(decisionId, query, answer, evidence.results, evaluations, Completed,
                           settings.orchestratorModel, settings.auditorModel);
      var payload := map["query" := Str(query), "audit_result" := Str(auditResult)];
      if verdict == NeedsApproval && settings.humanInLoop {
        state := WaitingApproval;
        pending := Some(decision);
        decision := decision.(agentState := WaitingApproval, answer := ApprovalMarker + answer);
        var _ := audit.Log("reasoning", "decision_pending_approval", Some(payload), Some(decisionId), SystemActor);
        return;
      }
      state := Completed;
      var _ := audit.Log("reasoning", "decision_completed", Some(payload), Some(decisionId), SystemActor);
    }

    /** `approve`: succeeds only against the held id; then the slot is emptied and a human event logged. */
    method Approve(id: string) returns (r: Option<Decision>)
      modifies this, audit
      ensures (AgentView(state, pending), r) == ApproveStep(old(AgentView(state, pending)), id)
      ensures r.Some? ==> audit.events == old(audit.events)
                            + [AuditEvent(|old(audit.events)|, "reasoning", "decision_approved", map[], Some(id), HumanActor)]
      ensures r.None? ==> audit.events == old(audit.events)
      ensures orchestratorCalls == old(orchestratorCalls) && auditorCalls == old(auditorCalls)
    {
      if pending.None? || pending.value.decisionId != id {
        return None;
      }
      var approved := pending.value.(agentState := Completed, answer := ReplaceAll(pending.value.answer, ApprovalMarker, ""));
      state := Completed;
      pending := None;
      var _ := audit.Log("reasoning", "decision_approved", None, Some(approved.decisionId), HumanActor);
      r := Some(approved);
    }

    /** `reject`: the same guard; the answer becomes the rejection and the state FAILED. */
    method Reject(id: string, reason: string) returns (r: Option<Decision>)
      modifies this, audit
      ensures (AgentView(state, pending), r) == RejectStep(old(AgentView(state, pending)), id, reason)
      ensures r.Some? ==> audit.events == old(audit.events)
                            + [AuditEvent(|old(audit.events)|, "reasoning", "decision_rejected",
                                          map["reason" := Str(reason)], Some(id), HumanActor)]
      ensures r.None? ==> audit.events == old(audit.events)
      ensures orchestratorCalls == old(orchestratorCalls) && auditorCalls == old(auditorCalls)
    {
      if pending.None? || pending.value.decisionId != id {
        return None;
      }
      var rejected := pending.value.(agentState := Failed,
                                     answer := if reason != "" then RejectedTag + " " + reason else RejectedTag);
      state := Failed;
      pending := None;
      var _ := audit.Log("reasoning", "decision_rejected", Some(map["reason" := Str(reason)]), Some(rejected.decisionId), HumanActor);
      r := Some(rejected);
    }

    /** `override`: records the override and leaves the agent's state and slot alone. */
    method Override(decisionId: string, newAnswer: string, reason: string, overrideId: string)
      returns (o: HumanOverride)
      modifies audit
      ensures o == HumanOverride(overrideId, decisionId, "", newAnswer, reason)
      ensures audit.events == old(audit.events)
                              + [AuditEvent(|old(audit.events)|, "reasoning", "human_override", OverridePayload(o), Some(decisionId), HumanActor)]
      ensures AgentView(state, pending) == Step(settings, old(AgentView(state, pending)), Overriding)
    {
      o := HumanOverride(overrideId, decisionId, "", newAnswer, reason);
      var _ := audit.LogOverride(o);
    }
  }
}
