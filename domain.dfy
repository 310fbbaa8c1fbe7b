/** The frozen records and enumerations shared by every layer. A record is a
    value: a "change" builds a new value that copies every other field.
    Timestamps (`created_at`, `applied_at`, ...) are not part of this model;
    identifiers that the system draws from `uuid4` are supplied by the caller. */
module Domain {
  import opened Wrappers

  /** The values that appear in audit payloads and adjustment parameters (`Any`). */
  datatype Value =
    | Str(s: string)
    | Int(i: int)
    | Real(r: real)
    | Bool(b: bool)
    | Null
    | List(items: seq<Value>)
    | Dict(entries: map<string, Value>)

  type Payload = map<string, Value>

  // ---------------------------------------------------------------- perception

  datatype BoundingBox = BoundingBox(x: real, y: real, width: real, height: real, page: int)

  datatype ExtractedText = ExtractedText(text: string, confidence: real, bbox: Option<BoundingBox>, sourcePage: int)

  datatype ExtractedImage = ExtractedImage(
    imageId: string, page: int, bbox: Option<BoundingBox>, imageBytesB64: string, description: string)

  datatype DocumentIngestion = DocumentIngestion(
    docId: string, filename: string, mimeType: string, pages: int,
    texts: seq<ExtractedText>, images: seq<ExtractedImage>)

  // ---------------------------------------------------------------- knowledge

  datatype Citation = Citation(
    docId: string, page: int, bbox: Option<BoundingBox>, imageId: Option<string>, snippet: string)

  datatype RetrievalResult = RetrievalResult(
    chunkId: string, text: string, score: real, citations: seq<Citation>, modality: string)

  datatype RetrievalResponse = RetrievalResponse(query: string, results: seq<RetrievalResult>, strategy: string)

  /** `RetrievalResult(chunk_id=..., text=...)` with every other field at its default. */
  function NewResult(chunkId: string, text: string): (r: RetrievalResult)
    ensures r.chunkId == chunkId && r.text == text
    ensures r.score == 0.0 && r.citations == [] && r.modality == "text"
  {
    RetrievalResult(chunkId, text, 0.0, [], "text")
  }

  // ---------------------------------------------------------------- reasoning

  datatype PolicyVerdict = Allow | Deny | NeedsApproval

  /** The string value of each verdict (`PolicyVerdict.value`). */
  function VerdictValue(v: PolicyVerdict): string {
    match v
    case Allow => "allow"
    case Deny => "deny"
    case NeedsApproval => "needs_approval"
  }

  const AllVerdicts: set<PolicyVerdict> := {Allow, Deny, NeedsApproval}

  /** There are exactly three verdicts and their string values tell them apart. */
  lemma VerdictsExactlyThree()
    ensures forall v: PolicyVerdict :: v in AllVerdicts
    ensures |AllVerdicts| == 3
    ensures forall a, b :: VerdictValue(a) == VerdictValue(b) ==> a == b
  {
    forall v: PolicyVerdict ensures v in AllVerdicts {
      match v
      case Allow =>
      case Deny =>
      case NeedsApproval =>
    }
    assert AllVerdicts == {Allow} + {Deny} + {NeedsApproval};
  }

  datatype PolicyRule = PolicyRule(
    ruleId: string, name: string, description: string, condition: string, verdict: PolicyVerdict)

  /** `PolicyRule(name=...)`: empty description and condition, verdict ALLOW. */
  function NewRule(ruleId: string, name: string): (r: PolicyRule)
    ensures r.ruleId == ruleId && r.name == name
    ensures r.description == "" && r.condition == "" && r.verdict == Allow
  {
    PolicyRule(ruleId, name, "", "", Allow)
  }

  datatype PolicyEvaluation = PolicyEvaluation(
    rule: PolicyRule, matched: bool, verdict: PolicyVerdict, explanation: string)

  datatype AgentState = Running | Paused | WaitingApproval | Completed | Failed

  function StateValue(s: AgentState): string {
    match s
    case Running => "running"
    case Paused => "paused"
    case WaitingApproval => "waiting_approval"
    case Completed => "completed"
    case Failed => "failed"
  }

  const AllStates: set<AgentState> := {Running, Paused, WaitingApproval, Completed, Failed}

  /** There are exactly five agent states and their string values tell them apart. */
  lemma StatesExactlyFive()
    ensures forall s: AgentState :: s in AllStates
    ensures |AllStates| == 5
    ensures forall a, b :: StateValue(a) == StateValue(b) ==> a == b
  {
    forall s: AgentState ensures s in AllStates {
      match s
      case Running =>
      case Paused =>
      case WaitingApproval =>
      case Completed =>
      case Failed =>
    }
    assert AllStates == {Running} + {Paused} + {WaitingApproval} + {Completed} + {Failed};
  }

  datatype Decision = Decision(
    decisionId: string, query: string, answer: string,
    evidence: seq<RetrievalResult>, policyEvaluations: seq<PolicyEvaluation>,
    agentState: AgentState, modelUsed: string, auditorModel: string)

  /** `Decision(query=..., answer=...)`: no evidence, no evaluations, state COMPLETED. */
  function NewDecision(decisionId: string, query: string, answer: string): (d: Decision)
    ensures d.decisionId == decisionId && d.query == query && d.answer == answer
    ensures d.evidence == [] && d.policyEvaluations == [] && d.agentState == Completed
    ensures d.modelUsed == "" && d.auditorModel == ""
  {
    Decision(decisionId, query, answer, [], [], Completed, "", "")
  }

  // ---------------------------------------------------------------- learning

  datatype OutcomeRating = Correct | PartiallyCorrect | Incorrect | Hallucination

  function RatingValue(r: OutcomeRating): string {
    match r
    case Correct => "correct"
    case PartiallyCorrect => "partially_correct"
    case Incorrect => "incorrect"
    case Hallucination => "hallucination"
  }

  const AllRatings: set<OutcomeRating> := {Correct, PartiallyCorrect, Incorrect, Hallucination}

  /** There are exactly four ratings and their string values, which key the
      mistake counter, tell them apart. */
  lemma RatingsExactlyFour()
    ensures forall r: OutcomeRating :: r in AllRatings
    ensures |AllRatings| == 4
    ensures forall a, b :: RatingValue(a) == RatingValue(b) ==> a == b
  {
    forall r: OutcomeRating ensures r in AllRatings {
      match r
      case Correct =>
      case PartiallyCorrect =>
      case Incorrect =>
      case Hallucination =>
    }
    assert AllRatings == {Correct} + {PartiallyCorrect} + {Incorrect} + {Hallucination};
  }

  datatype FeedbackRecord = FeedbackRecord(
    feedbackId: string, decisionId: string, rating: OutcomeRating,
    correctedAnswer: string, explanation: string)

  datatype LearningAdjustment = LearningAdjustment(
    adjustmentId: string, triggerFeedbackId: string, adjustmentType: string,
    description: string, parameters: Payload)

  /** `adj.model_dump(mode="json")` */
  function AdjustmentPayload(a: LearningAdjustment): Payload {
    map[
      "adjustment_id" := Str(a.adjustmentId),
      "trigger_feedback_id" := Str(a.triggerFeedbackId),
      "adjustment_type" := Str(a.adjustmentType),
      "description" := Str(a.description),
      "parameters" := Dict(a.parameters)
    ]
  }

  // ---------------------------------------------------------------- audit

  /** An audit event. `eventNo` is its position in the log, standing in for the random `event_id`. */
  datatype AuditEvent = AuditEvent(
    eventNo: nat, layer: string, eventType: string, payload: Payload,
    decisionId: Option<string>, actor: string)

  datatype HumanOverride = HumanOverride(
    overrideId: string, decisionId: string, originalAnswer: string,
    overriddenAnswer: string, reason: string)

  /** `override.model_dump(mode="json")` */
  function OverridePayload(o: HumanOverride): Payload {
    map[
      "override_id" := Str(o.overrideId),
      "decision_id" := Str(o.decisionId),
      "original_answer" := Str(o.originalAnswer),
      "overridden_answer" := Str(o.overriddenAnswer),
      "reason" := Str(o.reason)
    ]
  }
}
