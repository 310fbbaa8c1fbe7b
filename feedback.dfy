/** The learning loop: feedback on decisions, a counter of mistakes by rating,
    and adjustments generated when a mistake count reaches a threshold. Saving
    and loading go through an in-memory snapshot; the JSON file is not part of
    this model. Feedback and adjustment ids are parameters. */
module Learning {
  import opened Wrappers
  import opened Seqs
  import opened PyText
  import opened PyNum
  import opened Domain
  import opened Audit

  const HallucinationKey := "hallucination"
  const IncorrectKey := "incorrect"
  const HallucinationEvery := 3
  const IncorrectEvery := 5
  const CitationPatch := "require_exact_citation"

  /** The three fields `save_state` writes and `load_state` reads back. */
  datatype Snapshot = Snapshot(feedback: seq<FeedbackRecord>, adjustments: seq<LearningAdjustment>, mistakes: map<string, nat>)

  const Empty := Snapshot([], [], map[])

  /** The ratings that count as mistakes. */
  predicate IsMistake(r: OutcomeRating) {
    r == Incorrect || r == Hallucination
  }

  /** The counter after one feedback: `+1` under the rating's value, for a mistake only. */
  function Bumped(mistakes: map<string, nat>, r: OutcomeRating): (m: map<string, nat>)
    ensures forall k :: Tally(m, k) == Tally(mistakes, k) + (if IsMistake(r) && k == RatingValue(r) then 1 else 0)
    ensures forall k :: k in m ==> k in mistakes || (IsMistake(r) && k == RatingValue(r))
  {
    if IsMistake(r) then
      TallyBump(mistakes, RatingValue(r));
      mistakes[RatingValue(r) := Tally(mistakes, RatingValue(r)) + 1]
    else mistakes
  }

  /** The adjustment made once the hallucination count `h` reaches a multiple of three. */
  function RetrievalAdjustment(h: nat, trigger: string, id: string): (a: LearningAdjustment)
    ensures a.adjustmentType == "retrieval_weight" && a.triggerFeedbackId == trigger && a.adjustmentId == id
    ensures a.parameters == map["min_score_threshold" := Real(0.1 * ((h / HallucinationEvery) as real))]
  {
    LearningAdjustment(id, trigger, "retrieval_weight",
      "Increasing retrieval confidence threshold after " + NatToString(h) + " hallucinations detected",
      map["min_score_threshold" := Real(0.1 * ((h / HallucinationEvery) as real))])
  }

  /** The adjustment made once the incorrect count `i` reaches a multiple of five. */
  function PatchAdjustment(i: nat, trigger: string, id: string): (a: LearningAdjustment)
    ensures a.adjustmentType == "prompt_patch" && a.triggerFeedbackId == trigger && a.adjustmentId == id
    ensures a.parameters == map["patch" := Str(CitationPatch)]
  {
    LearningAdjustment(id, trigger, "prompt_patch",
      "Suggesting stricter evidence grounding after " + NatToString(i) + " incorrect answers",
      map["patch" := Str(CitationPatch)])
  }

  predicate RetrievalDue(mistakes: map<string, nat>) {
    Tally(mistakes, HallucinationKey) > 0 && Tally(mistakes, HallucinationKey) % HallucinationEvery == 0
  }

  predicate PatchDue(mistakes: map<string, nat>) {
    Tally(mistakes, IncorrectKey) > 0 && Tally(mistakes, IncorrectKey) % IncorrectEvery == 0
  }

  /** What `_check_for_adjustments` appends, in order, given the counter after the feedback. */
  function Triggered(mistakes: map<string, nat>, f: FeedbackRecord, retrievalId: string, patchId: string): seq<LearningAdjustment> {
    (if RetrievalDue(mistakes) then [RetrievalAdjustment(Tally(mistakes, HallucinationKey), f.feedbackId, retrievalId)] else [])
    + (if PatchDue(mistakes) then [PatchAdjustment(Tally(mistakes, IncorrectKey), f.feedbackId, patchId)] else [])
  }

  /** All three fields after `record_feedback(f)`. */
  function Recorded(s: Snapshot, f: FeedbackRecord, retrievalId: string, patchId: string): (r: Snapshot)
    ensures r.feedback == s.feedback + [f]
    ensures forall k :: Tally(r.mistakes, k) == Tally(s.mistakes, k) + (if IsMistake(f.rating) && k == RatingValue(f.rating) then 1 else 0)
    ensures |s.adjustments| <= |r.adjustments| <= |s.adjustments| + 2
    ensures r.adjustments[..|s.adjustments|] == s.adjustments
  {
    var m := Bumped(s.mistakes, f.rating);
    Snapshot(s.feedback + [f], s.adjustments + Triggered(m, f, retrievalId, patchId), m)
  }

  predicate HasType(adjustments: seq<LearningAdjustment>, t: string) {
    exists k :: 0 <= k < |adjustments| && adjustments[k].adjustmentType == t
  }

  /** The threshold rules, both ways: a `retrieval_weight` adjustment is added
      exactly when the hallucination count is a positive multiple of three, a
      `prompt_patch` one exactly when the incorrect count is a positive multiple
      of five; each is triggered by the feedback just recorded, and the threshold
      grows with the count. */
  lemma AdjustmentRules(s: Snapshot, f: FeedbackRecord, retrievalId: string, patchId: string)
    ensures var r := Recorded(s, f, retrievalId, patchId);
      var added := r.adjustments[|s.adjustments|..];
      var h := Tally(r.mistakes, HallucinationKey);
      && (HasType(added, "retrieval_weight") <==> h > 0 && h % 3 == 0)
      && (HasType(added, "prompt_patch") <==> Tally(r.mistakes, IncorrectKey) > 0 && Tally(r.mistakes, IncorrectKey) % 5 == 0)
      && (forall k :: 0 <= k < |added| ==> added[k].triggerFeedbackId == f.feedbackId)
      && (forall k :: 0 <= k < |added| && added[k].adjustmentType == "retrieval_weight" ==>
            added[k].parameters == map["min_score_threshold" := Real(0.1 * ((h / 3) as real))])
  {
    var r := Recorded(s, f, retrievalId, patchId);
    var m := Bumped(s.mistakes, f.rating);
    var added := r.adjustments[|s.adjustments|..];
    assert added == Triggered(m, f, retrievalId, patchId);
    var ra := RetrievalAdjustment(Tally(m, HallucinationKey), f.feedbackId, retrievalId);
    var pa := PatchAdjustment(Tally(m, IncorrectKey), f.feedbackId, patchId);
    if RetrievalDue(m) {
      assert added[0] == ra;
    }
    if PatchDue(m) {
      assert added[|added| - 1] == pa;
    }
  }

  /** The rules look only at the counter, not at the feedback's rating: once
      three hallucinations are in, even a correct answer adds another
      `retrieval_weight` adjustment. */
  lemma RefiresOnCorrect(s: Snapshot, f: FeedbackRecord, retrievalId: string, patchId: string)
    requires Tally(s.mistakes, HallucinationKey) == 3 && f.rating == Correct
    ensures var r := Recorded(s, f, retrievalId, patchId);
      |r.adjustments| > |s.adjustments| && r.adjustments[|s.adjustments|] == RetrievalAdjustment(3, f.feedbackId, retrievalId)
  {
  }

  /** One call of `record_feedback` with the ids its adjustments would receive. */
  datatype Recording = Recording(feedback: FeedbackRecord, retrievalId: string, patchId: string)

  /** The loop after a sequence of recordings. */
  function Replay(s: Snapshot, steps: seq<Recording>): Snapshot
    decreases |steps|
  {
    if steps == [] then s
    else
      var last := steps[|steps| - 1];
      Recorded(Replay(s, steps[..|steps| - 1]), last.feedback, last.retrievalId, last.patchId)
  }

  /** From a fresh loop, `n` hallucinations in a row yield `n / 3` adjustments,
      all of them `retrieval_weight`. */
  lemma {:induction false} HallucinationStreak(steps: seq<Recording>)
    requires forall k :: 0 <= k < |steps| ==> steps[k].feedback.rating == Hallucination
    ensures var r := Replay(Empty, steps);
      && Tally(r.mistakes, HallucinationKey) == |steps|
      && Tally(r.mistakes, IncorrectKey) == 0
      && |r.adjustments| == |steps| / 3
      && forall k :: 0 <= k < |r.adjustments| ==> r.adjustments[k].adjustmentType == "retrieval_weight"
    decreases |steps|
  {
    if steps != [] {
      var init := steps[..|steps| - 1];
      var last := steps[|steps| - 1];
      assert forall k :: 0 <= k < |init| ==> init[k] == steps[k];
      HallucinationStreak(init);
      var before := Replay(Empty, init);
      var m := Bumped(before.mistakes, last.feedback.rating);
      assert Tally(m, HallucinationKey) == |steps|;
      assert Tally(m, IncorrectKey) == 0;
      var t := Triggered(m, last.feedback, last.retrievalId, last.patchId);
      assert Replay(Empty, steps).adjustments == before.adjustments + t;
      if |steps| % 3 == 0 {
        assert t == [RetrievalAdjustment(|steps|, last.feedback.feedbackId, last.retrievalId)];
        assert |steps| / 3 == |init| / 3 + 1;
      } else {
        assert t == [];
        assert |steps| / 3 == |init| / 3;
      }
    }
  }

  // ---------------------------------------------------------------- grading

  /** `s.lower().strip()` */
  function Normal(s: string): string {
    Strip(Lower(s))
  }

  /** The rating `evaluate_decision` gives an answer against the expected one. */
  function Grade(answer: string, expected: string, evidence: seq<RetrievalResult>): (r: OutcomeRating)
    ensures r == Correct <==> Normal(answer) == Normal(expected)
    ensures r == PartiallyCorrect <==>
      Normal(answer) != Normal(expected) && (IsIn(Normal(expected), Normal(answer)) || IsIn(Normal(answer), Normal(expected)))
    ensures IsMistake(r) ==> !IsIn(Normal(expected), Normal(answer)) && !IsIn(Normal(answer), Normal(expected))
    ensures r == Hallucination <==> IsMistake(r) && evidence == []
  {
    var a := Normal(answer);
    var e := Normal(expected);
    if a == e then Correct
    else if IsIn(e, a) || IsIn(a, e) then PartiallyCorrect
    else if evidence == [] then Hallucination
    else Incorrect
  }

  /** The grade does not depend on which side is the answer. */
  lemma GradeSymmetric(answer: string, expected: string, evidence: seq<RetrievalResult>)
    ensures Grade(answer, expected, evidence) == Grade(expected, answer, evidence)
  {
  }

  /** A blank expected string is contained in every answer: no such grade is a mistake. */
  lemma GradeBlankExpected(answer: string, expected: string, evidence: seq<RetrievalResult>)
    requires Normal(expected) == ""
    ensures !IsMistake(Grade(answer, expected, evidence))
  {
    EmptyIsIn(Normal(answer));
  }

  /** The record `evaluate_decision` builds before recording it. */
  function Graded(decision: Decision, expected: string, feedbackId: string): (f: FeedbackRecord)
    ensures f.feedbackId == feedbackId && f.decisionId == decision.decisionId
    ensures f.rating == Grade(decision.answer, expected, decision.evidence)
    ensures f.rating == Correct ==> f.correctedAnswer == ""
    ensures f.rating != Correct ==> f.correctedAnswer == expected
    ensures f.explanation == "Automated evaluation: " + RatingValue(f.rating)
  {
    var rating := Grade(decision.answer, expected, decision.evidence);
    FeedbackRecord(feedbackId, decision.decisionId, rating, if rating != Correct then expected else "",
                   "Automated evaluation: " + RatingValue(rating))
  }

  // ---------------------------------------------------------------- accuracy

  function Ratings(fs: seq<FeedbackRecord>): (r: seq<OutcomeRating>)
    ensures |r| == |fs| && forall i :: 0 <= i < |fs| ==> r[i] == fs[i].rating
  {
    seq(|fs|, i requires 0 <= i < |fs| => fs[i].rating)
  }

  function Bump(m: map<string, nat>, k: string): map<string, nat> {
    m[k := Tally(m, k) + 1]
  }

  /** The counter `compute_accuracy` builds: one key per rating that occurs. */
  function Breakdown(fs: seq<FeedbackRecord>): map<string, nat>
    decreases |fs|
  {
    if fs == [] then map[]
    else Bump(Breakdown(fs[..|fs| - 1]), RatingValue(fs[|fs| - 1].rating))
  }

  datatype AccuracyReport = AccuracyReport(total: nat, accuracy: real, breakdown: map<string, nat>)

  /** `compute_accuracy`: correct answers count one, partial ones a half, rounded to four places. */
  function Accuracy(fs: seq<FeedbackRecord>): AccuracyReport {
    if |fs| == 0 then AccuracyReport(0, 0.0, map[])
    else
      var b := Breakdown(fs);
      var correct := Tally(b, RatingValue(Correct));
      var partial := Tally(b, RatingValue(PartiallyCorrect));
      AccuracyReport(|fs|, Round4((correct as real + 0.5 * partial as real) / |fs| as real), b)
  }

  const RatingValues := {"correct", "partially_correct", "incorrect", "hallucination"}

  /** The breakdown counts each rating, and holds no other key and no zero. */
  lemma BreakdownCounts(fs: seq<FeedbackRecord>)
    ensures forall r :: Tally(Breakdown(fs), RatingValue(r)) == Count(Ratings(fs), r)
    ensures forall k :: k in Breakdown(fs) ==> k in RatingValues && Breakdown(fs)[k] > 0
  {
    forall r ensures Tally(Breakdown(fs), RatingValue(r)) == Count(Ratings(fs), r) {
      BreakdownTally(fs, r);
    }
    BreakdownKeys(fs);
  }

  /** One rating's counter is the number of records with that rating. */
  lemma {:induction false} BreakdownTally(fs: seq<FeedbackRecord>, r: OutcomeRating)
    ensures Tally(Breakdown(fs), RatingValue(r)) == Count(Ratings(fs), r)
    decreases |fs|
  {
    if fs != [] {
      var init := fs[..|fs| - 1];
      var last := fs[|fs| - 1];
      BreakdownTally(init, r);
      RatingsSnoc(fs);
      CountAppend(Ratings(init), [last.rating], r);
      CountOne(last.rating, r);
      BumpRating(Breakdown(init), last.rating, r);
    }
  }

  lemma RatingsSnoc(fs: seq<FeedbackRecord>)
    requires fs != []
    ensures Ratings(fs) == Ratings(fs[..|fs| - 1]) + [fs[|fs| - 1].rating]
  {
  }

  lemma CountOne(a: OutcomeRating, r: OutcomeRating)
    ensures Count([a], r) == if a == r then 1 else 0
  {
    assert [a][1..] == [];
  }

  /** Bumping one rating's counter moves only that rating's tally. */
  lemma BumpRating(m: map<string, nat>, a: OutcomeRating, r: OutcomeRating)
    ensures Tally(Bump(m, RatingValue(a)), RatingValue(r)) == Tally(m, RatingValue(r)) + (if a == r then 1 else 0)
  {
    RatingsExactlyFour();
    TallyBump(m, RatingValue(a));
  }

  lemma {:induction false} BreakdownKeys(fs: seq<FeedbackRecord>)
    ensures forall k :: k in Breakdown(fs) ==> k in RatingValues && Breakdown(fs)[k] > 0
    decreases |fs|
  {
    if fs != [] {
      BreakdownKeys(fs[..|fs| - 1]);
      assert RatingValue(fs[|fs| - 1].rating) in RatingValues;
    }
  }

  /** Every rating is one of the four. */
  lemma {:induction false} RatingsPartition(rs: seq<OutcomeRating>)
    ensures Count(rs, Correct) + Count(rs, PartiallyCorrect) + Count(rs, Incorrect) + Count(rs, Hallucination) == |rs|
    decreases |rs|
  {
    if rs != [] {
      RatingsPartition(rs[1..]);
      assert Count(rs, Correct) == (if rs[0] == Correct then 1 else 0) + Count(rs[1..], Correct);
      assert Count(rs, PartiallyCorrect) == (if rs[0] == PartiallyCorrect then 1 else 0) + Count(rs[1..], PartiallyCorrect);
      assert Count(rs, Incorrect) == (if rs[0] == Incorrect then 1 else 0) + Count(rs[1..], Incorrect);
      assert Count(rs, Hallucination) == (if rs[0] == Hallucination then 1 else 0) + Count(rs[1..], Hallucination);
    }
  }

  /** Correct answers counting one and partial ones a half, out of `n`, is a ratio in `[0, 1]`. */
  lemma RatioBounds(c: nat, p: nat, n: nat)
    requires 0 < n && c + p <= n
    ensures 0.0 <= (c as real + 0.5 * p as real) / n as real <= 1.0
  {
    assert c as real + 0.5 * p as real <= n as real;
  }

  /** The breakdown's four counts add up to the number of records. */
  lemma BreakdownSums(fs: seq<FeedbackRecord>)
    ensures Tally(Breakdown(fs), "correct") + Tally(Breakdown(fs), "partially_correct")
            + Tally(Breakdown(fs), "incorrect") + Tally(Breakdown(fs), "hallucination") == |fs|
  {
    BreakdownCounts(fs);
    RatingsPartition(Ratings(fs));
    assert RatingValue(Correct) == "correct" && RatingValue(PartiallyCorrect) == "partially_correct";
    assert RatingValue(Incorrect) == "incorrect" && RatingValue(Hallucination) == "hallucination";
  }

  /** The accuracy report: zero and an empty breakdown without feedback;
      otherwise the total is the number of records, the breakdown counts add up
      to it, and the accuracy lies between 0 and 1. */
  lemma AccuracyFacts(fs: seq<FeedbackRecord>)
    ensures var a := Accuracy(fs);
      && a.total == |fs|
      && (fs == [] ==> a.accuracy == 0.0 && a.breakdown == map[])
      && Tally(a.breakdown, "correct") + Tally(a.breakdown, "partially_correct")
         + Tally(a.breakdown, "incorrect") + Tally(a.breakdown, "hallucination") == |fs|
      && 0.0 <= a.accuracy <= 1.0
  {
    BreakdownSums(fs);
    if fs != [] {
      var b := Breakdown(fs);
      var c := Tally(b, "correct");
      var p := Tally(b, "partially_correct");
      RatioBounds(c, p, |fs|);
      Round4UnitInterval((c as real + 0.5 * p as real) / |fs| as real);
    }
  }

  /** Two correct, one incorrect and one partial answer score 0.625. */
  lemma AccuracyExample(a: FeedbackRecord, b: FeedbackRecord, c: FeedbackRecord, d: FeedbackRecord)
    requires a.rating == Correct && b.rating == Correct && c.rating == Incorrect && d.rating == PartiallyCorrect
    ensures Accuracy([a, b, c, d]).accuracy == 0.625
  {
    var fs := [a, b, c, d];
    BreakdownCounts(fs);
    var rs := Ratings(fs);
    assert rs == [Correct, Correct, Incorrect, PartiallyCorrect];
    assert rs[1..] == [Correct, Incorrect, PartiallyCorrect];
    assert rs[1..][1..] == [Incorrect, PartiallyCorrect];
    assert rs[1..][1..][1..] == [PartiallyCorrect];
    assert rs[1..][1..][1..][1..] == [];
    assert Count(rs[1..][1..][1..], PartiallyCorrect) == 1;
    assert Count(rs[1..][1..], PartiallyCorrect) == 1;
    assert Count(rs[1..], PartiallyCorrect) == 1;
    assert Count(rs, Correct) == 2;
    assert Count(rs, PartiallyCorrect) == 1;
    Round4Exact(6250);
  }

  // ---------------------------------------------------------------- events

  /** The payload of the `feedback_recorded` event. */
  function FeedbackPayload(f: FeedbackRecord): Payload {
    map["decision_id" := Str(f.decisionId), "rating" := Str(RatingValue(f.rating)),
        "has_correction" := Bool(f.correctedAnswer != "")]
  }

  function FeedbackEvent(n: nat, f: FeedbackRecord): AuditEvent {
    AuditEvent(n, "learning", "feedback_recorded", FeedbackPayload(f), Some(f.decisionId), SystemActor)
  }

  function AdjustmentEvents(n: nat, adjustments: seq<LearningAdjustment>): (r: seq<AuditEvent>)
    ensures |r| == |adjustments|
    decreases |adjustments|
  {
    if adjustments == [] then []
    else [AuditEvent(n, "learning", "adjustment_created", AdjustmentPayload(adjustments[0]), None, SystemActor)]
         + AdjustmentEvents(n + 1, adjustments[1..])
  }

  // ---------------------------------------------------------------- the loop

  class LearningLoop {
    const audit: AuditLogger
    var feedback: seq<FeedbackRecord>
    var adjustments: seq<LearningAdjustment>
    var mistakes: map<string, nat>

    constructor (audit: AuditLogger)
      ensures this.audit == audit && State() == Empty
    {
      this.audit := audit;
      feedback := [];
      adjustments := [];
      mistakes := map[];
    }

    function State(): Snapshot
      reads this
    {
      Snapshot(feedback, adjustments, mistakes)
    }

    function FeedbackCount(): nat
      reads this
    {
      |feedback|
    }

    function AdjustmentCount(): nat
      reads this
    {
      |adjustments|
    }

    /** `record_feedback`: append the record, count a mistake, log it, then apply
        the threshold rules, whatever the rating. */
    method RecordFeedback(f: FeedbackRecord, retrievalId: string, patchId: string) returns (r: FeedbackRecord)
      modifies this, audit
      ensures r == f
      ensures State() == Recorded(old(State()), f, retrievalId, patchId)
      ensures audit.events == old(audit.events) + [FeedbackEvent(|old(audit.events)|, f)]
        + AdjustmentEvents(|old(audit.events)| + 1, Triggered(mistakes, f, retrievalId, patchId))
    {
      feedback := feedback + [f];
      if f.rating == Incorrect || f.rating == Hallucination {
        mistakes := mistakes[RatingValue(f.rating) := Tally(mistakes, RatingValue(f.rating)) + 1];
      }
      assert mistakes == Bumped(old(mistakes), f.rating);
      var _ := audit.Log("learning", "feedback_recorded", Some(FeedbackPayload(f)), Some(f.decisionId), SystemActor);
      ghost var logged := audit.events;
      assert logged == old(audit.events) + [FeedbackEvent(|old(audit.events)|, f)];
      CheckForAdjustments(f, retrievalId, patchId);
      assert |logged| == |old(audit.events)| + 1;
      r := f;
    }

    /** `_check_for_adjustments` */
    method CheckForAdjustments(f: FeedbackRecord, retrievalId: string, patchId: string)
      modifies this, audit
      ensures feedback == old(feedback) && mistakes == old(mistakes)
      ensures adjustments == old(adjustments) + Triggered(mistakes, f, retrievalId, patchId)
      ensures audit.events == old(audit.events) + AdjustmentEvents(|old(audit.events)|, Triggered(mistakes, f, retrievalId, patchId))
    {
      var hallucinations := Tally(mistakes, HallucinationKey);
      var incorrect := Tally(mistakes, IncorrectKey);
      ghost var made: seq<LearningAdjustment> := [];
      if hallucinations > 0 && hallucinations % 3 == 0 {
        var adj := RetrievalAdjustment(hallucinations, f.feedbackId, retrievalId);
        AddAdjustment(adj);
        AdjustmentEventsSnoc(|old(audit.events)|, made, adj);
        made := made + [adj];
      }
      if incorrect > 0 && incorrect % 5 == 0 {
        var adj := PatchAdjustment(incorrect, f.feedbackId, patchId);
        AddAdjustment(adj);
        AdjustmentEventsSnoc(|old(audit.events)|, made, adj);
        made := made + [adj];
      }
      assert made == Triggered(mistakes, f, retrievalId, patchId);
    }

    /** Keeping one adjustment: appended to the list and logged. */
    method AddAdjustment(adj: LearningAdjustment)
      modifies this, audit
      ensures feedback == old(feedback) && mistakes == old(mistakes)
      ensures adjustments == old(adjustments) + [adj]
      ensures audit.events == old(audit.events)
        + [AuditEvent(|old(audit.events)|, "learning", "adjustment_created", AdjustmentPayload(adj), None, SystemActor)]
    {
      adjustments := adjustments + [adj];
      var _ := audit.Log("learning", "adjustment_created", Some(AdjustmentPayload(adj)), None, SystemActor);
    }

    /** `get_feedback_for_decision`: exactly the records about that decision, in the order recorded. */
    function FeedbackFor(decisionId: string): (r: seq<FeedbackRecord>)
      reads this
      ensures forall i :: 0 <= i < |r| ==> r[i] in feedback && r[i].decisionId == decisionId
      ensures forall i :: 0 <= i < |feedback| && feedback[i].decisionId == decisionId ==> feedback[i] in r
      ensures r == Filter(feedback, (f: FeedbackRecord) => f.decisionId == decisionId)
    {
      Filter(feedback, (f: FeedbackRecord) => f.decisionId == decisionId)
    }

    /** `get_adjustments`: a copy of the list. */
    function GetAdjustments(): (r: seq<LearningAdjustment>)
      reads this
      ensures |r| == |adjustments| && forall i :: 0 <= i < |r| ==> r[i] == adjustments[i]
    {
      adjustments
    }

    /** `evaluate_decision`: grade the answer, then record the grade as feedback. */
    method EvaluateDecision(decision: Decision, expected: string, feedbackId: string, retrievalId: string, patchId: string)
      returns (f: FeedbackRecord)
      modifies this, audit
      ensures f == Graded(decision, expected, feedbackId)
      ensures State() == Recorded(old(State()), f, retrievalId, patchId)
      ensures audit.events == old(audit.events) + [FeedbackEvent(|old(audit.events)|, f)]
        + AdjustmentEvents(|old(audit.events)| + 1, Triggered(mistakes, f, retrievalId, patchId))
    {
      var answer := Normal(decision.answer);
      var expectedLower := Normal(expected);
      var rating: OutcomeRating;
      if answer == expectedLower {
        rating := Correct;
      } else if IsIn(expectedLower, answer) || IsIn(answer, expectedLower) {
        rating := PartiallyCorrect;
      } else if decision.evidence == [] {
        rating := Hallucination;
      } else {
        rating := Incorrect;
      }
      var record := FeedbackRecord(feedbackId, decision.decisionId, rating,
                                   if rating != Correct then expected else "",
                                   "Automated evaluation: " + RatingValue(rating));
      f := RecordFeedback(record, retrievalId, patchId);
    }

    /** `compute_accuracy`: one pass counting ratings, then the ratio. */
    method ComputeAccuracy() returns (report: AccuracyReport)
      ensures report == Accuracy(feedback)
    {
      var total := |feedback|;
      if total == 0 {
        return AccuracyReport(0, 0.0, map[]);
      }
      var counts: map<string, nat> := map[];
      for i := 0 to |feedback|
        invariant counts == Breakdown(feedback[..i])
      {
        assert feedback[..i + 1][..i] == feedback[..i];
        var key := RatingValue(feedback[i].rating);
        counts := counts[key := Tally(counts, key) + 1];
      }
      assert feedback[..|feedback|] == feedback;
      var correct := Tally(counts, "correct");
      var partial := Tally(counts, "partially_correct");
      report := AccuracyReport(total, Round4((correct as real + 0.5 * partial as real) / total as real), counts);
    }

    /** `save_state`: the three fields together. */
    method SaveState() returns (s: Snapshot)
      ensures s == State()
    {
      s := Snapshot(feedback, adjustments, mistakes);
    }

    /** `load_state`: without a saved state nothing changes; otherwise all three
        fields are replaced together, so every later `record_feedback` behaves as
        it would have on the loop that saved them. */
    method LoadState(saved: Option<Snapshot>) returns (loaded: bool)
      modifies this
      ensures loaded == saved.Some?
      ensures saved.Some? ==> State() == saved.value
      ensures saved.None? ==> State() == old(State())
    {
      if saved.None? {
        return false;
      }
      feedback := saved.value.feedback;
      adjustments := saved.value.adjustments;
      mistakes := saved.value.mistakes;
      loaded := true;
    }
  }

  lemma {:induction false} AdjustmentEventsSnoc(n: nat, adjustments: seq<LearningAdjustment>, a: LearningAdjustment)
    ensures AdjustmentEvents(n, adjustments + [a])
         == AdjustmentEvents(n, adjustments) + [AuditEvent(n + |adjustments|, "learning", "adjustment_created", AdjustmentPayload(a), None, SystemActor)]
    decreases |adjustments|
  {
    if adjustments == [] {
      assert adjustments + [a] == [a];
    } else {
      assert (adjustments + [a])[1..] == adjustments[1..] + [a];
      AdjustmentEventsSnoc(n + 1, adjustments[1..], a);
    }
  }
}
