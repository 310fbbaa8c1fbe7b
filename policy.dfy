/** The policy engine: rules are data (a condition string and a verdict), each
    is checked against the query, the retrieved evidence and a context map, and
    the matched verdicts are folded into one aggregate verdict. */
module Policy {
  import opened Wrappers
  import opened Seqs
  import opened PyText
  import opened PyNum
  import opened Domain
  import opened Audit

  // ---------------------------------------------------------------- regular expressions

  /** What `re.search(pattern, query, re.IGNORECASE)` reports: a match, no
      match, or a pattern that does not compile (`re.error`). */
  datatype RegexOutcome = Found | NotFound | BadPattern

  /** The regular-expression engine is outside the model; it is passed in. */
  type Search = (string, string) -> RegexOutcome

  /** The characters that make a pattern more than a literal string. */
  predicate IsMeta(c: char) {
    c in "\\.^$*+?{}[]|()"
  }

  predicate Literal(p: string) {
    forall k :: 0 <= k < |p| ==> !IsMeta(p[k])
  }

  /** An engine that behaves as `re` does on a literal ASCII pattern searched
      in an ASCII query: the pattern always compiles and is found exactly when
      it occurs in the query, ignoring the case of letters. Outside ASCII,
      `re.IGNORECASE` folds more than `Lower` does (`s` matches `ſ`), so
      nothing is required there. */
  ghost predicate LiteralFaithful(search: Search) {
    forall p, q :: Literal(p) && IsAscii(p) && IsAscii(q) ==>
      search(p, q) == (if IsIn(Lower(p), Lower(q)) then Found else NotFound)
  }

  /** Plain case-insensitive substring search is such an engine, so the
      assumption can be met. */
  lemma SubstringEngineFaithful()
    ensures LiteralFaithful((p: string, q: string) => if IsIn(Lower(p), Lower(q)) then Found else NotFound)
  {
  }

  // ---------------------------------------------------------------- conditions

  /** The one way a condition check fails: a `contains:` pattern that is not a regular expression. */
  datatype PolicyError = InvalidPattern(ruleId: string, pattern: string)

  /** The meaning of a condition string after `strip()`. `MinScore(None)` is a
      threshold that `float()` rejects. */
  datatype Condition =
    | NoEvidence
    | ContainsPattern(pattern: string)
    | MinScore(threshold: Option<Float>)
    | ContextEquals(key: string, value: string)
    | Unrecognised

  const ContainsTag := "contains:"
  const MinScoreTag := "min_score:"
  const ContextTag := "context:"

  /** The dispatch at the top of `_check_condition`, tried in its order. */
  function ParseCondition(condition: string): (c: Condition)
    ensures c == NoEvidence <==> Strip(condition) == "no_evidence"
    ensures c.ContainsPattern? ==> StartsWith(Strip(condition), ContainsTag) && Trimmed(c.pattern)
    ensures c.MinScore? ==> StartsWith(Strip(condition), MinScoreTag)
    ensures c.ContextEquals? ==> StartsWith(Strip(condition), ContextTag) && Trimmed(c.key) && Trimmed(c.value)
  {
    var cond := Strip(condition);
    if cond == "no_evidence" then NoEvidence
    else if StartsWith(cond, ContainsTag) then ContainsPattern(Strip(cond[|ContainsTag|..]))
    else if StartsWith(cond, MinScoreTag) then MinScore(ParseFloat(Strip(cond[|MinScoreTag|..])))
    else if StartsWith(cond, ContextTag) then ParseContextBody(Strip(cond[|ContextTag|..]))
    else Unrecognised
  }

  /** `key, value = kv.split("=", 1)` when `"=" in kv`. */
  function ParseContextBody(kv: string): Condition {
    var i := FindChar(kv, '=');
    if i < 0 then Unrecognised
    else ContextEquals(Strip(kv[..i]), Strip(kv[i + 1..]))
  }

  /** `evidence.results[0].score if evidence.results else 0.0` */
  function TopScore(evidence: RetrievalResponse): real {
    if evidence.results != [] then evidence.results[0].score else 0.0
  }

  /** `context.get(key, "")` */
  function Lookup(context: map<string, string>, key: string): string {
    if key in context then context[key] else ""
  }

  /** `_check_condition`: whether the rule's condition holds, or the error it raises. */
  function CheckCondition(rule: PolicyRule, query: string, evidence: RetrievalResponse,
                          context: map<string, string>, search: Search): (r: Result<bool, PolicyError>)
    ensures r.Err? <==> ParseCondition(rule.condition).ContainsPattern?
                        && search(ParseCondition(rule.condition).pattern, query) == BadPattern
    ensures ParseCondition(rule.condition).Unrecognised? ==> r == Ok(false)
    ensures ParseCondition(rule.condition) == MinScore(None) ==> r == Ok(false)
  {
    match ParseCondition(rule.condition)
    case NoEvidence => Ok(|evidence.results| == 0)
    case ContainsPattern(p) =>
      (match search(p, query)
       case Found => Ok(true)
       case NotFound => Ok(false)
       case BadPattern => Err(InvalidPattern(rule.ruleId, p)))
    case MinScore(t) => Ok(t.Some? && Below(TopScore(evidence), t.value))
    case ContextEquals(k, v) => Ok(Lookup(context, k) == v)
    case Unrecognised => Ok(false)
  }

  // ---------------------------------------------------------------- writing conditions

  /** The conditions that have a canonical spelling. */
  predicate Writable(c: Condition) {
    match c
    case NoEvidence => true
    case ContainsPattern(p) => Trimmed(p)
    case MinScore(t) => t.Some? && t.value.Finite? && t.value.r.Floor as real == t.value.r && t.value.r >= 0.0
    case ContextEquals(k, v) => Trimmed(k) && Trimmed(v) && '=' !in k
    case Unrecognised => false
  }

  /** The condition string a rule author writes for `c`. */
  function WriteCondition(c: Condition): string
    requires Writable(c)
  {
    match c
    case NoEvidence => "no_evidence"
    case ContainsPattern(p) => ContainsTag + p
    case MinScore(t) => MinScoreTag + NatToString(t.value.r.Floor)
    case ContextEquals(k, v) => ContextTag + k + "=" + v
  }

  /** Reading back a written condition gives the condition that was written. */
  lemma ParseWrite(c: Condition)
    requires Writable(c)
    ensures ParseCondition(WriteCondition(c)) == c
  {
    match c
    case NoEvidence =>
      StripTrimmed("no_evidence");
    case ContainsPattern(p) =>
      ParseContains(p);
    case MinScore(t) =>
      ParseMinScore(t.value.r.Floor);
    case ContextEquals(k, v) =>
      ParseContext(k, v);
  }

  lemma ParseContains(p: string)
    requires Trimmed(p)
    ensures ParseCondition(ContainsTag + p) == ContainsPattern(p)
  {
    var s := ContainsTag + p;
    assert s[0] == 'c' && s[|s| - 1] == if p == [] then ':' else p[|p| - 1];
    StripTrimmed(s);
    assert s != "no_evidence" by { assert s[0] != 'n'; }
    assert s[..|ContainsTag|] == ContainsTag;
    assert s[|ContainsTag|..] == p;
    StripTrimmed(p);
  }

  lemma ParseMinScore(n: nat)
    ensures ParseCondition(MinScoreTag + NatToString(n)) == MinScore(Some(Finite(n as real)))
  {
    var digits := NatToString(n);
    var s := MinScoreTag + digits;
    assert s[0] == 'm' && s[|s| - 1] == digits[|digits| - 1];
    assert Trimmed(digits);
    StripTrimmed(s);
    assert s != "no_evidence" by { assert s[0] != 'n'; }
    assert !StartsWith(s, ContainsTag) by { assert s[0] != ContainsTag[0]; }
    assert s[..|MinScoreTag|] == MinScoreTag;
    assert s[|MinScoreTag|..] == digits;
    StripTrimmed(digits);
    ParseNat(n);
  }

  lemma ParseContext(k: string, v: string)
    requires Trimmed(k) && Trimmed(v) && '=' !in k
    ensures ParseCondition(ContextTag + k + "=" + v) == ContextEquals(k, v)
  {
    var kv := k + ("=" + v);
    assert ContextTag + k + "=" + v == ContextTag + kv;
    assert kv[0] == if k == [] then '=' else k[0];
    assert kv[|kv| - 1] == if v == [] then '=' else v[|v| - 1];
    ContextString(kv);
    StripTrimmed(kv);
    ContextBody(k, v);
  }

  /** The body `k=v` splits at its first `=`, which is the one after `k`. */
  lemma ContextBody(k: string, v: string)
    requires Trimmed(k) && Trimmed(v) && '=' !in k
    ensures ParseContextBody(k + ("=" + v)) == ContextEquals(k, v)
  {
    var kv := k + ("=" + v);
    FindCharAfter(k, "=" + v, '=');
    var i := FindChar(kv, '=');
    assert i == |k|;
    SliceAtSeam(k, "=" + v);
    assert kv == (k + "=") + v;
    SliceAtSeam(k + "=", v);
    StripTrimmed(k);
    StripTrimmed(v);
  }

  /** A string that starts with `context:` is read past the tag. */
  lemma ContextString(kv: string)
    requires kv != [] && !IsSpace(kv[|kv| - 1])
    ensures ParseCondition(ContextTag + kv) == ParseContextBody(Strip(kv))
  {
    var s := ContextTag + kv;
    assert s[0] == 'c' && s[|s| - 1] == kv[|kv| - 1];
    StripTrimmed(s);
    assert s != "no_evidence" by { assert s[0] != 'n'; }
    assert !StartsWith(s, ContainsTag) by { assert s[4] != ContainsTag[4]; }
    assert !StartsWith(s, MinScoreTag) by { assert s[0] != MinScoreTag[0]; }
    assert s[..|ContextTag|] == ContextTag;
    assert s[|ContextTag|..] == kv;
  }

  // ---------------------------------------------------------------- one rule

  function Explanation(name: string, matched: bool): string {
    "Rule '" + name + "' " + (if matched then "matched" else "did not match")
  }

  /** The evaluation of one rule: its verdict when it matched, ALLOW otherwise. */
  function EvaluateRule(rule: PolicyRule, query: string, evidence: RetrievalResponse,
                        context: map<string, string>, search: Search): (r: Result<PolicyEvaluation, PolicyError>)
    ensures r.Err? <==> CheckCondition(rule, query, evidence, context, search).Err?
    ensures r.Ok? ==> && r.value.rule == rule
                      && r.value.matched == (CheckCondition(rule, query, evidence, context, search) == Ok(true))
                      && r.value.verdict == (if r.value.matched then rule.verdict else Allow)
                      && r.value.explanation == Explanation(rule.name, r.value.matched)
  {
    match CheckCondition(rule, query, evidence, context, search)
    case Err(e) => Err(e)
    case Ok(m) => Ok(PolicyEvaluation(rule, m, if m then rule.verdict else Allow, Explanation(rule.name, m)))
  }

  /** The evaluation of one rule, as a function of the rule alone. */
  function Evaluator(query: string, evidence: RetrievalResponse, context: map<string, string>, search: Search)
    : PolicyRule -> Result<PolicyEvaluation, PolicyError>
  {
    rule => EvaluateRule(rule, query, evidence, context, search)
  }

  /** The evaluations of `rules` in order, or the error of the first rule that raises. */
  function EvaluateAll(rules: seq<PolicyRule>, query: string, evidence: RetrievalResponse,
                       context: map<string, string>, search: Search): (r: Result<seq<PolicyEvaluation>, PolicyError>)
    ensures r.Ok? <==> forall i :: 0 <= i < |rules| ==> EvaluateRule(rules[i], query, evidence, context, search).Ok?
    ensures r.Ok? ==> |r.value| == |rules|
                      && forall i :: 0 <= i < |rules| ==> EvaluateRule(rules[i], query, evidence, context, search) == Ok(r.value[i])
    ensures r.Err? ==> exists i :: && 0 <= i < |rules| && EvaluateRule(rules[i], query, evidence, context, search) == Err(r.error)
                                   && forall j :: 0 <= j < i ==> EvaluateRule(rules[j], query, evidence, context, search).Ok?
  {
    MapResult(rules, Evaluator(query, evidence, context, search))
  }

  /** `sum(1 for e in evaluations if e.matched)` */
  function MatchedCount(evaluations: seq<PolicyEvaluation>): (n: nat)
    ensures n <= |evaluations|
    decreases |evaluations|
  {
    if evaluations == [] then 0
    else MatchedCount(evaluations[..|evaluations| - 1]) + (if evaluations[|evaluations| - 1].matched then 1 else 0)
  }

  /** `[e.verdict.value for e in evaluations]` */
  function VerdictValues(evaluations: seq<PolicyEvaluation>): (r: seq<Value>)
    ensures |r| == |evaluations|
    ensures forall i :: 0 <= i < |r| ==> r[i] == Str(VerdictValue(evaluations[i].verdict))
  {
    seq(|evaluations|, i requires 0 <= i < |evaluations| => Str(VerdictValue(evaluations[i].verdict)))
  }

  /** The payload of the `policy_evaluation` audit event. */
  function EvaluationPayload(query: string, rulesChecked: nat, evaluations: seq<PolicyEvaluation>): Payload {
    map[
      "query" := Str(query),
      "rules_checked" := Int(rulesChecked),
      "rules_matched" := Int(MatchedCount(evaluations)),
      "verdicts" := List(VerdictValues(evaluations))
    ]
  }

  // ---------------------------------------------------------------- the aggregate verdict

  /** Some evaluation matched with verdict `v`. */
  predicate HasMatched(evaluations: seq<PolicyEvaluation>, v: PolicyVerdict) {
    exists i :: 0 <= i < |evaluations| && evaluations[i].matched && evaluations[i].verdict == v
  }

  /** DENY if any matched evaluation denies, else NEEDS_APPROVAL if any asks for it, else ALLOW. */
  function Aggregate(evaluations: seq<PolicyEvaluation>): PolicyVerdict {
    if HasMatched(evaluations, Deny) then Deny
    else if HasMatched(evaluations, NeedsApproval) then NeedsApproval
    else Allow
  }

  /** How severe a verdict is. */
  function Severity(v: PolicyVerdict): nat {
    match v
    case Allow => 0
    case NeedsApproval => 1
    case Deny => 2
  }

  /** The aggregate of two lists of evaluations is the more severe of their aggregates. */
  lemma AggregateAppend(a: seq<PolicyEvaluation>, b: seq<PolicyEvaluation>)
    ensures Severity(Aggregate(a + b)) == if Severity(Aggregate(a)) >= Severity(Aggregate(b))
                                         then Severity(Aggregate(a)) else Severity(Aggregate(b))
  {
    var ab := a + b;
    forall v ensures HasMatched(ab, v) <==> HasMatched(a, v) || HasMatched(b, v) {
      if HasMatched(ab, v) {
        var i :| 0 <= i < |ab| && ab[i].matched && ab[i].verdict == v;
        if i >= |a| {
          assert b[i - |a|] == ab[i];
        }
      }
      if HasMatched(b, v) {
        var i :| 0 <= i < |b| && b[i].matched && b[i].verdict == v;
        assert ab[|a| + i] == b[i];
      }
      if HasMatched(a, v) {
        var i :| 0 <= i < |a| && a[i].matched && a[i].verdict == v;
        assert ab[i] == a[i];
      }
    }
  }

  /** The aggregate does not depend on the order of the evaluations. */
  lemma AggregateReordered(a: seq<PolicyEvaluation>, b: seq<PolicyEvaluation>)
    requires multiset(a) == multiset(b)
    ensures Aggregate(a) == Aggregate(b)
  {
    forall v ensures HasMatched(a, v) <==> HasMatched(b, v) {
      if HasMatched(a, v) {
        var i :| 0 <= i < |a| && a[i].matched && a[i].verdict == v;
        assert a[i] in multiset(b);
        var j :| 0 <= j < |b| && b[j] == a[i];
      }
      if HasMatched(b, v) {
        var i :| 0 <= i < |b| && b[i].matched && b[i].verdict == v;
        assert b[i] in multiset(a);
        var j :| 0 <= j < |a| && a[j] == b[i];
      }
    }
  }

  /** On the evaluations of a rule list, the aggregate is DENY exactly when a
      DENY rule matched, and ALLOW exactly when no DENY or NEEDS_APPROVAL rule did. */
  lemma AggregateOfRules(rules: seq<PolicyRule>, query: string, evidence: RetrievalResponse,
                         context: map<string, string>, search: Search)
    requires EvaluateAll(rules, query, evidence, context, search).Ok?
    ensures var evs := EvaluateAll(rules, query, evidence, context, search).value;
      && (Aggregate(evs) == Deny <==>
            exists i :: 0 <= i < |rules| && rules[i].verdict == Deny && evs[i].matched)
      && (Aggregate(evs) == Allow <==>
            forall i :: 0 <= i < |rules| && evs[i].matched ==> rules[i].verdict == Allow)
  {
    var evs := EvaluateAll(rules, query, evidence, context, search).value;
    assert forall i :: 0 <= i < |rules| ==> evs[i].matched ==> evs[i].verdict == rules[i].verdict;
  }

  // ---------------------------------------------------------------- the engine

  class PolicyEngine {
    const audit: AuditLogger
    var rules: seq<PolicyRule>

    constructor (audit: AuditLogger)
      ensures this.audit == audit && rules == []
    {
      this.audit := audit;
      rules := [];
    }

    /** `add_rule`: rules are kept, and later evaluated, in the order they were added. */
    method AddRule(rule: PolicyRule)
      modifies this
      ensures rules == old(rules) + [rule]
    {
      rules := rules + [rule];
    }

    /** `rules`: a copy of the rule list, in the order the rules were added. */
    function Rules(): (r: seq<PolicyRule>)
      reads this
      ensures |r| == |rules| && forall i :: 0 <= i < |r| ==> r[i] == rules[i]
    {
      rules
    }

    /** `evaluate`: every rule in order, then one `policy_evaluation` event. A
        pattern that does not compile raises out of the loop, and then nothing is logged. */
    method Evaluate(query: string, evidence: RetrievalResponse, context: Option<map<string, string>>, search: Search)
      returns (r: Result<seq<PolicyEvaluation>, PolicyError>)
      modifies audit
      ensures r == EvaluateAll(rules, query, evidence, context.GetOr(map[]), search)
      ensures r.Ok? ==> audit.events == old(audit.events)
                          + [AuditEvent(|old(audit.events)|, "reasoning", "policy_evaluation",
                                        EvaluationPayload(query, |rules|, r.value), None, SystemActor)]
      ensures r.Err? ==> audit.events == old(audit.events)
    {
      r := EvaluateRules(rules, query, evidence, context.GetOr(map[]), search);
      if r.Ok? {
        var _ := audit.Log("reasoning", "policy_evaluation", Some(EvaluationPayload(query, |rules|, r.value)), None, SystemActor);
      }
    }

    /** The loop of `evaluate`: each rule in order, stopping at the first that raises. */
    static method EvaluateRules(rules: seq<PolicyRule>, query: string, evidence: RetrievalResponse,
                                ctx: map<string, string>, search: Search)
      returns (r: Result<seq<PolicyEvaluation>, PolicyError>)
      ensures r == EvaluateAll(rules, query, evidence, ctx, search)
    {
      var f := Evaluator(query, evidence, ctx, search);
      var evaluations: seq<PolicyEvaluation> := [];
      for i := 0 to |rules|
        invariant MapResult(rules[..i], f) == Ok(evaluations)
      {
        var ev := EvaluateRule(rules[i], query, evidence, ctx, search);
        if ev.Err? {
          MapResultStops(rules, i, f);
          return Err(ev.error);
        }
        MapResultStep(rules, i, f, evaluations);
        evaluations := evaluations + [ev.value];
      }
      assert rules[..|rules|] == rules;
      r := Ok(evaluations);
    }

    /** `check_allowed`: a scan for a matched DENY, then one for a matched NEEDS_APPROVAL. */
    method CheckAllowed(evaluations: seq<PolicyEvaluation>) returns (v: PolicyVerdict)
      ensures v == Aggregate(evaluations)
    {
      for i := 0 to |evaluations|
        invariant !HasMatched(evaluations[..i], Deny)
      {
        assert evaluations[..i + 1] == evaluations[..i] + [evaluations[i]];
        if evaluations[i].matched && evaluations[i].verdict == Deny {
          return Deny;
        }
      }
      assert evaluations[..|evaluations|] == evaluations;
      for i := 0 to |evaluations|
        invariant !HasMatched(evaluations[..i], NeedsApproval)
      {
        assert evaluations[..i + 1] == evaluations[..i] + [evaluations[i]];
        if evaluations[i].matched && evaluations[i].verdict == NeedsApproval {
          return NeedsApproval;
        }
      }
      return Allow;
    }
  }

  // ---------------------------------------------------------------- what each condition means

  /** `no_evidence` matches exactly when retrieval returned nothing. */
  lemma NoEvidenceMeaning(rule: PolicyRule, query: string, evidence: RetrievalResponse,
                          context: map<string, string>, search: Search)
    requires Strip(rule.condition) == "no_evidence"
    ensures CheckCondition(rule, query, evidence, context, search) == Ok(evidence.results == [])
  {
  }

  /** With an engine that is faithful on literals, `contains:<p>` for a literal
      ASCII `p` and an ASCII query never raises and matches exactly when `p`
      occurs in the query, ignoring case. */
  lemma ContainsMeaning(rule: PolicyRule, query: string, evidence: RetrievalResponse,
                        context: map<string, string>, search: Search)
    requires LiteralFaithful(search)
    requires ParseCondition(rule.condition).ContainsPattern?
    requires Literal(ParseCondition(rule.condition).pattern)
    requires IsAscii(ParseCondition(rule.condition).pattern) && IsAscii(query)
    ensures CheckCondition(rule, query, evidence, context, search)
         == Ok(IsIn(Lower(ParseCondition(rule.condition).pattern), Lower(query)))
  {
  }

  /** `min_score:<t>` matches when the top score is below `t`; with no evidence
      the top score counts as 0.0, so any positive threshold matches then. */
  lemma MinScoreMeaning(rule: PolicyRule, query: string, evidence: RetrievalResponse,
                        context: map<string, string>, search: Search, t: real)
    requires ParseCondition(rule.condition) == MinScore(Some(Finite(t)))
    ensures CheckCondition(rule, query, evidence, context, search) == Ok(TopScore(evidence) < t)
    ensures evidence.results == [] ==>
              (CheckCondition(rule, query, evidence, context, search) == Ok(true) <==> 0.0 < t)
  {
  }

  /** `context:<k>=<v>` matches when the context maps `k` to `v`; a missing key
      reads as the empty string. */
  lemma ContextMeaning(rule: PolicyRule, query: string, evidence: RetrievalResponse,
                       context: map<string, string>, search: Search, k: string, v: string)
    requires ParseCondition(rule.condition) == ContextEquals(k, v)
    ensures k in context ==> CheckCondition(rule, query, evidence, context, search) == Ok(context[k] == v)
    ensures k !in context ==> CheckCondition(rule, query, evidence, context, search) == Ok(v == "")
  {
  }

  /** Blanks around a condition change nothing. */
  lemma ConditionStripped(condition: string)
    ensures ParseCondition(Strip(condition)) == ParseCondition(condition)
  {
    StripIdempotent(condition);
  }

  /** `float("0.01")` */
  lemma ParseFloatHundredth()
    ensures ParseFloat("0.01") == Some(Finite(0.01))
  {
    var s := "0.01";
    assert SplitSign(s) == (false, s);
    assert Lower(s)[0] == '0';
    assert Lower(s) != "inf" && Lower(s) != "infinity" && Lower(s) != "nan";
    assert 'e' !in s && 'E' !in s;
    assert FindExponent(s) == -1;
    MantissaHundredth();
  }

  lemma MantissaHundredth()
    ensures ParseMantissa("0.01") == Some(0.01)
  {
    var s := "0.01";
    assert '.' in s;
    assert FindChar(s, '.') == 1 by {
      assert s[0] != '.' && s[1] == '.';
      assert s[1..][0] == '.';
    }
    assert s[..1] == "0" && s[2..] == "01";
    DigitsHundredth();
  }

  lemma DigitsHundredth()
    ensures IsDigitPart("0") && DigitsValue("0") == 0
    ensures IsDigitPart("01") && DigitsValue("01") == 1 && DigitCount("01") == 2
  {
    assert "01"[..1] == "0" && "0"[..0] == [];
    assert "01"[1..] == "1";
    assert IsDigitPart("1");
  }

  /** The threshold of the rule `min_score:0.01` reads as 0.01. */
  lemma ParseMinScoreHundredth()
    ensures ParseCondition("min_score:0.01") == MinScore(Some(Finite(0.01)))
  {
    var s := "min_score:0.01";
    StripTrimmed(s);
    assert s != "no_evidence" by { assert s[0] != 'n'; }
    assert !StartsWith(s, ContainsTag) by { assert s[0] != ContainsTag[0]; }
    assert s == MinScoreTag + "0.01";
    SliceAtSeam(MinScoreTag, "0.01");
    StripTrimmed("0.01");
    ParseFloatHundredth();
  }

  /** The orchestrator's first default rule; its id is the generated uuid. */
  function NoHallucinationRule(ruleId: string): PolicyRule {
    PolicyRule(ruleId, "no_hallucination", "Deny answers with no evidence backing", "no_evidence", NeedsApproval)
  }

  /** The orchestrator's second default rule. */
  function LowConfidenceRule(ruleId: string): PolicyRule {
    PolicyRule(ruleId, "low_confidence", "Require approval when evidence score is low", "min_score:0.01", NeedsApproval)
  }

  /** The two rules the orchestrator installs both match when retrieval
      returns nothing, so an answer without evidence needs approval. */
  lemma DefaultRulesOnNoEvidence(id1: string, id2: string, query: string, evidence: RetrievalResponse,
                                 context: map<string, string>, search: Search)
    requires evidence.results == []
    ensures CheckCondition(NoHallucinationRule(id1), query, evidence, context, search) == Ok(true)
    ensures CheckCondition(LowConfidenceRule(id2), query, evidence, context, search) == Ok(true)
    ensures var r := EvaluateAll([NoHallucinationRule(id1), LowConfidenceRule(id2)], query, evidence, context, search);
      r.Ok? && Aggregate(r.value) == NeedsApproval
  {
    DefaultRulesMatch(id1, id2, query, evidence, context, search);
    BothNeedApproval(NoHallucinationRule(id1), LowConfidenceRule(id2), query, evidence, context, search);
  }

  lemma BothNeedApproval(r1: PolicyRule, r2: PolicyRule, query: string, evidence: RetrievalResponse,
                         context: map<string, string>, search: Search)
    requires CheckCondition(r1, query, evidence, context, search) == Ok(true) && r1.verdict == NeedsApproval
    requires CheckCondition(r2, query, evidence, context, search) == Ok(true) && r2.verdict == NeedsApproval
    ensures var r := EvaluateAll([r1, r2], query, evidence, context, search);
      r.Ok? && Aggregate(r.value) == NeedsApproval
  {
    var rules := [r1, r2];
    assert forall rule :: rule in rules ==> rule == r1 || rule == r2;
    AllNeedApproval(rules, query, evidence, context, search);
  }

  lemma DefaultRulesMatch(id1: string, id2: string, query: string, evidence: RetrievalResponse,
                          context: map<string, string>, search: Search)
    requires evidence.results == []
    ensures CheckCondition(NoHallucinationRule(id1), query, evidence, context, search) == Ok(true)
    ensures CheckCondition(LowConfidenceRule(id2), query, evidence, context, search) == Ok(true)
  {
    ParseNoEvidence();
    ParseMinScoreHundredth();
  }

  /** Rules that all match and all ask for approval aggregate to NEEDS_APPROVAL. */
  lemma AllNeedApproval(rules: seq<PolicyRule>, query: string, evidence: RetrievalResponse,
                        context: map<string, string>, search: Search)
    requires rules != []
    requires forall rule :: rule in rules ==>
      CheckCondition(rule, query, evidence, context, search) == Ok(true) && rule.verdict == NeedsApproval
    ensures var r := EvaluateAll(rules, query, evidence, context, search);
      r.Ok? && Aggregate(r.value) == NeedsApproval
  {
    var r := EvaluateAll(rules, query, evidence, context, search);
    assert forall i :: 0 <= i < |rules| ==> rules[i] in rules;
    assert forall i :: 0 <= i < |rules| ==> EvaluateRule(rules[i], query, evidence, context, search).Ok?;
    var evs := r.value;
    assert evs[0].matched && evs[0].verdict == NeedsApproval;
    assert !HasMatched(evs, Deny);
    assert HasMatched(evs, NeedsApproval);
  }

  lemma ParseNoEvidence()
    ensures ParseCondition("no_evidence") == NoEvidence
  {
    StripTrimmed("no_evidence");
  }

  /** A blank condition, such as the default empty one, is unrecognised: it
      never matches and never raises, so the rule evaluates to ALLOW. */
  lemma BlankConditionNeverMatches(rule: PolicyRule, query: string, evidence: RetrievalResponse,
                                   context: map<string, string>, search: Search)
    requires Strip(rule.condition) == ""
    ensures EvaluateRule(rule, query, evidence, context, search)
         == Ok(PolicyEvaluation(rule, false, Allow, Explanation(rule.name, false)))
  {
    assert ParseCondition(rule.condition) == Unrecognised;
  }

  /** In particular a rule left at its defaults evaluates to not matched, ALLOW. */
  lemma DefaultRuleAllows(ruleId: string, name: string, query: string, evidence: RetrievalResponse,
                          context: map<string, string>, search: Search)
    ensures var rule := NewRule(ruleId, name);
      EvaluateRule(rule, query, evidence, context, search) == Ok(PolicyEvaluation(rule, false, Allow, Explanation(name, false)))
  {
    BlankConditionNeverMatches(NewRule(ruleId, name), query, evidence, context, search);
  }
}
