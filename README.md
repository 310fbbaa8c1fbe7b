# nanocortex core, modelled in Dafny

nanocortex answers questions over ingested documents and keeps a human in the
loop. Its core has six parts, and this project models each:

- The **domain records** (`Domain`). These are the frozen value types every layer trades in: extracted text and images, chunks' citations, retrieval results, policy rules and verdicts, decisions, feedback, learning adjustments, audit events and human overrides.
- The in-memory **AuditLogger** (`Audit`). It is an append-only list of events with filtered views.
- The **KnowledgeStore** (`Chunking`, `Scoring`, `Ranking`, `Knowledge`). It splits documents into chunks and scores a query with BM25, with a Jaccard term overlap (called "vector" in the code) or with both fused by reciprocal rank (RRF). It sorts the scores stably, cuts the list to `top_k`, keeps positive scores and attaches a citation to each hit.
- The **PolicyEngine** (`Policy`). Rules are plain data, a condition string plus a verdict (ALLOW, DENY, NEEDS_APPROVAL). Evaluation checks every rule in order and logs one event. The aggregate is DENY before NEEDS_APPROVAL before ALLOW.
- The **DecisionAgent** (`Agent`). It evaluates the policies first. It consults the orchestrator and auditor models only when the aggregate is not DENY. It holds a NEEDS_APPROVAL decision in a single pending slot until a human approves or rejects it.
- The **LearningLoop** (`Learning`). It records feedback and counts mistakes by rating. It emits a retrieval-threshold adjustment every third hallucination and a prompt patch every fifth incorrect answer. It grades answers automatically, computes accuracy, and saves and restores its state.

Three modules stand in for Python's own behaviour:

- `PyText`: `strip`, `lower`, `split`, `replace`, `in`, `str(int)`;
- `PyNum`: `float()` and `round(x, 4)`, rounding the exact value with ties to even;
- `Seqs`: list comprehensions, `counter.get(k, 0)` and slices with negative bounds.

Classes whose fields the source updates in place are Dafny classes: `AuditLogger`, `PolicyEngine`, `KnowledgeStore`, `DecisionAgent` and `LearningLoop`. Each method is proved against a specification function on values, such as `RetrieveSpec`, `EvaluateAll`, `Conclude`, `Recorded` and `Accuracy`. The properties the source promises are proved as lemmas about those functions.

Things outside the program are parameters:

- the regular-expression engine (`search`);
- `math.log` (`ln`, about which only its sign on positive arguments is assumed);
- the two language models, as functions from the prompt inputs to a reply, "no API key" or "call failed";
- generated identifiers (each uuid is an argument).

The agent carries ghost counters of model calls. With them its contract can state that a denied query never reaches either model.

Behaviour worth knowing:

- **`retrieve` order of cutting and filtering.** `retrieve` cuts the sorted list to `top_k` before it drops non-positive scores. `Knowledge.RetrieveTopPositive` proves this is the same as filtering first whenever `top_k >= 0`. `Ranking.NegativeTopK` shows the two differ for a negative `top_k`.
- **`evaluate` can raise.** A `contains:` condition whose pattern is not a valid regular expression makes `evaluate` raise. The model returns `Err` on that path. `Agent.DecisionAgent.Decide` then returns the error and logs nothing.
- **A pending decision is overwritten.** A second decision needing approval silently replaces the one held in the slot (`Agent.PendingOverwritten`).
- **Hybrid retrieval returns results for any query.** It returns `min(top_k, #chunk ids)` results even when the query shares no term with any chunk, because every fused score is positive (`Knowledge.HybridCount`).
- **Rounding can report a hit with score 0.** Rounding to four places can turn a tiny positive score into `0.0`, which is then reported as a hit with score 0 (`PyNum.Round4Tiny`).
- **BM25 on a repeated query term.** The document frequency is counted once per occurrence of a term in the query. A repeated query term can therefore make the only matching chunk score below zero (`Scoring.Bm25RepeatedTerm`).
- **Chunks can exceed the budget.** `_split_text` can return a chunk longer than the budget in two ways: a single sentence longer than the budget is emitted as it is (`Chunking.Fits` allows exactly that), and a text whose sentences are all blank comes back whole (`Chunking.SplitBlankSentences`, `Chunking.SplitFits`).
- **`approve` strips every marker.** `approve` removes every occurrence of the approval marker, including any inside the model's own answer.
- **Adjustments re-fire.** The adjustment check runs after every feedback record, whatever its rating. A counter sitting at a multiple of three re-fires on a correct answer (`Learning.RefiresOnCorrect`).

## Model

The f-strings and payload dictionaries of the source are small definitions reached through the contracts below and have no rows of their own: `Knowledge.TextChunkId`, `Knowledge.ImageChunkId`, `Knowledge.IndexPayload` and `Knowledge.RetrievalPayload` (chunk ids and the indexing and retrieval events); `Agent.CitationTag`, `Agent.DecisionEvent` and `Agent.EvaluationEvent` (citation tags and the decision and policy events); `Learning.FeedbackPayload`, `Learning.FeedbackEvent` and `Learning.Normal` (the feedback event and the lower-cased, stripped text that grading compares).

| member | source | states |
|---|---|---|
| Domain.NewResult | src/nanocortex/models/domain.py:72-77 | a retrieval result built from an id and a text has score 0, no citations and modality "text" |
| Domain.VerdictsExactlyThree | src/nanocortex/models/domain.py:89-92 | there are exactly three verdicts and their string values are pairwise distinct |
| Domain.NewRule | src/nanocortex/models/domain.py:95-100 | a rule given only a name has an empty description and condition and the verdict ALLOW |
| Domain.StatesExactlyFive | src/nanocortex/models/domain.py:110-115 | there are exactly five agent states, told apart by their string values |
| Domain.NewDecision | src/nanocortex/models/domain.py:118-127 | a decision given only a query and an answer has no evidence, no evaluations, no model names and the state COMPLETED |
| Domain.RatingsExactlyFour | src/nanocortex/models/domain.py:133-137 | there are exactly four ratings and their string values, which key the mistake counters, are distinct |
| Audit.SelectEvents | src/nanocortex/audit/logger.py:62-73 | the filtered view holds exactly the logged events that pass both filters, and no more events than the log |
| Audit.SelectAppend | src/nanocortex/audit/logger.py:80-84 | logging an event extends every view that selects it by that event and leaves every other view unchanged |
| Audit.SelectUnfiltered | src/nanocortex/audit/logger.py:62-73 | with both filters absent or empty, the whole log comes back in order |
| Audit.AuditLogger.constructor | src/nanocortex/audit/logger.py:27-33 | a new logger holds no events |
| Audit.AuditLogger.Append | src/nanocortex/audit/logger.py:80-84 | the event is added at the end, and nothing earlier changes |
| Audit.AuditLogger.Log | src/nanocortex/audit/logger.py:35-51 | the returned event carries the given layer, type, decision id and actor, with payload `{}` when none is given, and it is the one appended |
| Audit.AuditLogger.LogOverride | src/nanocortex/audit/logger.py:53-60 | an override is logged as a `reasoning`/`human_override` event by the human actor, with the override record as payload |
| Audit.AuditLogger.GetEvents | src/nanocortex/audit/logger.py:62-73 | the result holds every logged event that passes the filters and only those |
| Audit.AuditLogger.GetDecisionTrace | src/nanocortex/audit/logger.py:75-76 | the trace of `d` is `get_events(decision_id=d)`; an empty id selects the whole log; otherwise every event carries `d` |
| Policy.ParseCondition | src/nanocortex/reasoning/policy.py:96-119 | the dispatch on the stripped condition: `NoEvidence` exactly for the string `no_evidence`; a `contains:`, `min_score:` or `context:` reading only when the condition starts with that tag, with the pattern, key and value stripped; what each reading means is proved in the `*Meaning` and `Parse*` lemmas |
| PyNum.ParseFloat | src/nanocortex/reasoning/policy.py:107 | `float()` on the stripped threshold: an optional sign, then `inf`, `infinity` or `nan` in any case, or a decimal literal with optional fraction and exponent and single underscores between digits; `None` where Python raises, in particular on the empty string; `Policy.ParseFloatHundredth` and `Policy.ParseMinScore` use it |
| Policy.CheckCondition | src/nanocortex/reasoning/policy.py:81-119 | a condition check fails exactly for a `contains:` pattern the engine rejects; an unrecognised condition and an unparsable `min_score` threshold both give false |
| Policy.ConditionStripped | src/nanocortex/reasoning/policy.py:96 | blanks around a condition do not change its meaning |
| Policy.NoEvidenceMeaning | src/nanocortex/reasoning/policy.py:98-99 | `no_evidence` holds exactly when retrieval returned no results |
| Policy.ContainsMeaning | src/nanocortex/reasoning/policy.py:101-103 | for a literal ASCII pattern and an ASCII query, with an engine that agrees with `re` there, `contains:p` never raises and holds exactly when the lower-cased `p` occurs in the lower-cased query |
| Policy.SubstringEngineFaithful | src/nanocortex/reasoning/policy.py:101-103 | case-insensitive substring search meets that assumption, so it can be met |
| Policy.MinScoreMeaning | src/nanocortex/reasoning/policy.py:105-111 | `min_score:t` holds exactly when the top score is below `t`, the top score being 0.0 without evidence |
| Policy.ContextMeaning | src/nanocortex/reasoning/policy.py:113-117 | `context:k=v` holds exactly when the context maps `k` to `v`; a missing key reads as the empty string |
| Policy.ParseWrite | src/nanocortex/reasoning/policy.py:96-119 | reading back any condition written in its canonical form gives that condition |
| Policy.ParseContains | src/nanocortex/reasoning/policy.py:101-103 | `contains:` followed by a trimmed pattern reads as that pattern |
| Policy.ParseMinScore | src/nanocortex/reasoning/policy.py:105-108 | `min_score:` followed by a natural number reads as that threshold |
| Policy.ParseContext | src/nanocortex/reasoning/policy.py:113-117 | `context:k=v` with trimmed `k` and `v` and no `=` in `k` reads as that key and value |
| Policy.ContextBody | src/nanocortex/reasoning/policy.py:115-117 | the body splits at its first `=` |
| Policy.ContextString | src/nanocortex/reasoning/policy.py:113-114 | a `context:` condition is read from the stripped text past its tag |
| Policy.ParseFloatHundredth | src/nanocortex/reasoning/policy.py:107 | the text `0.01` reads as the number 0.01 |
| Policy.ParseMinScoreHundredth | src/nanocortex/api/orchestrator.py:72-77 | the default low-confidence rule's condition reads as the threshold 0.01 |
| Policy.DefaultRulesOnNoEvidence | src/nanocortex/api/orchestrator.py:64-77 | with no evidence, `no_hallucination` and `low_confidence`, as the orchestrator installs them, both match and together aggregate to NEEDS_APPROVAL |
| Policy.NoHallucinationRule | src/nanocortex/api/orchestrator.py:66-71 | definition: the first default rule, with the orchestrator's name, description, `no_evidence` condition and NEEDS_APPROVAL verdict |
| Policy.LowConfidenceRule | src/nanocortex/api/orchestrator.py:72-77 | definition: the second default rule, with condition `min_score:0.01` and verdict NEEDS_APPROVAL |
| Policy.AllNeedApproval | src/nanocortex/reasoning/policy.py:71-79 | rules that all match and all ask for approval evaluate without error and aggregate to NEEDS_APPROVAL |
| Policy.EvaluateAll | src/nanocortex/reasoning/policy.py:45-56 | evaluation succeeds exactly when every rule's evaluation does, and then holds each rule's evaluation at the rule's position; otherwise its error is that of the first rule that raises |
| Policy.EvaluateRule | src/nanocortex/reasoning/policy.py:48-56 | one rule's evaluation fails exactly when its condition check fails; otherwise it records the rule, whether it matched, the rule's verdict when matched and ALLOW when not, and the explanation |
| Policy.BlankConditionNeverMatches | src/nanocortex/reasoning/policy.py:96-119 | a blank condition never matches and evaluates to ALLOW |
| Policy.DefaultRuleAllows | src/nanocortex/models/domain.py:95-100 | a rule left at its defaults evaluates to not matched, ALLOW |
| Policy.MatchedCount | src/nanocortex/reasoning/policy.py:62 | the number of matched rules is at most the number of evaluations |
| Policy.VerdictValues | src/nanocortex/reasoning/policy.py:63 | the logged verdict list has one string per evaluation, the value of its verdict |
| Policy.AggregateAppend | src/nanocortex/reasoning/policy.py:71-79 | the aggregate of two lists of evaluations is the more severe of their two aggregates |
| Policy.Aggregate | src/nanocortex/reasoning/policy.py:71-79 | definition of `check_allowed`: DENY if a matched evaluation denies, else NEEDS_APPROVAL if a matched one asks for it, else ALLOW; `AggregateAppend`, `AggregateReordered` and `AggregateOfRules` state its properties |
| Policy.AggregateReordered | src/nanocortex/reasoning/policy.py:71-79 | the aggregate does not depend on the order of the evaluations |
| Policy.AggregateOfRules | src/nanocortex/reasoning/policy.py:71-79 | over a rule list's evaluations, the aggregate is DENY exactly when some DENY rule matched, and ALLOW exactly when every rule that matched has the verdict ALLOW |
| Policy.PolicyEngine.constructor | src/nanocortex/reasoning/policy.py:27-29 | a new engine has no rules and writes to the given logger |
| Policy.PolicyEngine.AddRule | src/nanocortex/reasoning/policy.py:31-32 | the rule is added after all earlier ones |
| Policy.PolicyEngine.Rules | src/nanocortex/reasoning/policy.py:34-36 | the copy lists the rules in the order they were added |
| Policy.PolicyEngine.Evaluate | src/nanocortex/reasoning/policy.py:38-69 | the result is every rule's evaluation in order, with a missing context read as `{}`; on success exactly one `policy_evaluation` event is appended with the query, the rule count, the matched count and the verdicts; on a raised error nothing is logged |
| Policy.PolicyEngine.EvaluateRules | src/nanocortex/reasoning/policy.py:48-56 | the loop yields every rule's evaluation in rule order, or the first error a condition raises |
| Policy.PolicyEngine.CheckAllowed | src/nanocortex/reasoning/policy.py:71-79 | the verdict is DENY, else NEEDS_APPROVAL, else ALLOW by the matched evaluations, as the aggregate defines |
| Chunking.SplitText | src/nanocortex/knowledge/retriever.py:235-251 | the loop over sentences returns what the specification of `_split_text` does |
| Chunking.SplitSpec | src/nanocortex/knowledge/retriever.py:235-251 | definition of `_split_text`: the text itself within the budget, otherwise the greedy fold over the `". "`-separated sentences, the final flush and the `[text]` fallback; `SplitNonEmpty`, `SplitShort`, `SplitFits` and `SentencesUnbroken` state its properties |
| Chunking.SplitNonEmpty | src/nanocortex/knowledge/retriever.py:235-251 | splitting never returns an empty list |
| Chunking.SplitShort | src/nanocortex/knowledge/retriever.py:238-239 | a text within the budget comes back whole as the only chunk |
| Chunking.FoldBlank | src/nanocortex/knowledge/retriever.py:242-251 | the loop emits nothing and ends on blank text only when every sentence is blank |
| Chunking.SplitFits | src/nanocortex/knowledge/retriever.py:235-251 | every chunk is stripped and is within the budget or a single sentence, unless the text comes back whole; that happens only within the budget or when every sentence is blank |
| Chunking.SentencesUnbroken | src/nanocortex/knowledge/retriever.py:242 | no sentence holds a sentence break |
| Chunking.SplitStepGood | src/nanocortex/knowledge/retriever.py:242-247 | one iteration keeps every emitted chunk and the text being grown within the budget or a single sentence |
| Chunking.SplitFoldGood | src/nanocortex/knowledge/retriever.py:242-247 | the whole loop keeps that invariant |
| Chunking.FlushGood | src/nanocortex/knowledge/retriever.py:249-250 | the final flush emits only stripped chunks that fit |
| Chunking.StripFits | src/nanocortex/knowledge/retriever.py:245 | stripping keeps a chunk within the budget or free of sentence breaks |
| Chunking.SplitBlankSentences | src/nanocortex/knowledge/retriever.py:251 | a text of blank sentences longer than the budget comes back whole, over the budget |
| Scoring.Containing | src/nanocortex/knowledge/retriever.py:162-168 | a term occurs in at most as many chunks as the store holds |
| Scoring.Bm25Spec | src/nanocortex/knowledge/retriever.py:155-193 | BM25 scores every chunk of the store, in store order |
| Scoring.Bm25Disjoint | src/nanocortex/knowledge/retriever.py:181-189 | a chunk sharing no lower-cased term with the query scores 0 |
| Scoring.Bm25DistinctTerms | src/nanocortex/knowledge/retriever.py:173-191 | with no repeated query term and `log` of the usual sign, every score is at least 0, and a chunk sharing a term scores above 0 |
| Scoring.Bm25RepeatedTerm | src/nanocortex/knowledge/retriever.py:162-168 | a repeated query term can make the only matching chunk score below 0 |
| Scoring.ContributionPositive | src/nanocortex/knowledge/retriever.py:181-189 | a term occurring at most once in the query adds a non-negative amount, and a positive one to a chunk containing it |
| Scoring.IdfSign | src/nanocortex/knowledge/retriever.py:186 | the idf is positive when the document frequency is at most the chunk count, negative otherwise |
| Scoring.TermWeightSign | src/nanocortex/knowledge/retriever.py:187-189 | a term's weight has the sign of its idf |
| Scoring.AvgDlPositive | src/nanocortex/knowledge/retriever.py:170 | the average length is positive once some chunk has a term |
| Scoring.ScoreOverDisjoint | src/nanocortex/knowledge/retriever.py:181-189 | terms absent from a chunk add nothing to its score |
| Scoring.ScoreOverPositive | src/nanocortex/knowledge/retriever.py:181-191 | a sum of non-negative contributions is non-negative, and positive once one of them is |
| Scoring.VectorSpec | src/nanocortex/knowledge/retriever.py:195-213 | the scorer scores every chunk of the store, in store order |
| Scoring.Jaccard | src/nanocortex/knowledge/retriever.py:199-211 | definition: the size of the intersection over the size of the union, 0.0 when either term set is empty; `JaccardBounds`, `JaccardPositive` and `JaccardOne` state its properties |
| Scoring.JaccardBounds | src/nanocortex/knowledge/retriever.py:205-211 | the overlap lies in [0, 1] and is symmetric |
| Scoring.JaccardPositive | src/nanocortex/knowledge/retriever.py:205-211 | the overlap is positive exactly when a term is shared |
| Scoring.JaccardOne | src/nanocortex/knowledge/retriever.py:205-211 | the overlap is 1 exactly when the two term sets are equal and not empty |
| Ranking.SortDesc | src/nanocortex/knowledge/retriever.py:113 | sorting is a permutation of its input |
| Ranking.SortSorted | src/nanocortex/knowledge/retriever.py:113 | the sorted list is in non-increasing order of score |
| Ranking.SortStable | src/nanocortex/knowledge/retriever.py:113 | the entries of any one score keep their original order |
| Ranking.TruncateThenFilter | src/nanocortex/knowledge/retriever.py:114-119 | on a sorted list and `top_k >= 0`, cutting then dropping non-positive entries equals dropping then cutting |
| Ranking.NegativeTopK | src/nanocortex/knowledge/retriever.py:114 | for a negative `top_k` the two orders differ |
| Ranking.FilterSorted | src/nanocortex/knowledge/retriever.py:116-119 | dropping entries keeps a list sorted |
| Ranking.PrefixSorted | src/nanocortex/knowledge/retriever.py:114 | a prefix of a sorted list is sorted |
| Ranking.FuseWeight | src/nanocortex/knowledge/retriever.py:215-230 | each fused score is the sum of `1/(60 + rank)` over every place its id holds in every list |
| Ranking.FuseAdd | src/nanocortex/knowledge/retriever.py:227-228 | definition: one entry adds `1/(60 + rank)` to its id's score, appends a new id to the dictionary order, and overwrites the chunk kept for the id; `FuseAddValid` proves it keeps the fusion state well formed |
| Ranking.FuseAddValid | src/nanocortex/knowledge/retriever.py:227-228 | adding one ranked entry to a well-formed fusion state keeps it well formed: keys agree, ids listed once in first-seen order, each chunk under its own id, every score positive |
| Ranking.FuseRanks | src/nanocortex/knowledge/retriever.py:225-228 | definition: one sorted list folded in rank by rank, from rank 1 |
| Ranking.FuseLists | src/nanocortex/knowledge/retriever.py:224-228 | definition: every list, each sorted first, folded in order into an empty state; `FuseListsValid` and `FuseRanksIds` state its properties |
| Ranking.RrfSpec | src/nanocortex/knowledge/retriever.py:215-230 | definition of `_rrf_fuse`: the fused (chunk, score) pairs in first-seen id order; `RrfChunks`, `RrfIds`, `RrfScores` and `AllPositive` state its properties |
| Ranking.FuseListsValid | src/nanocortex/knowledge/retriever.py:220-228 | the two dictionaries of the fusion agree on their keys, and the insertion order lists each key once |
| Ranking.RrfChunks | src/nanocortex/knowledge/retriever.py:215-230 | fusion invents no chunk |
| Ranking.RrfIds | src/nanocortex/knowledge/retriever.py:215-230 | the fused list holds each id of the input lists exactly once |
| Ranking.RrfScores | src/nanocortex/knowledge/retriever.py:215-230 | each fused score is positive and is its id's reciprocal-rank weight |
| Knowledge.TextChunks | src/nanocortex/knowledge/retriever.py:56-68 | definition: each text block's split pieces become chunks, in order, with ids numbered by the running count; `ShortBlockOneChunk`, `TextChunksAtLeast` and `TextChunksOwned` state its properties |
| Knowledge.ImageChunks | src/nanocortex/knowledge/retriever.py:70-81 | definition: one chunk per image with a non-empty description, in order; `ImageChunksDescribed` and `ImageChunksOwned` state its properties |
| Knowledge.DocChunks | src/nanocortex/knowledge/retriever.py:52-91 | definition: a document's text chunks followed by its image chunks; `DocChunksOwned` and `IndexDocument` use it |
| Knowledge.Scores | src/nanocortex/knowledge/retriever.py:103-110 | definition: `bm25` and `vector` pick their scorer and any other strategy fuses both; `ScoresFromStore` states its properties |
| Knowledge.ToResult | src/nanocortex/knowledge/retriever.py:120-132 | definition: a surviving entry's result copies the chunk's id, text and modality, rounds the score to four places and carries one citation with a 200-character snippet; `RetrieveCited` states its properties |
| PyNum.Round4 | src/nanocortex/knowledge/retriever.py:129 | the rounded score lies within 0.00005 of the exact score; `Round4Tiny`, `Round4Monotone` and `Round4UnitInterval` state more |
| Knowledge.KnowledgeStore.constructor | src/nanocortex/knowledge/retriever.py:43-46 | a new store has no chunks and no document ids |
| Knowledge.KnowledgeStore.ChunkCount | src/nanocortex/knowledge/retriever.py:48-50 | the `chunk_count` property: the number of stored chunks |
| Knowledge.KnowledgeStore.IndexDocument | src/nanocortex/knowledge/retriever.py:52-91 | the document's text chunks and then its image chunks are appended, the count of added chunks is returned and the chunk count grows by it, the document id is recorded, and one `document_indexed` event is logged |
| Knowledge.KnowledgeStore.IndexTexts | src/nanocortex/knowledge/retriever.py:56-68 | every text block, split to the budget, is appended in order, with ids numbered by the running count |
| Knowledge.KnowledgeStore.IndexPieces | src/nanocortex/knowledge/retriever.py:58-68 | the pieces of one block are appended as that block's chunks, numbered on from the running count, which grows by the number of pieces |
| Knowledge.KnowledgeStore.IndexImages | src/nanocortex/knowledge/retriever.py:70-81 | one chunk is appended per image with a description, in order |
| Knowledge.KnowledgeStore.Retrieve | src/nanocortex/knowledge/retriever.py:93-151 | the response is the retrieval specification of the current store; an empty store returns no results and logs nothing, otherwise one `retrieval` event is logged |
| Knowledge.KnowledgeStore.ScoreBy | src/nanocortex/knowledge/retriever.py:103-110 | `bm25` and `vector` pick their scorer; any other strategy fuses both |
| Knowledge.KnowledgeStore.CollectResults | src/nanocortex/knowledge/retriever.py:116-132 | the entries with positive scores become results, in order, each with its rounded score and one citation |
| Knowledge.KnowledgeStore.Bm25Score | src/nanocortex/knowledge/retriever.py:155-193 | the loops compute the BM25 specification |
| Knowledge.KnowledgeStore.DocFrequencies | src/nanocortex/knowledge/retriever.py:162-168 | each term's count is the BM25 document frequency |
| Knowledge.KnowledgeStore.TotalLength | src/nanocortex/knowledge/retriever.py:170 | the sum is the total word count of the stored chunks |
| Knowledge.TermScore | src/nanocortex/knowledge/retriever.py:186-189 | one term's addend is its BM25 weight for that term frequency, document frequency and chunk length |
| Scoring.DocFreqAtMost | src/nanocortex/knowledge/retriever.py:162-168 | no term is counted in more documents than there are chunks |
| Scoring.DocFreqPositive | src/nanocortex/knowledge/retriever.py:162-168 | a query term that occurs in some chunk has a positive document frequency |
| Knowledge.KnowledgeStore.TermCounts | src/nanocortex/knowledge/retriever.py:177-179 | each term's count is its number of occurrences |
| Knowledge.KnowledgeStore.ChunkScore | src/nanocortex/knowledge/retriever.py:173-191 | one chunk's score is the sum of its query terms' contributions |
| Knowledge.KnowledgeStore.VectorScore | src/nanocortex/knowledge/retriever.py:195-213 | the loop computes the Jaccard specification |
| Knowledge.KnowledgeStore.RrfFuse | src/nanocortex/knowledge/retriever.py:215-230 | the loops compute the fusion specification |
| Knowledge.FuseRanked | src/nanocortex/knowledge/retriever.py:225-228 | folding one sorted list into the fusion state, rank by rank from 1 |
| Knowledge.FuseEntry | src/nanocortex/knowledge/retriever.py:227-228 | one entry adds its reciprocal-rank weight to its id's score, recording a new id at first sight, and updates the chunk kept for the id |
| Knowledge.BlockChunks | src/nanocortex/knowledge/retriever.py:58-67 | a text block yields one chunk per piece of its split |
| Knowledge.ToResults | src/nanocortex/knowledge/retriever.py:116-132 | the result loop yields no more results than entries |
| Knowledge.RetrieveSpec | src/nanocortex/knowledge/retriever.py:93-151 | the response echoes the query and strategy, is empty for an empty store, and has at most `top_k` results for `top_k >= 0` |
| Knowledge.ShortBlockOneChunk | src/nanocortex/knowledge/retriever.py:56-68 | a text block within the budget yields exactly one chunk, the whole block |
| Knowledge.TextChunksAtLeast | src/nanocortex/knowledge/retriever.py:56-68 | every text block yields at least one chunk |
| Knowledge.ImageChunksDescribed | src/nanocortex/knowledge/retriever.py:70-81 | the image chunks are exactly those of the described images, in order |
| Knowledge.TextChunksOwned | src/nanocortex/knowledge/retriever.py:56-68 | text chunks carry the document id, modality "text" and no image id |
| Knowledge.ImageChunksOwned | src/nanocortex/knowledge/retriever.py:70-81 | image chunks carry the document id, modality "image" and an image id |
| Knowledge.DocChunksOwned | src/nanocortex/knowledge/retriever.py:52-91 | every chunk of a document carries its id, with modality and image id agreeing |
| Knowledge.ScoresFromStore | src/nanocortex/knowledge/retriever.py:103-110 | every scored entry holds a chunk of the store |
| Knowledge.SurvivorsFromScores | src/nanocortex/knowledge/retriever.py:113-119 | every entry behind a result is a positive entry of the scored list |
| Knowledge.RetrieveCited | src/nanocortex/knowledge/retriever.py:116-132 | every result cites a chunk of the store and has a score of at least 0 |
| Knowledge.RetrieveOrdered | src/nanocortex/knowledge/retriever.py:113-132 | results come in non-increasing order of score |
| Knowledge.RetrieveTopPositive | src/nanocortex/knowledge/retriever.py:113-132 | for `top_k >= 0` the results are the first `top_k` positive entries of the sorted list |
| Knowledge.Bm25Relevant | src/nanocortex/knowledge/retriever.py:155-193 | `bm25` returns only chunks that share a lower-cased term with the query |
| Knowledge.NoTermsNoResults | src/nanocortex/knowledge/retriever.py:155-213 | a query without terms finds nothing by `bm25` or `vector` |
| Knowledge.HybridIds | src/nanocortex/knowledge/retriever.py:108-110 | both lists of hybrid retrieval hold exactly the store's ids |
| Knowledge.HybridCount | src/nanocortex/knowledge/retriever.py:108-132 | hybrid retrieval on a non-empty store returns `min(top_k, #ids)` results, whatever the query |
| Knowledge.AllPositive | src/nanocortex/knowledge/retriever.py:113-119 | when every score is positive, nothing is filtered out |
| Knowledge.StoreIdsDistinct | src/nanocortex/knowledge/retriever.py:60 | with distinct chunk ids, the store holds as many ids as chunks |
| Agent.CitationTags | src/nanocortex/reasoning/agent.py:280-282 | one tag per citation, in order |
| Agent.FallbackAnswer | src/nanocortex/reasoning/agent.py:273-285 | without evidence it is the no-evidence text; otherwise it starts with the evidence lead and ends with the first 500 characters of the top result |
| Agent.FallbackCites | src/nanocortex/reasoning/agent.py:280-285 | each citation of the top result appears in the fallback answer |
| PyText.JoinHas | src/nanocortex/reasoning/agent.py:283 | each joined part occurs in the joined text |
| Agent.OrchestratorAnswer | src/nanocortex/reasoning/agent.py:200-235 | the model's reply is the answer; without a key or on an error the fallback answer is used |
| Agent.AuditorResult | src/nanocortex/reasoning/agent.py:237-271 | the auditor's reply is the audit result; otherwise it is the skipped-without-key or skipped-on-error marker |
| Agent.Conclude | src/nanocortex/reasoning/agent.py:71-132 | the decision keeps the id, query, evidence and evaluations. It FAILS exactly on DENY, with the denied answer, no model names and the slot untouched. It WAITS exactly on NEEDS_APPROVAL with a human in the loop, holding a completed copy in the slot and returning the marked answer. Otherwise it COMPLETES and leaves the slot untouched. The event type and payload match each outcome |
| Agent.Approved | src/nanocortex/reasoning/agent.py:142-148 | the approved copy differs from the held decision only in its state, now COMPLETED, and its answer |
| Agent.ApprovedAnswer | src/nanocortex/reasoning/agent.py:146 | an answer without the marker is unchanged, and the marker added by `decide` is removed |
| Agent.RejectionAnswer | src/nanocortex/reasoning/agent.py:172 | the answer starts with the rejection tag; it is the bare tag exactly when no reason is given, and otherwise the reason follows it |
| Agent.ApproveStep | src/nanocortex/reasoning/agent.py:134-158 | approval succeeds exactly when the slot holds that id; it then completes and empties the slot, and otherwise changes nothing |
| Agent.RejectStep | src/nanocortex/reasoning/agent.py:160-185 | rejection succeeds exactly when the slot holds that id; it then fails and empties the slot, and otherwise changes nothing |
| Agent.Step | src/nanocortex/reasoning/agent.py:57-196 | definition: one call's effect on the state and the slot: a policy error leaves RUNNING, otherwise `decide` ends as `Conclude` says; `approve` and `reject` act as `ApproveStep` and `RejectStep`; `override` changes neither |
| Agent.Run | src/nanocortex/reasoning/agent.py:57-196 | definition: the agent after a sequence of calls, one `Step` each |
| Agent.Sound | src/nanocortex/reasoning/agent.py:64-185 | the invariant of every reachable agent: never PAUSED, WAITING_APPROVAL only with a decision held, and the held decision COMPLETED; `StepSound` and `RunSound` prove it is kept |
| Agent.StepSound | src/nanocortex/reasoning/agent.py:57-196 | every operation keeps the agent sound: never PAUSED, and waiting only with a completed copy held |
| Agent.RunSound | src/nanocortex/reasoning/agent.py:57-196 | any sequence of operations keeps the agent sound |
| Agent.NeverPaused | src/nanocortex/reasoning/agent.py:57-196 | no sequence of operations leads to PAUSED |
| Agent.SettledOnce | src/nanocortex/reasoning/agent.py:134-185 | after an approval or rejection succeeds, no further approval or rejection does |
| Agent.PendingOverwritten | src/nanocortex/reasoning/agent.py:106-122 | a second decision waiting for approval replaces the held one, which can then no longer be approved |
| Agent.ApprovalRoundTrip | src/nanocortex/reasoning/agent.py:106-158 | approving a held decision returns it COMPLETED with the model's answer, unmarked |
| Agent.DecisionAgent.constructor | src/nanocortex/reasoning/agent.py:37-47 | a new agent is RUNNING with an empty slot and has consulted no model |
| Agent.DecisionAgent.Decide | src/nanocortex/reasoning/agent.py:57-132 | the outcome is the one `Conclude` defines. A raised policy error logs nothing. A DENY consults neither model, and any other verdict consults each once. The policy event and then the decision event are appended |
| Agent.DecisionAgent.Finish | src/nanocortex/reasoning/agent.py:71-132 | the tail of `decide` sets the state, slot and event that `Conclude` defines, from the model outcomes |
| Agent.DecisionAgent.Approve | src/nanocortex/reasoning/agent.py:134-158 | the state, slot and result are those of the approval step, and a success logs one `decision_approved` event by the human |
| Agent.DecisionAgent.Reject | src/nanocortex/reasoning/agent.py:160-185 | the state, slot and result are those of the rejection step, and a success logs one `decision_rejected` event with the reason |
| Agent.DecisionAgent.Override | src/nanocortex/reasoning/agent.py:187-196 | the override record carries the decision id, an empty original answer, the new answer and the reason; it is logged and the agent's state is untouched |
| Learning.Bumped | src/nanocortex/learning/feedback.py:55-56 | a mistake rating adds one to its own counter and changes no other |
| Learning.RetrievalAdjustment | src/nanocortex/learning/feedback.py:128-143 | the retrieval adjustment raises the threshold to 0.1 times the number of completed groups of three hallucinations |
| Learning.PatchAdjustment | src/nanocortex/learning/feedback.py:146-161 | the prompt patch asks for exact citations |
| Learning.Recorded | src/nanocortex/learning/feedback.py:51-72 | recording appends the feedback, bumps its mistake counter, and adds at most two adjustments while keeping the earlier ones |
| Learning.AdjustmentRules | src/nanocortex/learning/feedback.py:122-161 | a retrieval adjustment is added exactly when the hallucination count is a positive multiple of 3, and a prompt patch exactly when the incorrect count is a positive multiple of 5, each triggered by the feedback just recorded, the threshold being 0.1 times the hallucination count divided by 3 |
| Learning.RefiresOnCorrect | src/nanocortex/learning/feedback.py:122-143 | with three hallucinations counted, a correct answer adds another retrieval adjustment |
| Learning.Triggered | src/nanocortex/learning/feedback.py:122-161 | definition: given the counter after the feedback, a retrieval adjustment when the hallucination count is a positive multiple of 3, then a prompt patch when the incorrect count is a positive multiple of 5; `AdjustmentRules` states it both ways |
| Learning.Replay | src/nanocortex/learning/feedback.py:51-72 | definition: the loop's three fields after a sequence of `record_feedback` calls; `HallucinationStreak` is about it |
| Learning.HallucinationStreak | src/nanocortex/learning/feedback.py:122-143 | `n` hallucinations recorded from empty count `n` hallucinations and no incorrect answers, and give `n/3` adjustments, all retrieval ones |
| Learning.Grade | src/nanocortex/learning/feedback.py:82-92 | CORRECT exactly when the normalised texts are equal; PARTIALLY_CORRECT exactly when they differ and one contains the other; a mistake is HALLUCINATION exactly when there was no evidence |
| Learning.GradeSymmetric | src/nanocortex/learning/feedback.py:85-92 | the grade does not depend on which text is the answer |
| Learning.GradeBlankExpected | src/nanocortex/learning/feedback.py:85-88 | a blank expected answer never grades as a mistake |
| Learning.Graded | src/nanocortex/learning/feedback.py:94-99 | the record carries the decision id and the grade, with the expected text as correction unless CORRECT, and the explanation naming the rating |
| Learning.Breakdown | src/nanocortex/learning/feedback.py:109-111 | definition of the rating counter: one bump per record; `BreakdownCounts`, `BreakdownTally` and `BreakdownKeys` state its properties |
| Learning.Accuracy | src/nanocortex/learning/feedback.py:103-120 | definition of `compute_accuracy`: zero and an empty breakdown without feedback, otherwise correct plus half the partial answers over the total, rounded to four places; `AccuracyFacts` and `AccuracyExample` state its properties |
| Learning.Ratings | src/nanocortex/learning/feedback.py:109-111 | one rating per feedback record, in order |
| Learning.BreakdownCounts | src/nanocortex/learning/feedback.py:109-111 | each rating's breakdown entry is its number of records, and only ratings that occur appear |
| Learning.BreakdownTally | src/nanocortex/learning/feedback.py:109-111 | one rating's counter is the number of records with that rating |
| Learning.BreakdownKeys | src/nanocortex/learning/feedback.py:109-111 | the counter holds only the four rating values, each with a positive count |
| Learning.RatingsPartition | src/nanocortex/learning/feedback.py:109-111 | the four rating counts add up to the number of records |
| Learning.RatioBounds | src/nanocortex/learning/feedback.py:118 | the weighted ratio lies in [0, 1] |
| Learning.BreakdownSums | src/nanocortex/learning/feedback.py:109-111 | the breakdown's four counts add up to the number of records |
| Learning.AccuracyFacts | src/nanocortex/learning/feedback.py:103-120 | the total is the record count and the breakdown's counts add up to it; without feedback the accuracy is 0 and the breakdown empty; the accuracy always lies in [0, 1] |
| Learning.AccuracyExample | src/nanocortex/learning/feedback.py:103-120 | two correct, one incorrect and one partially correct answer give accuracy 0.625 |
| Learning.AdjustmentEvents | src/nanocortex/learning/feedback.py:122-161 | exactly one event per adjustment |
| Learning.LearningLoop.constructor | src/nanocortex/learning/feedback.py:32-37 | a new loop holds no feedback, no adjustments and no mistakes |
| Learning.LearningLoop.RecordFeedback | src/nanocortex/learning/feedback.py:51-72 | the state becomes the recorded snapshot; the feedback event and then one event per new adjustment are logged; the record is returned |
| Learning.LearningLoop.CheckForAdjustments | src/nanocortex/learning/feedback.py:122-161 | only the adjustment list changes, by the adjustments the counters trigger, each logged |
| Learning.LearningLoop.AddAdjustment | src/nanocortex/learning/feedback.py:138-143 | the adjustment is appended and one `adjustment_created` event carries it; feedback and counters are untouched |
| Learning.LearningLoop.State | src/nanocortex/learning/feedback.py:32-37 | the three fields the loop updates (feedback, adjustments, mistake counter) as one snapshot, which the methods' contracts are stated on |
| Learning.LearningLoop.FeedbackCount | src/nanocortex/learning/feedback.py:39-41 | the `feedback_count` property: the number of records |
| Learning.LearningLoop.AdjustmentCount | src/nanocortex/learning/feedback.py:43-45 | the `adjustment_count` property: the number of adjustments |
| Learning.LearningLoop.FeedbackFor | src/nanocortex/learning/feedback.py:74-75 | exactly the records of that decision, in order |
| Learning.LearningLoop.GetAdjustments | src/nanocortex/learning/feedback.py:77-78 | the copy lists the adjustments in order |
| Learning.LearningLoop.EvaluateDecision | src/nanocortex/learning/feedback.py:80-101 | the graded record is built and recorded as `RecordFeedback` does |
| Learning.LearningLoop.ComputeAccuracy | src/nanocortex/learning/feedback.py:103-120 | the loop returns the accuracy report of the feedback held |
| Learning.LearningLoop.SaveState | src/nanocortex/learning/feedback.py:163-178 | the saved state is the loop's feedback, adjustments and mistake counters |
| Learning.LearningLoop.LoadState | src/nanocortex/learning/feedback.py:180-193 | it reports whether a saved state existed; if so that state replaces the current one, and otherwise nothing changes |
| PyNum.Round4Tiny | src/nanocortex/knowledge/retriever.py:129 | a positive score below 0.00005 rounds to 0.0 |
| PyNum.Round4Monotone | src/nanocortex/knowledge/retriever.py:129 | rounding keeps the order of scores |
| PyNum.Round4UnitInterval | src/nanocortex/learning/feedback.py:118 | rounding keeps a value in [0, 1] |

## Left out

- Writing events to the daily JSONL audit file, the thread lock around appends, and the learning state's JSON file are I/O. `load_state` takes the saved state as an optional value instead of reading a file.
- Timestamps (`created_at`, `timestamp`, `_utcnow`) are clock reads and are left out of every record. Generated uuids (`_new_id`) are arguments, and an audit event's id is its position in the log.
- The text sent to and received from the language models is not modelled: the prompts and the HTTP calls are outside the model. Each model is a function parameter returning a reply, "no API key" or "call failed". `async` is not modelled.
- Regular-expression matching is a parameter. The model states what `contains:` means only for a literal ASCII pattern searched in an ASCII query, with an engine that agrees there with `re` under `IGNORECASE`. Outside ASCII, `re` folds case further (`s` matches `ſ`); that is not modelled.
- `math.log` is a parameter of which only the sign on positive arguments is assumed. Floating point is modelled as exact real arithmetic, so `0.1 * (h // 3)` and the BM25 arithmetic carry no rounding error.
- PyNum.Round4: rounds the exact value half-even to four places. Python rounds the nearest double, so the two can differ at a four-decimal tie that is not a dyadic rational: `compute_accuracy` with 1 correct record out of 160 gives 0.0062 here and 0.0063 in Python, and 3 partially correct out of 400 gives 0.0038 here and 0.0037 in Python. RRF scores such as `1/160` at rank 100 meet the same ties.
- `strip` and `split` use the full `str.isspace` set of blanks. `lower` changes only the ASCII letters `A`-`Z`; Unicode case mapping is not modelled.
- PyNum.ParseFloat: a threshold is read as the exact real it denotes. Rounding to the nearest double, underflow (`float('1e-400') == 0.0`) and overflow (`float('1e400') == inf`) are not modelled, so `min_score:1e-400` matches with no evidence here (0.0 < 10^-400) and not in Python (0.0 < 0.0 is false).
- `float()` accepts only ASCII digits here. Python also accepts other Unicode decimal digits (`float('١٢') == 12.0`); such thresholds are not modelled.
- The perception layer (ingestion), the HTTP server, the orchestrator's wiring, configuration loading, the scripts and the tests are not part of this model. The agent's settings are a record.
- `list.sort` is modelled by value as a stable insertion sort, not as an in-place sort of a Python list.
- The accuracy breakdown is a map, so the insertion order of its keys is not modelled.
- The read-only properties `mistake_patterns`, `state` and `pending_decision` are read as the fields they return. `chunk_count`, `feedback_count` and `adjustment_count` are the functions `ChunkCount`, `FeedbackCount` and `AdjustmentCount`.
