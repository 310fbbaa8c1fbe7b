/** The evidence store: an append-only list of chunks filled from ingested
    documents, and retrieval by BM25, by Jaccard overlap, or by the
    Reciprocal Rank Fusion of both, each result carrying one citation. */
module Knowledge {
  import opened Wrappers
  import opened Seqs
  import opened PyText
  import opened PyNum
  import opened Domain
  import opened Audit
  import opened Chunking
  import opened Scoring
  import opened Ranking

  /** The character budget `index_document` gives `_split_text`. */
  const MaxChunkChars := 500
  /** Length of a citation's snippet. */
  const SnippetChars := 200

  // ---------------------------------------------------------------- indexing

  /** `f"{doc_id}_t{i}_{added}"` */
  function TextChunkId(docId: string, i: nat, added: nat): string {
    docId + "_t" + NatToString(i) + "_" + NatToString(added)
  }

  /** `f"{doc_id}_img_{image_id}"` */
  function ImageChunkId(docId: string, imageId: string): string {
    docId + "_img_" + imageId
  }

  /** The chunks of text block number `i`, whose pieces are numbered on from `base`. */
  function BlockChunks(docId: string, i: nat, block: ExtractedText, pieces: seq<string>, base: nat): (r: seq<Chunk>)
    ensures |r| == |pieces|
  {
    seq(|pieces|, k requires 0 <= k < |pieces| =>
      Chunk(TextChunkId(docId, i, base + k), docId, pieces[k],
            block.sourcePage, block.bbox, None, "text"))
  }

  /** The chunks of the text blocks, in order; the counter in each id is the
      number of chunks the document produced before it. */
  function TextChunks(docId: string, texts: seq<ExtractedText>): seq<Chunk>
    decreases |texts|
  {
    if texts == [] then []
    else
      var init := TextChunks(docId, texts[..|texts| - 1]);
      var last := texts[|texts| - 1];
      init + BlockChunks(docId, |texts| - 1, last, SplitSpec(last.text, MaxChunkChars), |init|)
  }

  /** The chunk of a described image. */
  function ImageChunk(docId: string, img: ExtractedImage): Chunk {
    Chunk(ImageChunkId(docId, img.imageId), docId, img.description, img.page, None, Some(img.imageId), "image")
  }

  /** An empty description is falsy. */
  predicate Described(img: ExtractedImage) {
    img.description != ""
  }

  /** The chunks of the images, in order. */
  function ImageChunks(docId: string, images: seq<ExtractedImage>): seq<Chunk>
    decreases |images|
  {
    if images == [] then []
    else
      var last := images[|images| - 1];
      ImageChunks(docId, images[..|images| - 1]) + (if Described(last) then [ImageChunk(docId, last)] else [])
  }

  lemma BlockChunksSnoc(docId: string, i: nat, block: ExtractedText, pieces: seq<string>, j: nat, base: nat)
    requires j < |pieces|
    ensures BlockChunks(docId, i, block, pieces[..j + 1], base)
         == BlockChunks(docId, i, block, pieces[..j], base)
            + [Chunk(TextChunkId(docId, i, base + j), docId, pieces[j],
                     block.sourcePage, block.bbox, None, "text")]
  {
  }

  lemma TextChunksSnoc(docId: string, texts: seq<ExtractedText>, i: nat)
    requires i < |texts|
    ensures TextChunks(docId, texts[..i + 1])
         == TextChunks(docId, texts[..i])
            + BlockChunks(docId, i, texts[i], SplitSpec(texts[i].text, MaxChunkChars), |TextChunks(docId, texts[..i])|)
  {
    assert texts[..i + 1][..i] == texts[..i];
  }

  lemma ImageChunksSnoc(docId: string, images: seq<ExtractedImage>, i: nat)
    requires i < |images|
    ensures ImageChunks(docId, images[..i + 1])
         == ImageChunks(docId, images[..i]) + (if Described(images[i]) then [ImageChunk(docId, images[i])] else [])
  {
    assert images[..i + 1][..i] == images[..i];
  }

  /** Everything `index_document(doc)` appends, text chunks first. */
  function DocChunks(doc: DocumentIngestion): seq<Chunk> {
    TextChunks(doc.docId, doc.texts) + ImageChunks(doc.docId, doc.images)
  }

  function IndexPayload(docId: string, added: nat): Payload {
    map["doc_id" := Str(docId), "chunks_added" := Int(added)]
  }

  // ---------------------------------------------------------------- retrieval

  /** The scored list each strategy produces; any strategy other than
      `bm25` and `vector` is hybrid. */
  function Scores(chunks: seq<Chunk>, query: string, strategy: string, ln: real -> real): seq<Scored> {
    if strategy == "bm25" then Bm25Spec(chunks, query, ln)
    else if strategy == "vector" then VectorSpec(chunks, query)
    else RrfSpec([Bm25Spec(chunks, query, ln), VectorSpec(chunks, query)])
  }

  /** The result for one surviving entry: the score rounded to four places and one citation. */
  function ToResult(e: Scored): RetrievalResult {
    var c := e.0;
    RetrievalResult(c.chunkId, c.text, Round4(e.1),
                    [Citation(c.docId, c.page, None, c.imageId, PyPrefix(c.text, SnippetChars))], c.modality)
  }

  /** The result loop: every entry with a positive score, in order. */
  function ToResults(s: seq<Scored>): (r: seq<RetrievalResult>)
    ensures |r| <= |s|
  {
    var f := Filter(s, Positive());
    seq(|f|, k requires 0 <= k < |f| => ToResult(f[k]))
  }

  /** What `retrieve(query, top_k, strategy)` returns. */
  function RetrieveSpec(chunks: seq<Chunk>, query: string, topK: int, strategy: string, ln: real -> real): (r: RetrievalResponse)
    ensures r.query == query && r.strategy == strategy
    ensures chunks == [] ==> r.results == []
    ensures topK >= 0 ==> |r.results| <= topK
  {
    if chunks == [] then RetrievalResponse(query, [], strategy)
    else RetrievalResponse(query, ToResults(PyPrefix(SortDesc(Scores(chunks, query, strategy, ln)), topK)), strategy)
  }

  function RetrievalPayload(r: RetrievalResponse): Payload {
    map["query" := Str(r.query), "strategy" := Str(r.strategy), "results_count" := Int(|r.results|),
        "top_score" := if r.results != [] then Real(r.results[0].score) else Int(0)]
  }

  class KnowledgeStore {
    const audit: AuditLogger
    var chunks: seq<Chunk>
    var docIds: set<string>

    constructor (audit: AuditLogger)
      ensures this.audit == audit && chunks == [] && docIds == {}
    {
      this.audit := audit;
      chunks := [];
      docIds := {};
    }

    /** `chunk_count` */
    function ChunkCount(): nat
      reads this
    {
      |chunks|
    }

    /** `index_document`: appends the chunks of every text block, then one per
        described image, records the document id and logs the count. */
    method IndexDocument(doc: DocumentIngestion) returns (added: nat)
      modifies this, audit
      ensures chunks == old(chunks) + DocChunks(doc)
      ensures added == |DocChunks(doc)| && ChunkCount() == old(ChunkCount()) + added
      ensures docIds == old(docIds) + {doc.docId}
      ensures audit.events == old(audit.events)
        + [AuditEvent(|old(audit.events)|, "knowledge", "document_indexed", IndexPayload(doc.docId, added), None, SystemActor)]
    {
      var fromTexts := IndexTexts(doc);
      var fromImages := IndexImages(doc, fromTexts);
      added := fromImages;
      docIds := docIds + {doc.docId};
      var _ := audit.Log("knowledge", "document_indexed", Some(IndexPayload(doc.docId, added)), None, SystemActor);
    }

    /** The first loop of `index_document`: each text block, split to the
        budget, one chunk per piece, `added` counting on. */
    method IndexTexts(doc: DocumentIngestion) returns (added: nat)
      modifies this
      ensures chunks == old(chunks) + TextChunks(doc.docId, doc.texts)
      ensures added == |TextChunks(doc.docId, doc.texts)|
      ensures docIds == old(docIds)
    {
      added := 0;
      ghost var done: seq<Chunk> := [];
      for i := 0 to |doc.texts|
        invariant done == TextChunks(doc.docId, doc.texts[..i])
        invariant chunks == old(chunks) + done
        invariant added == |done|
        invariant docIds == old(docIds)
      {
        var block := doc.texts[i];
        var pieces := SplitText(block.text, MaxChunkChars);
        TextChunksSnoc(doc.docId, doc.texts, i);
        ghost var blockChunks := BlockChunks(doc.docId, i, block, pieces, added);
        added := IndexPieces(doc.docId, i, block, pieces, added);
        done := done + blockChunks;
      }
      assert doc.texts[..|doc.texts|] == doc.texts;
    }

    /** The inner loop of `index_document`'s first loop: one chunk per piece of
        text block `i`, the counter `added` running on from `base`. */
    method IndexPieces(docId: string, i: nat, block: ExtractedText, pieces: seq<string>, base: nat)
      returns (added: nat)
      modifies this
      ensures chunks == old(chunks) + BlockChunks(docId, i, block, pieces, base)
      ensures added == base + |pieces|
      ensures docIds == old(docIds)
    {
      added := base;
      for j := 0 to |pieces|
        invariant chunks == old(chunks) + BlockChunks(docId, i, block, pieces[..j], base)
        invariant added == base + j
        invariant docIds == old(docIds)
      {
        var chunk := Chunk(TextChunkId(docId, i, added), docId, pieces[j], block.sourcePage, block.bbox, None, "text");
        BlockChunksSnoc(docId, i, block, pieces, j, base);
        chunks := chunks + [chunk];
        added := added + 1;
      }
      assert pieces[..|pieces|] == pieces;
    }

    /** The second loop of `index_document`: one chunk per image with a description. */
    method IndexImages(doc: DocumentIngestion, before: nat) returns (added: nat)
      modifies this
      ensures chunks == old(chunks) + ImageChunks(doc.docId, doc.images)
      ensures added == before + |ImageChunks(doc.docId, doc.images)|
      ensures docIds == old(docIds)
    {
      added := before;
      for i := 0 to |doc.images|
        invariant chunks == old(chunks) + ImageChunks(doc.docId, doc.images[..i])
        invariant added == before + |ImageChunks(doc.docId, doc.images[..i])|
        invariant docIds == old(docIds)
      {
        var img := doc.images[i];
        ImageChunksSnoc(doc.docId, doc.images, i);
        if img.description != "" {
          var chunk := Chunk(ImageChunkId(doc.docId, img.imageId), doc.docId, img.description, img.page,
                             None, Some(img.imageId), "image");
          chunks := chunks + [chunk];
          added := added + 1;
        }
      }
      assert doc.images[..|doc.images|] == doc.images;
    }

    /** `retrieve`: score by the strategy, sort (stably, highest first), cut to
        `top_k`, keep the positive entries with a citation each, and log. An
        empty store answers at once, without logging. */
    method Retrieve(query: string, topK: int, strategy: string, ln: real -> real) returns (response: RetrievalResponse)
      modifies audit
      ensures response == RetrieveSpec(chunks, query, topK, strategy, ln)
      ensures chunks == [] ==> audit.events == old(audit.events)
      ensures chunks != [] ==>
        audit.events == old(audit.events)
          + [AuditEvent(|old(audit.events)|, "knowledge", "retrieval", RetrievalPayload(response), None, SystemActor)]
    {
      if chunks == [] {
        return RetrievalResponse(query, [], strategy);
      }
      var scored := ScoreBy(query, strategy, ln);
      scored := SortDesc(scored);
      var top := PyPrefix(scored, topK);
      var results := CollectResults(top);
      response := RetrievalResponse(query, results, strategy);
      var _ := audit.Log("knowledge", "retrieval", Some(RetrievalPayload(response)), None, SystemActor);
    }

    /** The strategy dispatch of `retrieve`; anything but `bm25` and `vector` is hybrid. */
    method ScoreBy(query: string, strategy: string, ln: real -> real) returns (scored: seq<Scored>)
      ensures scored == Scores(chunks, query, strategy, ln)
    {
      if strategy == "bm25" {
        scored := Bm25Score(query, ln);
      } else if strategy == "vector" {
        scored := VectorScore(query);
      } else {
        var bm25Scores := Bm25Score(query, ln);
        var vectorScores := VectorScore(query);
        scored := RrfFuse([bm25Scores, vectorScores]);
      }
    }

    /** The result loop of `retrieve`: non-positive entries are skipped, the
        others get a rounded score and a single citation. */
    static method CollectResults(top: seq<Scored>) returns (results: seq<RetrievalResult>)
      ensures results == ToResults(top)
    {
      results := [];
      for i := 0 to |top|
        invariant results == ToResults(top[..i])
      {
        ToResultsSnoc(top[..i], top[i]);
        assert top[..i + 1] == top[..i] + [top[i]];
        var chunk, score := top[i].0, top[i].1;
        if score > 0.0 {
          var citation := Citation(chunk.docId, chunk.page, None, chunk.imageId, PyPrefix(chunk.text, SnippetChars));
          results := results + [RetrievalResult(chunk.chunkId, chunk.text, Round4(score), [citation], chunk.modality)];
        }
      }
      assert top[..|top|] == top;
    }

    /** `_bm25_score`: document frequencies, the average length, then each
        chunk's sum over the query terms it shares. */
    method Bm25Score(query: string, ln: real -> real) returns (results: seq<Scored>)
      ensures results == Bm25Spec(chunks, query, ln)
    {
      var queryTerms := Terms(query);
      if queryTerms == [] {
        var all := chunks;
        return seq(|all|, i requires 0 <= i < |all| => (all[i], 0.0));
      }
      var n := |chunks|;
      var docFreq := DocFrequencies(queryTerms);
      var total := TotalLength();
      var avgDl := total as real / (if n > 1 then n else 1) as real;
      results := [];
      for c := 0 to n
        invariant |results| == c
        invariant forall i :: 0 <= i < c ==> results[i] == (chunks[i], ScoreOver(chunks, queryTerms, i, |queryTerms|, ln))
      {
        var score := ChunkScore(queryTerms, docFreq, c, avgDl, ln);
        results := results + [(chunks[c], score)];
      }
      ghost var spec := Bm25Spec(chunks, query, ln);
      assert forall i :: 0 <= i < n ==> spec[i] == (chunks[i], ScoreOver(chunks, queryTerms, i, |queryTerms|, ln));
    }

    /** `sum(len(c.text.split()) for c in self._chunks)` */
    method TotalLength() returns (total: nat)
      ensures total == TotalWords(chunks)
    {
      total := 0;
      for c := 0 to |chunks|
        invariant total == TotalWords(chunks[..c])
      {
        assert chunks[..c + 1][..c] == chunks[..c];
        total := total + |Words(chunks[c].text)|;
      }
      assert chunks[..|chunks|] == chunks;
    }

    /** The first loop of `_bm25_score`: for each chunk, every query term it
        holds bumps that term's count, once per occurrence in the query. */
    method DocFrequencies(queryTerms: seq<string>) returns (docFreq: map<string, nat>)
      ensures forall t :: Tally(docFreq, t) == DocFreq(chunks, queryTerms, t)
    {
      docFreq := map[];
      for c := 0 to |chunks|
        invariant forall t :: Tally(docFreq, t) == DocFreq(chunks[..c], queryTerms, t)
      {
        var terms := TermSet(chunks[c].text);
        ghost var before := docFreq;
        for k := 0 to |queryTerms|
          invariant forall t :: Tally(docFreq, t) == Tally(before, t) + (if t in terms then Count(queryTerms[..k], t) else 0)
        {
          var t := queryTerms[k];
          CountSnoc(queryTerms, k);
          TallyBump(docFreq, t);
          ghost var prev := docFreq;
          if t in terms {
            docFreq := docFreq[t := Tally(docFreq, t) + 1];
          }
          assert forall u :: Tally(docFreq, u) == Tally(prev, u) + (if u == t && t in terms then 1 else 0);
        }
        assert queryTerms[..|queryTerms|] == queryTerms;
        DocFreqSnoc(chunks, queryTerms, c);
      }
      assert chunks[..|chunks|] == chunks;
    }

    /** `term_counts`: how often each term occurs in a chunk. */
    static method TermCounts(terms: seq<string>) returns (counts: map<string, nat>)
      ensures forall t :: Tally(counts, t) == Count(terms, t)
    {
      counts := map[];
      for j := 0 to |terms|
        invariant forall t :: Tally(counts, t) == Count(terms[..j], t)
      {
        var t := terms[j];
        CountSnoc(terms, j);
        TallyBump(counts, t);
        ghost var prev := counts;
        counts := counts[t := Tally(counts, t) + 1];
        assert forall u :: Tally(counts, u) == Tally(prev, u) + (if u == t then 1 else 0);
        assert forall u :: Tally(prev, u) == Count(terms[..j], u);
        assert forall u :: Tally(counts, u) == Count(terms[..j + 1], u);
      }
      assert terms[..|terms|] == terms;
    }

    /** The body of the per-chunk loop of `_bm25_score` for chunk `c`. */
    method ChunkScore(queryTerms: seq<string>, docFreq: map<string, nat>, c: nat, avgDl: real, ln: real -> real)
      returns (score: real)
      requires c < |chunks|
      requires forall t :: Tally(docFreq, t) == DocFreq(chunks, queryTerms, t)
      requires avgDl == AvgDl(chunks)
      ensures score == ScoreOver(chunks, queryTerms, c, |queryTerms|, ln)
    {
      var chunkTerms := Terms(chunks[c].text);
      var dl := |chunkTerms|;
      var n := |chunks|;
      score := 0.0;
      var termCounts := TermCounts(chunkTerms);
      for k := 0 to |queryTerms|
        invariant score == ScoreOver(chunks, queryTerms, c, k, ln)
      {
        var t := queryTerms[k];
        var tf := Tally(termCounts, t);
        var df := Tally(docFreq, t);
        ContributionOf(chunks, queryTerms, c, t, tf, df, ln);
        if tf != 0 && df != 0 {
          var w := TermScore(n, df, tf, dl, avgDl, ln);
          score := score + w;
        }
      }
    }

    /** `_vector_score`: the Jaccard overlap of each chunk's terms with the query's. */
    method VectorScore(query: string) returns (results: seq<Scored>)
      ensures results == VectorSpec(chunks, query)
    {
      var queryTerms := TermSet(query);
      results := [];
      for c := 0 to |chunks|
        invariant |results| == c
        invariant forall i :: 0 <= i < c ==> results[i] == (chunks[i], Jaccard(queryTerms, TermSet(chunks[i].text)))
      {
        var chunkTerms := TermSet(chunks[c].text);
        if queryTerms == {} || chunkTerms == {} {
          results := results + [(chunks[c], 0.0)];
        } else {
          var intersection := queryTerms * chunkTerms;
          var union := queryTerms + chunkTerms;
          var score := if union != {} then |intersection| as real / |union| as real else 0.0;
          results := results + [(chunks[c], score)];
        }
      }
    }

    /** `_rrf_fuse`: each list sorted, then `1/(60 + rank)` added per entry;
        the output follows the order in which ids were first scored. */
    method RrfFuse(lists: seq<seq<Scored>>) returns (fused: seq<Scored>)
      ensures fused == RrfSpec(lists)
    {
      var ids: seq<string> := [];
      var scores: map<string, real> := map[];
      var chunkMap: map<string, Chunk> := map[];
      for l := 0 to |lists|
        invariant FuseState(ids, scores, chunkMap) == FuseLists(lists[..l])
      {
        assert lists[..l + 1][..l] == lists[..l];
        ids, scores, chunkMap := FuseRanked(ids, scores, chunkMap, SortDesc(lists[l]));
      }
      assert lists[..|lists|] == lists;
      FuseListsValid(lists);
      fused := seq(|ids|, i requires 0 <= i < |ids| => (chunkMap[ids[i]], scores[ids[i]]));
    }
  }

  /** The BM25 weight of one query term in one chunk, as `_bm25_score` computes it. */
  method TermScore(n: nat, df: nat, tf: nat, dl: nat, avgDl: real, ln: real -> real) returns (w: real)
    requires tf > 0 && avgDl > 0.0
    ensures w == TermWeight(Idf(n, df, ln), tf, dl, avgDl)
  {
    var idf := ln((n as real - df as real + 0.5) / (df as real + 0.5) + 1.0);
    var numerator := (tf as real) * (K1 + 1.0);
    var ratio := B * (dl as real) / avgDl;
    var denominator := (tf as real) + K1 * (1.0 - B + ratio);
    w := idf * numerator / denominator;
  }

  /** The body of the inner loop of `_rrf_fuse`: one entry at 1-based `rank`. */
  method FuseEntry(ids0: seq<string>, scores0: map<string, real>, chunkMap0: map<string, Chunk>, chunk: Chunk, rank: nat)
    returns (ids: seq<string>, scores: map<string, real>, chunkMap: map<string, Chunk>)
    ensures FuseState(ids, scores, chunkMap) == FuseAdd(FuseState(ids0, scores0, chunkMap0), chunk, rank)
  {
    ids := ids0;
    if chunk.chunkId !in scores0 {
      ids := ids + [chunk.chunkId];
    }
    scores := scores0[chunk.chunkId := Get(scores0, chunk.chunkId) + 1.0 / ((RrfK + rank) as real)];
    chunkMap := chunkMap0[chunk.chunkId := chunk];
  }

  /** The inner loop of `_rrf_fuse`: the entries of one sorted list, ranked from 1. */
  method FuseRanked(ids0: seq<string>, scores0: map<string, real>, chunkMap0: map<string, Chunk>, ranked: seq<Scored>)
    returns (ids: seq<string>, scores: map<string, real>, chunkMap: map<string, Chunk>)
    ensures FuseState(ids, scores, chunkMap) == FuseRanks(FuseState(ids0, scores0, chunkMap0), ranked)
  {
    ids, scores, chunkMap := ids0, scores0, chunkMap0;
    for p := 0 to |ranked|
      invariant FuseState(ids, scores, chunkMap) == FuseRanks(FuseState(ids0, scores0, chunkMap0), ranked[..p])
    {
      assert ranked[..p + 1][..p] == ranked[..p];
      var chunk := ranked[p].0;
      var rank := p + 1;
      assert FuseRanks(FuseState(ids0, scores0, chunkMap0), ranked[..p + 1])
          == FuseAdd(FuseState(ids, scores, chunkMap), chunk, rank);
      ids, scores, chunkMap := FuseEntry(ids, scores, chunkMap, chunk, rank);
    }
    assert ranked[..|ranked|] == ranked;
  }

  /** Adding a chunk adds the query-term count of every term it holds. */
  lemma DocFreqSnoc(chunks: seq<Chunk>, q: seq<string>, c: nat)
    requires c < |chunks|
    ensures forall t :: DocFreq(chunks[..c + 1], q, t)
                     == DocFreq(chunks[..c], q, t) + (if t in TermSet(chunks[c].text) then Count(q, t) else 0)
  {
    assert chunks[..c + 1][..c] == chunks[..c];
    forall t ensures DocFreq(chunks[..c + 1], q, t)
                  == DocFreq(chunks[..c], q, t) + (if t in TermSet(chunks[c].text) then Count(q, t) else 0)
    {
      var m := Count(q, t);
      var before := Containing(chunks[..c], t);
      assert m * (before + 1) == m * before + m;
    }
  }

  /** A query term's contribution, from its two counts. */
  lemma ContributionOf(chunks: seq<Chunk>, q: seq<string>, c: nat, t: string, tf: nat, df: nat, ln: real -> real)
    requires c < |chunks|
    requires tf == Count(Terms(chunks[c].text), t) && df == DocFreq(chunks, q, t)
    ensures tf == 0 || df == 0 ==> Contribution(chunks, q, c, t, ln) == 0.0
    ensures tf != 0 && df != 0 ==>
      AvgDl(chunks) > 0.0
      && Contribution(chunks, q, c, t, ln) == TermWeight(Idf(|chunks|, df, ln), tf, |Terms(chunks[c].text)|, AvgDl(chunks))
  {
    if tf != 0 && df != 0 {
      AvgDlPositive(chunks, c);
    }
  }

  /** Counting over one more element. */
  lemma CountSnoc(s: seq<string>, j: nat)
    requires j < |s|
    ensures forall u :: Count(s[..j + 1], u) == Count(s[..j], u) + (if u == s[j] then 1 else 0)
  {
    assert s[..j + 1] == s[..j] + [s[j]];
    forall u ensures Count(s[..j + 1], u) == Count(s[..j], u) + Count([s[j]], u) {
      CountAppend(s[..j], [s[j]], u);
    }
  }

  lemma ToResultsSnoc(s: seq<Scored>, x: Scored)
    ensures ToResults(s + [x]) == ToResults(s) + (if x.1 > 0.0 then [ToResult(x)] else [])
  {
    FilterAppend(s, [x], Positive());
    FilterOne(x, Positive());
  }

  // ---------------------------------------------------------------- what indexing promises

  /** A text block within the budget yields exactly one chunk, holding the whole block. */
  lemma ShortBlockOneChunk(docId: string, texts: seq<ExtractedText>, block: ExtractedText)
    requires |block.text| <= MaxChunkChars
    ensures TextChunks(docId, texts + [block])
         == TextChunks(docId, texts)
            + [Chunk(TextChunkId(docId, |texts|, |TextChunks(docId, texts)|), docId, block.text,
                     block.sourcePage, block.bbox, None, "text")]
  {
    var all := texts + [block];
    assert all[..|texts|] == texts;
    assert all[|all| - 1] == block;
    SplitShort(block.text, MaxChunkChars);
    var init := TextChunks(docId, texts);
    assert TextChunks(docId, all) == init + BlockChunks(docId, |texts|, block, [block.text], |init|);
  }

  /** Every text block yields at least one chunk. */
  lemma {:induction false} TextChunksAtLeast(docId: string, texts: seq<ExtractedText>)
    ensures |TextChunks(docId, texts)| >= |texts|
    decreases |texts|
  {
    if texts != [] {
      TextChunksAtLeast(docId, texts[..|texts| - 1]);
      SplitNonEmpty(texts[|texts| - 1].text, MaxChunkChars);
    }
  }

  function DescribedImage(): ExtractedImage -> bool {
    (img: ExtractedImage) => Described(img)
  }

  function ImageChunksOf(docId: string, images: seq<ExtractedImage>): (r: seq<Chunk>)
    ensures |r| == |images|
  {
    seq(|images|, k requires 0 <= k < |images| => ImageChunk(docId, images[k]))
  }

  /** The image chunks are those of the described images, in order: an image
      with an empty description yields no chunk. */
  lemma {:induction false} ImageChunksDescribed(docId: string, images: seq<ExtractedImage>)
    ensures ImageChunks(docId, images) == ImageChunksOf(docId, Filter(images, DescribedImage()))
    decreases |images|
  {
    if images != [] {
      var init, last := images[..|images| - 1], images[|images| - 1];
      ImageChunksDescribed(docId, init);
      SplitLast(images);
      FilterAppend(init, [last], DescribedImage());
      var f := Filter(init, DescribedImage());
      if Described(last) {
        assert Filter([last], DescribedImage()) == [last] by { assert [last][1..] == []; }
        ImageChunksOfSnoc(docId, f, last);
      } else {
        assert Filter([last], DescribedImage()) == [] by { assert [last][1..] == []; }
        assert f + [] == f;
      }
    }
  }

  lemma ImageChunksOfSnoc(docId: string, images: seq<ExtractedImage>, img: ExtractedImage)
    ensures ImageChunksOf(docId, images + [img]) == ImageChunksOf(docId, images) + [ImageChunk(docId, img)]
  {
  }

  lemma {:induction false} TextChunksOwned(docId: string, texts: seq<ExtractedText>)
    ensures forall c :: c in TextChunks(docId, texts) ==> c.docId == docId && c.modality == "text" && c.imageId == None
    decreases |texts|
  {
    if texts != [] {
      TextChunksOwned(docId, texts[..|texts| - 1]);
    }
  }

  lemma {:induction false} ImageChunksOwned(docId: string, images: seq<ExtractedImage>)
    ensures forall c :: c in ImageChunks(docId, images) ==> c.docId == docId && c.modality == "image" && c.imageId.Some?
    decreases |images|
  {
    if images != [] {
      ImageChunksOwned(docId, images[..|images| - 1]);
    }
  }

  /** Every chunk of a document carries its id; text chunks have no image id,
      image chunks have one. */
  lemma DocChunksOwned(doc: DocumentIngestion)
    ensures forall c :: c in DocChunks(doc) ==>
      && c.docId == doc.docId
      && (c.modality == "image" <==> c.imageId.Some?)
      && (c.modality == "text" || c.modality == "image")
  {
    TextChunksOwned(doc.docId, doc.texts);
    ImageChunksOwned(doc.docId, doc.images);
  }

  // ---------------------------------------------------------------- what retrieval promises

  /** `r` is the result for chunk `c`: same id, text and modality, and one
      citation with the chunk's document, page, image and 200-character snippet. */
  predicate Cites(r: RetrievalResult, c: Chunk) {
    && r.chunkId == c.chunkId && r.text == c.text && r.modality == c.modality
    && r.citations == [Citation(c.docId, c.page, None, c.imageId, PyPrefix(c.text, SnippetChars))]
  }

  /** Whether the query and the chunk share a lower-cased term. */
  predicate Shares(query: string, c: Chunk) {
    exists t :: t in Terms(query) && t in TermSet(c.text)
  }

  /** Every entry a strategy scores holds a chunk of the store. */
  lemma ScoresFromStore(chunks: seq<Chunk>, query: string, strategy: string, ln: real -> real)
    ensures forall e :: e in Scores(chunks, query, strategy, ln) ==> e.0 in chunks
  {
    if strategy != "bm25" && strategy != "vector" {
      var b, v := Bm25Spec(chunks, query, ln), VectorSpec(chunks, query);
      RrfChunks([b, v]);
      var none: seq<seq<Scored>> := [];
      assert [b, v][..1] == [b] && [b][..0] == none;
      assert AllChunks([b]) == ChunksIn(b);
      assert AllChunks([b, v]) == ChunksIn(b) + ChunksIn(v);
      forall c | c in ChunksIn(b) ensures c in chunks {
        var e :| e in b && e.0 == c;
      }
      forall c | c in ChunksIn(v) ensures c in chunks {
        var e :| e in v && e.0 == c;
      }
    }
  }

  /** The entries behind the results: the positive ones among the first `top_k` of the sorted list. */
  function Survivors(chunks: seq<Chunk>, query: string, topK: int, strategy: string, ln: real -> real): seq<Scored> {
    Filter(PyPrefix(SortDesc(Scores(chunks, query, strategy, ln)), topK), Positive())
  }

  lemma SurvivorsFromScores(chunks: seq<Chunk>, query: string, topK: int, strategy: string, ln: real -> real)
    ensures forall e :: e in Survivors(chunks, query, topK, strategy, ln) ==>
      e.1 > 0.0 && e in Scores(chunks, query, strategy, ln)
  {
    var scored := Scores(chunks, query, strategy, ln);
    var sorted := SortDesc(scored);
    var top := PyPrefix(sorted, topK);
    forall e | e in Filter(top, Positive()) ensures e.1 > 0.0 && e in scored {
      assert e in top;
      assert e in sorted;
      assert e in multiset(scored);
    }
  }

  /** Each result cites a chunk of the store and has a rounded score of at
      least zero (a tiny positive score can round to 0.0). */
  lemma RetrieveCited(chunks: seq<Chunk>, query: string, topK: int, strategy: string, ln: real -> real)
    ensures var rs := RetrieveSpec(chunks, query, topK, strategy, ln).results;
      forall k :: 0 <= k < |rs| ==> rs[k].score >= 0.0 && exists i :: 0 <= i < |chunks| && Cites(rs[k], chunks[i])
  {
    if chunks != [] {
      var f := Survivors(chunks, query, topK, strategy, ln);
      var rs := RetrieveSpec(chunks, query, topK, strategy, ln).results;
      SurvivorsFromScores(chunks, query, topK, strategy, ln);
      ScoresFromStore(chunks, query, strategy, ln);
      forall k | 0 <= k < |rs| ensures rs[k].score >= 0.0 && exists i :: 0 <= i < |chunks| && Cites(rs[k], chunks[i]) {
        assert rs[k] == ToResult(f[k]);
        assert f[k] in f;
        Round4Monotone(0.0, f[k].1);
        Round4Exact(0);
        var i :| 0 <= i < |chunks| && chunks[i] == f[k].0;
        assert Cites(rs[k], chunks[i]);
      }
    }
  }

  /** Results come in non-increasing order of score. */
  lemma RetrieveOrdered(chunks: seq<Chunk>, query: string, topK: int, strategy: string, ln: real -> real)
    ensures var rs := RetrieveSpec(chunks, query, topK, strategy, ln).results;
      forall i, j :: 0 <= i < j < |rs| ==> rs[i].score >= rs[j].score
  {
    if chunks != [] {
      var sorted := SortDesc(Scores(chunks, query, strategy, ln));
      SortSorted(Scores(chunks, query, strategy, ln));
      PrefixSorted(sorted, topK);
      FilterSorted(PyPrefix(sorted, topK), Positive());
      var f := Survivors(chunks, query, topK, strategy, ln);
      var rs := RetrieveSpec(chunks, query, topK, strategy, ln).results;
      forall i, j | 0 <= i < j < |rs| ensures rs[i].score >= rs[j].score {
        Round4Monotone(f[j].1, f[i].1);
      }
    }
  }

  /** For `top_k >= 0`, cutting before filtering loses nothing: the results are
      the first `top_k` positive entries of the sorted list. */
  lemma RetrieveTopPositive(chunks: seq<Chunk>, query: string, topK: int, strategy: string, ln: real -> real)
    requires chunks != [] && topK >= 0
    ensures var sorted := SortDesc(Scores(chunks, query, strategy, ln));
      RetrieveSpec(chunks, query, topK, strategy, ln).results
        == (var best := PyPrefix(Filter(sorted, Positive()), topK);
            seq(|best|, k requires 0 <= k < |best| => ToResult(best[k])))
  {
    var sorted := SortDesc(Scores(chunks, query, strategy, ln));
    SortSorted(Scores(chunks, query, strategy, ln));
    TruncateThenFilter(sorted, topK);
  }

  /** `bm25` returns only chunks that share a lower-cased term with the query. */
  lemma Bm25Relevant(chunks: seq<Chunk>, query: string, topK: int, ln: real -> real)
    ensures var rs := RetrieveSpec(chunks, query, topK, "bm25", ln).results;
      forall k :: 0 <= k < |rs| ==> exists i :: 0 <= i < |chunks| && Cites(rs[k], chunks[i]) && Shares(query, chunks[i])
  {
    if chunks != [] {
      var scored := Bm25Spec(chunks, query, ln);
      var f := Survivors(chunks, query, topK, "bm25", ln);
      var rs := RetrieveSpec(chunks, query, topK, "bm25", ln).results;
      SurvivorsFromScores(chunks, query, topK, "bm25", ln);
      forall k | 0 <= k < |rs| ensures exists i :: 0 <= i < |chunks| && Cites(rs[k], chunks[i]) && Shares(query, chunks[i]) {
        assert f[k] in f;
        var i :| 0 <= i < |scored| && scored[i] == f[k];
        if !Shares(query, chunks[i]) {
          Bm25Disjoint(chunks, query, i, ln);
        }
        assert Cites(rs[k], chunks[i]);
      }
    }
  }

  /** A query without terms finds nothing by `bm25` or `vector`. */
  lemma NoTermsNoResults(chunks: seq<Chunk>, query: string, topK: int, strategy: string, ln: real -> real)
    requires Terms(query) == [] && (strategy == "bm25" || strategy == "vector")
    ensures RetrieveSpec(chunks, query, topK, strategy, ln).results == []
  {
    if chunks != [] {
      NoTermsZeroScores(chunks, query, strategy, ln);
      ZeroScoresNoResults(Scores(chunks, query, strategy, ln), topK);
    }
  }

  lemma NoTermsZeroScores(chunks: seq<Chunk>, query: string, strategy: string, ln: real -> real)
    requires Terms(query) == [] && (strategy == "bm25" || strategy == "vector")
    ensures var scored := Scores(chunks, query, strategy, ln);
      forall i :: 0 <= i < |scored| ==> scored[i].1 == 0.0
  {
    assert TermSet(query) == {};
  }

  /** Entries that all score zero leave no result, however they are cut. */
  lemma ZeroScoresNoResults(scored: seq<Scored>, topK: int)
    requires forall i :: 0 <= i < |scored| ==> scored[i].1 == 0.0
    ensures ToResults(PyPrefix(SortDesc(scored), topK)) == []
  {
    var top := PyPrefix(SortDesc(scored), topK);
    forall e | e in top ensures !Positive()(e) {
      assert e in multiset(scored);
      var i :| 0 <= i < |scored| && scored[i] == e;
    }
    FilterNone(top, Positive());
  }

  lemma {:induction false} FilterNone(s: seq<Scored>, keep: Scored -> bool)
    requires forall e :: e in s ==> !keep(e)
    ensures Filter(s, keep) == []
    decreases |s|
  {
    if s != [] {
      FilterNone(s[1..], keep);
    }
  }

  /** The distinct chunk ids of the store. */
  function StoreIds(chunks: seq<Chunk>): set<string> {
    set i | 0 <= i < |chunks| :: chunks[i].chunkId
  }

  /** The ids both lists of hybrid retrieval hold: those of the store. */
  lemma HybridIds(chunks: seq<Chunk>, query: string, ln: real -> real)
    ensures AllIds([Bm25Spec(chunks, query, ln), VectorSpec(chunks, query)]) == StoreIds(chunks)
  {
    var b, v := Bm25Spec(chunks, query, ln), VectorSpec(chunks, query);
    var none: seq<seq<Scored>> := [];
    assert [b, v][..1] == [b] && [b][..0] == none;
    assert AllIds([b]) == IdsOf(b);
    assert AllIds([b, v]) == IdsOf(b) + IdsOf(v);
    assert IdsOf(b) == StoreIds(chunks) by {
      forall id | id in StoreIds(chunks) ensures id in IdsOf(b) {
        var i :| 0 <= i < |chunks| && chunks[i].chunkId == id;
        assert b[i] in b;
      }
    }
    assert IdsOf(v) == StoreIds(chunks) by {
      forall id | id in StoreIds(chunks) ensures id in IdsOf(v) {
        var i :| 0 <= i < |chunks| && chunks[i].chunkId == id;
        assert v[i] in v;
      }
    }
  }

  /** Hybrid retrieval on a non-empty store returns `min(top_k, #ids)`
      results whatever the query: every chunk is in both lists, so every
      fused score is positive. */
  lemma HybridCount(chunks: seq<Chunk>, query: string, topK: int, strategy: string, ln: real -> real)
    requires chunks != [] && topK >= 0 && strategy != "bm25" && strategy != "vector"
    ensures |RetrieveSpec(chunks, query, topK, strategy, ln).results|
         == if topK <= |StoreIds(chunks)| then topK else |StoreIds(chunks)|
  {
    var lists := [Bm25Spec(chunks, query, ln), VectorSpec(chunks, query)];
    var fused := RrfSpec(lists);
    assert Scores(chunks, query, strategy, ln) == fused;
    RrfIds(lists);
    RrfScores(lists);
    HybridIds(chunks, query, ln);
    AllPositive(fused, topK);
  }

  /** When every score is positive, nothing is filtered out. */
  lemma AllPositive(s: seq<Scored>, topK: int)
    requires forall i :: 0 <= i < |s| ==> s[i].1 > 0.0
    requires topK >= 0
    ensures |ToResults(PyPrefix(SortDesc(s), topK))| == if topK <= |s| then topK else |s|
  {
    var top := PyPrefix(SortDesc(s), topK);
    forall e | e in top ensures Positive()(e) {
      assert e in multiset(s);
      var i :| 0 <= i < |s| && s[i] == e;
    }
    FilterAll(top, Positive());
  }

  /** With distinct chunk ids, the store holds as many ids as chunks. */
  lemma StoreIdsDistinct(chunks: seq<Chunk>)
    requires forall i, j :: 0 <= i < j < |chunks| ==> chunks[i].chunkId != chunks[j].chunkId
    ensures |StoreIds(chunks)| == |chunks|
  {
    var ids := seq(|chunks|, i requires 0 <= i < |chunks| => chunks[i].chunkId);
    DistinctCard(ids);
    forall x | x in ids ensures x in StoreIds(chunks) {
      var i :| 0 <= i < |ids| && ids[i] == x;
    }
    forall x | x in StoreIds(chunks) ensures x in ids {
      var i :| 0 <= i < |chunks| && chunks[i].chunkId == x;
      assert ids[i] == x;
    }
    assert StoreIds(chunks) == (set x | x in ids);
  }
}
