/** Sentence-respecting splitting of a text block into chunks of at most a
    character budget: sentences (pieces between `". "`) are glued back
    together while the glued text fits, and a new chunk starts when it would not. */
module Chunking {
  import opened Seqs
  import opened PyText

  const SentenceBreak := ". "

  /** The loop state of `_split_text`: the chunks emitted so far and the text being grown. */
  datatype SplitState = SplitState(chunks: seq<string>, current: string)

  /** One iteration of the loop over sentences. An empty `current` is falsy. */
  function SplitStep(st: SplitState, sentence: string, maxChars: int): SplitState {
    var candidate := if st.current != "" then Strip(st.current + SentenceBreak + sentence) else sentence;
    if |candidate| > maxChars && st.current != "" then SplitState(st.chunks + [Strip(st.current)], sentence)
    else SplitState(st.chunks, candidate)
  }

  /** The loop run over `sentences`, from the empty state. */
  function SplitFold(sentences: seq<string>, maxChars: int): SplitState
    decreases |sentences|
  {
    if sentences == [] then SplitState([], "")
    else SplitStep(SplitFold(sentences[..|sentences| - 1], maxChars), sentences[|sentences| - 1], maxChars)
  }

  /** The chunks once the last `current` is flushed (when it is not blank). */
  function Flush(st: SplitState): seq<string> {
    st.chunks + (if Strip(st.current) != "" then [Strip(st.current)] else [])
  }

  /** `text.replace("\n", " ").split(". ")` */
  function Sentences(text: string): seq<string> {
    SplitOn(ReplaceAll(text, "\n", " "), SentenceBreak)
  }

  /** What `_split_text(text, max_chars)` returns. */
  function SplitSpec(text: string, maxChars: int): seq<string> {
    if |text| <= maxChars then [text]
    else
      var pieces := Flush(SplitFold(Sentences(text), maxChars));
      if pieces == [] then [text] else pieces
  }

  /** `_split_text`: the loop over sentences with its two variables. */
  method SplitText(text: string, maxChars: int) returns (pieces: seq<string>)
    ensures pieces == SplitSpec(text, maxChars)
  {
    if |text| <= maxChars {
      return [text];
    }
    var sentences := Sentences(text);
    var chunks: seq<string> := [];
    var current := "";
    for i := 0 to |sentences|
      invariant SplitFold(sentences[..i], maxChars) == SplitState(chunks, current)
    {
      assert sentences[..i + 1][..i] == sentences[..i];
      var sentence := sentences[i];
      var candidate := if current != "" then Strip(current + SentenceBreak + sentence) else sentence;
      if |candidate| > maxChars && current != "" {
        chunks := chunks + [Strip(current)];
        current := sentence;
      } else {
        current := candidate;
      }
    }
    assert sentences[..|sentences|] == sentences;
    if Strip(current) != "" {
      chunks := chunks + [Strip(current)];
    }
    pieces := if chunks != [] then chunks else [text];
  }

  // ---------------------------------------------------------------- properties

  /** A piece respects the budget, or it is a single sentence with no `". "` inside. */
  predicate Fits(p: string, maxChars: int) {
    |p| <= maxChars || !IsIn(SentenceBreak, p)
  }

  /** Stripping keeps a piece within the budget or free of sentence breaks. */
  lemma StripFits(p: string, maxChars: int)
    requires Fits(p, maxChars)
    ensures Fits(Strip(p), maxChars)
  {
    if !IsIn(SentenceBreak, p) && IsIn(SentenceBreak, Strip(p)) {
      var i, j := StripSlice(p);
      IsInSlice(SentenceBreak, p, i, j);
    }
  }

  /** What the loop keeps: every emitted chunk fits and is stripped, and the current text fits. */
  predicate Good(st: SplitState, maxChars: int) {
    && Fits(st.current, maxChars)
    && forall k :: 0 <= k < |st.chunks| ==> Fits(st.chunks[k], maxChars) && Trimmed(st.chunks[k])
  }

  /** One step keeps the loop invariant when the sentence has no break inside. */
  lemma SplitStepGood(st: SplitState, sentence: string, maxChars: int)
    requires Good(st, maxChars) && !IsIn(SentenceBreak, sentence)
    ensures Good(SplitStep(st, sentence, maxChars), maxChars)
  {
    if st.current != "" {
      StripFits(st.current, maxChars);
      StripTrimmed(Strip(st.current));
    }
  }

  lemma {:induction false} SplitFoldGood(sentences: seq<string>, maxChars: int)
    requires forall k :: 0 <= k < |sentences| ==> !IsIn(SentenceBreak, sentences[k])
    ensures Good(SplitFold(sentences, maxChars), maxChars)
    decreases |sentences|
  {
    if sentences != [] {
      var init := sentences[..|sentences| - 1];
      assert forall k :: 0 <= k < |init| ==> init[k] == sentences[k];
      SplitFoldGood(init, maxChars);
      SplitStepGood(SplitFold(init, maxChars), sentences[|sentences| - 1], maxChars);
    }
  }

  /** `_split_text` never returns an empty list. */
  lemma SplitNonEmpty(text: string, maxChars: int)
    ensures SplitSpec(text, maxChars) != []
  {
  }

  /** A text within the budget comes back whole, as the only chunk. */
  lemma SplitShort(text: string, maxChars: int)
    requires |text| <= maxChars
    ensures SplitSpec(text, maxChars) == [text]
  {
  }

  /** Every chunk fits the budget or is a single sentence, and is stripped. The
      text comes back whole only when it is within the budget or every one of
      its sentences is blank. */
  lemma SplitFits(text: string, maxChars: int)
    ensures var pieces := SplitSpec(text, maxChars);
      || (|text| <= maxChars && pieces == [text])
      || (pieces == [text] && forall k :: 0 <= k < |Sentences(text)| ==> Strip(Sentences(text)[k]) == "")
      || forall k :: 0 <= k < |pieces| ==> Fits(pieces[k], maxChars) && Trimmed(pieces[k])
  {
    if |text| > maxChars {
      var sentences := Sentences(text);
      var st := SplitFold(sentences, maxChars);
      if Flush(st) == [] {
        FoldBlank(sentences, maxChars);
      } else {
        SentencesUnbroken(text);
        SplitFoldGood(sentences, maxChars);
        FlushGood(st, maxChars);
      }
    }
  }

  /** A text holding a `". "` never strips to nothing. */
  lemma BreakNotBlank(a: string, b: string)
    ensures Strip(a + SentenceBreak + b) != ""
  {
    var t := a + SentenceBreak + b;
    var i, j := StripSlice(t);
    assert t[|a|] == '.';
    assert !IsSpace(t[|a|]);
  }

  /** A step from non-empty text either emits a chunk or keeps non-blank text. */
  lemma StepAfterText(st: SplitState, sentence: string, maxChars: int)
    ensures var next := SplitStep(st, sentence, maxChars);
      st.current != "" ==> |next.chunks| > |st.chunks| || Strip(next.current) != ""
    ensures |SplitStep(st, sentence, maxChars).chunks| >= |st.chunks|
  {
    if st.current != "" {
      var joined := st.current + SentenceBreak + sentence;
      BreakNotBlank(st.current, sentence);
      StripIdempotent(joined);
    }
  }

  /** The loop emits nothing and ends on blank text only when every sentence is blank. */
  lemma {:induction false} FoldBlank(sentences: seq<string>, maxChars: int)
    requires SplitFold(sentences, maxChars).chunks == []
    requires Strip(SplitFold(sentences, maxChars).current) == ""
    ensures forall k :: 0 <= k < |sentences| ==> Strip(sentences[k]) == ""
    decreases |sentences|
  {
    if sentences != [] {
      var init := sentences[..|sentences| - 1];
      var last := sentences[|sentences| - 1];
      var prev := SplitFold(init, maxChars);
      StepAfterText(prev, last, maxChars);
      assert prev.current == "" && prev.chunks == [];
      FoldBlank(init, maxChars);
      assert forall k :: 0 <= k < |init| ==> init[k] == sentences[k];
    }
  }

  /** No sentence contains a sentence break. */
  lemma SentencesUnbroken(text: string)
    ensures forall k :: 0 <= k < |Sentences(text)| ==> !IsIn(SentenceBreak, Sentences(text)[k])
  {
    SplitOnPieces(ReplaceAll(text, "\n", " "), SentenceBreak);
  }

  /** Flushing a good state emits only pieces that fit and are stripped. */
  lemma FlushGood(st: SplitState, maxChars: int)
    requires Good(st, maxChars)
    ensures forall k :: 0 <= k < |Flush(st)| ==> Fits(Flush(st)[k], maxChars) && Trimmed(Flush(st)[k])
  {
    if Strip(st.current) != "" {
      StripFits(st.current, maxChars);
      StripTrimmed(Strip(st.current));
    }
  }

  /** The exception is real: a text of blank sentences longer than the
      budget comes back whole, sentence breaks and all. */
  lemma SplitBlankSentences()
    ensures SplitSpec(". . ", 1) == [". . "]
    ensures !Fits(". . ", 1)
  {
    var text := ". . ";
    IsInChar('\n', text);
    ReplaceAbsent(text, "\n", " ");
    assert IsIn(SentenceBreak, text) by { assert StartsWith(text, SentenceBreak); }
    var s := Sentences(text);
    assert text[..2] == SentenceBreak && text[2..] == SentenceBreak;
    assert SplitOn(text, SentenceBreak) == [""] + SplitOn(SentenceBreak, SentenceBreak);
    assert SentenceBreak[..2] == SentenceBreak && SentenceBreak[2..] == "";
    assert SplitOn(SentenceBreak, SentenceBreak) == ["", ""];
    assert s == ["", "", ""];
    assert s[..2] == ["", ""] && s[..1] == [""] && s[..0] == [];
    assert SplitFold(s[..1], 1) == SplitState([], "");
    assert SplitFold(s[..2], 1) == SplitState([], "");
    assert SplitFold(s, 1) == SplitState([], "");
  }
}
