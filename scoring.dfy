/** The two relevance scorers of the evidence store, as functions of the
    chunk list and the query: BM25 over lower-cased whitespace terms, and the
    Jaccard overlap of term sets that stands in for vector similarity. */
module Scoring {
  import opened Wrappers
  import opened Seqs
  import opened PyText
  import opened Domain

  /** An indexed piece of a document. `bbox` is the text block's box, when it had one. */
  datatype Chunk = Chunk(
    chunkId: string, docId: string, text: string, page: int,
    bbox: Option<BoundingBox>, imageId: Option<string>, modality: string)

  /** A chunk with its score. */
  type Scored = (Chunk, real)

  /** `s.lower().split()` */
  function Terms(s: string): seq<string> {
    Words(Lower(s))
  }

  /** `set(s.lower().split())` */
  function TermSet(s: string): set<string> {
    set t | t in Terms(s)
  }

  // ---------------------------------------------------------------- BM25

  const K1: real := 1.5
  const B: real := 0.75

  /** What the model needs of `math.log`: its sign, on positive arguments. */
  ghost predicate LogLike(ln: real -> real) {
    forall x: real :: x > 0.0 ==> (ln(x) > 0.0 <==> x > 1.0) && (ln(x) < 0.0 <==> x < 1.0)
  }

  /** Number of chunks whose term set holds `t`. */
  function Containing(chunks: seq<Chunk>, t: string): (n: nat)
    ensures n <= |chunks|
    decreases |chunks|
  {
    if chunks == [] then 0
    else Containing(chunks[..|chunks| - 1], t) + (if t in TermSet(chunks[|chunks| - 1].text) then 1 else 0)
  }

  /** `doc_freq.get(t, 0)`. The count is bumped once per chunk containing `t`
      for every occurrence of `t` in the query, so a repeated query term counts
      each chunk several times. */
  function DocFreq(chunks: seq<Chunk>, query: seq<string>, t: string): nat {
    Count(query, t) * Containing(chunks, t)
  }

  /** `sum(len(c.text.split()) for c in chunks)`: words of the text as written, not lower-cased. */
  function TotalWords(chunks: seq<Chunk>): nat
    decreases |chunks|
  {
    if chunks == [] then 0 else TotalWords(chunks[..|chunks| - 1]) + |Words(chunks[|chunks| - 1].text)|
  }

  /** `avg_dl` */
  function AvgDl(chunks: seq<Chunk>): real {
    TotalWords(chunks) as real / (if |chunks| > 1 then |chunks| else 1) as real
  }

  /** The average length is positive as soon as one chunk has a term, so the
      division by `avg_dl` in a contributing term never divides by zero. */
  lemma {:induction false} AvgDlPositive(chunks: seq<Chunk>, i: nat)
    requires i < |chunks| && Terms(chunks[i].text) != []
    ensures AvgDl(chunks) > 0.0
  {
    TotalWordsAtLeast(chunks, i);
    WordsLowerLength(chunks[i].text);
    assert TotalWords(chunks) >= 1;
    QuotientPositive(TotalWords(chunks) as real, (if |chunks| > 1 then |chunks| else 1) as real);
  }

  lemma QuotientPositive(a: real, d: real)
    requires a > 0.0 && d > 0.0
    ensures a / d > 0.0
  {
  }

  lemma {:induction false} TotalWordsAtLeast(chunks: seq<Chunk>, i: nat)
    requires i < |chunks|
    ensures TotalWords(chunks) >= |Words(chunks[i].text)|
    decreases |chunks|
  {
    if i < |chunks| - 1 {
      var init := chunks[..|chunks| - 1];
      assert init[i] == chunks[i];
      TotalWordsAtLeast(init, i);
    }
  }

  /** `math.log((n - df + 0.5) / (df + 0.5) + 1.0)` */
  function Idf(n: nat, df: nat, ln: real -> real): real {
    ln((n as real - df as real + 0.5) / (df as real + 0.5) + 1.0)
  }

  /** `idf * numerator / denominator` for one query term. */
  function TermWeight(idf: real, tf: nat, dl: nat, avgDl: real): real
    requires tf > 0 && avgDl > 0.0
  {
    var ratio := (B * (dl as real)) / avgDl;
    assert ratio >= 0.0;
    (idf * ((tf as real) * (K1 + 1.0))) / ((tf as real) + K1 * (1.0 - B + ratio))
  }

  /** A term's weight has the sign of its idf. */
  lemma TermWeightSign(idf: real, tf: nat, dl: nat, avgDl: real)
    requires tf > 0 && avgDl > 0.0
    ensures idf > 0.0 ==> TermWeight(idf, tf, dl, avgDl) > 0.0
    ensures idf < 0.0 ==> TermWeight(idf, tf, dl, avgDl) < 0.0
  {
    var ratio := (B * (dl as real)) / avgDl;
    assert ratio >= 0.0;
    var num := (tf as real) * (K1 + 1.0);
    var den := (tf as real) + K1 * (1.0 - B + ratio);
    assert num > 0.0 && den > 0.0;
    if idf > 0.0 {
      assert idf * num > 0.0;
    } else if idf < 0.0 {
      assert idf * num < 0.0;
    }
  }

  /** What query term `t` adds to the score of chunk `i`: nothing when the
      chunk lacks it or no chunk has it. */
  function Contribution(chunks: seq<Chunk>, query: seq<string>, i: nat, t: string, ln: real -> real): real
    requires i < |chunks|
  {
    var terms := Terms(chunks[i].text);
    var tf := Count(terms, t);
    var df := DocFreq(chunks, query, t);
    if tf == 0 || df == 0 then 0.0
    else
      AvgDlPositive(chunks, i);
      TermWeight(Idf(|chunks|, df, ln), tf, |terms|, AvgDl(chunks))
  }

  /** The score of chunk `i` after the first `upto` query terms. */
  function ScoreOver(chunks: seq<Chunk>, query: seq<string>, i: nat, upto: nat, ln: real -> real): real
    requires i < |chunks| && upto <= |query|
    decreases upto
  {
    if upto == 0 then 0.0
    else ScoreOver(chunks, query, i, upto - 1, ln) + Contribution(chunks, query, i, query[upto - 1], ln)
  }

  /** `_bm25_score(query)`: every chunk, in store order, with its BM25 score. */
  function Bm25Spec(chunks: seq<Chunk>, query: string, ln: real -> real): (r: seq<Scored>)
    ensures |r| == |chunks| && forall i :: 0 <= i < |r| ==> r[i].0 == chunks[i]
  {
    var q := Terms(query);
    if q == [] then seq(|chunks|, i requires 0 <= i < |chunks| => (chunks[i], 0.0))
    else seq(|chunks|, i requires 0 <= i < |chunks| => (chunks[i], ScoreOver(chunks, q, i, |q|, ln)))
  }

  /** A chunk that shares no lower-cased term with the query scores 0. */
  lemma Bm25Disjoint(chunks: seq<Chunk>, query: string, i: nat, ln: real -> real)
    requires i < |chunks|
    requires forall t :: t in Terms(query) ==> t !in TermSet(chunks[i].text)
    ensures Bm25Spec(chunks, query, ln)[i].1 == 0.0
  {
    var q := Terms(query);
    ScoreOverDisjoint(chunks, q, i, |q|, ln);
  }

  lemma {:induction false} ScoreOverDisjoint(chunks: seq<Chunk>, query: seq<string>, i: nat, upto: nat, ln: real -> real)
    requires i < |chunks| && upto <= |query|
    requires forall k :: 0 <= k < upto ==> query[k] !in TermSet(chunks[i].text)
    ensures ScoreOver(chunks, query, i, upto, ln) == 0.0
    decreases upto
  {
    if upto > 0 {
      ScoreOverDisjoint(chunks, query, i, upto - 1, ln);
      assert Count(Terms(chunks[i].text), query[upto - 1]) == 0;
    }
  }

  /** When no query term is repeated and `log` has its usual sign, every
      chunk scores at least 0, and a chunk that contains a query term scores
      more than 0: each document frequency is at most the chunk count, so
      every idf is positive. */
  lemma Bm25DistinctTerms(chunks: seq<Chunk>, query: string, i: nat, ln: real -> real)
    requires LogLike(ln) && i < |chunks|
    requires forall t :: Count(Terms(query), t) <= 1
    ensures Bm25Spec(chunks, query, ln)[i].1 >= 0.0
    ensures (exists t :: t in Terms(query) && t in TermSet(chunks[i].text)) ==> Bm25Spec(chunks, query, ln)[i].1 > 0.0
  {
    var q := Terms(query);
    forall k | 0 <= k < |q| ensures Contribution(chunks, q, i, q[k], ln) >= 0.0
      && (q[k] in TermSet(chunks[i].text) ==> Contribution(chunks, q, i, q[k], ln) > 0.0)
    {
      ContributionPositive(chunks, q, i, q[k], ln);
    }
    ScoreOverPositive(chunks, q, i, |q|, ln);
    if exists t :: t in q && t in TermSet(chunks[i].text) {
      var t :| t in q && t in TermSet(chunks[i].text);
      var k :| 0 <= k < |q| && q[k] == t;
      ScoreOverPositive(chunks, q, i, |q|, ln);
    }
  }

  /** A term that occurs at most once in the query contributes a non-negative
      amount, and a positive one to every chunk containing it. */
  lemma ContributionPositive(chunks: seq<Chunk>, query: seq<string>, i: nat, t: string, ln: real -> real)
    requires LogLike(ln) && i < |chunks| && Count(query, t) <= 1
    ensures Contribution(chunks, query, i, t, ln) >= 0.0
    ensures t in query && t in TermSet(chunks[i].text) ==> Contribution(chunks, query, i, t, ln) > 0.0
  {
    var terms := Terms(chunks[i].text);
    var tf := Count(terms, t);
    var df := DocFreq(chunks, query, t);
    DocFreqAtMost(chunks, query, t);
    if tf != 0 && df != 0 {
      IdfSign(|chunks|, df, ln);
      AvgDlPositive(chunks, i);
      TermWeightSign(Idf(|chunks|, df, ln), tf, |terms|, AvgDl(chunks));
    }
    if t in query && t in TermSet(chunks[i].text) {
      DocFreqPositive(chunks, query, i, t);
      assert t in terms;
    }
  }

  /** A term that occurs at most once in the query has a document frequency of
      at most the number of chunks. */
  lemma DocFreqAtMost(chunks: seq<Chunk>, query: seq<string>, t: string)
    requires Count(query, t) <= 1
    ensures DocFreq(chunks, query, t) <= |chunks|
  {
    if Count(query, t) == 0 {
      assert DocFreq(chunks, query, t) == 0;
    } else {
      assert DocFreq(chunks, query, t) == Containing(chunks, t);
    }
  }

  /** A query term held by some chunk has a positive document frequency. */
  lemma DocFreqPositive(chunks: seq<Chunk>, query: seq<string>, i: nat, t: string)
    requires i < |chunks| && t in query && t in TermSet(chunks[i].text)
    ensures DocFreq(chunks, query, t) > 0
  {
    ContainingAt(chunks, i, t);
    var c, n := Count(query, t), Containing(chunks, t);
    assert c >= 1 && n >= 1;
    assert c * n >= n;
  }

  /** The idf is positive when the document frequency is at most the chunk
      count, and negative when it is larger. */
  lemma IdfSign(n: nat, df: nat, ln: real -> real)
    requires LogLike(ln)
    ensures df <= n ==> Idf(n, df, ln) > 0.0
    ensures df > n ==> Idf(n, df, ln) < 0.0
  {
    var top := n as real - df as real + 0.5;
    var bottom := df as real + 0.5;
    assert bottom > 0.0;
    var x := top / bottom + 1.0;
    if df <= n {
      assert top > 0.0;
      assert top / bottom > 0.0;
      assert x > 1.0;
    } else {
      assert top < 0.0;
      assert top / bottom < 0.0;
      assert 0.0 < x < 1.0 by {
        assert top / bottom > -1.0 by {
          assert -top < bottom;
          assert -top / bottom < 1.0;
        }
      }
    }
  }

  lemma {:induction false} ContainingAt(chunks: seq<Chunk>, i: nat, t: string)
    requires i < |chunks| && t in TermSet(chunks[i].text)
    ensures Containing(chunks, t) >= 1
    decreases |chunks|
  {
    if i < |chunks| - 1 {
      var init := chunks[..|chunks| - 1];
      assert init[i] == chunks[i];
      ContainingAt(init, i, t);
    }
  }

  /** A sum of non-negative contributions is non-negative, and positive once one of them is. */
  lemma {:induction false} ScoreOverPositive(chunks: seq<Chunk>, query: seq<string>, i: nat, upto: nat, ln: real -> real)
    requires i < |chunks| && upto <= |query|
    requires forall k :: 0 <= k < upto ==> Contribution(chunks, query, i, query[k], ln) >= 0.0
    ensures ScoreOver(chunks, query, i, upto, ln) >= 0.0
    ensures (exists k :: 0 <= k < upto && Contribution(chunks, query, i, query[k], ln) > 0.0)
            ==> ScoreOver(chunks, query, i, upto, ln) > 0.0
    decreases upto
  {
    if upto > 0 {
      ScoreOverPositive(chunks, query, i, upto - 1, ln);
    }
  }

  /** A repeated query term can make the only matching chunk score below 0:
      with one chunk `foo` and the query `foo foo`, the term's document
      frequency is 2, larger than the chunk count, so its idf is `log(0.8)`. */
  lemma Bm25RepeatedTerm(c: Chunk, ln: real -> real)
    requires LogLike(ln) && c.text == "foo"
    ensures Bm25Spec([c], "foo foo", ln)[0].1 < 0.0
  {
    TermsOfFoo();
    var q := Terms("foo foo");
    var chunks := [c];
    assert chunks[..0] == [];
    assert "foo" in TermSet(c.text);
    assert Containing(chunks, "foo") == 1;
    assert Count(q, "foo") == 2 by {
      assert q[1..] == ["foo"] && q[1..][1..] == [];
    }
    assert DocFreq(chunks, q, "foo") == 2;
    assert Count(Terms(c.text), "foo") == 1;
    IdfSign(1, 2, ln);
    AvgDlPositive(chunks, 0);
    TermWeightSign(Idf(1, 2, ln), 1, 1, AvgDl(chunks));
    assert Contribution(chunks, q, 0, "foo", ln) < 0.0;
    assert ScoreOver(chunks, q, 0, 2, ln) < 0.0;
  }

  lemma TermsOfFoo()
    ensures Terms("foo") == ["foo"]
    ensures Terms("foo foo") == ["foo", "foo"]
  {
    assert Lower("foo") == "foo";
    assert Lower("foo foo") == "foo foo";
    WordsFoo();
    WordsFooFoo();
  }

  lemma WordsFoo()
    ensures WordLen("foo") == 3 && Words("foo") == ["foo"]
  {
    var one := "foo";
    assert WordLen("") == 0;
    assert WordLen("o") == 1 by { assert "o"[1..] == ""; }
    assert WordLen("oo") == 2 by { assert "oo"[1..] == "o"; }
    assert WordLen(one) == 3 by { assert one[1..] == "oo"; }
    assert one[..3] == one && one[3..] == "";
  }

  lemma WordsFooFoo()
    ensures Words("foo foo") == ["foo", "foo"]
  {
    var two := "foo foo";
    WordsFoo();
    assert WordLen(" foo") == 0;
    assert WordLen("o foo") == 1 by { assert "o foo"[1..] == " foo"; }
    assert WordLen("oo foo") == 2 by { assert "oo foo"[1..] == "o foo"; }
    assert WordLen(two) == 3 by { assert two[1..] == "oo foo"; }
    assert two[..3] == "foo" && two[3..] == " foo";
    assert Words(" foo") == Words("foo") by { assert " foo"[1..] == "foo"; }
  }

  // ---------------------------------------------------------------- Jaccard

  /** `len(q & c) / len(q | c)`, and 0.0 when either set is empty. */
  function Jaccard(q: set<string>, c: set<string>): real {
    if q == {} || c == {} then 0.0
    else
      var union := q + c;
      if union != {} then |q * c| as real / |union| as real else 0.0
  }

  /** `_vector_score(query)`: every chunk, in store order, with its Jaccard overlap. */
  function VectorSpec(chunks: seq<Chunk>, query: string): (r: seq<Scored>)
    ensures |r| == |chunks| && forall i :: 0 <= i < |r| ==> r[i].0 == chunks[i]
  {
    seq(|chunks|, i requires 0 <= i < |chunks| => (chunks[i], Jaccard(TermSet(query), TermSet(chunks[i].text))))
  }

  lemma SubsetCard<T>(a: set<T>, b: set<T>)
    requires a <= b
    ensures |a| <= |b|
    ensures |a| == |b| ==> a == b
  {
    if a != b {
      var x :| x in b && x !in a;
      assert a <= b - {x};
      SubsetCard(a, b - {x});
    }
  }

  /** The overlap lies in `[0, 1]` and is symmetric. */
  lemma JaccardBounds(q: set<string>, c: set<string>)
    ensures 0.0 <= Jaccard(q, c) <= 1.0
    ensures Jaccard(q, c) == Jaccard(c, q)
  {
    assert q * c == c * q && q + c == c + q;
    if q != {} && c != {} {
      SubsetCard(q * c, q + c);
    }
  }

  /** The overlap is positive exactly when a term is shared. */
  lemma JaccardPositive(q: set<string>, c: set<string>)
    ensures Jaccard(q, c) > 0.0 <==> q * c != {}
  {
    if q * c != {} {
      var x :| x in q * c;
      SubsetCard({x}, q * c);
      assert q != {} && c != {};
    }
  }

  /** The overlap is 1 exactly when the two term sets are equal and non-empty. */
  lemma JaccardOne(q: set<string>, c: set<string>)
    ensures Jaccard(q, c) == 1.0 <==> q == c && q != {}
  {
    if q != {} && c != {} {
      SubsetCard(q * c, q + c);
      var u := q + c;
      assert |u| > 0;
      if Jaccard(q, c) == 1.0 {
        assert |q * c| as real == |u| as real;
        assert q * c == u;
        assert q == c;
      }
      if q == c {
        assert q * c == u;
      }
    }
  }
}
