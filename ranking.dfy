/** Ordering scored chunks: the stable descending sort that `list.sort(key=...,
    reverse=True)` and `sorted(...)` perform, the cut to the first `top_k`
    entries, and Reciprocal Rank Fusion of several ranked lists. */
module Ranking {
  import opened Seqs
  import opened Scoring

  // ---------------------------------------------------------------- stable sort

  predicate SortedDesc(s: seq<Scored>) {
    forall i, j :: 0 <= i < j < |s| ==> s[i].1 >= s[j].1
  }

  /** Inserts `x`, which follows every element of `t` in the original order,
      into the descending `t`: after every element whose score is at least its own. */
  function Insert(t: seq<Scored>, x: Scored): (r: seq<Scored>)
    ensures multiset(r) == multiset(t) + multiset{x}
    decreases |t|
  {
    if t == [] || t[|t| - 1].1 >= x.1 then t + [x]
    else
      assert t == t[..|t| - 1] + [t[|t| - 1]];
      Insert(t[..|t| - 1], x) + [t[|t| - 1]]
  }

  /** Insertion sort, highest score first, ties in their original order. */
  function SortDesc(s: seq<Scored>): (r: seq<Scored>)
    ensures multiset(r) == multiset(s)
    decreases |s|
  {
    if s == [] then []
    else
      assert s == s[..|s| - 1] + [s[|s| - 1]];
      Insert(SortDesc(s[..|s| - 1]), s[|s| - 1])
  }

  lemma {:induction false} InsertSorted(t: seq<Scored>, x: Scored)
    requires SortedDesc(t)
    ensures SortedDesc(Insert(t, x))
    decreases |t|
  {
    if t != [] && t[|t| - 1].1 < x.1 {
      var init, last := t[..|t| - 1], t[|t| - 1];
      InsertSorted(init, x);
      var u := Insert(init, x);
      forall k | 0 <= k < |u| ensures u[k].1 >= last.1 {
        assert u[k] in multiset(u);
        if u[k] != x {
          assert u[k] in multiset(init);
          var j :| 0 <= j < |init| && init[j] == u[k];
          assert t[j] == init[j];
        }
      }
    }
  }

  /** The sort is ordered by descending score. */
  lemma {:induction false} SortSorted(s: seq<Scored>)
    ensures SortedDesc(SortDesc(s))
    decreases |s|
  {
    if s != [] {
      SortSorted(s[..|s| - 1]);
      InsertSorted(SortDesc(s[..|s| - 1]), s[|s| - 1]);
    }
  }

  /** Selects the entries with score `v`. */
  function WithScore(v: real): Scored -> bool {
    (e: Scored) => e.1 == v
  }

  /** Filtering a one-element list. */
  lemma FilterOne(x: Scored, keep: Scored -> bool)
    ensures Filter([x], keep) == if keep(x) then [x] else []
  {
    assert [x][1..] == [];
  }

  lemma {:induction false} InsertStable(t: seq<Scored>, x: Scored, v: real)
    requires SortedDesc(t)
    ensures Filter(Insert(t, x), WithScore(v)) == Filter(t, WithScore(v)) + Filter([x], WithScore(v))
    decreases |t|
  {
    if t == [] || t[|t| - 1].1 >= x.1 {
      FilterAppend(t, [x], WithScore(v));
    } else {
      var init := t[..|t| - 1];
      assert SortedDesc(init);
      InsertStable(init, x, v);
      InsertPastLast(t, x, v);
    }
  }

  /** `x` moves past the last entry, whose score is lower: the two never share a
      score, so swapping them leaves the entries of score `v` in order. */
  lemma InsertPastLast(t: seq<Scored>, x: Scored, v: real)
    requires t != [] && t[|t| - 1].1 < x.1
    requires Filter(Insert(t[..|t| - 1], x), WithScore(v)) == Filter(t[..|t| - 1], WithScore(v)) + Filter([x], WithScore(v))
    ensures Filter(Insert(t, x), WithScore(v)) == Filter(t, WithScore(v)) + Filter([x], WithScore(v))
  {
    var keep := WithScore(v);
    var init, last := t[..|t| - 1], t[|t| - 1];
    var u := Insert(init, x);
    assert Insert(t, x) == u + [last];
    SplitLast(t);
    FilterAppend(u, [last], keep);
    FilterAppend(init, [last], keep);
    var fi, fx, fl := Filter(init, keep), Filter([x], keep), Filter([last], keep);
    assert fx == [] || fl == [] by {
      FilterOne(x, keep);
      FilterOne(last, keep);
      assert !(keep(x) && keep(last));
    }
    SwapEmpty(fi, fx, fl);
  }

  /** The sort is stable: the entries of any one score keep their original order. */
  lemma {:induction false} SortStable(s: seq<Scored>, v: real)
    ensures Filter(SortDesc(s), WithScore(v)) == Filter(s, WithScore(v))
    decreases |s|
  {
    if s != [] {
      var init, last := s[..|s| - 1], s[|s| - 1];
      SortStable(init, v);
      SortSorted(init);
      InsertStable(SortDesc(init), last, v);
      assert s == init + [last];
      FilterAppend(init, [last], WithScore(v));
    }
  }

  // ---------------------------------------------------------------- truncate, then filter

  /** `score > 0`: the entries that survive the result loop. */
  function Positive(): Scored -> bool {
    (e: Scored) => e.1 > 0.0
  }

  /** In a descending list the positive entries come first, so cutting to the
      first `k` entries and then dropping non-positive ones is the same as
      dropping first and cutting afterwards. */
  lemma {:induction false} TruncateThenFilter(s: seq<Scored>, k: int)
    requires SortedDesc(s) && k >= 0
    ensures Filter(PyPrefix(s, k), Positive()) == PyPrefix(Filter(s, Positive()), k)
    decreases |s|
  {
    if s == [] || k == 0 {
      TruncateNothing(s, k);
    } else if s[0].1 > 0.0 {
      SortedTail(s);
      TruncateThenFilter(s[1..], k - 1);
      TruncatePositiveHead(s, k);
    } else {
      TruncateNonPositiveHead(s, k);
    }
  }

  lemma TruncateNothing(s: seq<Scored>, k: int)
    requires s == [] || k == 0
    ensures Filter(PyPrefix(s, k), Positive()) == PyPrefix(Filter(s, Positive()), k)
  {
  }

  lemma SortedTail(s: seq<Scored>)
    requires SortedDesc(s) && s != []
    ensures SortedDesc(s[1..])
  {
  }

  /** A positive head survives both orders, so the claim for the tail carries over. */
  lemma TruncatePositiveHead(s: seq<Scored>, k: int)
    requires s != [] && k >= 1 && s[0].1 > 0.0
    requires Filter(PyPrefix(s[1..], k - 1), Positive()) == PyPrefix(Filter(s[1..], Positive()), k - 1)
    ensures Filter(PyPrefix(s, k), Positive()) == PyPrefix(Filter(s, Positive()), k)
  {
    var pos := Positive();
    var rest := s[1..];
    assert s == [s[0]] + rest;
    PrefixCons(s[0], rest, k);
    FilterCons(s[0], PyPrefix(rest, k - 1), pos);
    FilterCons(s[0], rest, pos);
    PrefixCons(s[0], Filter(rest, pos), k);
  }

  /** A non-positive head of a descending list leaves nothing on either side. */
  lemma TruncateNonPositiveHead(s: seq<Scored>, k: int)
    requires SortedDesc(s) && s != [] && k >= 1 && s[0].1 <= 0.0
    ensures Filter(PyPrefix(s, k), Positive()) == [] == PyPrefix(Filter(s, Positive()), k)
  {
    NoPositive(s);
    PrefixSorted(s, k);
    NoPositive(PyPrefix(s, k));
  }

  lemma FilterCons(x: Scored, t: seq<Scored>, keep: Scored -> bool)
    requires keep(x)
    ensures Filter([x] + t, keep) == [x] + Filter(t, keep)
  {
    assert ([x] + t)[0] == x && ([x] + t)[1..] == t;
  }

  lemma PrefixCons(x: Scored, t: seq<Scored>, k: int)
    requires k >= 1
    ensures PyPrefix([x] + t, k) == [x] + PyPrefix(t, k - 1)
  {
  }

  lemma NoPositive(s: seq<Scored>)
    requires SortedDesc(s) && (s == [] || s[0].1 <= 0.0)
    ensures Filter(s, Positive()) == []
  {
  }

  /** For a negative `top_k` the two orders differ: `s[:-1]` of a list whose
      last entry is non-positive keeps the positive entry, while cutting the
      filtered list drops it. */
  lemma NegativeTopK(c: Chunk)
    ensures var s: seq<Scored> := [(c, 5.0), (c, 0.0)];
      && SortedDesc(s)
      && Filter(PyPrefix(s, -1), Positive()) == [(c, 5.0)]
      && PyPrefix(Filter(s, Positive()), -1) == []
  {
    var s: seq<Scored> := [(c, 5.0), (c, 0.0)];
    assert PyPrefix(s, -1) == [(c, 5.0)];
    assert s[1..] == [(c, 0.0)] && |s[1..][1..]| == 0;
    assert Filter(s, Positive()) == [(c, 5.0)];
  }

  /** Dropping entries keeps a list sorted. */
  lemma {:induction false} FilterSorted(s: seq<Scored>, keep: Scored -> bool)
    requires SortedDesc(s)
    ensures SortedDesc(Filter(s, keep))
    decreases |s|
  {
    if s != [] {
      var rest := s[1..];
      assert SortedDesc(rest);
      FilterSorted(rest, keep);
      var f := Filter(rest, keep);
      forall k | 0 <= k < |f| ensures s[0].1 >= f[k].1 {
        assert f[k] in rest;
      }
    }
  }

  /** A prefix of a sorted list is sorted. */
  lemma PrefixSorted(s: seq<Scored>, k: int)
    requires SortedDesc(s)
    ensures SortedDesc(PyPrefix(s, k))
  {
  }

  // ---------------------------------------------------------------- Reciprocal Rank Fusion

  const RrfK: nat := 60

  /** The fusion's two dictionaries, with the insertion order of `scores` kept in `ids`. */
  datatype FuseState = FuseState(ids: seq<string>, scores: map<string, real>, chunkOf: map<string, Chunk>)

  /** `scores.get(id, 0.0)` */
  function Get(m: map<string, real>, id: string): real {
    if id in m then m[id] else 0.0
  }

  /** One entry at 1-based `rank` of one ranked list. A new id goes to the end
      of the dictionary order; a known one keeps its place. */
  function FuseAdd(st: FuseState, c: Chunk, rank: nat): FuseState {
    var id := c.chunkId;
    FuseState(
      if id in st.scores then st.ids else st.ids + [id],
      st.scores[id := Get(st.scores, id) + 1.0 / ((RrfK + rank) as real)],
      st.chunkOf[id := c])
  }

  /** The entries of one sorted list, ranked from 1. */
  function FuseRanks(st: FuseState, ranked: seq<Scored>): FuseState
    decreases |ranked|
  {
    if ranked == [] then st
    else FuseAdd(FuseRanks(st, ranked[..|ranked| - 1]), ranked[|ranked| - 1].0, |ranked|)
  }

  /** Every list, each sorted first. */
  function FuseLists(lists: seq<seq<Scored>>): FuseState
    decreases |lists|
  {
    if lists == [] then FuseState([], map[], map[])
    else FuseRanks(FuseLists(lists[..|lists| - 1]), SortDesc(lists[|lists| - 1]))
  }

  /** The two dictionaries agree on their keys, the order lists each key once,
      each chunk sits under its own id, and every fused score is positive. */
  ghost predicate ValidFuse(st: FuseState) {
    && (forall i, j :: 0 <= i < j < |st.ids| ==> st.ids[i] != st.ids[j])
    && (forall id :: id in st.scores <==> id in st.ids)
    && (forall id :: id in st.chunkOf <==> id in st.ids)
    && (forall id :: id in st.chunkOf ==> st.chunkOf[id].chunkId == id)
    && (forall id :: id in st.scores ==> st.scores[id] > 0.0)
  }

  lemma FuseAddValid(st: FuseState, c: Chunk, rank: nat)
    requires ValidFuse(st)
    ensures ValidFuse(FuseAdd(st, c, rank))
  {
    var id := c.chunkId;
    var r := FuseAdd(st, c, rank);
    assert 1.0 / ((RrfK + rank) as real) > 0.0;
    if id in st.scores {
      assert r.ids == st.ids;
    } else {
      assert id !in st.ids;
      forall i, j | 0 <= i < j < |r.ids| ensures r.ids[i] != r.ids[j] {
        if j == |st.ids| {
          assert st.ids[i] in st.ids;
        }
      }
    }
  }

  lemma {:induction false} FuseRanksValid(st: FuseState, ranked: seq<Scored>)
    requires ValidFuse(st)
    ensures ValidFuse(FuseRanks(st, ranked))
    decreases |ranked|
  {
    if ranked != [] {
      FuseRanksValid(st, ranked[..|ranked| - 1]);
      FuseAddValid(FuseRanks(st, ranked[..|ranked| - 1]), ranked[|ranked| - 1].0, |ranked|);
    }
  }

  lemma {:induction false} FuseListsValid(lists: seq<seq<Scored>>)
    ensures ValidFuse(FuseLists(lists))
    decreases |lists|
  {
    if lists != [] {
      FuseListsValid(lists[..|lists| - 1]);
      FuseRanksValid(FuseLists(lists[..|lists| - 1]), SortDesc(lists[|lists| - 1]));
    }
  }

  /** `[(chunk_map[cid], score) for cid, score in scores.items()]` */
  function Emit(st: FuseState): (r: seq<Scored>)
    requires ValidFuse(st)
    ensures |r| == |st.ids|
  {
    seq(|st.ids|, i requires 0 <= i < |st.ids| => (st.chunkOf[st.ids[i]], st.scores[st.ids[i]]))
  }

  /** `_rrf_fuse(*lists)` */
  function RrfSpec(lists: seq<seq<Scored>>): seq<Scored> {
    FuseListsValid(lists);
    Emit(FuseLists(lists))
  }

  /** The weight an id collects from one ranked list: `1/(60 + rank)` for each place it holds. */
  function RankWeight(ranked: seq<Scored>, id: string): real
    decreases |ranked|
  {
    if ranked == [] then 0.0
    else RankWeight(ranked[..|ranked| - 1], id)
         + (if ranked[|ranked| - 1].0.chunkId == id then 1.0 / ((RrfK + |ranked|) as real) else 0.0)
  }

  /** The weight an id collects over all lists, each sorted. */
  function TotalWeight(lists: seq<seq<Scored>>, id: string): real
    decreases |lists|
  {
    if lists == [] then 0.0
    else TotalWeight(lists[..|lists| - 1], id) + RankWeight(SortDesc(lists[|lists| - 1]), id)
  }

  lemma {:induction false} FuseRanksWeight(st: FuseState, ranked: seq<Scored>, id: string)
    ensures Get(FuseRanks(st, ranked).scores, id) == Get(st.scores, id) + RankWeight(ranked, id)
    decreases |ranked|
  {
    if ranked != [] {
      FuseRanksWeight(st, ranked[..|ranked| - 1], id);
    }
  }

  /** Each fused score is the sum of `1/(60 + rank)` over every place its id holds in every list. */
  lemma {:induction false} FuseWeight(lists: seq<seq<Scored>>, id: string)
    ensures Get(FuseLists(lists).scores, id) == TotalWeight(lists, id)
    decreases |lists|
  {
    if lists != [] {
      FuseWeight(lists[..|lists| - 1], id);
      FuseRanksWeight(FuseLists(lists[..|lists| - 1]), SortDesc(lists[|lists| - 1]), id);
    }
  }

  /** The ids of the chunks in `s`. */
  function IdsOf(s: seq<Scored>): set<string> {
    set e | e in s :: e.0.chunkId
  }

  /** The ids of the chunks in any of `lists`. */
  function AllIds(lists: seq<seq<Scored>>): set<string>
    decreases |lists|
  {
    if lists == [] then {} else AllIds(lists[..|lists| - 1]) + IdsOf(lists[|lists| - 1])
  }

  /** The chunks in `s`. */
  function ChunksIn(s: seq<Scored>): set<Chunk> {
    set e | e in s :: e.0
  }

  /** The chunks in any of `lists`. */
  function AllChunks(lists: seq<seq<Scored>>): set<Chunk>
    decreases |lists|
  {
    if lists == [] then {} else AllChunks(lists[..|lists| - 1]) + ChunksIn(lists[|lists| - 1])
  }

  lemma {:induction false} FuseRanksChunks(st: FuseState, ranked: seq<Scored>, from: set<Chunk>)
    requires forall id :: id in st.chunkOf ==> st.chunkOf[id] in from
    ensures forall id :: id in FuseRanks(st, ranked).chunkOf ==> FuseRanks(st, ranked).chunkOf[id] in from + ChunksIn(ranked)
    decreases |ranked|
  {
    if ranked != [] {
      var init := ranked[..|ranked| - 1];
      FuseRanksChunks(st, init, from);
      assert ranked == init + [ranked[|ranked| - 1]];
      assert ChunksIn(ranked) == ChunksIn(init) + {ranked[|ranked| - 1].0};
    }
  }

  lemma {:induction false} FuseListsChunks(lists: seq<seq<Scored>>)
    ensures forall id :: id in FuseLists(lists).chunkOf ==> FuseLists(lists).chunkOf[id] in AllChunks(lists)
    decreases |lists|
  {
    if lists != [] {
      var init, last := lists[..|lists| - 1], lists[|lists| - 1];
      FuseListsChunks(init);
      FuseRanksChunks(FuseLists(init), SortDesc(last), AllChunks(init));
      assert ChunksIn(SortDesc(last)) == ChunksIn(last) by {
        forall c | c in ChunksIn(last) ensures c in ChunksIn(SortDesc(last)) {
          var e :| e in last && e.0 == c;
          assert e in multiset(SortDesc(last));
        }
        forall c | c in ChunksIn(SortDesc(last)) ensures c in ChunksIn(last) {
          var e :| e in SortDesc(last) && e.0 == c;
          assert e in multiset(last);
        }
      }
    }
  }

  /** Fusion invents no chunk: each entry holds a chunk of one of the lists. */
  lemma RrfChunks(lists: seq<seq<Scored>>)
    ensures forall e :: e in RrfSpec(lists) ==> e.0 in AllChunks(lists)
  {
    FuseListsValid(lists);
    FuseListsChunks(lists);
    var st := FuseLists(lists);
    forall e | e in RrfSpec(lists) ensures e.0 in AllChunks(lists) {
      var i :| 0 <= i < |st.ids| && Emit(st)[i] == e;
    }
  }

  lemma {:induction false} FuseRanksIds(st: FuseState, ranked: seq<Scored>)
    requires ValidFuse(st)
    ensures (set id | id in FuseRanks(st, ranked).ids) == (set id | id in st.ids) + IdsOf(ranked)
    decreases |ranked|
  {
    if ranked != [] {
      var init, last := ranked[..|ranked| - 1], ranked[|ranked| - 1];
      FuseRanksIds(st, init);
      FuseRanksValid(st, init);
      assert ranked == init + [last];
      assert IdsOf(ranked) == IdsOf(init) + {last.0.chunkId};
    }
  }

  /** The fused list holds each id of the input lists exactly once. */
  lemma {:induction false} FuseIds(lists: seq<seq<Scored>>)
    ensures (set id | id in FuseLists(lists).ids) == AllIds(lists)
    decreases |lists|
  {
    if lists != [] {
      var init, last := lists[..|lists| - 1], lists[|lists| - 1];
      FuseIds(init);
      FuseListsValid(init);
      FuseRanksIds(FuseLists(init), SortDesc(last));
      SortIds(last);
    }
  }

  lemma SortIds(s: seq<Scored>)
    ensures IdsOf(SortDesc(s)) == IdsOf(s)
  {
    var t := SortDesc(s);
    forall id | id in IdsOf(s) ensures id in IdsOf(t) {
      var e :| e in s && e.0.chunkId == id;
      assert e in multiset(t);
    }
    forall id | id in IdsOf(t) ensures id in IdsOf(s) {
      var e :| e in t && e.0.chunkId == id;
      assert e in multiset(s);
    }
  }

  lemma {:induction false} DistinctCard(s: seq<string>)
    requires forall i, j :: 0 <= i < j < |s| ==> s[i] != s[j]
    ensures |set x | x in s| == |s|
    decreases |s|
  {
    if s != [] {
      var init := s[..|s| - 1];
      DistinctCard(init);
      assert (set x | x in s) == (set x | x in init) + {s[|s| - 1]};
      assert s[|s| - 1] !in init;
    }
  }

  lemma EmitIds(st: FuseState)
    requires ValidFuse(st)
    ensures (set e | e in Emit(st) :: e.0.chunkId) == (set id | id in st.ids)
  {
    var r := Emit(st);
    forall id | id in st.ids ensures id in (set e | e in r :: e.0.chunkId) {
      var i :| 0 <= i < |st.ids| && st.ids[i] == id;
      assert r[i] in r;
    }
  }

  /** The fusion of `lists` holds one entry per distinct id of the input lists. */
  lemma RrfIds(lists: seq<seq<Scored>>)
    ensures |RrfSpec(lists)| == |AllIds(lists)|
    ensures (set e | e in RrfSpec(lists) :: e.0.chunkId) == AllIds(lists)
  {
    var st := FuseLists(lists);
    FuseListsValid(lists);
    FuseIds(lists);
    DistinctCard(st.ids);
    EmitIds(st);
  }

  /** Each fused score is positive and is its id's reciprocal-rank weight. */
  lemma RrfScores(lists: seq<seq<Scored>>)
    ensures var r := RrfSpec(lists);
      forall i :: 0 <= i < |r| ==> r[i].1 == TotalWeight(lists, r[i].0.chunkId) && r[i].1 > 0.0
  {
    var st := FuseLists(lists);
    FuseListsValid(lists);
    var r := Emit(st);
    forall i | 0 <= i < |r| ensures r[i].1 == TotalWeight(lists, r[i].0.chunkId) {
      FuseWeight(lists, st.ids[i]);
    }
  }
}
