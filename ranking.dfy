/** Top-K selection shared by every search path: sort the row indices by
    descending score (`argsort()[::-1]`), keep the first `top_k`, and turn
    each kept index into a result row carrying its score. The scores
    themselves are inputs; how they are computed lives elsewhere. */
module Ranking {
  import opened Common
  import opened Records

  /** Why a search produced no result list. */
  datatype SearchError =
    | EmptyVocabulary     // TfidfVectorizer found no term in any document
    | RowOutOfRange       // df.iloc[i] with i past the last row
    | EmbeddingService    // the remote embedding call failed
    | LocalModelMissing   // sentence-transformers is not installed
    | NoNeighbors         // NearestNeighbors asked for zero neighbours

  /** Every index in `order` names a score, and scores never rise along it. */
  predicate Descending(scores: seq<real>, order: seq<nat>)
  {
    && (forall m :: 0 <= m < |order| ==> order[m] < |scores|)
    && (forall a, b :: 0 <= a < b < |order| ==> scores[order[a]] >= scores[order[b]])
  }

  /** `order` is a reversed argsort of `scores`: each index exactly once, best first.
      Nothing is said about the order of equal scores. */
  predicate IsDescendingArgsort(scores: seq<real>, order: seq<nat>)
  {
    && |order| == |scores|
    && Distinct(order)
    && Descending(scores, order)
    && (forall j :: 0 <= j < |scores| ==> j in order)
  }

  /** `top` is what `argsort()[::-1][:k]` may return: min(k, N) distinct
      indices, best first, and no index left out scores above one kept. */
  predicate IsTopK(scores: seq<real>, k: nat, top: seq<nat>)
  {
    && |top| == Min(k, |scores|)
    && Distinct(top)
    && Descending(scores, top)
    && (forall j, m :: 0 <= j < |scores| && j !in top && 0 <= m < |top| ==>
          scores[j] <= scores[top[m]])
  }

  /** Position by position, what inserting `x` at `p` leaves. */
  lemma InsertAt(order: seq<nat>, x: nat, p: nat)
    requires p <= |order|
    ensures var next := order[..p] + [x] + order[p..];
      && |next| == |order| + 1 && next[p] == x
      && (forall m :: 0 <= m < p ==> next[m] == order[m])
      && (forall m :: p < m < |next| ==> next[m] == order[m - 1])
  {
  }

  /** Inserting a fresh index keeps every index present, once. */
  lemma InsertKeepsIndices(order: seq<nat>, i: nat, p: nat)
    requires |order| == i && Distinct(order) && p <= |order|
    requires forall m :: 0 <= m < |order| ==> order[m] < i
    requires forall j :: 0 <= j < i ==> j in order
    ensures var next := order[..p] + [i] + order[p..];
      && Distinct(next)
      && (forall m :: 0 <= m < |next| ==> next[m] < i + 1)
      && (forall j :: 0 <= j < i + 1 ==> j in next)
  {
    var next := order[..p] + [i] + order[p..];
    InsertAt(order, i, p);
    forall j | 0 <= j < i ensures j in next {
      assert j in order;
      var q :| 0 <= q < |order| && order[q] == j;
      if q < p { assert next[q] == j; } else { assert next[q + 1] == j; }
    }
    assert i in next;
  }

  /** Inserting index `i` at position `p`, after every entry scoring at
      least as high and before every entry scoring lower, keeps the
      sequence best first. */
  lemma InsertKeepsDescending(scores: seq<real>, order: seq<nat>, i: nat, p: nat)
    requires i < |scores| && Descending(scores, order)
    requires p <= |order|
    requires forall m :: 0 <= m < p ==> scores[order[m]] >= scores[i]
    requires p < |order| ==> scores[order[p]] < scores[i]
    ensures Descending(scores, order[..p] + [i] + order[p..])
  {
    var next := order[..p] + [i] + order[p..];
    InsertAt(order, i, p);
    forall a, b | 0 <= a < b < |next| ensures scores[next[a]] >= scores[next[b]] {
      if b == p {
      } else if a == p {
        assert scores[order[p]] >= scores[order[b - 1]];
      }
    }
  }

  /** A reversed argsort, built by inserting each index after every index
      that scores at least as high. */
  method ArgsortDescending(scores: seq<real>) returns (order: seq<nat>)
    ensures IsDescendingArgsort(scores, order)
  {
    order := [];
    for i := 0 to |scores|
      invariant |order| == i
      invariant Distinct(order)
      invariant forall m :: 0 <= m < |order| ==> order[m] < i
      invariant forall j :: 0 <= j < i ==> j in order
      invariant Descending(scores, order)
    {
      var p := 0;
      while p < |order| && scores[order[p]] >= scores[i]
        invariant 0 <= p <= |order|
        invariant forall m :: 0 <= m < p ==> scores[order[m]] >= scores[i]
      {
        p := p + 1;
      }
      InsertKeepsIndices(order, i, p);
      InsertKeepsDescending(scores, order, i, p);
      order := order[..p] + [i] + order[p..];
    }
  }

  /** `argsort()[::-1][:top_k]`: the indices of the `k` best scores, best first. */
  method TopIndices(scores: seq<real>, k: nat) returns (top: seq<nat>)
    ensures IsTopK(scores, k, top)
  {
    var order := ArgsortDescending(scores);
    top := order[..Min(k, |order|)];
    forall j, m | 0 <= j < |scores| && j !in top && 0 <= m < |top|
      ensures scores[j] <= scores[top[m]]
    {
      assert j in order;
      var p :| 0 <= p < |order| && order[p] == j;
      forall q | 0 <= q < |top| ensures order[q] != j {
        assert top[q] == order[q] && top[q] in top;
      }
      assert top[m] == order[m];
    }
  }

  /** Among `n` positions of a sequence there are at most `n` values, and
      exactly `n` when the sequence is distinct. */
  lemma {:induction false} PrefixValues(s: seq<nat>, n: nat)
    requires n <= |s|
    ensures |set q | 0 <= q < n :: s[q]| <= n
    ensures Distinct(s) ==> |set q | 0 <= q < n :: s[q]| == n
  {
    if n > 0 {
      PrefixValues(s, n - 1);
      var before := set q | 0 <= q < n - 1 :: s[q];
      assert (set q | 0 <= q < n :: s[q]) == before + {s[n - 1]};
      if Distinct(s) {
        assert s[n - 1] !in before;
      }
    }
  }

  lemma SubsetSize<T>(small: set<T>, large: set<T>)
    requires small <= large
    ensures |small| <= |large|
  {
    assert large == small + (large - small);
  }

  /** The indices scoring at least `v`. */
  function AtLeast(scores: seq<real>, v: real): set<nat>
  {
    set x | 0 <= x < |scores| && scores[x] >= v
  }

  /** In a valid top-K selection `b`, an index that outscores the entry at
      rank `m` is itself selected, before rank `m`. */
  lemma OutscorerRanksEarlier(scores: seq<real>, k: nat, b: seq<nat>, m: nat, x: nat)
    requires IsTopK(scores, k, b) && m < |b| && x < |scores|
    requires scores[x] > scores[b[m]]
    ensures exists p :: 0 <= p < m && b[p] == x
  {
    assert x in b;
    var p :| 0 <= p < |b| && b[p] == x;
    assert forall q :: m <= q < |b| ==> scores[b[q]] <= scores[b[m]];
    assert p < m;
  }

  /** The first m + 1 entries of a selection all score at least its m-th. */
  lemma SelectionPrefixSize(scores: seq<real>, k: nat, a: seq<nat>, m: nat)
    requires IsTopK(scores, k, a) && m < |a|
    ensures |AtLeast(scores, scores[a[m]])| >= m + 1
  {
    var kept := set q | 0 <= q < m + 1 :: a[q];
    PrefixValues(a, m + 1);
    SubsetSize(kept, AtLeast(scores, scores[a[m]]));
  }

  /** Fewer than m + 1 indices outscore the m-th entry of a selection. */
  lemma OutscorersSize(scores: seq<real>, k: nat, b: seq<nat>, m: nat, v: real)
    requires IsTopK(scores, k, b) && m < |b| && v > scores[b[m]]
    ensures |AtLeast(scores, v)| <= m
  {
    var earlier := set p | 0 <= p < m :: b[p];
    forall x | x in AtLeast(scores, v) ensures x in earlier {
      OutscorerRanksEarlier(scores, k, b, m, x);
    }
    PrefixValues(b, m);
    SubsetSize(AtLeast(scores, v), earlier);
  }

  /** Two valid top-K selections, rank by rank: the m-th score of one is at
      most the m-th score of the other. */
  lemma TopKRankBound(scores: seq<real>, k: nat, a: seq<nat>, b: seq<nat>, m: nat)
    requires IsTopK(scores, k, a) && IsTopK(scores, k, b) && m < |a|
    ensures scores[a[m]] <= scores[b[m]]
  {
    if scores[a[m]] > scores[b[m]] {
      SelectionPrefixSize(scores, k, a, m);
      OutscorersSize(scores, k, b, m, scores[a[m]]);
      assert false;
    }
  }

  /** The result of a top-K selection does not depend on how ties were
      broken: any two valid selections have the same scores rank by rank. */
  lemma TopKScoresAgree(scores: seq<real>, k: nat, a: seq<nat>, b: seq<nat>)
    requires IsTopK(scores, k, a) && IsTopK(scores, k, b)
    ensures |a| == |b|
    ensures forall m :: 0 <= m < |a| ==> scores[a[m]] == scores[b[m]]
  {
    forall m | 0 <= m < |a| ensures scores[a[m]] == scores[b[m]] {
      TopKRankBound(scores, k, a, b, m);
      TopKRankBound(scores, k, b, a, m);
    }
  }

  /** One result row: `df.iloc[i].to_dict()` with its "score" entry set to
      the row's score (so a "score" column of the table is overwritten). */
  datatype Hit = Hit(fields: map<string, string>, score: real)

  function HitFor(t: Table, scores: seq<real>, i: nat): (h: Hit)
    requires WellFormed(t) && i < |t.rows| && i < |scores|
    ensures h.score == scores[i]
    ensures forall c :: c in h.fields <==> c in t.columns && c != "score"
    ensures forall j :: 0 <= j < |t.columns| && t.columns[j] != "score" ==>
              h.fields[t.columns[j]] == t.rows[i][j]
  {
    Hit(RowDict(t, i) - {"score"}, scores[i])
  }

  /** The result rows for the selected indices, in selection order. */
  function Hits(t: Table, scores: seq<real>, top: seq<nat>): (hs: seq<Hit>)
    requires WellFormed(t)
    requires forall m :: 0 <= m < |top| ==> top[m] < |t.rows| && top[m] < |scores|
    ensures |hs| == |top|
    ensures forall m :: 0 <= m < |top| ==> hs[m] == HitFor(t, scores, top[m])
  {
    seq(|top|, m requires 0 <= m < |top| => HitFor(t, scores, top[m]))
  }

  /** The `for i in top_indices` loop: one result per selected index; an
      index past the table's last row raises, and the partial list is lost. */
  method CollectHits(t: Table, scores: seq<real>, top: seq<nat>) returns (r: Result<seq<Hit>, SearchError>)
    requires WellFormed(t)
    requires forall m :: 0 <= m < |top| ==> top[m] < |scores|
    ensures r.Ok? <==> forall m :: 0 <= m < |top| ==> top[m] < |t.rows|
    ensures r.Ok? ==> r.value == Hits(t, scores, top)
    ensures r.Err? ==> r.error == RowOutOfRange
  {
    var results := [];
    for m := 0 to |top|
      invariant forall q :: 0 <= q < m ==> top[q] < |t.rows|
      invariant results == Hits(t, scores, top[..m])
    {
      var i := top[m];
      if i >= |t.rows| {
        return Err(RowOutOfRange);
      }
      results := results + [HitFor(t, scores, i)];
    }
    assert top[..|top|] == top;
    r := Ok(results);
  }

  /** `hits` are the result rows of the valid top-`k` selection `top`. */
  predicate IsRanking(t: Table, scores: seq<real>, k: nat, top: seq<nat>, hits: seq<Hit>)
  {
    && WellFormed(t)
    && IsTopK(scores, k, top)
    && (forall m :: 0 <= m < |top| ==> top[m] < |t.rows|)
    && hits == Hits(t, scores, top)
  }

  /** Ranked results: min(k, N) of them for N scored rows, best first, each
      the fields of a different row together with that row's own score. */
  lemma RankingShape(t: Table, scores: seq<real>, k: nat, top: seq<nat>, hits: seq<Hit>)
    requires IsRanking(t, scores, k, top, hits) && |scores| == |t.rows|
    ensures |hits| == Min(k, |t.rows|)
    ensures forall a, b :: 0 <= a < b < |hits| ==> hits[a].score >= hits[b].score
    ensures forall a, b :: 0 <= a < b < |hits| ==> top[a] != top[b]
    ensures forall m :: 0 <= m < |hits| ==>
              && hits[m].score == scores[top[m]]
              && hits[m].fields == RowDict(t, top[m]) - {"score"}
  {
  }
}
