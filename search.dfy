/** The two search entry points of utils.py: `tfidf_search`, which keeps its
    fitted index in a one-slot process-wide cache, and `semantic_search`,
    which ranks by remote embeddings when given a key and by a local
    sentence-embedding model otherwise. The numeric work (TF-IDF weights,
    embeddings, cosine) is supplied from outside as functions. */
module Search {
  import opened Common
  import opened Records
  import opened Ranking

  /** What `fit_transform` leaves behind (the vectorizer and the matrix X):
      both are determined by the corpus they were fitted on. */
  datatype Fitted = Fitted(corpus: seq<string>)

  /** The TF-IDF numerics: the terms the analyzer keeps from a document
      (unigrams and bigrams, English stop words removed) and the linear-kernel
      similarity of a query against every document of a fitted index. */
  datatype TfidfEngine = TfidfEngine(
    terms: string -> seq<string>,
    similarity: (Fitted, string) -> seq<real>)

  /** `linear_kernel(qv, X)` has one column per fitted document. */
  ghost predicate EngineValid(e: TfidfEngine)
  {
    forall f: Fitted, q: string :: |e.similarity(f, q)| == |f.corpus|
  }

  /** `fit_transform` raises when no document yields a term (an empty
      corpus, or one of stop words only); otherwise it fits the corpus. */
  function Fit(e: TfidfEngine, corpus: seq<string>): (r: Result<Fitted, SearchError>)
    ensures r.Ok? ==> r.value.corpus == corpus
    ensures r.Err? <==> forall i :: 0 <= i < |corpus| ==> e.terms(corpus[i]) == []
    ensures r.Err? ==> r.error == EmptyVocabulary
    ensures corpus == [] ==> r.Err?
  {
    if exists d :: d in corpus && e.terms(d) != [] then Ok(Fitted(corpus)) else Err(EmptyVocabulary)
  }

  /** The module-level `_tfidf_cache` dictionary. Only the key "default" is
      ever used, so it is one optional slot. */
  class TfidfCache {
    var slot: Option<Fitted>

    constructor ()
      ensures slot == None
    {
      slot := None;
    }

    /** `tfidf_search`: fit and store the index on the first call, reuse the
        stored one on every later call, whatever table is passed then; score
        the query against it and return the `topK` best rows with scores. */
    method Search(t: Table, query: string, topK: nat, e: TfidfEngine)
      returns (r: Result<seq<Hit>, SearchError>, ghost top: seq<nat>)
      requires Normalized(t) && EngineValid(e)
      modifies this
      ensures old(slot).Some? ==> slot == old(slot)
      ensures old(slot).None? ==>
                slot == (match Fit(e, Corpus(t)) case Ok(f) => Some(f) case Err(_) => None)
      ensures slot.None? ==> r == Err(EmptyVocabulary)
      ensures slot.Some? ==>
                var scores := e.similarity(slot.value, query);
                && IsTopK(scores, topK, top)
                && (r.Ok? <==> forall m :: 0 <= m < |top| ==> top[m] < |t.rows|)
                && (r.Ok? ==> r.value == Hits(t, scores, top))
                && (r.Err? ==> r.error == RowOutOfRange)
      ensures slot == Some(Fitted(Corpus(t))) ==> r.Ok? && |r.value| == Min(topK, |t.rows|)
    {
      var fitted: Fitted;
      if slot.None? {
        var fit := Fit(e, Corpus(t));
        if fit.Err? {
          return Err(fit.error), [];
        }
        fitted := fit.value;
        slot := Some(fitted);
      } else {
        fitted := slot.value;
      }
      var scores := e.similarity(fitted, query);
      var picked := TopIndices(scores, topK);
      top := picked;
      r := CollectHits(t, scores, picked);
    }
  }

  /** The remote path (`openai.Embedding.create` for the corpus and for the
      query, then cosine per record): one similarity per text, or a failed
      service call. */
  type RemoteScorer = (seq<string>, string) -> Option<seq<real>>

  ghost predicate RemoteValid(remote: RemoteScorer)
  {
    forall texts, q :: remote(texts, q).Some? ==> |remote(texts, q).value| == |texts|
  }

  /** The local path: whether sentence-transformers could be imported, and
      the cosine distances `NearestNeighbors` measures from the query's
      embedding to each text's. */
  datatype LocalModel = LocalModel(installed: bool, distance: (seq<string>, string) -> seq<real>)

  ghost predicate LocalValid(local: LocalModel)
  {
    forall texts, q :: |local.distance(texts, q)| == |texts|
  }

  /** The local path's score, `1 - dist`, for every text. */
  function Similarities(dists: seq<real>): (s: seq<real>)
    ensures |s| == |dists|
    ensures forall i :: 0 <= i < |dists| ==> s[i] + dists[i] == 1.0
  {
    seq(|dists|, i requires 0 <= i < |dists| => 1.0 - dists[i])
  }

  /** What `kneighbors` returns for `n_neighbors = min(k, N)`: that many
      distinct texts, nearest first, and no text left out nearer than one
      kept. The order among equal distances is not fixed. */
  predicate IsKNearest(dists: seq<real>, k: nat, idxs: seq<nat>)
  {
    && |idxs| == Min(k, |dists|)
    && Distinct(idxs)
    && (forall m :: 0 <= m < |idxs| ==> idxs[m] < |dists|)
    && (forall a, b :: 0 <= a < b < |idxs| ==> dists[idxs[a]] <= dists[idxs[b]])
    && (forall j, m :: 0 <= j < |dists| && j !in idxs && 0 <= m < |idxs| ==>
          dists[j] >= dists[idxs[m]])
  }

  /** The k nearest texts by distance are exactly a top-K selection by
      `1 - dist`, so ranking the similarities gives what `kneighbors` gives. */
  lemma KNearestAreTopK(dists: seq<real>, k: nat, idxs: seq<nat>)
    ensures IsKNearest(dists, k, idxs) <==> IsTopK(Similarities(dists), k, idxs)
  {
  }

  /** `semantic_search`. With a key: rank by the remote similarities, or
      fail with the service. Without: fail if the local model is missing or
      if zero neighbours would be asked for, otherwise rank by `1 - dist`. */
  method SemanticSearch(t: Table, query: string, apiKey: string, topK: nat,
                        remote: RemoteScorer, local: LocalModel)
    returns (r: Result<seq<Hit>, SearchError>, ghost top: seq<nat>)
    requires Normalized(t) && RemoteValid(remote) && LocalValid(local)
    ensures apiKey != "" ==>
              match remote(Corpus(t), query)
              case None => r == Err(EmbeddingService)
              case Some(scores) => IsTopK(scores, topK, top) && r == Ok(Hits(t, scores, top))
    ensures apiKey == "" && !local.installed ==> r == Err(LocalModelMissing)
    ensures apiKey == "" && local.installed && Min(topK, |t.rows|) == 0 ==> r == Err(NoNeighbors)
    ensures apiKey == "" && local.installed && Min(topK, |t.rows|) > 0 ==>
              var scores := Similarities(local.distance(Corpus(t), query));
              && IsKNearest(local.distance(Corpus(t), query), topK, top)
              && IsTopK(scores, topK, top) && r == Ok(Hits(t, scores, top))
  {
    var texts := Corpus(t);
    var scores: seq<real>;
    if apiKey != "" {
      var answer := remote(texts, query);
      if answer.None? {
        return Err(EmbeddingService), [];
      }
      scores := answer.value;
    } else {
      if !local.installed {
        return Err(LocalModelMissing), [];
      }
      if Min(topK, |texts|) == 0 {
        return Err(NoNeighbors), [];
      }
      scores := Similarities(local.distance(texts, query));
    }
    var picked := TopIndices(scores, topK);
    top := picked;
    if apiKey == "" {
      KNearestAreTopK(local.distance(texts, query), topK, picked);
    }
    r := CollectHits(t, scores, picked);
  }
}
