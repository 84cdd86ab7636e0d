# Smart Non-Conformance Analyzer — a Dafny model of its core

The Smart Non-Conformance Analyzer is a Streamlit chat page for quality
engineers. An engineer describes a manufacturing non-conformance: shift,
factory, machine, a short issue and free notes. The page then:

- searches a CSV log of past incidents for the closest records, using a
  TF-IDF index or embeddings;
- shows those records as numbered evidence;
- asks a chat-completion service to expand the observed root cause into a
  narrative and a CAPA (corrective and preventive action) plan, or falls back
  to a fixed template when no API key is given;
- records both sides of the exchange in the session's chat history.

This project models that core in Dafny and proves its contracts.

- `common.dfy` (module `Common`): `Option`/`Result`, and Python's string
  helpers as the code uses them. That covers `str.strip`, `" ".join`-style
  concatenation, `dict.get` with a default, and the decimal rendering of an
  integer in an f-string.
- `records.dfy` (module `Records`): the incident table.
  - `load_csv` is a loop that appends the missing expected columns.
  - The per-record search text comes from factory, machine, issue and root
    cause.
- `ranking.dfy` (module `Ranking`): `argsort()[::-1][:top_k]` as a top-K
  selection, plus the loop that turns the selected indices into result rows.
  - It includes a proof that two selections agree score by score, however
    ties were broken.
- `search.dfy` (module `Search`): `tfidf_search` and `semantic_search`.
  - `tfidf_search` is a method of a class whose one field is the `_tfidf_cache`
    slot.
  - The TF-IDF, embedding and cosine numerics are function parameters.
- `narrative.dfy` (module `Narrative`): `expand_root_cause_and_capa`. This
  covers the prompt, the no-key template, and the keyed branch with the
  completion service as a function parameter.
- `app.dfy` (module `App`): the "Submit / Analyze" handler of
  `streamlit_app.py`.
  - Query text, backend choice, degrading a failed search to no results.
  - The `evidence_text +=` loop and the prompt-context defaults.
  - Degrading a failed expansion to "LLM unavailable".
  - The two appends to `st.session_state.history`, as a `ChatSession` class.

External calls become parameters: the TF-IDF analyzer and similarity, the
remote embedding scorer, the local model's distances, the chat completion,
and the clock readings. A failed remote call is `None`.

Behaviour of the code worth knowing:

- The TF-IDF cache is never invalidated. After the first call that fits an
  index, every search reuses that index, even for a different table. A call
  whose fit fails leaves the cache empty, so the next call fits again
  (`Search.TfidfCache.Search`).
- The order among tied scores is not fixed, because numpy's `argsort` is not
  stable and its output is reversed. The model allows any order of ties, and
  `Ranking.TopKScoresAgree` shows that this never changes the scores a caller
  sees.
- Fitting TF-IDF on a corpus with no terms raises. This includes an empty log.
  The model reports `EmptyVocabulary`, which the page turns into no results.
- The page never reaches the local-embedding branch of `semantic_search`. It
  only calls it with a non-empty key.
- A failed expansion gives "LLM unavailable" for both texts, not the no-key
  template.

## Model

| member | source | states |
|---|---|---|
| Common.Strip | utils.py:117 | `.strip()`: the result is the input with a blank prefix and a blank suffix cut off; it is empty exactly when the input is all whitespace, and otherwise neither starts nor ends with whitespace |
| Common.StripIdempotent | utils.py:117 | stripping an already stripped text changes nothing |
| Common.JoinSpacedCarries | utils.py:28-29 | text joined with single spaces holds each part verbatim |
| Common.DecimalText | streamlit_app.py:81 | `{idx+1}` renders as a non-empty run of decimal digits, starting with "0" only for zero |
| Common.DecimalRoundTrip | streamlit_app.py:81 | reading the rendered digits back gives the number |
| Common.ConcatPrefix | streamlit_app.py:79-84 | concatenating the first k blocks gives a prefix of concatenating them all |
| Common.ConcatPartAt | streamlit_app.py:79-84 | block k sits in the concatenation right after the text of the blocks before it |
| Common.ConcatFirst | streamlit_app.py:79-84 | a concatenation whose first block is non-empty starts with that block's first character |
| Records.FillNa | utils.py:18 | `fillna("")`: same columns and row count; a present cell keeps its text, a blank one becomes "" |
| Records.AddColumn | utils.py:22 | `df[col] = ""`: the column is appended last and every row gains that value, nothing else changes |
| Records.Absent | utils.py:19-21 | exactly the expected names the table lacks, each once, in schema order |
| Records.LoadStep | utils.py:20-22 | one turn of the loop keeps the loop's invariant: existing cells kept, the new column holds "" everywhere, the table stays rectangular with unique names |
| Records.LoadCsv | utils.py:17-23 | all nine expected columns present; old columns first and unchanged in value; missing ones appended in schema order holding ""; row count unchanged |
| Records.RowDict | utils.py:42 | `to_dict()` maps exactly the table's columns, each to the row's own cell |
| Records.Corpus | utils.py:28-29 | one search text per row, in row order, each the row's record text |
| Records.RecordText | utils.py:28-29 | a record's search text is its factory, machine, issue and root cause joined by single spaces |
| Common.JoinFour | utils.py:28-29 | joining four texts with single spaces puts exactly one space between neighbours |
| Records.RecordTextCarriesFields | utils.py:28-29 | a record's search text carries its factory, machine, issue and root cause verbatim |
| Ranking.InsertKeepsIndices | utils.py:39 | inserting the next index keeps the order a permutation of the indices seen so far |
| Ranking.InsertKeepsDescending | utils.py:39 | inserting after every entry scoring at least as high keeps the order best first |
| Ranking.ArgsortDescending | utils.py:39 | `argsort()[::-1]`: a permutation of all row indices in non-increasing score order |
| Ranking.TopIndices | utils.py:39 | `[:top_k]` of it: min(k, N) distinct indices, best first, none left out that outscores one kept |
| Ranking.OutscorerRanksEarlier | utils.py:39 | in a top-K selection, an index outscoring rank m is selected before rank m |
| Ranking.SelectionPrefixSize | utils.py:39 | at least m + 1 indices score as high as rank m of a selection |
| Ranking.OutscorersSize | utils.py:39 | at most m indices score strictly above rank m of a selection |
| Ranking.TopKRankBound | utils.py:39 | rank by rank, the score of one valid selection is at most that of another |
| Ranking.TopKScoresAgree | utils.py:39 | however ties are broken, two valid selections have the same length and the same score at every rank |
| Ranking.HitFor | utils.py:42-43 | a result row holds the row's columns (its "score" column replaced) and that row's own score |
| Ranking.Hits | utils.py:41-44 | one result per selected index, in selection order |
| Ranking.CollectHits | utils.py:40-45 | the result loop succeeds exactly when every selected index is a row, giving the rows in rank order; otherwise it raises |
| Ranking.RankingShape | utils.py:39-45 | ranked results: min(k, N) of them, non-increasing score, distinct rows, each with its own row's fields and score |
| Search.Fit | utils.py:31-33 | fitting fails, with an empty vocabulary, exactly when no text of the corpus has a term, so always on an empty log; otherwise the index is the corpus it was fitted on |
| Search.TfidfCache.constructor | utils.py:25 | the cache starts empty |
| Search.TfidfCache.Search | utils.py:27-45 | the first call fits and stores the index, or raises on an empty vocabulary; later calls leave the slot as it is and score against it whatever table is passed; results are a top-K selection of those scores; on a table the index was fitted on, exactly min(k, N) results |
| Search.Similarities | utils.py:80 | the local score of each text is one minus its cosine distance |
| Search.KNearestAreTopK | utils.py:75-80 | `kneighbors`' answer (min(k, N) distinct texts, nearest first, none left out nearer than one kept) is exactly a top-K selection by `1 - dist` |
| Search.SemanticSearch | utils.py:48-82 | with a key: the service's failure, or a top-K selection of the remote similarities with their rows; without: raises when the local model is missing or zero neighbours are asked for, otherwise the k nearest texts by distance, which is also a top-K selection by `1 - dist` |
| Narrative.Prompt | utils.py:86-99 | the prompt starts with the fixed instructions |
| Narrative.ContextLinesShow | utils.py:91-98 | each context line from the j-th on shows its value verbatim |
| Narrative.PromptShowsContext | utils.py:86-99 | the prompt shows every context value it interpolates, a missing key as "None" |
| Narrative.Templated | utils.py:100-105 | the no-key narrative quotes the observed root cause ("N/A" when absent) between the fixed prefix and suffix, so it can be read back; the CAPA text is the fixed constant |
| Narrative.ExpandRootCauseAndCapa | utils.py:85-118 | without a key: the template, never failing; with one: fails exactly when the completion fails, else both outputs are the same stripped reply |
| App.QueryText | streamlit_app.py:67 | the query is the form's factory, machine, issue and notes joined by single spaces |
| App.QueryMatchesRecordText | streamlit_app.py:67 | a form repeating a record's searched fields gives exactly that record's search text |
| App.QueryShowsForm | streamlit_app.py:67 | the query shows the factory, machine, issue and notes verbatim |
| App.ChooseBackend | streamlit_app.py:71-74 | remote embeddings exactly when a key is given and the box is ticked, TF-IDF otherwise; the local model is never chosen |
| App.RunSearch | streamlit_app.py:70-77 | remote path: no results exactly when the service fails, otherwise the ranking of its scores, cache untouched; TF-IDF path: the cache is filled on the first call and reused after, no results when fitting fails, otherwise a top-K selection of the stored index's scores, min(5, N) results on the table it was fitted on |
| App.ResultBlock | streamlit_app.py:81-84 | an evidence block starts with "Result n | date: ", holds the row's date, shift, factory, machine, issue, root cause, correction and corrective action verbatim, and ends with a blank line |
| App.Blocks | streamlit_app.py:80-84 | one evidence block per result, numbered from 1 in rank order |
| App.EvidenceText | streamlit_app.py:79-84 | the `evidence_text +=` loop yields every result's block, in rank order |
| App.EvidenceBlankIffNoResults | streamlit_app.py:87-90 | the evidence is blank exactly when there are no results |
| App.EvidenceBlockAt | streamlit_app.py:80-84 | the result at rank k is block k + 1, placed right after the blocks before it |
| App.ObservedRootCause | streamlit_app.py:92-95 | the observed root cause is never empty, and is "Not found in historical logs" when there are no results |
| App.ObservedRootCauseOfBestMatch | streamlit_app.py:92-95 | it is the best match's own root cause, or "Not found in historical logs" when there is no match or that cell is empty |
| App.PromptContext | streamlit_app.py:92-101 | the context has exactly the seven keys the prompt shows: the reported issue (the form's issue, or "N/A"), the observed root cause of the results, the evidence text, and the form's shift, factory, machine and notes; the issue and root cause are never empty |
| App.ReportedIssue | streamlit_app.py:94 | the reported issue is the form's issue, or "N/A" exactly when that is empty; never empty |
| App.ExpandWithFallback | streamlit_app.py:103-107 | the expansion's answer whenever it succeeds (the template without a key); "LLM unavailable" twice when it fails; with a key the two texts agree |
| App.NoKeyNarrativeQuotesRootCause | streamlit_app.py:95 | with no key, the narrative quotes the observed root cause, and "Not found in historical logs" when there were no results |
| App.UserMessage | streamlit_app.py:58-59 | the user's message starts with "Shift: " and shows the shift, factory, machine, issue and notes verbatim |
| App.AssistantMessage | streamlit_app.py:114 | the assistant's message starts with "Expanded Root Cause:" and shows the narrative and the CAPA plan verbatim |
| App.Analyze | streamlit_app.py:67-107 | the results are the search step's outcome on the form's query, per backend and cache state, with the cache untouched on the remote path; the evidence is that of these results; the narrative is the expansion, or its fallback, of the prompt context built from them |
| App.ChatSession.constructor | streamlit_app.py:31-32 | the history starts empty |
| App.ChatSession.Submit | streamlit_app.py:57-120 | one submission appends exactly two entries, user then assistant, leaving earlier ones untouched; the assistant's entry counts the results; the results are the search step's outcome on the form's query, per backend and cache state; the evidence and narrative are those of these results |

## Left out

- pdf_generator.py is not part of this model: it renders a PDF through FPDF. The model's `Report` holds the results, the evidence text and the narrative. The PDF's other fields are form values and clock readings, which are parameters of the model.
- Streamlit widgets and display calls (`st.*`, `chat_message`, the download button) are left out. The form, settings and clock readings are parameters.
- `datetime` formatting is left out; the clock readings are given as text.
- File I/O is left out: `os.path.exists`, `pd.read_csv` and the CSV format. `load_csv` starts from an already parsed table with unique column names.
- The TF-IDF weighting, `linear_kernel`, embedding models, cosine similarity and `NearestNeighbors` are floating-point numerics inside libraries. They are function parameters returning `real` scores, and the analyzer's term list stands in for the vocabulary.
- The prompt's wording beyond including every context value is not stated as a property.
- The OpenAI client calls are parameters. The global `openai.api_key` assignment is a side effect and is not modelled.
- Search.SemanticSearch: a failure to download or load the local model, other than the package being absent, is not modelled.
- Search.SemanticSearch: `kneighbors` is modelled by what it promises, `Search.IsKNearest`. The order it picks among equal distances is left open.
- Ranking.TopIndices: a negative `top_k` is not modelled, because `top_k` is a natural number; the page always passes 5.
- Common.Strip: only ASCII whitespace is removed. Python's `str.strip` also removes non-ASCII whitespace such as U+0085 and U+00A0.
- App.RunSearch: what the page displays for a search error is not modelled, only that the result list becomes empty.
- App.ChatSession.Submit: the assistant's timestamp is taken as an input rather than read from the clock after the answer.
- Search.TfidfCache.Search: the index is modelled by the corpus it was fitted on, not by the vectorizer and matrix.
- The concurrency of several browser sessions sharing the process-wide cache is left out.
