/** The request handling of the chat page (streamlit_app.py): on "Submit /
    Analyze" it records the user's message, builds the query, picks a search
    backend, degrades a failed search to no results, numbers the evidence,
    fills the prompt context with defaults, degrades a failed expansion to
    "LLM unavailable", and records the assistant's answer. */
module App {
  import opened Common
  import opened Records
  import opened Ranking
  import opened Search
  import opened Narrative

  /** The form fields of one submission. */
  datatype Form = Form(shift: string, factory: string, machine: string, issue: string, notes: string)

  /** The sidebar settings: the API key ("" when none) and the embeddings box. */
  datatype Settings = Settings(apiKey: string, useEmbeddings: bool)

  /** The clock readings the handler takes: `now` as displayed and in ISO
      form, and the ISO time when the answer is recorded. */
  datatype Clock = Clock(display: string, iso: string, replyIso: string)

  /** The external services the handler reaches through the search and
      expansion functions. */
  datatype Services = Services(
    tfidf: TfidfEngine, remote: RemoteScorer, local: LocalModel, complete: Completion)

  ghost predicate ServicesValid(s: Services)
  {
    EngineValid(s.tfidf) && RemoteValid(s.remote) && LocalValid(s.local)
  }

  const TopK: nat := 5
  const NotFound: string := "Not found in historical logs"
  const NoIssue: string := "N/A"
  const LlmUnavailable: string := "LLM unavailable"

  /** The query: factory, machine, issue and notes joined by single spaces. */
  function QueryText(f: Form): (r: string)
    ensures r == f.factory + " " + f.machine + " " + f.issue + " " + f.notes
  {
    JoinFour(f.factory, f.machine, f.issue, f.notes);
    JoinSpaced([f.factory, f.machine, f.issue, f.notes])
  }

  /** Queries and records are built the same way: a form that repeats a
      record's factory, machine and issue, with its root cause as the notes,
      produces exactly that record's indexed text. */
  lemma QueryMatchesRecordText(t: Table, i: nat, shift: string)
    requires Normalized(t) && i < |t.rows|
    ensures var d := SearchFields(t, i);
            QueryText(Form(shift, d[0], d[1], d[2], d[3])) == RecordText(t, i)
  {
  }

  /** The query shows each of the four form fields it is made of. */
  lemma QueryShowsForm(f: Form)
    ensures Contains(QueryText(f), f.factory) && Contains(QueryText(f), f.machine)
    ensures Contains(QueryText(f), f.issue) && Contains(QueryText(f), f.notes)
  {
    var parts := [f.factory, f.machine, f.issue, f.notes];
    JoinSpacedCarries(parts, 0);
    JoinSpacedCarries(parts, 1);
    JoinSpacedCarries(parts, 2);
    JoinSpacedCarries(parts, 3);
  }

  datatype Backend = Lexical | RemoteEmbeddings

  /** Remote embeddings exactly when a key is given and the box is ticked;
      TF-IDF otherwise. The local embedding model is never chosen. */
  function ChooseBackend(s: Settings): (b: Backend)
    ensures b == RemoteEmbeddings <==> s.apiKey != "" && s.useEmbeddings
  {
    if s.apiKey != "" && s.useEmbeddings then RemoteEmbeddings else Lexical
  }

  /** What the search step yields, given the TF-IDF cache slot before and
      after it. Remote path: nothing when the service fails, otherwise the
      ranking of the remote scores, with the cache untouched. TF-IDF path:
      the slot is filled once and reused after; nothing when fitting fails;
      otherwise a top-K selection of the stored index's scores, and exactly
      min(5, N) results when the index was fitted on this table. */
  predicate SearchOutcome(t: Table, query: string, s: Settings, services: Services,
                          before: Option<Fitted>, after: Option<Fitted>,
                          hits: seq<Hit>, scores: seq<real>, top: seq<nat>)
    requires Normalized(t)
  {
    && (hits == [] || IsRanking(t, scores, TopK, top, hits))
    && (ChooseBackend(s) == RemoteEmbeddings ==>
          && after == before
          && match services.remote(Corpus(t), query)
             case None => hits == []
             case Some(remoteScores) =>
               scores == remoteScores && IsRanking(t, scores, TopK, top, hits))
    && (ChooseBackend(s) == Lexical ==>
          && (before.Some? ==> after == before)
          && (before.None? ==>
                after == (match Fit(services.tfidf, Corpus(t)) case Ok(f) => Some(f) case Err(_) => None))
          && (after.None? ==> hits == [])
          && (after.Some? ==>
                && scores == services.tfidf.similarity(after.value, query)
                && IsTopK(scores, TopK, top)
                && ((forall m :: 0 <= m < |top| ==> top[m] < |t.rows|) ==>
                      IsRanking(t, scores, TopK, top, hits)))
          && (after == Some(Fitted(Corpus(t))) ==> |hits| == Min(TopK, |t.rows|)))
  }

  /** The search step: the chosen backend's results, or none when it fails. */
  method RunSearch(cache: TfidfCache, t: Table, query: string, s: Settings, services: Services)
    returns (hits: seq<Hit>, ghost scores: seq<real>, ghost top: seq<nat>)
    requires Normalized(t) && ServicesValid(services)
    modifies cache
    ensures SearchOutcome(t, query, s, services, old(cache.slot), cache.slot, hits, scores, top)
    ensures ChooseBackend(s) == RemoteEmbeddings ==> unchanged(cache)
  {
    var r: Result<seq<Hit>, SearchError>;
    if ChooseBackend(s) == RemoteEmbeddings {
      r, top := SemanticSearch(t, query, s.apiKey, TopK, services.remote, services.local);
      scores := match services.remote(Corpus(t), query) case Some(v) => v case None => [];
    } else {
      r, top := cache.Search(t, query, TopK, services.tfidf);
      scores := match cache.slot case Some(f) => services.tfidf.similarity(f, query) case None => [];
    }
    hits := match r case Ok(v) => v case Err(_) => [];
  }

  /** `row.get(key, '')` on a result row. */
  function Field(h: Hit, key: string): string
  {
    Lookup(h.fields, key, "")
  }

  /** The evidence block of the result at rank `n` (counted from 1): every
      field of the row, labelled, ending in a blank line. */
  function ResultBlock(n: nat, h: Hit): (b: string)
    ensures OccursAt(b, "Result " + DecimalText(n) + " | date: ", 0)
    ensures b[|b| - 2..] == "\n\n"
    ensures Contains(b, Field(h, "date")) && Contains(b, Field(h, "shift"))
    ensures Contains(b, Field(h, "factory")) && Contains(b, Field(h, "machine"))
    ensures Contains(b, Field(h, "issue")) && Contains(b, Field(h, "root_cause"))
    ensures Contains(b, Field(h, "correction")) && Contains(b, Field(h, "corrective_action"))
  {
    var head := "Result " + DecimalText(n) + " | date: ";
    LabelledEight(head, Field(h, "date"), " , shift: ", Field(h, "shift"),
                  ", factory: ", Field(h, "factory"), ", machine: ", Field(h, "machine"),
                  "\nIssue: ", Field(h, "issue"), "\nRoot cause: ", Field(h, "root_cause"),
                  "\nCorrection: ", Field(h, "correction"),
                  "\nCorrective action: ", Field(h, "corrective_action"), "\n\n");
    head + Field(h, "date") + " , shift: " + Field(h, "shift")
      + ", factory: " + Field(h, "factory") + ", machine: " + Field(h, "machine")
      + "\nIssue: " + Field(h, "issue") + "\nRoot cause: " + Field(h, "root_cause")
      + "\nCorrection: " + Field(h, "correction")
      + "\nCorrective action: " + Field(h, "corrective_action") + "\n\n"
  }

  /** The result blocks, numbered from 1 in rank order. */
  function Blocks(hits: seq<Hit>): (blocks: seq<string>)
    ensures |blocks| == |hits|
    ensures forall k :: 0 <= k < |hits| ==> blocks[k] == ResultBlock(k + 1, hits[k])
  {
    seq(|hits|, k requires 0 <= k < |hits| => ResultBlock(k + 1, hits[k]))
  }

  /** The evidence text: all result blocks one after another. */
  function Evidence(hits: seq<Hit>): string
  {
    Concat(Blocks(hits))
  }

  /** The `evidence_text +=` loop. */
  method EvidenceText(hits: seq<Hit>) returns (text: string)
    ensures text == Evidence(hits)
  {
    ghost var blocks := Blocks(hits);
    text := "";
    for idx := 0 to |hits|
      invariant text == Concat(blocks[..idx])
    {
      ConcatStep(blocks, idx);
      text := text + ResultBlock(idx + 1, hits[idx]);
    }
    assert blocks[..|hits|] == blocks;
  }

  /** The evidence is blank exactly when there are no results, which is when
      the page says that no close match was found. */
  lemma EvidenceBlankIffNoResults(hits: seq<Hit>)
    ensures IsBlank(Evidence(hits)) <==> hits == []
  {
    if hits != [] {
      var blocks := Blocks(hits);
      assert blocks[0][0] == 'R';
      ConcatFirst(blocks);
      assert !IsSpace(Evidence(hits)[0]);
    }
  }

  /** The result at rank k sits in the evidence as block number k + 1,
      right after the blocks of the results ranked before it. */
  lemma EvidenceBlockAt(hits: seq<Hit>, k: nat)
    requires k < |hits|
    ensures OccursAt(Evidence(hits), ResultBlock(k + 1, hits[k]), |Evidence(hits[..k])|)
  {
    ConcatPartAt(Blocks(hits), k);
    assert Blocks(hits)[..k] == Blocks(hits[..k]);
  }

  /** `search_results[0].get("root_cause") or "Not found in historical logs"`. */
  function ObservedRootCause(hits: seq<Hit>): (r: string)
    ensures r != ""
    ensures hits == [] ==> r == NotFound
  {
    var best := if hits == [] then "" else Lookup(hits[0].fields, "root_cause", "");
    if best != "" then best else NotFound
  }

  /** On a normalised table the observed root cause is the best match's own
      root cause, unless there is no match or that cell is empty. */
  lemma ObservedRootCauseOfBestMatch(t: Table, scores: seq<real>, top: seq<nat>, hits: seq<Hit>)
    requires Normalized(t) && IsRanking(t, scores, TopK, top, hits)
    ensures hits == [] ==> ObservedRootCause(hits) == NotFound
    ensures hits != [] ==>
              var cause := RowDict(t, top[0])["root_cause"];
              ObservedRootCause(hits) == if cause != "" then cause else NotFound
  {
    if hits != [] {
      assert "root_cause" in Expected;
      var j :| 0 <= j < |t.columns| && t.columns[j] == "root_cause";
      assert hits[0] == HitFor(t, scores, top[0]);
    }
  }

  /** `issue_short or "N/A"`. */
  function ReportedIssue(issue: string): (r: string)
    ensures r != "" && (issue != "" ==> r == issue)
    ensures issue == "" ==> r == NoIssue
  {
    if issue != "" then issue else NoIssue
  }

  /** The `prompt_context` dictionary: exactly the keys the prompt shows,
      so none shows as "None"; the issue and root cause never empty, so the
      template never falls back to "N/A"; the evidence as built. */
  function PromptContext(f: Form, hits: seq<Hit>, evidence: string): (ctx: Context)
    ensures "reported_issue" in ctx && ctx["reported_issue"] == ReportedIssue(f.issue)
    ensures "observed_root_cause" in ctx && ctx["observed_root_cause"] == ObservedRootCause(hits)
    ensures "evidence" in ctx && ctx["evidence"] == evidence
    ensures "shift" in ctx && ctx["shift"] == f.shift
    ensures "factory" in ctx && ctx["factory"] == f.factory
    ensures "machine" in ctx && ctx["machine"] == f.machine
    ensures "additional_notes" in ctx && ctx["additional_notes"] == f.notes
    ensures forall k :: k in ctx <==> k in PromptKeys
    ensures Shown(ctx, "reported_issue") != "" && Shown(ctx, "observed_root_cause") != ""
    ensures Lookup(ctx, "observed_root_cause", "N/A") == ObservedRootCause(hits)
  {
    map[
      "reported_issue" := ReportedIssue(f.issue),
      "observed_root_cause" := ObservedRootCause(hits),
      "evidence" := evidence,
      "shift" := f.shift,
      "factory" := f.factory,
      "machine" := f.machine,
      "additional_notes" := f.notes]
  }

  /** The expansion step: the expansion's answer, or "LLM unavailable" for
      both texts when it fails. Whenever a key is given the two texts agree. */
  function ExpandWithFallback(ctx: Context, apiKey: string, complete: Completion): (n: Narrative)
    ensures apiKey == "" ==> n == Templated(ctx)
    ensures apiKey != "" && complete(Prompt(ctx)).None? ==> n == Narrative(LlmUnavailable, LlmUnavailable)
    ensures apiKey != "" ==> n.expanded == n.capa
    ensures ExpandRootCauseAndCapa(ctx, apiKey, complete).Ok? ==>
              n == ExpandRootCauseAndCapa(ctx, apiKey, complete).value
  {
    match ExpandRootCauseAndCapa(ctx, apiKey, complete)
    case Ok(answer) => answer
    case Err(_) => Narrative(LlmUnavailable, LlmUnavailable)
  }

  /** With no key and no match, the narrative quotes the not-found sentinel;
      with no key and a match, it quotes the observed root cause. */
  lemma NoKeyNarrativeQuotesRootCause(f: Form, hits: seq<Hit>, evidence: string, complete: Completion)
    ensures var n := ExpandWithFallback(PromptContext(f, hits, evidence), "", complete);
            && Contains(n.expanded, ObservedRootCause(hits))
            && (hits == [] ==> Contains(n.expanded, NotFound))
            && n.capa == NoKeyCapa
  {
    var ctx := PromptContext(f, hits, evidence);
    assert Lookup(ctx, "observed_root_cause", "N/A") == ObservedRootCause(hits);
  }

  datatype Role = User | Assistant

  /** The `meta` of a history entry. */
  datatype Meta = RecordedAt(time: string) | BasedOnRows(rows: nat)

  datatype Entry = Entry(role: Role, text: string, timestamp: string, meta: Meta)

  /** The user's chat message: one labelled line per form field. */
  function UserMessage(f: Form): (r: string)
    ensures OccursAt(r, "Shift: ", 0)
    ensures Contains(r, f.shift) && Contains(r, f.factory) && Contains(r, f.machine)
    ensures Contains(r, f.issue) && Contains(r, f.notes)
  {
    LabelledFive("Shift: ", f.shift, "\nFactory: ", f.factory, "\nMachine: ", f.machine,
                 "\nIssue: ", f.issue, "\nNotes: ", f.notes);
    "Shift: " + f.shift + "\nFactory: " + f.factory + "\nMachine: " + f.machine
    + "\nIssue: " + f.issue + "\nNotes: " + f.notes
  }

  /** The assistant's chat message: the narrative, then the CAPA plan. */
  function AssistantMessage(n: Narrative): (r: string)
    ensures OccursAt(r, "Expanded Root Cause:\n", 0)
    ensures Contains(r, n.expanded) && Contains(r, n.capa)
  {
    FramedPair("Expanded Root Cause:\n", n.expanded, "\n\nCAPA:\n", n.capa, []);
    assert "Expanded Root Cause:\n" + n.expanded + "\n\nCAPA:\n" + n.capa + []
        == "Expanded Root Cause:\n" + n.expanded + "\n\nCAPA:\n" + n.capa;
    "Expanded Root Cause:\n" + n.expanded + "\n\nCAPA:\n" + n.capa
  }

  /** What one submission produces for display and for the PDF report. */
  datatype Report = Report(hits: seq<Hit>, evidence: string, narrative: Narrative)

  /** The analysis between the two history appends: search for the form's
      query, number the evidence, fill the prompt context and expand it. */
  method Analyze(cache: TfidfCache, t: Table, f: Form, s: Settings, services: Services)
    returns (report: Report, ghost scores: seq<real>, ghost top: seq<nat>)
    requires Normalized(t) && ServicesValid(services)
    modifies cache
    ensures SearchOutcome(t, QueryText(f), s, services, old(cache.slot), cache.slot,
                          report.hits, scores, top)
    ensures ChooseBackend(s) == RemoteEmbeddings ==> unchanged(cache)
    ensures report.evidence == Evidence(report.hits)
    ensures report.narrative ==
              ExpandWithFallback(PromptContext(f, report.hits, report.evidence), s.apiKey, services.complete)
  {
    var query := QueryText(f);
    var hits;
    hits, scores, top := RunSearch(cache, t, query, s, services);
    var evidence := EvidenceText(hits);
    var ctx := PromptContext(f, hits, evidence);
    var narrative := ExpandWithFallback(ctx, s.apiKey, services.complete);
    report := Report(hits, evidence, narrative);
  }

  /** `st.session_state.history`, one per browser session. */
  class ChatSession {
    var history: seq<Entry>

    constructor ()
      ensures history == []
    {
      history := [];
    }

    /** One press of "Submit / Analyze": two entries are appended, the
        user's then the assistant's, and nothing earlier changes. The
        assistant's entry counts the results its answer is based on. */
    method Submit(cache: TfidfCache, t: Table, f: Form, s: Settings, services: Services, clock: Clock)
      returns (report: Report, ghost scores: seq<real>, ghost top: seq<nat>)
      requires Normalized(t) && ServicesValid(services)
      modifies this, cache
      ensures history == old(history)
                + [Entry(User, UserMessage(f), clock.iso, RecordedAt(clock.display))]
                + [Entry(Assistant, AssistantMessage(report.narrative), clock.replyIso,
                         BasedOnRows(|report.hits|))]
      ensures SearchOutcome(t, QueryText(f), s, services, old(cache.slot), cache.slot,
                            report.hits, scores, top)
      ensures ChooseBackend(s) == RemoteEmbeddings ==> unchanged(cache)
      ensures report.evidence == Evidence(report.hits)
      ensures report.narrative ==
                ExpandWithFallback(PromptContext(f, report.hits, report.evidence), s.apiKey, services.complete)
    {
      var asked := Entry(User, UserMessage(f), clock.iso, RecordedAt(clock.display));
      history := history + [asked];
      report, scores, top := Analyze(cache, t, f, s, services);
      var answered := Entry(Assistant, AssistantMessage(report.narrative), clock.replyIso,
                            BasedOnRows(|report.hits|));
      history := history + [answered];
    }
  }
}
