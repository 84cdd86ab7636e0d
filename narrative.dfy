/** `expand_root_cause_and_capa`: turn the prompt context into an expanded
    root-cause narrative and a CAPA plan. Without a key the answer is a fixed
    template around the observed root cause; with one it is the reply of a
    chat-completion service, given here as a function. */
module Narrative {
  import opened Common

  /** The prompt context dictionary the caller passes in. */
  type Context = map<string, string>

  datatype Narrative = Narrative(expanded: string, capa: string)

  datatype ExpansionError = CompletionFailed

  /** The chat-completion call on a prompt: the reply's content, or a failure. */
  type Completion = string -> Option<string>

  const NoKeyPrefix: string := "[No LLM key provided] Observed root cause: "
  const NoKeySuffix: string :=
    ". Recommended to investigate operator procedures, check recent maintenance, and validate recipes."
  const NoKeyCapa: string :=
    "[No LLM key] CAPA: 1) Immediate: Stop production, segregate affected batches. "
    + "2) Short-term: Repair/replace faulty parts. "
    + "3) Preventive: Update SOPs, retrain staff. Owner: QA Manager. "
    + "Timeline: immediate -> 1 week -> 1 month. KPI: rework rate."

  const Instructions: string :=
    "\nYou are a Quality Assurance expert. Given the information below, expand the root cause "
    + "into a clear, thorough narrative (3-6 sentences),\nidentify immediate corrections, and "
    + "produce a CAPA plan with: objective, short-term corrective actions, root cause analysis "
    + "(5 whys), preventive actions,\nowners, timeline (short-term and long-term), and metrics "
    + "to verify effectiveness.\n\nContext:\n"

  /** The context keys the prompt shows, in order, and the label of each line. */
  const PromptKeys: seq<string> :=
    ["reported_issue", "observed_root_cause", "evidence", "factory", "machine", "shift", "additional_notes"]
  const PromptLabels: seq<string> :=
    ["Reported issue: ", "Observed root cause (from history): ", "Evidence: ", "Factory: ",
     "Machine: ", "Shift: ", "Additional notes: "]

  /** `{context.get(key)}` inside an f-string: a missing key shows as "None". */
  function Shown(ctx: Context, key: string): string
  {
    Lookup(ctx, key, "None")
  }

  /** The context lines of the prompt from the k-th on. */
  function ContextLines(ctx: Context, k: nat): string
    requires k <= |PromptKeys|
    decreases |PromptKeys| - k
  {
    if k == |PromptKeys| then ""
    else PromptLabels[k] + Shown(ctx, PromptKeys[k]) + "\n" + ContextLines(ctx, k + 1)
  }

  /** The user message sent to the completion service: the instructions,
      then the context lines. */
  function Prompt(ctx: Context): (p: string)
    ensures OccursAt(p, Instructions, 0)
  {
    Instructions + ContextLines(ctx, 0)
  }

  /** One context line shows its own value and keeps every text the lines
      after it show. */
  lemma LineShows(tag: string, v: string, rest: string)
    ensures Contains(tag + v + "\n" + rest, v)
    ensures forall t :: Contains(rest, t) ==> Contains(tag + v + "\n" + rest, t)
  {
    ContainsMiddle(tag, v, "\n" + rest);
    assert tag + v + ("\n" + rest) == tag + v + "\n" + rest;
    forall t | Contains(rest, t) ensures Contains(tag + v + "\n" + rest, t) {
      ContainsWithin(tag + v + "\n", rest, [], t);
      assert tag + v + "\n" + rest + [] == tag + v + "\n" + rest;
    }
  }

  /** Every context line from the j-th on shows its value verbatim. */
  lemma {:induction false} ContextLinesShow(ctx: Context, j: nat, k: nat)
    requires j <= k < |PromptKeys|
    ensures Contains(ContextLines(ctx, j), Shown(ctx, PromptKeys[k]))
    decreases |PromptKeys| - j
  {
    var rest := ContextLines(ctx, j + 1);
    LineShows(PromptLabels[j], Shown(ctx, PromptKeys[j]), rest);
    if j < k {
      ContextLinesShow(ctx, j + 1, k);
    }
  }

  /** The prompt shows every context value it interpolates. */
  lemma PromptShowsContext(ctx: Context)
    ensures forall k :: 0 <= k < |PromptKeys| ==> Contains(Prompt(ctx), Shown(ctx, PromptKeys[k]))
  {
    forall k | 0 <= k < |PromptKeys| ensures Contains(Prompt(ctx), Shown(ctx, PromptKeys[k])) {
      ContextLinesShow(ctx, 0, k);
      ContainsWithin(Instructions, ContextLines(ctx, 0), [], Shown(ctx, PromptKeys[k]));
      assert Instructions + ContextLines(ctx, 0) + [] == Prompt(ctx);
    }
  }

  /** Reads back the root cause that a templated narrative quotes, if the
      text has the template's shape. */
  function QuotedRootCause(expanded: string): Option<string>
  {
    if |expanded| >= |NoKeyPrefix| + |NoKeySuffix|
       && expanded[..|NoKeyPrefix|] == NoKeyPrefix
       && expanded[|expanded| - |NoKeySuffix|..] == NoKeySuffix
    then Some(expanded[|NoKeyPrefix|..|expanded| - |NoKeySuffix|])
    else None
  }

  /** The no-key answer: the observed root cause (or "N/A" when the context
      has none) quoted verbatim inside fixed text, and a CAPA plan that does
      not depend on the context at all. */
  function Templated(ctx: Context): (n: Narrative)
    ensures n.capa == NoKeyCapa
    ensures QuotedRootCause(n.expanded) == Some(Lookup(ctx, "observed_root_cause", "N/A"))
    ensures Contains(n.expanded, Lookup(ctx, "observed_root_cause", "N/A"))
  {
    var cause := Lookup(ctx, "observed_root_cause", "N/A");
    var expanded := NoKeyPrefix + cause + NoKeySuffix;
    assert expanded[..|NoKeyPrefix|] == NoKeyPrefix;
    assert expanded[|expanded| - |NoKeySuffix|..] == NoKeySuffix;
    assert expanded[|NoKeyPrefix|..|expanded| - |NoKeySuffix|] == cause;
    ContainsMiddle(NoKeyPrefix, cause, NoKeySuffix);
    Narrative(expanded, NoKeyCapa)
  }

  /** `expand_root_cause_and_capa(context, openai_api_key)`. Without a key
      it never fails and gives the template; with one it fails exactly when
      the completion fails, and otherwise returns the stripped reply as both
      the narrative and the CAPA plan. */
  function ExpandRootCauseAndCapa(ctx: Context, apiKey: string, complete: Completion)
    : (r: Result<Narrative, ExpansionError>)
    ensures apiKey == "" ==> r == Ok(Templated(ctx))
    ensures apiKey != "" ==> (r.Err? <==> complete(Prompt(ctx)).None?)
    ensures apiKey != "" && r.Ok? ==>
              && r.value.expanded == r.value.capa
              && r.value.expanded == Strip(complete(Prompt(ctx)).value)
  {
    if apiKey == "" then Ok(Templated(ctx))
    else
      match complete(Prompt(ctx))
      case None => Err(CompletionFailed)
      case Some(reply) => var text := Strip(reply); Ok(Narrative(text, text))
  }
}
