/** Step and run summaries. The language-model call is an oracle: it receives the user
    prompt and yields the `summary` field of the reply (Some("") when that field is empty or
    missing), or None when the call throws. Both generators fall back to fixed text instead
    of throwing. */
module Summarizer {
  import opened Js
  import opened ContextTypes

  type Oracle = string -> Option<string>

  const NoSummary: string := "No summary available"

  /** How the prompts render a result: anything but success, pending included, is "Failed". */
  function ResultWord(r: StepStatus): string {
    if r == Success then "Successful" else "Failed"
  }

  /** The `Action Result:` line: empty when the result is undefined, the JSON text for
      objects (their `String()` text when stringifying throws), the interpolated value
      otherwise. */
  function ActionResultText(v: JsValue): (r: string)
    ensures r == "" <==> v.Undefined?
  {
    match v
    case Undefined => ""
    case Obj(json, text) => "Action Result: " + (if json.Some? then json.value else text)
    case _ => "Action Result: " + ToStr(v)
  }

  /** The `Metadata:` line; None when `JSON.stringify(metadata)` throws. */
  function MetadataLine(m: JsValue): Option<string> {
    if !Truthy(m) then Some("")
    else match Json(m)
      case None => None
      case Some(j) => Some("Metadata: " + j)
  }

  /** The lines of the step prompt; joined with newlines they are the prompt's template. */
  function StepPromptLines(s: Step): Option<seq<string>> {
    match MetadataLine(s.metadata)
    case None => None
    case Some(meta) =>
      Some([
        "",
        "Summarize the following test step in 1-2 concise sentences:",
        "",
        "Action: " + s.action,
        "Description: " + s.description,
        "Result: " + ResultWord(s.result),
        if Present(s.error) then "Error: " + s.error.value else "",
        ActionResultText(s.actionResult),
        meta,
        "",
        "Your summary should be factual, concise, and focus on what was done and the outcome.",
        "Include specific information from the action result when relevant.",
        ""
      ])
  }

  function StepPrompt(s: Step): Option<string> {
    match StepPromptLines(s)
    case None => None
    case Some(lines) => Some(Join(lines, "\n"))
  }

  /** The text used when summarizing a step fails. */
  function StepFallback(s: Step): string {
    s.action + " - " + s.description + " (" + StatusName(s.result) + ")"
  }

  /** What the model's reply becomes: an empty or missing summary is replaced. */
  function ReplyText(reply: string): (r: string)
    ensures r != ""
    ensures reply != "" ==> r == reply
  {
    if reply == "" then NoSummary else reply
  }

  /** generateStepSummary: never throws and never yields the empty string. */
  function GenerateStepSummary(s: Step, ai: Oracle): (r: string)
    ensures r != ""
    ensures StepPrompt(s).None? ==> r == StepFallback(s)
    ensures StepPrompt(s).Some? && ai(StepPrompt(s).value).None? ==> r == StepFallback(s)
    ensures StepPrompt(s).Some? && ai(StepPrompt(s).value).Some? ==>
              r == ReplyText(ai(StepPrompt(s).value).value)
  {
    match StepPrompt(s)
    case None => StepFallback(s)
    case Some(prompt) =>
      match ai(prompt)
      case None => StepFallback(s)
      case Some(reply) => ReplyText(reply)
  }

  /** One line of the run prompt's step list. */
  function RunStepLine(s: Step): string {
    "- " + s.action + ": " + s.description + " (" + StatusName(s.result) + ")" +
    (if Present(s.error) then " - Error: " + s.error.value else "")
  }

  function RunStepLines(steps: seq<Step>): (r: seq<string>)
    ensures |r| == |steps|
    ensures forall i :: 0 <= i < |steps| ==> r[i] == RunStepLine(steps[i])
  {
    seq(|steps|, i requires 0 <= i < |steps| => RunStepLine(steps[i]))
  }

  function RunPromptLines(run: Run): seq<string> {
    [
      "",
      "Summarize the following test run in 2-3 concise sentences:",
      "",
      "Test: " + run.name,
      if Present(run.description) then "Description: " + run.description.value else "",
      "Result: " + ResultWord(run.result),
      "Steps:",
      Join(RunStepLines(run.steps), "\n"),
      "",
      "Your summary should be factual, concise, and focus on what was done and the overall outcome.",
      ""
    ]
  }

  function RunPrompt(run: Run): string {
    Join(RunPromptLines(run), "\n")
  }

  /** The text used when summarizing a run fails. */
  function RunFallback(run: Run): string {
    "Test run: " + run.name + " (" + StatusName(run.result) + ")"
  }

  /** generateTestRunSummary: never throws and never yields the empty string. */
  function GenerateTestRunSummary(run: Run, ai: Oracle): (r: string)
    ensures r != ""
    ensures ai(RunPrompt(run)).None? ==> r == RunFallback(run)
    ensures ai(RunPrompt(run)).Some? ==> r == ReplyText(ai(RunPrompt(run)).value)
  {
    match ai(RunPrompt(run))
    case None => RunFallback(run)
    case Some(reply) => ReplyText(reply)
  }

  /** The step prompt's Result line says "Successful" exactly for successful steps; a pending
      step is rendered as failed. */
  lemma StepPromptResultLine(s: Step)
    requires StepPromptLines(s).Some?
    ensures StepPromptLines(s).value[5] == "Result: Successful" <==> s.result == Success
    ensures s.result == Pending ==> StepPromptLines(s).value[5] == "Result: Failed"
  {
    if s.result != Success {
      assert ResultWord(s.result) == "Failed";
      assert "Result: Failed"[8] != "Result: Successful"[8];
    }
  }

  /** The step prompt mentions the action result exactly when it is defined, and the error
      exactly when it is a non-empty string. */
  lemma StepPromptOptionalLines(s: Step)
    requires StepPromptLines(s).Some?
    ensures StepPromptLines(s).value[7] != "" <==> !s.actionResult.Undefined?
    ensures StepPromptLines(s).value[6] != "" <==> Present(s.error)
  {
  }

  /** A step's summary is not part of its own prompt, so regenerating it gives the same text. */
  lemma SummaryIgnoresSummary(s: Step, x: Option<string>, ai: Oracle)
    ensures GenerateStepSummary(s.(summary := x), ai) == GenerateStepSummary(s, ai)
  {
    assert StepPromptLines(s.(summary := x)) == StepPromptLines(s);
  }
}
