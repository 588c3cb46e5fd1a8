/** The records the context engine stores: steps, runs and the engine's options. */
module ContextTypes {
  import opened Js

  /** The result of a step, and the aggregate result of a run. */
  datatype StepStatus = Pending | Success | Failure

  /** How a status is written in text (`${step.result}`). */
  function StatusName(s: StepStatus): string {
    match s
    case Pending => "pending"
    case Success => "success"
    case Failure => "failure"
  }

  /** One recorded action. The id stands for the uuid the engine draws. `actionResult` is
      written by completeStep and read by the summarizer although the declared step type
      omits it; Undefined means it was never set. `metadata` is the caller's record
      (Undefined when none was given). */
  datatype Step = Step(
    id: nat,
    action: string,
    description: string,
    result: StepStatus,
    error: Option<string>,
    actionResult: JsValue,
    summary: Option<string>,
    metadata: JsValue,
    timestamp: int)

  /** One run: its steps in insertion order, the aggregate result, and the fields that are
      only set when the run is completed (summary, completedTimestamp). */
  datatype Run = Run(
    id: nat,
    name: string,
    description: Option<string>,
    steps: seq<Step>,
    result: StepStatus,
    summary: Option<string>,
    timestamp: int,
    completedTimestamp: Option<int>)

  /** The constructor's options; None is an omitted option. */
  datatype EngineOptions = EngineOptions(maxSteps: Option<int>, useAiSummaries: Option<bool>)

  /** The documented default of `maxSteps`. */
  const DefaultMaxSteps: int := 10
}
