/** The action-recording adapter between an agent and the context engine. */
module Integration {
  import opened Js
  import opened ContextTypes
  import Summarizer
  import Engine

  /** How the wrapped asynchronous function ends. */
  datatype Outcome = Resolves(value: JsValue) | Rejects(error: Thrown)

  /** How the promise returned by wrapWithActionRecording ends. Recording happens inside the
      promise executor, so when addStep throws the promise never settles. */
  datatype Settlement = NeverSettles | Resolved(value: JsValue) | Rejected(error: Thrown)

  /** The status a completed action is recorded with. */
  function StatusOf(success: bool): (r: StepStatus)
    ensures r != Pending
    ensures r == Success <==> success
  {
    if success then Success else Failure
  }

  /** What a settled wrapper records: success with the value, or failure with the error's
      message and no action result. */
  function RecordedCompletion(o: Outcome): (StepStatus, Option<string>, JsValue) {
    match o
    case Resolves(v) => (Success, None, v)
    case Rejects(e) => (Failure, Some(ErrorMessage(e)), Undefined)
  }

  /** How the wrapper's promise settles, given whether a run is active. */
  function Settle(active: bool, o: Outcome): (r: Settlement)
    ensures r.NeverSettles? <==> !active
    ensures active && o.Resolves? ==> r == Resolved(o.value)
    ensures active && o.Rejects? ==> r == Rejected(o.error)
  {
    if !active then NeverSettles
    else match o
      case Resolves(v) => Resolved(v)
      case Rejects(e) => Rejected(e)
  }

  /** When the run retains at least one step and the new id is fresh, the wrapped action is
      found after recording and completed with the function's outcome: success exactly when
      the function resolved, with the rejection's message otherwise. */
  lemma WrappedStepRecordsOutcome(run: Run, id: nat, action: string, description: string, metadata: JsValue,
                                  now: int, maxSteps: int, fn: Outcome, useAi: bool, ai: Summarizer.Oracle)
    requires Engine.Capacity(maxSteps) > 0 && |run.steps| <= Engine.Capacity(maxSteps)
    requires forall j :: 0 <= j < |run.steps| ==> run.steps[j].id < id
    ensures var rec := RecordedCompletion(fn);
      var pushed := run.(steps := Engine.Push(run.steps, Engine.NewStep(id, action, description, metadata, now), maxSteps));
      var after := Engine.AfterComplete(Some(pushed), id, rec.0, rec.1, rec.2, useAi, ai);
      after.Some? && |after.value.steps| > 0 &&
      var last := after.value.steps[|after.value.steps| - 1];
      last.id == id && (last.result == Success <==> fn.Resolves?) &&
      (fn.Rejects? && ErrorMessage(fn.error) != "" ==> last.error == Some(ErrorMessage(fn.error)))
  {
    var s := Engine.NewStep(id, action, description, metadata, now);
    Engine.FindPushed(run.steps, s, maxSteps);
  }

  class ActionContextIntegrator {
    const engine: Engine.ContextEngine

    constructor (engine: Engine.ContextEngine)
      ensures this.engine == engine
    {
      this.engine := engine;
    }

    /** recordAction: adds a pending step and yields its id; throws as addStep does. */
    method RecordAction(action: string, description: string, metadata: JsValue, now: int)
      returns (r: Result<nat, Thrown>)
      requires engine.Valid()
      modifies engine
      ensures engine.Valid()
      ensures old(engine.current).None? ==>
                r == Err(NewError(Engine.NoActiveRunMessage)) && engine.current == old(engine.current)
      ensures old(engine.current).Some? ==>
                r == Ok(old(engine.nextId)) &&
                engine.current == Some(old(engine.current).value.(steps := Engine.Push(
                  old(engine.current).value.steps,
                  Engine.NewStep(old(engine.nextId), action, description, metadata, now),
                  engine.maxSteps)))
      ensures engine.history == old(engine.history)
    {
      var step := engine.AddStep(action, description, metadata, now);
      match step
      case Err(e) => r := Err(e);
      case Ok(s) => r := Ok(s.id);
    }

    /** completeAction: the boolean becomes success or failure. */
    method CompleteAction(stepId: nat, success: bool, error: Option<string>, actionResult: JsValue,
                          ai: Summarizer.Oracle)
      requires engine.Valid()
      modifies engine
      ensures engine.Valid()
      ensures engine.current == Engine.AfterComplete(old(engine.current), stepId, StatusOf(success), error,
                                                     actionResult, engine.useAiSummaries, ai)
      ensures engine.history == old(engine.history) && engine.nextId == old(engine.nextId)
    {
      var _ := engine.CompleteStep(stepId, StatusOf(success), error, actionResult, ai);
    }

    /** getActionSummaries */
    function GetActionSummaries(): (r: string)
      reads this, engine
      ensures r == Engine.Digest(engine.CompletedSteps())
      ensures r == "" <==> forall j :: 0 <= j < |engine.Steps()| ==> engine.Steps()[j].result == Pending
    {
      engine.ActionSummariesEmptyIff();
      engine.ActionSummaries()
    }

    /** wrapWithActionRecording: records the action, runs the function (modelled by its
        outcome) only when recording succeeded, completes the step with the outcome, and
        settles as the function did. */
    method WrapWithActionRecording(action: string, description: string, fn: Outcome, metadata: JsValue,
                                   now: int, ai: Summarizer.Oracle)
      returns (p: Settlement, invoked: bool)
      requires engine.Valid()
      modifies engine
      ensures engine.Valid()
      ensures invoked <==> old(engine.current).Some?
      ensures p == Settle(invoked, fn)
      ensures !invoked ==> engine.current == old(engine.current)
      ensures invoked ==>
                var rec := RecordedCompletion(fn);
                var pushed := old(engine.current).value.(steps := Engine.Push(
                  old(engine.current).value.steps,
                  Engine.NewStep(old(engine.nextId), action, description, metadata, now),
                  engine.maxSteps));
                engine.current == Engine.AfterComplete(Some(pushed), old(engine.nextId), rec.0, rec.1, rec.2,
                                                       engine.useAiSummaries, ai)
      ensures engine.history == old(engine.history)
    {
      var rec := RecordAction(action, description, metadata, now);
      if rec.Err? {
        return NeverSettles, false;
      }
      invoked := true;
      var stepId := rec.value;
      match fn
      case Resolves(v) =>
        CompleteAction(stepId, true, None, v, ai);
        p := Resolved(v);
      case Rejects(e) =>
        CompleteAction(stepId, false, Some(ErrorMessage(e)), Undefined, ai);
        p := Rejected(e);
    }
  }
}
