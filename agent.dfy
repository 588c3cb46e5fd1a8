/** The page agent's result envelope and its context-aware actions. The task executor is not
    modelled: an executor is the list of tasks it ran together with its error state, and its
    calls are oracles. */
module Agent {
  import opened Js
  import opened ContextTypes
  import Summarizer
  import Engine
  import Integration
  import Env

  // ---------------------------------------------------------------------------------------
  // Executor tasks and the metadata record

  datatype Timing = Timing(start: JsValue, end: JsValue, cost: JsValue)

  /** One executor task, as far as the agent reads it. `plans` is `param?.plans`. */
  datatype ExecTask = ExecTask(
    kind: string,
    subType: JsValue,
    status: string,
    thought: Option<string>,
    locate: JsValue,
    plans: JsValue,
    timing: Option<Timing>,
    usage: JsValue,
    cache: JsValue,
    error: JsValue,
    output: JsValue,
    recorder: JsValue)

  /** The executor after a call: its tasks, whether it is in error state and its latest error
      task (both of which the executor computes). */
  datatype Executor = Executor(tasks: seq<ExecTask>, inErrorState: bool, latestErrorTask: Option<ExecTask>)

  /** The planning and insight sections: a fixed type and description and one entry per task. */
  datatype Section = Section(kind: string, description: string, entries: seq<string>)

  datatype ActionInfo = ActionInfo(kind: string, description: string, result: JsValue)

  datatype Detail = Detail(kind: string, subType: JsValue, status: string, thought: Option<string>)

  datatype RawTask = RawTask(kind: string, subType: JsValue, status: string, thought: Option<string>,
                             locate: JsValue, timing: Option<Timing>, usage: JsValue, cache: JsValue,
                             error: JsValue)

  /** A collected field: the list of the tasks' truthy values, or the last task's own value
      when no task has one. */
  datatype Collected = All(items: seq<JsValue>) | Single(value: JsValue)

  datatype Metadata = Metadata(
    status: Option<string>,
    start: JsValue,
    end: JsValue,
    totalTime: JsValue,
    cache: JsValue,
    usage: JsValue,
    thought: Option<string>,
    locate: Collected,
    plan: Collected,
    planning: Option<Section>,
    insight: Option<Section>,
    action: Option<ActionInfo>,
    actionDetails: seq<Detail>,
    tasks: seq<RawTask>)

  datatype TaskResult<T> = TaskResult(result: T, metadata: Metadata)

  function LastTask(ts: seq<ExecTask>): Option<ExecTask> {
    if |ts| == 0 then None else Some(ts[|ts| - 1])
  }

  /** The truthy thoughts, in task order. */
  function Thoughts(ts: seq<ExecTask>): (r: seq<string>)
    ensures |r| <= |ts|
    ensures forall i :: 0 <= i < |r| ==> r[i] != ""
    ensures r == [] <==> forall j :: 0 <= j < |ts| ==> !Present(ts[j].thought)
    ensures forall j :: 0 <= j < |ts| && Present(ts[j].thought) ==> ts[j].thought.value in r
  {
    if |ts| == 0 then []
    else
      var rest := Thoughts(ts[1..]);
      assert forall j :: 1 <= j < |ts| ==> ts[j] == ts[1..][j - 1];
      if Present(ts[0].thought) then [ts[0].thought.value] + rest else rest
  }

  /** The truthy `locate` values, in task order. */
  function Locates(ts: seq<ExecTask>): (r: seq<JsValue>)
    ensures |r| <= |ts|
    ensures forall i :: 0 <= i < |r| ==> Truthy(r[i])
    ensures r == [] <==> forall j :: 0 <= j < |ts| ==> !Truthy(ts[j].locate)
  {
    if |ts| == 0 then []
    else
      var rest := Locates(ts[1..]);
      assert forall j :: 1 <= j < |ts| ==> ts[j] == ts[1..][j - 1];
      if Truthy(ts[0].locate) then [ts[0].locate] + rest else rest
  }

  /** The truthy `param.plans` values, in task order. */
  function Plans(ts: seq<ExecTask>): (r: seq<JsValue>)
    ensures |r| <= |ts|
    ensures forall i :: 0 <= i < |r| ==> Truthy(r[i])
    ensures r == [] <==> forall j :: 0 <= j < |ts| ==> !Truthy(ts[j].plans)
  {
    if |ts| == 0 then []
    else
      var rest := Plans(ts[1..]);
      assert forall j :: 1 <= j < |ts| ==> ts[j] == ts[1..][j - 1];
      if Truthy(ts[0].plans) then [ts[0].plans] + rest else rest
  }

  /** The tasks of one type, in order. */
  function OfKind(ts: seq<ExecTask>, kind: string): (r: seq<ExecTask>)
    ensures |r| <= |ts|
    ensures forall t :: t in r <==> t in ts && t.kind == kind
  {
    if |ts| == 0 then []
    else
      var rest := OfKind(ts[1..], kind);
      assert forall t :: t in ts <==> t == ts[0] || t in ts[1..];
      if ts[0].kind == kind then [ts[0]] + rest else rest
  }

  /** One more task adds its thought at the end when it is truthy: the thoughts are the tasks'
      own, in task order, once per task. */
  lemma {:induction false} ThoughtsSnoc(ts: seq<ExecTask>, t: ExecTask)
    ensures Thoughts(ts + [t]) == Thoughts(ts) + (if Present(t.thought) then [t.thought.value] else [])
    decreases |ts|
  {
    if |ts| == 0 {
      assert ts + [t] == [t];
      assert [t][1..] == [];
    } else {
      assert (ts + [t])[0] == ts[0];
      assert (ts + [t])[1..] == ts[1..] + [t];
      ThoughtsSnoc(ts[1..], t);
    }
  }

  /** One more task adds its locate at the end when it is truthy. */
  lemma {:induction false} LocatesSnoc(ts: seq<ExecTask>, t: ExecTask)
    ensures Locates(ts + [t]) == Locates(ts) + (if Truthy(t.locate) then [t.locate] else [])
    decreases |ts|
  {
    if |ts| == 0 {
      assert ts + [t] == [t];
      assert [t][1..] == [];
    } else {
      assert (ts + [t])[0] == ts[0];
      assert (ts + [t])[1..] == ts[1..] + [t];
      LocatesSnoc(ts[1..], t);
    }
  }

  /** One more task adds its plans at the end when they are truthy. */
  lemma {:induction false} PlansSnoc(ts: seq<ExecTask>, t: ExecTask)
    ensures Plans(ts + [t]) == Plans(ts) + (if Truthy(t.plans) then [t.plans] else [])
    decreases |ts|
  {
    if |ts| == 0 {
      assert ts + [t] == [t];
      assert [t][1..] == [];
    } else {
      assert (ts + [t])[0] == ts[0];
      assert (ts + [t])[1..] == ts[1..] + [t];
      PlansSnoc(ts[1..], t);
    }
  }

  /** One more task is added at the end of its type's list, and only there. */
  lemma {:induction false} OfKindSnoc(ts: seq<ExecTask>, t: ExecTask, kind: string)
    ensures OfKind(ts + [t], kind) == OfKind(ts, kind) + (if t.kind == kind then [t] else [])
    decreases |ts|
  {
    if |ts| == 0 {
      assert ts + [t] == [t];
      assert [t][1..] == [];
    } else {
      assert (ts + [t])[0] == ts[0];
      assert (ts + [t])[1..] == ts[1..] + [t];
      OfKindSnoc(ts[1..], t, kind);
    }
  }

  /** A section entry: the task's thought, or the default when it has none. */
  function EntryOf(t: ExecTask, default: string): string {
    if Present(t.thought) then t.thought.value else default
  }

  function Entries(ts: seq<ExecTask>, default: string): (r: seq<string>)
    ensures |r| == |ts|
    ensures forall i :: 0 <= i < |ts| ==> r[i] == EntryOf(ts[i], default)
  {
    seq(|ts|, i requires 0 <= i < |ts| => EntryOf(ts[i], default))
  }

  function SectionOf(ts: seq<ExecTask>, kind: string, description: string, default: string): Option<Section> {
    var tasks := OfKind(ts, kind);
    if |tasks| > 0 then Some(Section(kind, description, Entries(tasks, default))) else None
  }

  function DetailOf(t: ExecTask): Detail {
    Detail(t.kind, t.subType, t.status, t.thought)
  }

  function RawOf(t: ExecTask): RawTask {
    RawTask(t.kind, t.subType, t.status, t.thought, t.locate, t.timing, t.usage, t.cache, t.error)
  }

  /** `lastTask?.timing`, or None when either is missing. */
  function LastTiming(last: Option<ExecTask>): Option<Timing> {
    if last.Some? then last.value.timing else None
  }

  /** The metadata record derived from the executor's tasks. */
  function BuildMetadata(ts: seq<ExecTask>): (m: Metadata)
    ensures m.status.Some? <==> |ts| > 0
    ensures |m.actionDetails| == |ts| && |m.tasks| == |ts|
  {
    var last := LastTask(ts);
    var thoughts := Thoughts(ts);
    var locates := Locates(ts);
    var plans := Plans(ts);
    var timing := LastTiming(last);
    Metadata(
      if last.Some? then Some(last.value.status) else None,
      if timing.Some? then timing.value.start else Undefined,
      if timing.Some? then timing.value.end else Undefined,
      if timing.Some? then timing.value.cost else Undefined,
      if last.Some? then last.value.cache else Undefined,
      if last.Some? then last.value.usage else Undefined,
      if |thoughts| > 0 then Some(Join(thoughts, "\n")) else if last.Some? then last.value.thought else None,
      if |locates| > 0 then All(locates) else Single(if last.Some? then last.value.locate else Undefined),
      if |plans| > 0 then All(plans) else Single(if last.Some? then last.value.plans else Undefined),
      SectionOf(ts, "Planning", "Planning for task execution", "Planning step"),
      SectionOf(ts, "Insight", "Insight for task execution", "Insight element"),
      if |OfKind(ts, "Action")| > 0
      then Some(ActionInfo("Action", "Action for task execution", if last.Some? then last.value.output else Undefined))
      else None,
      seq(|ts|, i requires 0 <= i < |ts| => DetailOf(ts[i])),
      seq(|ts|, i requires 0 <= i < |ts| => RawOf(ts[i])))
  }

  /** The text of the error afterTaskRunning throws: the latest error task's error, as
      interpolated (`undefined` when there is no such task). */
  function ErrorText(e: Executor): string {
    if e.latestErrorTask.Some? then ToStr(e.latestErrorTask.value.error) else "undefined"
  }

  /** afterTaskRunning, apart from recording the dump: throws iff the executor is in error
      state and throwing is not suppressed; otherwise yields the metadata record. */
  function TaskMetadata(e: Executor, doNotThrowError: bool): (r: Result<Metadata, Thrown>)
    ensures r.Err? <==> e.inErrorState && !doNotThrowError
    ensures r.Err? ==> r.error == NewError(ErrorText(e))
    ensures r.Ok? ==> r.value == BuildMetadata(e.tasks)
  {
    if e.inErrorState && !doNotThrowError then Err(NewError(ErrorText(e)))
    else Ok(BuildMetadata(e.tasks))
  }

  /** The thought is the newline join of every truthy thought, or the last task's thought
      when no task has one. */
  lemma MetadataThought(ts: seq<ExecTask>)
    ensures var m := BuildMetadata(ts);
      (exists j :: 0 <= j < |ts| && Present(ts[j].thought)) ==> m.thought == Some(Join(Thoughts(ts), "\n"))
    ensures var m := BuildMetadata(ts);
      (forall j :: 0 <= j < |ts| ==> !Present(ts[j].thought)) ==>
        m.thought == (if |ts| > 0 then ts[|ts| - 1].thought else None)
  {
  }

  /** The planning, insight and action sections exist exactly when a task of that type does;
      the sections have one entry per such task, defaulted when its thought is missing; the
      action's result is the last task's output. */
  lemma MetadataSections(ts: seq<ExecTask>)
    ensures var m := BuildMetadata(ts);
      (m.planning.Some? <==> exists j :: 0 <= j < |ts| && ts[j].kind == "Planning") &&
      (m.insight.Some? <==> exists j :: 0 <= j < |ts| && ts[j].kind == "Insight") &&
      (m.action.Some? <==> exists j :: 0 <= j < |ts| && ts[j].kind == "Action")
    ensures var m := BuildMetadata(ts);
      m.planning.Some? ==> m.planning.value.entries == Entries(OfKind(ts, "Planning"), "Planning step")
    ensures var m := BuildMetadata(ts);
      m.insight.Some? ==> m.insight.value.entries == Entries(OfKind(ts, "Insight"), "Insight element")
    ensures var m := BuildMetadata(ts);
      m.action.Some? ==> |ts| > 0 && m.action.value.result == ts[|ts| - 1].output
  {
    OfKindNonEmptyIff(ts, "Planning");
    OfKindNonEmptyIff(ts, "Insight");
    OfKindNonEmptyIff(ts, "Action");
  }

  lemma OfKindNonEmptyIff(ts: seq<ExecTask>, kind: string)
    ensures |OfKind(ts, kind)| > 0 <==> exists j :: 0 <= j < |ts| && ts[j].kind == kind
  {
    var k := OfKind(ts, kind);
    if |k| > 0 {
      assert k[0] in k;
      var j :| 0 <= j < |ts| && ts[j] == k[0];
    }
  }

  /** The fields taken from the last task: its status, cache, usage and timing, or nothing
      at all when there is no task. */
  lemma MetadataFromLast(ts: seq<ExecTask>)
    ensures var m := BuildMetadata(ts);
      |ts| == 0 ==> m.status.None? && m.cache == Undefined && m.usage == Undefined &&
                    m.start == Undefined && m.end == Undefined && m.totalTime == Undefined
    ensures var m := BuildMetadata(ts);
      |ts| > 0 ==>
        var last := ts[|ts| - 1];
        m.status == Some(last.status) && m.cache == last.cache && m.usage == last.usage &&
        (last.timing.Some? ==> m.start == last.timing.value.start && m.end == last.timing.value.end &&
                               m.totalTime == last.timing.value.cost) &&
        (last.timing.None? ==> m.start == Undefined && m.end == Undefined && m.totalTime == Undefined)
  {
  }

  /** The one-to-one mirrors of the task list: every detail and every raw task carries the
      fields of the task at the same position. */
  lemma MetadataMirrors(ts: seq<ExecTask>)
    ensures var m := BuildMetadata(ts);
      |m.actionDetails| == |ts| && |m.tasks| == |ts| &&
      (forall i :: 0 <= i < |ts| ==>
        var d := m.actionDetails[i];
        d.kind == ts[i].kind && d.subType == ts[i].subType && d.status == ts[i].status &&
        d.thought == ts[i].thought) &&
      (forall i :: 0 <= i < |ts| ==>
        var k := m.tasks[i];
        k.kind == ts[i].kind && k.subType == ts[i].subType && k.status == ts[i].status &&
        k.thought == ts[i].thought && k.locate == ts[i].locate && k.timing == ts[i].timing &&
        k.usage == ts[i].usage && k.cache == ts[i].cache && k.error == ts[i].error)
  {
  }

  // ---------------------------------------------------------------------------------------
  // Locate parameters, dispatch and assertions

  /** A locate option object: None is a key that is not present (a present key may still
      hold undefined). */
  datatype LocateOption = LocateOption(prompt: Option<JsValue>, deepThink: Option<JsValue>)

  /** `{prompt, ...opt}` */
  datatype DetailedLocateParam = DetailedLocateParam(prompt: JsValue, deepThink: Option<JsValue>)

  const MissingLocatePrompt: string := "missing locate prompt"

  /** buildDetailedLocateParam. `opt` is None when it is not an object (or is null, which
      spreads to nothing). */
  function BuildDetailedLocateParam(locatePrompt: string, opt: Option<LocateOption>): (r: Result<DetailedLocateParam, Thrown>)
    ensures r.Err? <==> locatePrompt == ""
    ensures r.Err? ==> r.error == NewError(MissingLocatePrompt)
    ensures r.Ok? && (opt.None? || opt.value.prompt.None?) ==> r.value.prompt == Str(locatePrompt)
    ensures r.Ok? && opt.Some? && opt.value.prompt.Some? ==> r.value.prompt == opt.value.prompt.value
    ensures r.Ok? ==> r.value.deepThink == (if opt.Some? then opt.value.deepThink else None)
  {
    if locatePrompt == "" then Err(NewError(MissingLocatePrompt))
    else match opt
      case None => Ok(DetailedLocateParam(Str(locatePrompt), None))
      case Some(o) =>
        Ok(DetailedLocateParam(if o.prompt.Some? then o.prompt.value else Str(locatePrompt), o.deepThink))
  }

  /** Where `ai()` routes a prompt. */
  datatype Route = ToAction | ToQuery | ToAssert | ToTap

  function UnknownTypeMessage(kind: string): string {
    "Unknown type: " + kind + ", only support 'action', 'query', 'assert', 'tap'"
  }

  /** `ai(prompt, type = 'action')`: the route for the type (None is an omitted type). */
  function Dispatch(kind: Option<string>): (r: Result<Route, Thrown>)
    ensures kind.None? ==> r == Ok(ToAction)
    ensures r.Err? <==> kind.Some? && kind.value !in {"action", "query", "assert", "tap"}
    ensures r.Err? ==> r.error == NewError(UnknownTypeMessage(kind.value))
  {
    var k := if kind.Some? then kind.value else "action";
    if k == "action" then Ok(ToAction)
    else if k == "query" then Ok(ToQuery)
    else if k == "assert" then Ok(ToAssert)
    else if k == "tap" then Ok(ToTap)
    else Err(NewError(UnknownTypeMessage(k)))
  }

  /** Each supported type reaches its own route: the dispatch is injective on them. */
  lemma DispatchRoutes()
    ensures Dispatch(Some("action")) == Ok(ToAction) && Dispatch(Some("query")) == Ok(ToQuery)
    ensures Dispatch(Some("assert")) == Ok(ToAssert) && Dispatch(Some("tap")) == Ok(ToTap)
  {
  }

  /** The executor's assertion output (None when it is null or undefined). */
  datatype AssertOutput = AssertOutput(pass: JsValue, thought: Option<string>)

  /** The reason line of a failed assertion: the output's thought, else the latest error
      task's error, else `(no_reason)`. */
  function AssertReason(output: Option<AssertOutput>, e: Executor): string {
    "Reason: " +
    (if output.Some? && Present(output.value.thought) then output.value.thought.value
     else if e.latestErrorTask.Some? && Truthy(e.latestErrorTask.value.error) then ToStr(e.latestErrorTask.value.error)
     else "(no_reason)")
  }

  function AssertMessage(assertion: string, msg: Option<string>, output: Option<AssertOutput>, e: Executor): string {
    (if Present(msg) then msg.value else "Assertion failed: " + assertion) + "\n" + AssertReason(output, e)
  }

  /** aiAssert after the executor call, apart from recording the dump. */
  function AssertVerdict(assertion: string, msg: Option<string>, keepRawResponse: bool,
                         output: Option<AssertOutput>, e: Executor): (r: Result<TaskResult<Option<AssertOutput>>, Thrown>)
    ensures r.Err? <==> !(output.Some? && keepRawResponse) && !(output.Some? && Truthy(output.value.pass))
    ensures r.Err? ==> r.error == NewError(AssertMessage(assertion, msg, output, e))
    ensures r.Ok? ==> r.value == TaskResult(output, BuildMetadata(e.tasks))
  {
    var metadata := TaskMetadata(e, true);
    assert metadata.Ok?;
    if output.Some? && keepRawResponse then Ok(TaskResult(output, metadata.value))
    else if !(output.Some? && Truthy(output.value.pass)) then Err(NewError(AssertMessage(assertion, msg, output, e)))
    else Ok(TaskResult(output, metadata.value))
  }

  /** The executor's error state never makes a passing assertion throw. */
  lemma AssertIgnoresErrorState(assertion: string, msg: Option<string>, keepRawResponse: bool,
                                output: AssertOutput, e: Executor)
    requires Truthy(output.pass)
    ensures AssertVerdict(assertion, msg, keepRawResponse, Some(output), e).Ok?
    ensures AssertVerdict(assertion, msg, keepRawResponse, Some(output), e.(inErrorState := true)).Ok?
  {
  }

  // ---------------------------------------------------------------------------------------
  // aiAction

  /** The executor call aiAction makes: the goal-driven call (without the context) in the
      UI-TARS mode, the planning call with the context otherwise. */
  datatype ExecCall = ActionToGoal(prompt: string) | Action(prompt: string, context: Option<string>)

  /** What an executor call yields, or what it throws. */
  type ExecOracle = ExecCall -> Result<(JsValue, Executor), Thrown>

  /** The action context: the digest is appended only when both it and the context are
      non-empty. */
  function ActionContext(base: Option<string>, digest: string): (r: Option<string>)
    ensures digest == "" || !Present(base) ==> r == base
    ensures digest != "" && Present(base) ==> r == Some(base.value + "\n\n" + digest)
  {
    if digest != "" && Present(base) then Some(base.value + "\n\n" + digest) else base
  }

  function ChooseCall(prompt: string, mode: Env.VlMode, context: Option<string>): (c: ExecCall)
    ensures c.prompt == prompt
    ensures c.ActionToGoal? <==> mode == Env.VlmUiTars
    ensures c.Action? ==> c.context == context
  {
    if mode == Env.VlmUiTars then ActionToGoal(prompt) else Action(prompt, context)
  }

  /** The try block of aiAction: the mode lookup, the executor call, and afterTaskRunning. */
  function ActionAttempt(prompt: string, mode: Result<Env.VlMode, Thrown>, context: Option<string>,
                         exec: ExecOracle): Result<TaskResult<JsValue>, Thrown>
  {
    match mode
    case Err(e) => Err(e)
    case Ok(m) =>
      match exec(ChooseCall(prompt, m, context))
      case Err(e) => Err(e)
      case Ok(reply) =>
        match TaskMetadata(reply.1, false)
        case Err(e) => Err(e)
        case Ok(md) => Ok(TaskResult(reply.0, md))
  }

  /** Whether the executor call returned (so that the step was first marked successful). */
  predicate ExecReturned(prompt: string, mode: Result<Env.VlMode, Thrown>, context: Option<string>, exec: ExecOracle) {
    mode.Ok? && exec(ChooseCall(prompt, mode.value, context)).Ok?
  }

  /** The execution dumps aiAction records: one, for the executor's tasks, exactly when the
      executor call returned. */
  function ActionDumps(pageType: string, prompt: string, mode: Result<Env.VlMode, Thrown>, context: Option<string>,
                       exec: ExecOracle): (r: seq<ExecutionDump>)
    ensures |r| <= 1
    ensures |r| == 1 <==> ExecReturned(prompt, mode, context, exec)
    ensures |r| == 1 ==> r[0] == StoredDump(pageType, ExecutionDump(exec(ChooseCall(prompt, mode.value, context)).value.1.tasks))
  {
    if ExecReturned(prompt, mode, context, exec)
    then [StoredDump(pageType, ExecutionDump(exec(ChooseCall(prompt, mode.value, context)).value.1.tasks))]
    else []
  }

  /** The recorded step after aiAction's completions: success when the executor returned,
      then failure with the thrown message when the attempt failed. */
  function ActionCompletions(run: Option<Run>, id: nat, returned: bool, attempt: Result<TaskResult<JsValue>, Thrown>,
                             useAi: bool, ai: Summarizer.Oracle): Option<Run>
  {
    var afterOk := if returned then Engine.AfterComplete(run, id, Success, None, Undefined, useAi, ai) else run;
    if attempt.Err? then Engine.AfterComplete(afterOk, id, Failure, Some(ErrorMessage(attempt.error)), Undefined, useAi, ai)
    else afterOk
  }

  /** The step aiAction records ends successful exactly when aiAction returns; a failure
      after the step was marked successful re-marks it failed. */
  lemma {:induction false} ActionStepMatchesOutcome(run: Run, id: nat, returned: bool,
                                                    attempt: Result<TaskResult<JsValue>, Thrown>,
                                                    useAi: bool, ai: Summarizer.Oracle)
    requires Engine.FindStep(run.steps, id).Some?
    requires attempt.Ok? ==> returned
    ensures var after := ActionCompletions(Some(run), id, returned, attempt, useAi, ai);
      var i := Engine.FindStep(run.steps, id).value;
      after.Some? && |after.value.steps| == |run.steps| &&
      (after.value.steps[i].result == Success <==> attempt.Ok?) &&
      (attempt.Err? ==> after.value.steps[i].result == Failure) &&
      (forall j :: 0 <= j < |run.steps| && j != i ==> after.value.steps[j] == run.steps[j])
  {
    var i := Engine.FindStep(run.steps, id).value;
    var afterOk := if returned then Engine.AfterComplete(Some(run), id, Success, None, Undefined, useAi, ai) else Some(run);
    if returned {
      Engine.AfterCompleteFrame(run, id, Success, None, Undefined, useAi, ai);
    }
    assert afterOk.Some? && Engine.FindStep(afterOk.value.steps, id) == Some(i);
    assert forall j :: 0 <= j < |run.steps| && j != i ==> afterOk.value.steps[j] == run.steps[j];
    if attempt.Err? {
      Engine.AfterCompleteFrame(afterOk.value, id, Failure, Some(ErrorMessage(attempt.error)), Undefined, useAi, ai);
    }
  }

  /** One execution dump, as far as the model keeps it: the tasks. */
  datatype ExecutionDump = ExecutionDump(tasks: seq<ExecTask>)

  /** The dump appendExecutionDump stores: on Puppeteer pages each task's recorder is dropped. */
  function StoredDump(pageType: string, d: ExecutionDump): (r: ExecutionDump)
    ensures |r.tasks| == |d.tasks|
    ensures pageType != "puppeteer" ==> r == d
    ensures pageType == "puppeteer" ==> forall i :: 0 <= i < |d.tasks| ==> r.tasks[i] == d.tasks[i].(recorder := Undefined)
  {
    if pageType == "puppeteer"
    then ExecutionDump(seq(|d.tasks|, i requires 0 <= i < |d.tasks| => d.tasks[i].(recorder := Undefined)))
    else d
  }

  /** The agent's constructor options that the model reads (None is an omitted option). */
  datatype AgentOptions = AgentOptions(
    groupName: Option<string>,
    groupDescription: Option<string>,
    useContextEngine: Option<bool>,
    contextEngineMaxSteps: Option<int>,
    aiActionContext: Option<string>)

  const DefaultGroupName: string := "Rafi Report"
  const DefaultContextEngineMaxSteps: int := 10

  /** The name of the run the agent starts: the group name, defaulted, or `Test Run` when
      it is empty. */
  function RunName(o: AgentOptions): (r: string)
    ensures o.groupName.None? ==> r == DefaultGroupName
    ensures o.groupName == Some("") ==> r == "Test Run"
    ensures Present(o.groupName) ==> r == o.groupName.value
  {
    var g := if o.groupName.Some? then o.groupName.value else DefaultGroupName;
    if g != "" then g else "Test Run"
  }

  class PageAgent {
    const pageType: string
    const useContextEngine: bool
    var aiActionContext: Option<string>
    const engine: Engine.ContextEngine?
    const integrator: Integration.ActionContextIntegrator?
    /** `dump.executions` */
    var executions: seq<ExecutionDump>

    ghost predicate Valid()
      reads this, engine, integrator
    {
      (useContextEngine <==> engine != null) && (engine != null <==> integrator != null) &&
      (engine != null ==> integrator.engine == engine && engine.Valid())
    }

    /** The constructor: with the context engine on, an engine capped at the configured
        number of steps (AI summaries on) is created and a run is started at once. */
    constructor (pageType: string, opts: AgentOptions, now: int)
      ensures Valid()
      ensures engine != null ==> fresh(engine) && fresh(integrator)
      ensures this.pageType == pageType && executions == []
      ensures useContextEngine <==> opts.useContextEngine == Some(true)
      ensures aiActionContext == opts.aiActionContext
      ensures engine != null ==>
                engine.maxSteps == Engine.ResolveMaxSteps(Some(if opts.contextEngineMaxSteps.Some? then opts.contextEngineMaxSteps.value else DefaultContextEngineMaxSteps)) &&
                engine.useAiSummaries &&
                engine.current.Some? && engine.current.value.name == RunName(opts) &&
                engine.current.value.description == Some(if opts.groupDescription.Some? then opts.groupDescription.value else "") &&
                engine.current.value.steps == [] && engine.history == []
    {
      this.pageType := pageType;
      aiActionContext := opts.aiActionContext;
      executions := [];
      useContextEngine := opts.useContextEngine == Some(true);
      if opts.useContextEngine == Some(true) {
        var maxSteps := if opts.contextEngineMaxSteps.Some? then opts.contextEngineMaxSteps.value else DefaultContextEngineMaxSteps;
        var e := new Engine.ContextEngine(EngineOptions(Some(maxSteps), Some(true)));
        var description := if opts.groupDescription.Some? then opts.groupDescription.value else "";
        var _ := e.StartTestRun(RunName(opts), Some(description), now, _ => None);
        engine := e;
        integrator := new Integration.ActionContextIntegrator(e);
      } else {
        engine := null;
        integrator := null;
      }
    }

    /** setAIActionContext */
    method SetAIActionContext(prompt: string)
      modifies this
      ensures aiActionContext == Some(prompt) && executions == old(executions)
    {
      aiActionContext := Some(prompt);
    }

    /** appendExecutionDump */
    method AppendExecutionDump(d: ExecutionDump)
      modifies this
      ensures executions == old(executions) + [StoredDump(pageType, d)]
      ensures aiActionContext == old(aiActionContext)
    {
      if pageType == "puppeteer" {
        var stripped := seq(|d.tasks|, i requires 0 <= i < |d.tasks| => d.tasks[i].(recorder := Undefined));
        executions := executions + [ExecutionDump(stripped)];
      } else {
        executions := executions + [d];
      }
    }

    /** afterTaskRunning: the executor's dump is recorded first, then the metadata is derived
        or the latest error is thrown. */
    method AfterTaskRunning(e: Executor, doNotThrowError: bool) returns (r: Result<Metadata, Thrown>)
      modifies this
      ensures executions == old(executions) + [StoredDump(pageType, ExecutionDump(e.tasks))]
      ensures aiActionContext == old(aiActionContext)
      ensures r == TaskMetadata(e, doNotThrowError)
    {
      AppendExecutionDump(ExecutionDump(e.tasks));
      r := TaskMetadata(e, doNotThrowError);
    }

    /** aiAssert: the executor is asked with the page's URL as system prompt; the verdict
        never throws from the executor's error state. */
    method AiAssert(assertion: string, msg: Option<string>, keepRawResponse: bool, url: string,
                    assertCall: (string, string) -> Result<(Option<AssertOutput>, Executor), Thrown>)
      returns (r: Result<TaskResult<Option<AssertOutput>>, Thrown>)
      modifies this
      ensures var reply := assertCall(assertion, "Current URL: " + url);
        (reply.Err? ==> r == Err(reply.error) && executions == old(executions)) &&
        (reply.Ok? ==> r == AssertVerdict(assertion, msg, keepRawResponse, reply.value.0, reply.value.1) &&
                       executions == old(executions) + [StoredDump(pageType, ExecutionDump(reply.value.1.tasks))])
    {
      var reply := assertCall(assertion, "Current URL: " + url);
      if reply.Err? {
        return Err(reply.error);
      }
      var output := reply.value.0;
      var e := reply.value.1;
      var _ := AfterTaskRunning(e, true);
      r := AssertVerdict(assertion, msg, keepRawResponse, output, e);
    }

    /** aiAction. With the context engine on, the action is recorded (a failure to record
        throws before anything runs), the digest of earlier completed steps is appended to
        the context, and the recorded step is completed with the outcome; the outcome itself
        is that of the mode lookup, the executor call and afterTaskRunning, rethrown
        unchanged. */
    method AiAction(taskPrompt: string, mode: Result<Env.VlMode, Thrown>, exec: ExecOracle, now: int,
                    ai: Summarizer.Oracle)
      returns (r: Result<TaskResult<JsValue>, Thrown>)
      requires Valid()
      modifies this, engine
      ensures Valid()
      ensures aiActionContext == old(aiActionContext)
      ensures !useContextEngine ==> r == ActionAttempt(taskPrompt, mode, aiActionContext, exec)
      ensures !useContextEngine ==>
                executions == old(executions) + ActionDumps(pageType, taskPrompt, mode, aiActionContext, exec)
      ensures useContextEngine && old(engine.current).None? ==>
                r == Err(NewError(Engine.NoActiveRunMessage)) && engine.current == old(engine.current) &&
                executions == old(executions)
      ensures useContextEngine && old(engine.current).Some? ==>
                var id := old(engine.nextId);
                var pushed := old(engine.current).value.(steps := Engine.Push(
                  old(engine.current).value.steps,
                  Engine.NewStep(id, "aiAction", taskPrompt, Undefined, now), engine.maxSteps));
                var context := ActionContext(aiActionContext, Engine.Digest(Engine.Completed(pushed.steps)));
                r == ActionAttempt(taskPrompt, mode, context, exec) &&
                executions == old(executions) + ActionDumps(pageType, taskPrompt, mode, context, exec) &&
                engine.current == ActionCompletions(Some(pushed), id, ExecReturned(taskPrompt, mode, context, exec), r,
                                                    engine.useAiSummaries, ai)
      ensures useContextEngine ==> engine.history == old(engine.history)
    {
      var actionContext := aiActionContext;
      var stepId: Option<nat> := None;
      if useContextEngine {
        var rec := integrator.RecordAction("aiAction", taskPrompt, Undefined, now);
        if rec.Err? {
          return Err(rec.error);
        }
        stepId := Some(rec.value);
        var summaries := integrator.GetActionSummaries();
        actionContext := ActionContext(actionContext, summaries);
      }
      ghost var before := if engine != null then engine.current else None;
      // try
      var failure: Option<Thrown> := None;
      var returned := false;
      if mode.Err? {
        failure := Some(mode.error);
      } else {
        var reply := exec(ChooseCall(taskPrompt, mode.value, actionContext));
        if reply.Err? {
          failure := Some(reply.error);
        } else {
          returned := true;
          if useContextEngine && stepId.Some? {
            integrator.CompleteAction(stepId.value, true, None, Undefined, ai);
          }
          var md := AfterTaskRunning(reply.value.1, false);
          if md.Ok? {
            r := Ok(TaskResult(reply.value.0, md.value));
          } else {
            failure := Some(md.error);
          }
        }
      }
      // catch
      if failure.Some? {
        if useContextEngine && stepId.Some? {
          integrator.CompleteAction(stepId.value, false, Some(ErrorMessage(failure.value)), Undefined, ai);
        }
        r := Err(failure.value);
      }
    }
  }
}
