/** The YAML script player: each task goes init, running, then done or error; a failing task
    stops the script unless it continues on error; named and unnamed results are collected.
    The page agent is an oracle keyed by task, step and command. */
module Player {
  import opened Js
  import opened YamlTypes

  // ---------------------------------------------------------------------------------------
  // Flow items

  /** What a flow item asks for, after the player's validation. */
  datatype Command =
    | ActionCmd(prompt: string)
    | AssertCmd(prompt: string)
    | QueryCmd(prompt: string, name: JsValue)
    | NumberCmd(prompt: string, name: JsValue)
    | StringCmd(prompt: string, name: JsValue)
    | BooleanCmd(prompt: string, name: JsValue)
    | LocateCmd(prompt: string, name: JsValue)
    | WaitForCmd(prompt: string, timeout: JsValue)
    | SleepCmd(ms: int)
    | TapCmd(target: JsValue, item: FlowItem)
    | HoverCmd(target: JsValue, item: FlowItem)
    | InputCmd(value: JsValue, locate: JsValue, item: FlowItem)
    | KeyboardPressCmd(key: JsValue, locate: JsValue, item: FlowItem)
    | ScrollCmd(item: FlowItem, locate: JsValue)
    | JavascriptCmd(code: JsValue, name: JsValue)

  /** The commands whose result is stored under the item's name. */
  predicate Stores(c: Command) {
    c.QueryCmd? || c.NumberCmd? || c.StringCmd? || c.BooleanCmd? || c.LocateCmd? || c.JavascriptCmd?
  }

  /** The prompt checks: present, then a string. */
  function Prompt(v: JsValue, missing: string, notString: string): (r: Result<string, Thrown>)
    ensures r.Ok? <==> Truthy(v) && v.Str?
    ensures r.Ok? ==> r.value == v.s
  {
    if !Truthy(v) then Err(NewError(missing))
    else if !v.Str? then Err(NewError(notString))
    else Ok(v.s)
  }

  function PromptFor(item: FlowItem, key: string, what: string): Result<string, Thrown> {
    Prompt(Field(item, key), "missing prompt for " + what, "prompt for " + what + " must be a string")
  }

  /** The delay a `sleep` value gives, or None when the check that it is a positive number
      fails. A string is parsed as a decimal integer; `true` counts as the number 1. */
  function SleepMs(ms: JsValue): (r: Option<int>)
    ensures r.Some? ==> r.value > 0
  {
    match ms
    case Str(s) => if ParseInt(s).Some? && ParseInt(s).value > 0 then ParseInt(s) else None
    case Num(n) => if n > 0 then Some(n) else None
    case Bool(b) => if b then Some(1) else None
    case _ => None
  }

  /** Which `sleep` values pass the check, and the delay each gives: a positive number is
      that many milliseconds, `true` is 1, a string is its parsed prefix when that is
      positive; false, undefined, null and objects are rejected. */
  lemma SleepMsAccepts(ms: JsValue)
    ensures ms.Num? ==> (SleepMs(ms).Some? <==> ms.n > 0) && (SleepMs(ms).Some? ==> SleepMs(ms).value == ms.n)
    ensures ms == Bool(true) ==> SleepMs(ms) == Some(1)
    ensures ms == Bool(false) ==> SleepMs(ms).None?
    ensures ms.Str? ==> (SleepMs(ms).Some? <==> ParseInt(ms.s).Some? && ParseInt(ms.s).value > 0) &&
                        (SleepMs(ms).Some? ==> SleepMs(ms) == ParseInt(ms.s))
    ensures ms.Undefined? || ms.Null? || ms.Obj? ==> SleepMs(ms).None?
  {
  }

  function SleepMessage(ms: JsValue): string {
    "ms for sleep must be greater than 0, but got " + ToStr(ms)
  }

  /** The item's keys tried before `aiScroll` and `javascript`, in order. */
  predicate Recognised(item: FlowItem) {
    Truthy(Field(item, "aiAction")) || Truthy(Field(item, "ai")) || Truthy(Field(item, "aiAssert")) ||
    Truthy(Field(item, "aiQuery")) || Truthy(Field(item, "aiNumber")) || Truthy(Field(item, "aiString")) ||
    Truthy(Field(item, "aiBoolean")) || Truthy(Field(item, "aiLocate")) || Truthy(Field(item, "aiWaitFor")) ||
    Truthy(Field(item, "sleep")) || Truthy(Field(item, "aiTap")) || Truthy(Field(item, "aiHover")) ||
    Truthy(Field(item, "aiInput")) || Truthy(Field(item, "aiKeyboardPress")) ||
    !Field(item, "aiScroll").Undefined? || !Field(item, "javascript").Undefined?
  }

  function UnknownItemMessage(item: FlowItem): string {
    "unknown flowItem: " + item.json
  }

  /** playTask's dispatch on one flow item: the first truthy key wins, in the player's order;
      `aiScroll` and `javascript` are recognised by being defined at all. */
  function Classify(item: FlowItem): (r: Result<Command, Thrown>)
    ensures !Recognised(item) ==> r == Err(NewError(UnknownItemMessage(item)))
    ensures r.Ok? ==> Recognised(item)
  {
    if Truthy(Field(item, "aiAction")) || Truthy(Field(item, "ai")) then
      var p := if Truthy(Field(item, "aiAction")) then Field(item, "aiAction") else Field(item, "ai");
      match Prompt(p, "missing prompt for ai (aiAction)", "prompt for aiAction must be a string")
      case Err(e) => Err(e)
      case Ok(s) => Ok(ActionCmd(s))
    else if Truthy(Field(item, "aiAssert")) then
      match PromptFor(item, "aiAssert", "aiAssert")
      case Err(e) => Err(e)
      case Ok(s) => Ok(AssertCmd(s))
    else if Truthy(Field(item, "aiQuery")) then
      match PromptFor(item, "aiQuery", "aiQuery")
      case Err(e) => Err(e)
      case Ok(s) => Ok(QueryCmd(s, Field(item, "name")))
    else if Truthy(Field(item, "aiNumber")) then
      match PromptFor(item, "aiNumber", "number")
      case Err(e) => Err(e)
      case Ok(s) => Ok(NumberCmd(s, Field(item, "name")))
    else if Truthy(Field(item, "aiString")) then
      match PromptFor(item, "aiString", "string")
      case Err(e) => Err(e)
      case Ok(s) => Ok(StringCmd(s, Field(item, "name")))
    else if Truthy(Field(item, "aiBoolean")) then
      match PromptFor(item, "aiBoolean", "boolean")
      case Err(e) => Err(e)
      case Ok(s) => Ok(BooleanCmd(s, Field(item, "name")))
    else if Truthy(Field(item, "aiLocate")) then
      match PromptFor(item, "aiLocate", "aiLocate")
      case Err(e) => Err(e)
      case Ok(s) => Ok(LocateCmd(s, Field(item, "name")))
    else if Truthy(Field(item, "aiWaitFor")) then
      match PromptFor(item, "aiWaitFor", "aiWaitFor")
      case Err(e) => Err(e)
      case Ok(s) => Ok(WaitForCmd(s, Field(item, "timeout")))
    else if Truthy(Field(item, "sleep")) then
      var ms := Field(item, "sleep");
      match SleepMs(ms)
      case None => Err(NewError(SleepMessage(ms)))
      case Some(n) => Ok(SleepCmd(n))
    else if Truthy(Field(item, "aiTap")) then Ok(TapCmd(Field(item, "aiTap"), item))
    else if Truthy(Field(item, "aiHover")) then Ok(HoverCmd(Field(item, "aiHover"), item))
    else if Truthy(Field(item, "aiInput")) then Ok(InputCmd(Field(item, "aiInput"), Field(item, "locate"), item))
    else if Truthy(Field(item, "aiKeyboardPress")) then
      Ok(KeyboardPressCmd(Field(item, "aiKeyboardPress"), Field(item, "locate"), item))
    else if !Field(item, "aiScroll").Undefined? then Ok(ScrollCmd(item, Field(item, "locate")))
    else if !Field(item, "javascript").Undefined? then Ok(JavascriptCmd(Field(item, "javascript"), Field(item, "name")))
    else Err(NewError(UnknownItemMessage(item)))
  }

  /** A sleep written as the decimal text of a number waits that many milliseconds when it is
      positive and is rejected when it is zero. */
  lemma SleepString(n: nat)
    ensures SleepMs(Str(NatToString(n))) == if n > 0 then Some(n) else None
  {
    ParseIntOfNatToString(n);
  }

  /** `aiAction` is tried before every other key. */
  lemma ActionComesFirst(item: FlowItem)
    requires Field(item, "aiAction").Str? && Field(item, "aiAction").s != ""
    ensures Classify(item) == Ok(ActionCmd(Field(item, "aiAction").s))
  {
  }

  // ---------------------------------------------------------------------------------------
  // Results

  /** The result record and the counter for unnamed results. */
  datatype Results = Results(values: map<string, JsValue>, unnamed: nat)

  /** setResult: a truthy name is the key; otherwise the counter's decimal text is, and the
      counter advances. An existing key is overwritten. */
  function SetResultSpec(r: Results, name: JsValue, v: JsValue): (r': Results)
    ensures Truthy(name) ==> r' == Results(r.values[ToStr(name) := v], r.unnamed)
    ensures !Truthy(name) ==> r' == Results(r.values[NatToString(r.unnamed) := v], r.unnamed + 1)
  {
    if Truthy(name) then Results(r.values[ToStr(name) := v], r.unnamed)
    else Results(r.values[NatToString(r.unnamed) := v], r.unnamed + 1)
  }

  /** Two unnamed results never share a key: the second does not overwrite the first. */
  lemma UnnamedResultsKept(r: Results, a: JsValue, b: JsValue)
    ensures var r2 := SetResultSpec(SetResultSpec(r, Undefined, a), Undefined, b);
      r2.unnamed == r.unnamed + 2 &&
      r2.values[NatToString(r.unnamed)] == a && r2.values[NatToString(r.unnamed + 1)] == b
  {
    if NatToString(r.unnamed) == NatToString(r.unnamed + 1) {
      NatToStringInjective(r.unnamed, r.unnamed + 1);
    }
  }

  /** Starting from the empty record, the first two unnamed results are stored under "0"
      and "1". */
  lemma UnnamedKeysFromZero(a: JsValue, b: JsValue)
    ensures SetResultSpec(SetResultSpec(Results(map[], 0), Null, a), Str(""), b).values == map["0" := a, "1" := b]
  {
    assert NatToString(0) == "0";
    assert NatToString(1) == "1";
  }

  // ---------------------------------------------------------------------------------------
  // Playing a task and running the script

  /** The agent: what the call for a command at a task and step returns, or throws. */
  type AgentOracle = (nat, nat, Command) -> Result<JsValue, Thrown>

  /** One flow item: validation, the agent call (none for a sleep) and the stored result. */
  function StepEffect(task: nat, step: nat, item: FlowItem, agent: AgentOracle, r: Results): Result<Results, Thrown> {
    match Classify(item)
    case Err(e) => Err(e)
    case Ok(cmd) =>
      if cmd.SleepCmd? then Ok(r)
      else match agent(task, step, cmd)
        case Err(e) => Err(e)
        case Ok(v) => if Stores(cmd) then Ok(SetResultSpec(r, cmd.name, v)) else Ok(r)
  }

  /** How playing a task ends: the results so far, the error it threw (if any) and the last
      current step. */
  datatype PlayOutcome = PlayOutcome(results: Results, error: Option<Thrown>, currentStep: Option<nat>)

  /** The items from position `i` on; the first failure stops the task. */
  function PlayFrom(task: nat, flow: seq<FlowItem>, i: nat, r: Results, cur: Option<nat>, agent: AgentOracle): PlayOutcome
    requires i <= |flow|
    decreases |flow| - i
  {
    if i == |flow| then PlayOutcome(r, None, cur)
    else match StepEffect(task, i, flow[i], agent, r)
      case Err(e) => PlayOutcome(r, Some(e), Some(i))
      case Ok(r') => PlayFrom(task, flow, i + 1, r', Some(i), agent)
  }

  const MissingFlowMessage: string := "missing flow in task"

  /** playTask */
  function PlayTaskSpec(task: nat, ts: TaskStatus, r: Results, agent: AgentOracle): PlayOutcome {
    if ts.flow.None? then PlayOutcome(r, Some(NewError(MissingFlowMessage)), ts.currentStep)
    else PlayFrom(task, ts.flow.value, 0, r, ts.currentStep, agent)
  }

  /** A task that finishes has gone through every item, the last one being the current step;
      a failing task stops at the failing item, and the results are those of the items before
      it. */
  lemma {:induction false} PlayFromOutcome(task: nat, flow: seq<FlowItem>, i: nat, r: Results, cur: Option<nat>,
                                           agent: AgentOracle)
    requires i <= |flow|
    decreases |flow| - i
    ensures var o := PlayFrom(task, flow, i, r, cur, agent);
      (o.error.None? ==> o.currentStep == (if i < |flow| then Some(|flow| - 1) else cur)) &&
      (o.error.Some? ==>
         o.currentStep.Some? && i <= o.currentStep.value < |flow| &&
         StepEffect(task, o.currentStep.value, flow[o.currentStep.value], agent, o.results).Err? &&
         o.error == Some(StepEffect(task, o.currentStep.value, flow[o.currentStep.value], agent, o.results).error))
    ensures var o := PlayFrom(task, flow, i, r, cur, agent);
      o.error.Some? ==>
        var m := o.currentStep.value;
        i <= m <= |flow| &&
        PlayFrom(task, flow[..m], i, r, cur, agent).error.None? &&
        PlayFrom(task, flow[..m], i, r, cur, agent).results == o.results
  {
    if i < |flow| {
      match StepEffect(task, i, flow[i], agent, r)
      case Err(e) =>
      case Ok(r') =>
        PlayFromOutcome(task, flow, i + 1, r', Some(i), agent);
        var o := PlayFrom(task, flow, i, r, cur, agent);
        if o.error.Some? {
          var m := o.currentStep.value;
          assert i + 1 <= m;
          assert flow[..m][i] == flow[i];
        }
    }
  }

  /** `status` with the optional error recorded when it is truthy (setTaskStatus). */
  function WithStatus(ts: TaskStatus, s: StatusValue, error: Option<Thrown>): TaskStatus {
    ts.(status := s, error := if error.Some? && ThrownTruthy(error.value) then error else ts.error)
  }

  /** The run loop's state: the task statuses, the results, the current task and the error
      flag. */
  datatype LoopState = LoopState(statuses: seq<TaskStatus>, results: Results, current: Option<nat>, errorFlag: bool)

  /** How a task is played: from its position, its status and the results so far. */
  type Play = (nat, TaskStatus, Results) -> PlayOutcome

  /** Playing tasks with `agent`. */
  function Played(agent: AgentOracle): Play {
    (task: nat, ts: TaskStatus, r: Results) => PlayTaskSpec(task, ts, r, agent)
  }

  /** One pass of the run loop at task `i`: it is marked running and played, then marked done,
      or error with what it threw; a failure without continue-on-error sets the error flag. */
  function RunStep(i: nat, s: LoopState, play: Play): (n: LoopState)
    requires i < |s.statuses|
    ensures |n.statuses| == |s.statuses| && n.current == Some(i)
  {
    var running := WithStatus(s.statuses[i], Running, None);
    var o := play(i, running, s.results);
    var played := running.(currentStep := o.currentStep);
    if o.error.None? then
      LoopState(s.statuses[i := WithStatus(played, Done, None)], o.results, Some(i), s.errorFlag)
    else
      LoopState(s.statuses[i := WithStatus(played, Error, o.error)], o.results, Some(i),
                s.errorFlag || !Truthy(running.continueOnError))
  }

  /** One pass of the run loop: task `i` ends done when its play threw nothing, and error
      otherwise, with the thrown value stored when it is truthy; its play position is recorded,
      the results are the play's, no other task changes, and the error flag is raised exactly
      by a failure of a task without continue-on-error. */
  lemma RunStepTransition(i: nat, s: LoopState, play: Play)
    requires i < |s.statuses|
    ensures var o := play(i, WithStatus(s.statuses[i], Running, None), s.results);
      var n := RunStep(i, s, play);
      var t := n.statuses[i];
      (o.error.None? ==> t.status == Done && t.error == s.statuses[i].error) &&
      (o.error.Some? ==> t.status == Error) &&
      (o.error.Some? && ThrownTruthy(o.error.value) ==> t.error == o.error) &&
      (o.error.Some? && !ThrownTruthy(o.error.value) ==> t.error == s.statuses[i].error) &&
      t.currentStep == o.currentStep && SameTask(t, s.statuses[i]) &&
      (forall j :: 0 <= j < |s.statuses| && j != i ==> n.statuses[j] == s.statuses[j]) &&
      n.results == o.results &&
      n.errorFlag == (s.errorFlag || (o.error.Some? && !Truthy(s.statuses[i].continueOnError)))
  {
  }

  /** The run loop from task `i` on, stopping at the first pass that sets the error flag. */
  function RunFrom(i: nat, s: LoopState, play: Play): (f: LoopState)
    requires i <= |s.statuses|
    ensures |f.statuses| == |s.statuses|
    decreases |s.statuses| - i
  {
    if i == |s.statuses| then s
    else
      var n := RunStep(i, s, play);
      if n.errorFlag then n else RunFrom(i + 1, n, play)
  }

  /** A status the run loop leaves on an executed task: done, or error recorded with the
      task's own continue-on-error setting. */
  predicate Finished(t: TaskStatus) {
    t.status == Done || t.status == Error
  }

  /** The fields of a task the run loop never changes. */
  predicate SameTask(a: TaskStatus, b: TaskStatus) {
    a.name == b.name && a.flow == b.flow && a.continueOnError == b.continueOnError &&
    a.index == b.index && a.totalSteps == b.totalSteps
  }

  /** Task `t`, originally `orig`, has finished and did not stop the run. */
  predicate Settled(t: TaskStatus, orig: TaskStatus) {
    Finished(t) && (t.status == Error ==> Truthy(orig.continueOnError))
  }

  /** The run from task `i` stopped at task `k`: it failed without continue-on-error, every
      task before it settled and every task after it is untouched. */
  predicate StoppedAt(f: seq<TaskStatus>, s: seq<TaskStatus>, i: nat, k: nat) {
    |f| == |s| && i <= k < |s| &&
    f[k].status == Error && !Truthy(s[k].continueOnError) &&
    (forall j :: k < j < |s| ==> f[j] == s[j]) &&
    (forall j :: i <= j < k ==> Settled(f[j], s[j]))
  }

  /** Only status, error and current step change, and tasks before `i` not at all. */
  lemma {:induction false} RunFromFrame(i: nat, s: LoopState, play: Play)
    requires i <= |s.statuses|
    decreases |s.statuses| - i
    ensures var f := RunFrom(i, s, play);
      (forall j :: 0 <= j < |s.statuses| ==> SameTask(f.statuses[j], s.statuses[j])) &&
      (forall j :: 0 <= j < i ==> f.statuses[j] == s.statuses[j])
  {
    if i < |s.statuses| {
      var n := RunStep(i, s, play);
      if !n.errorFlag {
        RunFromFrame(i + 1, n, play);
      }
    }
  }

  /** Without a stop every task from `i` on has settled; a stop happens at a task that failed
      without continue-on-error and leaves every later task untouched. */
  lemma {:induction false} RunFromStops(i: nat, s: LoopState, play: Play)
    requires i <= |s.statuses| && !s.errorFlag
    decreases |s.statuses| - i
    ensures var f := RunFrom(i, s, play);
      f.errorFlag ==> exists k :: StoppedAt(f.statuses, s.statuses, i, k)
    ensures var f := RunFrom(i, s, play);
      !f.errorFlag ==> forall j :: i <= j < |s.statuses| ==> Settled(f.statuses[j], s.statuses[j])
  {
    if i < |s.statuses| {
      var f := RunFrom(i, s, play);
      var n := RunStep(i, s, play);
      if !n.errorFlag {
        assert f == RunFrom(i + 1, n, play);
        RunFromFrame(i + 1, n, play);
        RunFromStops(i + 1, n, play);
        assert f.statuses[i] == n.statuses[i] && Settled(n.statuses[i], s.statuses[i]);
        if f.errorFlag {
          var k :| StoppedAt(f.statuses, n.statuses, i + 1, k);
          assert StoppedAt(f.statuses, s.statuses, i, k);
        }
      } else {
        assert StoppedAt(f.statuses, s.statuses, i, i);
      }
    }
  }

  /** The player's status after the loop. */
  function FinalStatus(f: LoopState): StatusValue {
    if f.errorFlag then Error else Done
  }

  /** A task that fails without continue-on-error ends the script in error with every later
      task still `init`; with continue-on-error on every failing task the script ends done. */
  lemma RunOutcome(statuses: seq<TaskStatus>, r: Results, agent: AgentOracle)
    requires forall j :: 0 <= j < |statuses| ==> statuses[j].status == Init
    ensures var f := RunFrom(0, LoopState(statuses, r, None, false), Played(agent));
      (FinalStatus(f) == Error ==>
         exists k :: (0 <= k < |statuses| && f.statuses[k].status == Error &&
           !Truthy(statuses[k].continueOnError) && forall j :: k < j < |statuses| ==> f.statuses[j].status == Init)) &&
      (FinalStatus(f) == Done ==> forall j :: 0 <= j < |statuses| ==> Finished(f.statuses[j])) &&
      ((forall j :: 0 <= j < |statuses| ==> Truthy(statuses[j].continueOnError)) ==> FinalStatus(f) == Done)
  {
    RunFromStops(0, LoopState(statuses, r, None, false), Played(agent));
  }

  /** A resource-freeing function: its name and, as its oracle, whether it throws. */
  datatype FreeFn = FreeFn(name: string, throws: bool)

  /** What setupAgent yields: the free functions, or what it throws. */
  type Setup = Result<seq<FreeFn>, Thrown>

  function Names(fs: seq<FreeFn>): (r: seq<string>)
    ensures |r| == |fs| && forall i :: 0 <= i < |fs| ==> r[i] == fs[i].name
  {
    seq(|fs|, i requires 0 <= i < |fs| => fs[i].name)
  }

  class ScriptPlayer {
    const tasks: seq<ScriptTask>
    var status: StatusValue
    var taskStatusList: seq<TaskStatus>
    var result: map<string, JsValue>
    var unnamedResultIndex: nat
    var currentTaskIndex: Option<nat>
    var errorInSetup: Option<Thrown>
    /** The free functions invoked so far, in order. */
    var freed: seq<string>

    constructor (tasks: seq<ScriptTask>)
      ensures this.tasks == tasks
      ensures taskStatusList == InitialStatuses(tasks)
      ensures status == Init && result == map[] && unnamedResultIndex == 0
      ensures currentTaskIndex.None? && errorInSetup.None? && freed == []
    {
      this.tasks := tasks;
      taskStatusList := InitialStatuses(tasks);
      status := Init;
      result := map[];
      unnamedResultIndex := 0;
      currentTaskIndex := None;
      errorInSetup := None;
      freed := [];
    }

    /** setResult */
    method SetResult(name: JsValue, v: JsValue)
      modifies this
      ensures Results(result, unnamedResultIndex) == SetResultSpec(Results(old(result), old(unnamedResultIndex)), name, v)
      ensures taskStatusList == old(taskStatusList) && status == old(status)
      ensures currentTaskIndex == old(currentTaskIndex) && errorInSetup == old(errorInSetup) && freed == old(freed)
    {
      if Truthy(name) {
        result := result[ToStr(name) := v];
      } else {
        result := result[NatToString(unnamedResultIndex) := v];
        unnamedResultIndex := unnamedResultIndex + 1;
      }
    }

    /** setPlayerStatus */
    method SetPlayerStatus(s: StatusValue, error: Option<Thrown>)
      modifies this
      ensures status == s && errorInSetup == error
      ensures taskStatusList == old(taskStatusList) && result == old(result) && unnamedResultIndex == old(unnamedResultIndex)
      ensures currentTaskIndex == old(currentTaskIndex) && freed == old(freed)
    {
      status := s;
      errorInSetup := error;
    }

    /** setTaskStatus */
    method SetTaskStatus(index: nat, s: StatusValue, error: Option<Thrown>)
      requires index < |taskStatusList|
      modifies this
      ensures taskStatusList == old(taskStatusList)[index := WithStatus(old(taskStatusList)[index], s, error)]
      ensures status == old(status) && result == old(result) && unnamedResultIndex == old(unnamedResultIndex)
      ensures currentTaskIndex == old(currentTaskIndex) && errorInSetup == old(errorInSetup) && freed == old(freed)
    {
      var t := taskStatusList[index];
      t := t.(status := s);
      if error.Some? && ThrownTruthy(error.value) {
        t := t.(error := error);
      }
      taskStatusList := taskStatusList[index := t];
    }

    /** playTask: walks the flow, setting the current step to each item's position. */
    method PlayTask(task: nat, agent: AgentOracle) returns (error: Option<Thrown>)
      requires task < |taskStatusList|
      modifies this
      ensures var o := PlayTaskSpec(task, old(taskStatusList)[task], Results(old(result), old(unnamedResultIndex)), agent);
        error == o.error && Results(result, unnamedResultIndex) == o.results &&
        taskStatusList == old(taskStatusList)[task := old(taskStatusList)[task].(currentStep := o.currentStep)]
      ensures status == old(status) && currentTaskIndex == old(currentTaskIndex) && errorInSetup == old(errorInSetup)
      ensures freed == old(freed)
    {
      var flow := taskStatusList[task].flow;
      if flow.None? {
        return Some(NewError(MissingFlowMessage));
      }
      var items := flow.value;
      ghost var r0 := Results(result, unnamedResultIndex);
      ghost var list0 := taskStatusList;
      ghost var cur0 := taskStatusList[task].currentStep;
      var i := 0;
      while i < |items|
        invariant 0 <= i <= |items|
        invariant |taskStatusList| == |list0|
        invariant taskStatusList == list0[task := list0[task].(currentStep := taskStatusList[task].currentStep)]
        invariant i == 0 ==> taskStatusList[task].currentStep == cur0
        invariant PlayFrom(task, items, i, Results(result, unnamedResultIndex), taskStatusList[task].currentStep, agent)
               == PlayFrom(task, items, 0, r0, cur0, agent)
        invariant status == old(status) && currentTaskIndex == old(currentTaskIndex) && freed == old(freed)
        invariant errorInSetup == old(errorInSetup)
      {
        ghost var before := Results(result, unnamedResultIndex);
        taskStatusList := taskStatusList[task := taskStatusList[task].(currentStep := Some(i))];
        ghost var e := StepEffect(task, i, items[i], agent, before);
        assert PlayFrom(task, items, i, before, taskStatusList[task].currentStep, agent) ==
               if e.Err? then PlayOutcome(before, Some(e.error), Some(i))
               else PlayFrom(task, items, i + 1, e.value, Some(i), agent);
        var failed := PlayItem(task, i, items[i], agent);
        if failed.Some? {
          return failed;
        }
        i := i + 1;
      }
      error := None;
    }

    /** One flow item of playTask: validated, dispatched to the agent (a sleep calls nothing),
        and its value stored when the command stores one. */
    method PlayItem(task: nat, step: nat, item: FlowItem, agent: AgentOracle) returns (failed: Option<Thrown>)
      modifies this
      ensures var e := StepEffect(task, step, item, agent, Results(old(result), old(unnamedResultIndex)));
        (e.Err? ==> failed == Some(e.error) && result == old(result) && unnamedResultIndex == old(unnamedResultIndex)) &&
        (e.Ok? ==> failed.None? && Results(result, unnamedResultIndex) == e.value)
      ensures taskStatusList == old(taskStatusList) && status == old(status)
      ensures currentTaskIndex == old(currentTaskIndex) && errorInSetup == old(errorInSetup) && freed == old(freed)
    {
      var cmd := Classify(item);
      if cmd.Err? {
        return Some(cmd.error);
      }
      if !cmd.value.SleepCmd? {
        var reply := agent(task, step, cmd.value);
        if reply.Err? {
          return Some(reply.error);
        }
        if Stores(cmd.value) {
          SetResult(cmd.value.name, reply.value);
        }
      }
      failed := None;
    }

    /** One pass of run's loop: the task is marked running and becomes the current task, is
        played, and is marked done or error; `stop` is a failure without continue-on-error. */
    method RunTask(taskIndex: nat, agent: AgentOracle) returns (stop: bool)
      requires taskIndex < |taskStatusList|
      modifies this
      ensures LoopState(taskStatusList, Results(result, unnamedResultIndex), currentTaskIndex, stop)
           == RunStep(taskIndex, LoopState(old(taskStatusList), Results(old(result), old(unnamedResultIndex)),
                                           old(currentTaskIndex), false), Played(agent))
      ensures status == old(status) && errorInSetup == old(errorInSetup) && freed == old(freed)
    {
      ghost var before := LoopState(taskStatusList, Results(result, unnamedResultIndex), currentTaskIndex, false);
      SetTaskStatus(taskIndex, Running, None);
      currentTaskIndex := Some(taskIndex);
      var running := taskStatusList[taskIndex];
      ghost var o := Played(agent)(taskIndex, running, before.results);
      var error := PlayTask(taskIndex, agent);
      ghost var played := running.(currentStep := o.currentStep);
      assert taskStatusList == before.statuses[taskIndex := played];
      stop := false;
      if error.None? {
        SetTaskStatus(taskIndex, Done, None);
      } else {
        SetTaskStatus(taskIndex, Error, error);
        if !Truthy(running.continueOnError) {
          stop := true;
        }
      }
    }

    /** run: the agent is set up first (a failure ends the run in error before any task);
        then the tasks run in order until one fails without continue-on-error; the final
        status is set, then every free function is invoked in order, its errors ignored. */
    method Run(setup: Setup, agent: AgentOracle)
      requires |taskStatusList| == |tasks|
      modifies this
      ensures setup.Err? ==> status == Error && errorInSetup == Some(setup.error) &&
                             taskStatusList == old(taskStatusList) && result == old(result) && freed == old(freed)
      ensures setup.Ok? ==>
                var f := RunFrom(0, LoopState(old(taskStatusList), Results(old(result), old(unnamedResultIndex)),
                                              old(currentTaskIndex), false), Played(agent));
                taskStatusList == f.statuses && Results(result, unnamedResultIndex) == f.results &&
                currentTaskIndex == f.current && status == FinalStatus(f) && errorInSetup.None? &&
                freed == old(freed) + Names(setup.value)
    {
      SetPlayerStatus(Running, None);
      if setup.Err? {
        SetPlayerStatus(Error, Some(setup.error));
        return;
      }
      var freeFns := setup.value;
      SetPlayerStatus(Running, None);
      ghost var play := Played(agent);
      ghost var s0 := LoopState(taskStatusList, Results(result, unnamedResultIndex), currentTaskIndex, false);
      ghost var fin := RunFrom(0, s0, play);
      var taskIndex := 0;
      var errorFlag := false;
      while taskIndex < |tasks|
        invariant 0 <= taskIndex <= |tasks| && |taskStatusList| == |tasks|
        invariant !errorFlag
        invariant RunFrom(taskIndex, LoopState(taskStatusList, Results(result, unnamedResultIndex), currentTaskIndex, false),
                          play) == fin
        invariant freed == old(freed) && errorInSetup.None?
      {
        errorFlag := RunTask(taskIndex, agent);
        if errorFlag {
          break;
        }
        taskIndex := taskIndex + 1;
      }
      assert LoopState(taskStatusList, Results(result, unnamedResultIndex), currentTaskIndex, errorFlag) == fin;
      if errorFlag {
        SetPlayerStatus(Error, None);
      } else {
        SetPlayerStatus(Done, None);
      }
      ghost var list1, results1, current1, status1 := taskStatusList, Results(result, unnamedResultIndex), currentTaskIndex, status;
      var k := 0;
      while k < |freeFns|
        invariant 0 <= k <= |freeFns|
        invariant freed == old(freed) + Names(freeFns[..k])
        invariant taskStatusList == list1 && Results(result, unnamedResultIndex) == results1
        invariant currentTaskIndex == current1 && status == status1 && errorInSetup.None?
      {
        // a throwing free function is ignored
        freed := freed + [freeFns[k].name];
        k := k + 1;
        assert Names(freeFns[..k]) == Names(freeFns[..k - 1]) + [freeFns[k - 1].name];
      }
      assert freeFns[..k] == freeFns;
    }
  }
}
