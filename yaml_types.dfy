/** The YAML script records the player works on: tasks, flow items and task statuses. */
module YamlTypes {
  import opened Js

  /** The status of the player and of each task. */
  datatype StatusValue = Init | Running | Done | Error

  /** A flow item: the keys it carries and the text `JSON.stringify` gives for it. */
  datatype FlowItem = FlowItem(fields: map<string, JsValue>, json: string)

  /** `item[key]`: undefined when the key is absent. */
  function Field(item: FlowItem, key: string): (v: JsValue)
    ensures key !in item.fields ==> v == Undefined
    ensures key in item.fields ==> v == item.fields[key]
  {
    if key in item.fields then item.fields[key] else Undefined
  }

  /** A script task. `flow` is None when the task has no flow at all; `continueOnError` is the
      value as written (undefined when omitted). */
  datatype ScriptTask = ScriptTask(name: string, flow: Option<seq<FlowItem>>, continueOnError: JsValue)

  /** A task extended with its position, status, progress and error. */
  datatype TaskStatus = TaskStatus(
    name: string,
    flow: Option<seq<FlowItem>>,
    continueOnError: JsValue,
    index: nat,
    status: StatusValue,
    currentStep: Option<nat>,
    totalSteps: nat,
    error: Option<Thrown>)

  /** `task.flow?.length || 0` */
  function TotalSteps(t: ScriptTask): (n: nat)
    ensures t.flow.None? ==> n == 0
    ensures t.flow.Some? ==> n == |t.flow.value|
  {
    if t.flow.Some? then |t.flow.value| else 0
  }

  /** The status a task starts with: its own fields, its position, `init`, no step, no error. */
  function InitialStatus(t: ScriptTask, index: nat): TaskStatus {
    TaskStatus(t.name, t.flow, t.continueOnError, index, Init, None, TotalSteps(t), None)
  }

  function InitialStatuses(tasks: seq<ScriptTask>): (r: seq<TaskStatus>)
    ensures |r| == |tasks|
    ensures forall i :: 0 <= i < |tasks| ==> r[i] == InitialStatus(tasks[i], i)
  {
    seq(|tasks|, i requires 0 <= i < |tasks| => InitialStatus(tasks[i], i))
  }
}
