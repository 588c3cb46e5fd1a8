# acabAi core, modelled in Dafny

This project models the core of acabAi, a browser-automation agent driven by AI models, and proves properties of that model. It covers:

- **The context engine.** This is a bounded history of test runs and their steps. A run keeps only its last `maxSteps` steps. When a step completes, its result, error, action result and an AI summary are recorded, and a run is finalised into history with an aggregate result.
- **The action-context integrator.** It records an agent action as a pending step, runs the action, and completes the step with the action's outcome.
- **The summarizer.** This is the prompt text sent to the model and the fallback texts used when the model call fails. The model itself is an oracle.
- **The page agent.** This part covers:
  - the metadata derived from an executor's tasks after each task (`afterTaskRunning`) and the execution dump it appends;
  - the locate-parameter builder;
  - the `ai` dispatch;
  - `aiAssert`'s verdict;
  - `aiAction` together with its context-engine bookkeeping.
- **The YAML script player.** This part covers:
  - validation and dispatch of each flow item;
  - the numbering of named and unnamed results;
  - the per-task state machine (init, running, then done or error);
  - `continueOnError`, the final player status and the freeing of resources.
- **Configuration flags.** This covers reading the environment into the global config, then:
  - boolean flag parsing;
  - the mutually exclusive vision-model mode;
  - the UI-TARS version mapping;
  - overriding the cached global config.
- **Launch-option resolution for web targets.** This covers:
  - viewport defaults and checks;
  - whether the window is maximised;
  - the browser arguments;
  - the network-idle policy;
  - the precedence between the caller's preference and the target's settings.

## How the model is built

- **JavaScript values.** `JsValue` models them (module `Js`): undefined, null, booleans, integers, strings and objects. Objects carry the texts `JSON.stringify` and `String()` give for them. The module also gives truthiness, `??`, template interpolation, `trim`, `Number.parseInt` and `join`. A thrown value is an `Error` (name and message) or any other value.
- **Stateful objects are classes.**
  - `ContextEngine` has its current run, its history and an id counter that stands in for uuid generation.
  - `ActionContextIntegrator` holds its engine.
  - `PageAgent` has its action context and its execution dumps.
  - `ScriptPlayer` has its statuses, results and counter.
  - `ConfigStore` holds the module-level global config slot.
- **Methods and specification functions.** Each method is proved against specification functions, and lemmas about those functions state what the code promises:
  - `Engine.Push`, `Engine.AfterComplete` and `Engine.Finalize`;
  - `Player.PlayFrom` and `Player.RunFrom`;
  - `Env.ToConfig`.
- **Collaborators outside the model become parameters:**
  - the clock is a `now: int` argument;
  - the AI model is `Summarizer.Oracle` (None when the call throws);
  - the task executor is `Agent.ExecOracle`, plus an assert call;
  - the page agent used by the player is `Player.AgentOracle`;
  - `process.env` is a string map;
  - `process.platform` is `Launcher.Platform`;
  - the page load and network-idle wait are their outcomes.

## Model

| member | source | states |
|---|---|---|
| Engine.ResolveMaxSteps | packages/core/src/context-engine/index.ts:40-42 | maxSteps is never 0: an absent or zero option gives 10, any other value is kept |
| Engine.ResolveUseAiSummaries | packages/core/src/context-engine/index.ts:43 | AI summaries are off exactly when the option is explicitly false |
| Engine.LastN | packages/core/src/context-engine/index.ts:111-116 | the retained window is at most the bound and at most the input long |
| Engine.PushKeepsLast | packages/core/src/context-engine/index.ts:111-116 | pushing onto the last n additions gives the last n of the extended sequence |
| Engine.ReplayIsLastN | packages/core/src/context-engine/index.ts:98-121 | after any sequence of addSteps the run holds exactly the last maxSteps added, in insertion order, and never more than maxSteps |
| Engine.EvictionScenario | packages/core/src/context-engine/index.ts:111-116 | with a bound of 2, adding a, b, c keeps b, c |
| Engine.Ids | packages/core/src/context-engine/index.ts:139-141 | the id list mirrors the steps one to one |
| Engine.IdsPush | packages/core/src/context-engine/index.ts:111-116 | the ids after a push are the push of the ids |
| Engine.FindStep | packages/core/src/context-engine/index.ts:139-147 | finds the first retained step with the id; None exactly when no retained step has it |
| Engine.Aggregate | packages/core/src/context-engine/index.ts:78-80 | a completed run is never pending, and it is failure exactly when some step failed |
| Engine.Completed | packages/core/src/context-engine/index.ts:169-178 | the completed steps are exactly the retained steps that are not pending |
| Engine.CompletedAppend | packages/core/src/context-engine/index.ts:169-178 | the completed steps of two lists joined are those of the first followed by those of the second: order and multiplicity are kept |
| Engine.CompletedSnoc | packages/core/src/context-engine/index.ts:169-178 | a further step is appended to the completed steps exactly when it is not pending |
| Engine.CompletedKeepsOrder | packages/core/src/context-engine/index.ts:169-178 | when ids increase along the steps, they increase along the completed steps |
| Engine.RetainedInOrder | packages/core/src/context-engine/index.ts:98-178 | the steps retained from an increasing sequence of added ids yield completed steps in insertion order |
| Engine.Digest | packages/core/src/context-engine/index.ts:185-206 | the summaries are empty exactly when there is no completed step, and otherwise start with the header |
| Engine.DigestLines | packages/core/src/context-engine/index.ts:194-203 | one numbered line per completed step, starting at 1, each the summary or the action, description and status |
| Engine.DigestEmptyIff | packages/core/src/context-engine/index.ts:185-206 | the action summaries are empty exactly when every retained step is pending |
| Engine.CompleteOneIdempotent | packages/core/src/context-engine/index.ts:150-163 | completing a step twice with the same arguments gives the same step as once |
| Engine.CompleteOne | packages/core/src/context-engine/index.ts:150-163 | the completed step keeps its id and takes the new result |
| Engine.CompleteOneFields | packages/core/src/context-engine/index.ts:150-163 | the result is set; the error is replaced only by a non-empty one, the action result only by a defined one, the summary only with AI summaries on, and then it summarises the completed step; id, action, description, metadata and timestamp stay |
| Engine.AfterComplete | packages/core/src/context-engine/index.ts:133-164 | no run stays no run; an id that is not retained changes nothing; the run keeps its id and its number of steps |
| Engine.CompletedStepHasSummary | packages/core/src/context-engine/index.ts:160-162 | with AI summaries on, a completed step always has a non-empty summary |
| Engine.AfterCompleteFrame | packages/core/src/context-engine/index.ts:133-164 | completing a found step sets its result; it changes no other step, the length or the ids, and the step is still found at the same place |
| Engine.FindPushed | packages/core/src/context-engine/index.ts:98-121 | a step added under a fresh id is found right after it is added, as the last step, whenever the bound is positive |
| Engine.FinalizeResult | packages/core/src/context-engine/index.ts:70-93 | the finalised run is not pending, fails iff some step failed, has the completion time set and keeps its steps |
| Engine.FailureScenario | packages/core/src/context-engine/index.ts:78-80 | a run with one success and one failure completes as failure |
| Engine.ContextEngine.RetainedIdsFresh | packages/core/src/context-engine/index.ts:98-121 | every retained step's id is below the id counter, and the run holds at most maxSteps steps |
| Engine.ContextEngine.constructor | packages/core/src/context-engine/index.ts:40-43 | the engine starts with the resolved options, no run and an empty history |
| Engine.ContextEngine.CompleteTestRun | packages/core/src/context-engine/index.ts:70-93 | with no run it returns null and changes nothing; otherwise the finalised run is returned, appended to history, and the current run cleared |
| Engine.ContextEngine.StartTestRun | packages/core/src/context-engine/index.ts:48-65 | an active run is completed into history first; the new run is empty, pending and current |
| Engine.ContextEngine.AddStep | packages/core/src/context-engine/index.ts:98-122 | with no run it throws and changes nothing; otherwise a fresh pending step is appended and the oldest dropped past maxSteps |
| Engine.ContextEngine.CompleteStep | packages/core/src/context-engine/index.ts:133-164 | returns null and changes nothing when there is no run or the id is not retained; otherwise the first step with the id is completed by the field rules, and the returned step is that completed step as now stored |
| Engine.ContextEngine.CompletedSteps | packages/core/src/context-engine/index.ts:169-178 | the completed steps are exactly the current run's non-pending steps, built step by step in list order |
| Engine.ContextEngine.CompletedStepsInOrder | packages/core/src/context-engine/index.ts:169-178 | the completed steps come in insertion order, each once: their ids increase |
| Engine.ContextEngine.ActionSummaries | packages/core/src/context-engine/index.ts:185-206 | empty exactly when no step is completed, otherwise starting with the header |
| Engine.ContextEngine.GetCurrentTestRun | packages/core/src/context-engine/index.ts:211-213 | returns the current run |
| Engine.ContextEngine.GetTestRunHistory | packages/core/src/context-engine/index.ts:218-220 | returns the history |
| Engine.ContextEngine.Clear | packages/core/src/context-engine/index.ts:225-228 | no current run and an empty history afterwards |
| Engine.ContextEngine.ActionSummariesEmptyIff | packages/core/src/context-engine/index.ts:185-206 | getActionSummaries is empty exactly when the current run has no completed step |
| Integration.StatusOf | packages/core/src/context-engine/context-integration.ts:49-61 | a completed action is success exactly when it succeeded, and never pending |
| Integration.Settle | packages/core/src/context-engine/context-integration.ts:81-103 | the wrapper settles as the wrapped function did, and never settles when no run is active |
| Integration.WrappedStepRecordsOutcome | packages/core/src/context-engine/context-integration.ts:81-103 | the wrapped action's step is the last one recorded, and it is success exactly when the function resolved, with the rejection's message otherwise |
| Integration.ActionContextIntegrator.constructor | packages/core/src/context-engine/context-integration.ts:15-17 | the integrator holds the given engine |
| Integration.ActionContextIntegrator.RecordAction | packages/core/src/context-engine/context-integration.ts:27-39 | throws with no run; otherwise adds a pending step and yields its id |
| Integration.ActionContextIntegrator.CompleteAction | packages/core/src/context-engine/context-integration.ts:49-61 | completes the step with success or failure from the boolean |
| Integration.ActionContextIntegrator.GetActionSummaries | packages/core/src/context-engine/context-integration.ts:68-70 | the engine's digest of its completed steps, empty exactly when every retained step is pending |
| Integration.ActionContextIntegrator.WrapWithActionRecording | packages/core/src/context-engine/context-integration.ts:81-103 | the function runs only when recording succeeded; its step is completed with its outcome and the promise settles as it did |
| Summarizer.ActionResultText | packages/core/src/context-engine/ai-summarizer.ts:13-26 | the action-result line is empty exactly when the action result is undefined |
| Summarizer.ReplyText | packages/core/src/context-engine/ai-summarizer.ts:50 | the summary is never empty, and a non-empty reply is kept |
| Summarizer.GenerateStepSummary | packages/core/src/context-engine/ai-summarizer.ts:10-55 | never empty; the model's reply when the call succeeds, the action, description and status when building the prompt or the call throws |
| Summarizer.RunStepLines | packages/core/src/context-engine/ai-summarizer.ts:71-73 | one line per step, in order |
| Summarizer.GenerateTestRunSummary | packages/core/src/context-engine/ai-summarizer.ts:63-96 | never empty; the reply when the call succeeds, the fallback line otherwise |
| Summarizer.StepPromptResultLine | packages/core/src/context-engine/ai-summarizer.ts:33 | the prompt says Successful exactly for a successful step; a pending step reads Failed |
| Summarizer.StepPromptOptionalLines | packages/core/src/context-engine/ai-summarizer.ts:34-36 | the error line is present exactly when the error is, and the action-result line exactly when the result is defined |
| Summarizer.SummaryIgnoresSummary | packages/core/src/context-engine/ai-summarizer.ts:10-55 | a step's old summary does not influence its new summary |
| Agent.Thoughts | packages/web-integration/src/common/agent.ts:346-348 | only truthy thoughts are kept; none exactly when no task has one; every truthy thought is kept |
| Agent.Locates | packages/web-integration/src/common/agent.ts:351-353 | only truthy locates are kept; none exactly when no task has one |
| Agent.Plans | packages/web-integration/src/common/agent.ts:355-358 | only truthy plans are kept; none exactly when no task has one |
| Agent.ThoughtsSnoc | packages/web-integration/src/common/agent.ts:346-348 | a further task adds its own thought, at the end, exactly when it is truthy |
| Agent.LocatesSnoc | packages/web-integration/src/common/agent.ts:351-353 | a further task adds its own locate, at the end, exactly when it is truthy |
| Agent.PlansSnoc | packages/web-integration/src/common/agent.ts:355-358 | a further task adds its own plans, at the end, exactly when they are truthy |
| Agent.OfKind | packages/web-integration/src/common/agent.ts:361-382 | exactly the tasks of the given type |
| Agent.OfKindSnoc | packages/web-integration/src/common/agent.ts:361-363 | a further task is appended to its type's list, and to no other |
| Agent.Entries | packages/web-integration/src/common/agent.ts:361-382 | one entry per task, its thought or the default text |
| Agent.TaskMetadata | packages/web-integration/src/common/agent.ts:330-423 | throws the latest error exactly when the executor is in error and throwing is not suppressed; otherwise the metadata of the task list |
| Agent.BuildMetadata | packages/web-integration/src/common/agent.ts:343-420 | the status is present exactly when there is a task; one detail and one raw task per task |
| Agent.MetadataThought | packages/web-integration/src/common/agent.ts:393-396 | the thought is the join of all truthy thoughts, or the last task's own thought when there are none |
| Agent.MetadataSections | packages/web-integration/src/common/agent.ts:361-382 | each of the planning, insight and action sections is present exactly when a task of that type exists; the action result is the last task's output |
| Agent.OfKindNonEmptyIff | packages/web-integration/src/common/agent.ts:361-382 | a type filter is non-empty exactly when a task of that type exists |
| Agent.MetadataMirrors | packages/web-integration/src/common/agent.ts:385-420 | for every task list, empty included, each detail carries its task's type, subtype, status and thought, and each raw task its type, subtype, status, thought, locate, timing, usage, cache and error |
| Agent.MetadataFromLast | packages/web-integration/src/common/agent.ts:393-399 | status, cache, usage and timing come from the last task; without tasks, or without timing, they are absent |
| Agent.BuildDetailedLocateParam | packages/web-integration/src/common/agent.ts:425-436 | an empty prompt throws; otherwise the option's prompt, when present, overrides, and deepThink is copied |
| Agent.Dispatch | packages/web-integration/src/common/agent.ts:895-914 | no type means action; an unknown type throws naming the supported ones |
| Agent.DispatchRoutes | packages/web-integration/src/common/agent.ts:895-914 | action, query, assert and tap go to their own methods |
| Agent.AssertVerdict | packages/web-integration/src/common/agent.ts:656-676 | throws exactly when the output is neither kept raw nor passing, with the given message or the default one and the reason |
| Agent.AssertIgnoresErrorState | packages/web-integration/src/common/agent.ts:656 | a passing assertion returns even when the executor is in error |
| Agent.ActionContext | packages/web-integration/src/common/agent.ts:554-559 | the digest is appended after a blank line only when both it and the context are non-empty |
| Agent.ChooseCall | packages/web-integration/src/common/agent.ts:564-566 | the goal-driven call exactly in the UI-TARS mode, otherwise the call with the context |
| Agent.ActionDumps | packages/web-integration/src/common/agent.ts:562-588 | aiAction records one execution dump, of the executor's tasks, exactly when the executor call returned |
| Agent.ActionStepMatchesOutcome | packages/web-integration/src/common/agent.ts:562-588 | aiAction's step ends successful exactly when aiAction returns; a failure after success re-marks it failed; no other step changes |
| Agent.StoredDump | packages/web-integration/src/common/agent.ts:273-290 | on Puppeteer pages each task loses its recorder; elsewhere the dump is stored unchanged |
| Agent.RunName | packages/web-integration/src/common/agent.ts:232-245 | the run is named by the group name, the default report name when absent, and "Test Run" when empty |
| Agent.PageAgent.constructor | packages/web-integration/src/common/agent.ts:186-246 | the engine exists exactly when opted in; it is capped at the configured steps and has a run started under the group name and description |
| Agent.PageAgent.SetAIActionContext | packages/web-integration/src/common/agent.ts:259-261 | sets the action context |
| Agent.PageAgent.AppendExecutionDump | packages/web-integration/src/common/agent.ts:273-290 | appends the stored form of the dump |
| Agent.PageAgent.AfterTaskRunning | packages/web-integration/src/common/agent.ts:330-423 | the dump is appended first, whatever happens next; the result is the metadata, or the latest error |
| Agent.PageAgent.AiAssert | packages/web-integration/src/common/agent.ts:647-677 | asks the executor with the URL prompt, records the dump with errors suppressed, and gives the verdict |
| Agent.PageAgent.AiAction | packages/web-integration/src/common/agent.ts:542-589 | records the action first; the context gains the digest of completed steps; the outcome is the executor's, the step is completed to match, and a dump is appended exactly when the executor returned, with the engine on or off |
| YamlTypes.TotalSteps | packages/web-integration/src/yaml/player.ts:63 | the flow's length, or 0 without a flow |
| YamlTypes.InitialStatuses | packages/web-integration/src/yaml/player.ts:59-64 | one status per task, in order, each init with its position |
| Player.Prompt | packages/web-integration/src/yaml/player.ts:138-142 | accepts exactly a non-empty string prompt, and throws "missing" or "must be a string" otherwise |
| Player.SleepMs | packages/web-integration/src/yaml/player.ts:213-224 | a sleep delay is always positive |
| Player.SleepMsAccepts | packages/web-integration/src/yaml/player.ts:213-224 | a positive number sleeps that long, true sleeps 1 ms, a string its parsed prefix when positive; false, zero, negatives, undefined, null and objects are rejected |
| Player.Classify | packages/web-integration/src/yaml/player.ts:132-263 | an item with none of the known keys throws "unknown flowItem"; every accepted item has one |
| Player.SleepString | packages/web-integration/src/yaml/player.ts:213-224 | a decimal string sleeps that many milliseconds when positive, and zero is rejected |
| Player.ActionComesFirst | packages/web-integration/src/yaml/player.ts:132-143 | a non-empty aiAction string wins over every other key |
| Player.SetResultSpec | packages/web-integration/src/yaml/player.ts:67-75 | a truthy name is the key; otherwise the counter's text is the key and the counter advances |
| Player.UnnamedResultsKept | packages/web-integration/src/yaml/player.ts:67-75 | two unnamed results get different keys and both are kept |
| Player.UnnamedKeysFromZero | packages/web-integration/src/yaml/player.ts:67-75 | the first unnamed results are stored under "0" and "1" |
| Player.PlayFromOutcome | packages/web-integration/src/yaml/player.ts:124-266 | a task that finishes ends on its last step; a failing task stops at the first failing item: every earlier item succeeded, in order, and the failing item ran on their results and threw that error |
| Player.RunStep | packages/web-integration/src/yaml/player.ts:299-320 | one loop pass keeps the task count and makes the task current |
| Player.RunStepTransition | packages/web-integration/src/yaml/player.ts:296-318 | the played task ends done when its play threw nothing and error otherwise, with a truthy thrown value stored; its play position is kept, no other task changes, the results are the play's, and the error flag rises exactly on a failure without continueOnError |
| Player.RunFrom | packages/web-integration/src/yaml/player.ts:299-320 | the run loop keeps the task count |
| Player.RunFromFrame | packages/web-integration/src/yaml/player.ts:299-320 | the loop changes only status, error and current step, and leaves earlier tasks untouched |
| Player.RunFromStops | packages/web-integration/src/yaml/player.ts:299-320 | a stop is at a task that failed without continueOnError, with every later task untouched; without a stop every task settled |
| Player.RunOutcome | packages/web-integration/src/yaml/player.ts:299-327 | the script errs only when some task failed without continueOnError, and later tasks stay init; if every task continues on error the script ends done |
| Player.Names | packages/web-integration/src/yaml/player.ts:330-338 | the free-function names, in order |
| Player.ScriptPlayer.constructor | packages/web-integration/src/yaml/player.ts:59-64 | task statuses initialised, status init, no results |
| Player.ScriptPlayer.SetResult | packages/web-integration/src/yaml/player.ts:67-75 | updates results and counter as the result rule says |
| Player.ScriptPlayer.SetPlayerStatus | packages/web-integration/src/yaml/player.ts:77-80 | sets the status and the setup error |
| Player.ScriptPlayer.SetTaskStatus | packages/web-integration/src/yaml/player.ts:96-107 | sets one task's status, and its error only when truthy |
| Player.ScriptPlayer.PlayTask | packages/web-integration/src/yaml/player.ts:124-266 | plays the flow as the specification of a task does and tracks the current step; a missing flow throws |
| Player.ScriptPlayer.RunTask | packages/web-integration/src/yaml/player.ts:300-318 | one pass of the run loop, as the loop's specification says |
| Player.ScriptPlayer.Run | packages/web-integration/src/yaml/player.ts:268-339 | a setup failure ends in error before any task; otherwise the loop's outcome, the final status, and every free function invoked in order |
| Env.AllConfigFromEnv | packages/shared/src/env.ts:51-104 | exactly the known keys; an unset or empty variable reads as undefined, any other as its string |
| Env.LookupConfig | packages/shared/src/env.ts:183-193 | MATCH_BY_POSITION throws; absent or null reads as undefined; a string is trimmed |
| Env.ConfigBoolean | packages/shared/src/env.ts:195-206 | throws as the lookup does; an unset flag is false |
| Env.ConfigBooleanRule | packages/shared/src/env.ts:195-206 | for every string setting, trimmed to t: true exactly when t is true or 1 in any ASCII case, or is none of false and 0 and not empty |
| Env.ParseFlagTrimmed | packages/shared/src/env.ts:199-205 | on a trimmed text the flag reading is the regular-expression rule |
| Env.EnabledModes | packages/shared/src/env.ts:145-158 | exactly the names of the enabled flags, each once, in the conflict message's order: doubao, qwen, ui-tars, gemini |
| Env.VlLocateModeConflictIff | packages/shared/src/env.ts:145-158 | the mode lookup throws exactly when more than one vision flag is on |
| Env.VlLocateMode | packages/shared/src/env.ts:138-181 | an error reading the first flag is thrown as it is |
| Env.VlLocateModePriority | packages/shared/src/env.ts:160-180 | each mode is chosen exactly when its flag is on and no stronger flag is; none when all are off |
| Env.UiTarsModelVersion | packages/shared/src/env.ts:123-136 | throws as the mode lookup does; outside UI-TARS mode it is false |
| Env.UiTarsModeFlag | packages/shared/src/env.ts:160-180 | UI-TARS mode is chosen only when its flag reads true |
| Env.TrueFlagIsString | packages/shared/src/env.ts:195-206 | a flag reads true only from a string setting |
| Env.UiTarsVersionMapping | packages/shared/src/env.ts:116-136 | in UI-TARS mode, 1 gives 1.0, DOUBAO and DOUBAO-1.5 give doubao-1.5-20B, anything else is the trimmed setting |
| Env.FirstObjectTyped | packages/shared/src/env.ts:230-236 | the first entry whose value is an object or null; None exactly when there is none |
| Env.ToConfig | packages/shared/src/env.ts:238-242 | the new config names exactly the given keys |
| Env.ToConfigLookup | packages/shared/src/env.ts:238-242 | each given key takes its value |
| Env.ExtendMerges | packages/shared/src/env.ts:238-240 | extend mode keeps old keys not named and sets all named keys |
| Env.ConfigStore.constructor | packages/shared/src/env.ts:106 | the global config starts unloaded |
| Env.ConfigStore.GetGlobalConfig | packages/shared/src/env.ts:108-113 | the environment is read on first access only, and cached |
| Env.ConfigStore.GetAIConfig | packages/shared/src/env.ts:183-193 | MATCH_BY_POSITION throws without loading; otherwise the lookup in the loaded config |
| Env.ConfigStore.OverrideAIConfig | packages/shared/src/env.ts:224-243 | an object-typed value throws naming the first such key and changes nothing; otherwise the merged or replaced config |
| Env.EmptyEnvValueReadsAbsent | packages/shared/src/env.ts:51-104 | a variable set to the empty string reads as unset and false |
| Env.PaddedUpperTrueIsTrue | packages/shared/src/env.ts:195-206 | an instance of the flag rule: " TRUE " is true |
| Env.OtherWordIsTrue | packages/shared/src/env.ts:195-206 | an instance of the flag rule: "yes" is true |
| Env.BlankIsFalse | packages/shared/src/env.ts:195-206 | an instance of the flag rule: a blank setting is false |
| Launcher.DefaultViewportScale | packages/web-integration/src/puppeteer/agent-launcher.ts:32 | the scale defaults to 2 on macOS and 1 elsewhere |
| Launcher.WindowArg | packages/web-integration/src/puppeteer/agent-launcher.ts:120-122 | the window argument is --start-maximized exactly when maximising |
| Launcher.LaunchArgs | packages/web-integration/src/puppeteer/agent-launcher.ts:113-123 | sandbox flags first except on Windows, where they are absent; user agent second to last; window argument last |
| Launcher.DefaultArgs | packages/web-integration/src/puppeteer/agent-launcher.ts:113-123 | an unmaximised default window is 1440 by 968 |
| Launcher.PrepareLaunch | packages/web-integration/src/puppeteer/agent-launcher.ts:56-142 | url is required; each viewport setting given must be a positive number, checked in order; maximise only when none is given and headed; headless is not headed |
| Launcher.NetworkIdleTimeout | packages/web-integration/src/puppeteer/agent-launcher.ts:216-219 | the target's timeout when it is a number, the default otherwise |
| Launcher.NavigationError | packages/web-integration/src/puppeteer/agent-launcher.ts:221-227 | no error exactly when the load succeeded and the idle wait was skipped or succeeded |
| Launcher.Navigate | packages/web-integration/src/puppeteer/agent-launcher.ts:221-241 | a failure is rethrown, wrapped, exactly when continueOnNetworkIdleError is false; otherwise a warning is given exactly when something failed |
| Launcher.NoWaitIgnoresIdle | packages/web-integration/src/puppeteer/agent-launcher.ts:223 | a non-positive timeout skips the idle wait |
| Launcher.ContinueUnlessFalse | packages/web-integration/src/puppeteer/agent-launcher.ts:229-240 | a failure that is not fatal only warns |
| Launcher.MergeOptions | packages/web-integration/src/puppeteer/agent-launcher.ts:263-265 | the preference wins, then the target; the switches default to false and are never nullish; the ad-blocker options have no default |
| Launcher.LaunchPreference | packages/web-integration/src/puppeteer/agent-launcher.ts:268-273 | the launch sees the caller's headed setting and the merged options |
| Launcher.ForceSameTab | packages/web-integration/src/puppeteer/agent-launcher.ts:281-284 | defaults to true when undefined; any written value, null included, is kept |
| Launcher.AgentOptionsFor | packages/web-integration/src/puppeteer/agent-launcher.ts:276-289 | the agent gets the caller's ids, the target's context, the same-tab default and the merged options |
| Launcher.LaunchAndAgentAgree | packages/web-integration/src/puppeteer/agent-launcher.ts:263-289 | the page launch and the agent see the same merged options |

## Left out

- Asynchrony and concurrency. Every call is modelled as sequential. The agent constructor's start of a run without awaiting it is modelled as completed, and so is the integrator's promise executor.
- Aliasing of returned objects. Runs and steps are values, so the engine returns snapshots. A caller holding a returned run does not see later changes.
- I/O:
  - writing results and reports (`flushResult`);
  - console warnings and debug logs;
  - the notification callback on task status changes;
  - the delay a sleep waits;
  - the agent's status tips.
- The executor, the insight engine, the cache and the AI call helpers. None of their code is part of this model. The executor is a task list with its error state and latest error task, and its calls are oracles. The cache's hit-and-miss protocol is out of scope; only the `cache` field passes through.
- `aiQuery`, `aiTap`, `aiHover`, `aiInput`, `aiKeyboardPress`, `aiScroll`, `aiWaitFor` and `evaluateJavaScript`. Their bodies are calls into the executor, so the player reaches them through the agent oracle.
- `aiCaptcha` and the captcha check. They are built on timers and races.
- Browser launch and plugins:
  - the stealth and ad-blocker plugin setup and the custom rule file;
  - loading cookies and the page navigation itself, of which only the outcome is modelled;
  - closing the browser and destroying the agent when resources are freed.
- The default network-idle timeout. It comes from a constants file that is not part of this model, so it is a parameter.
- The `assert` helper of the shared utilities is not part of this model. It is modelled as throwing an `Error` with the message.
- Numbers are integers. NaN, infinities and fractions are not modelled, and neither is `Number.parseInt` truncating a fractional viewport setting.
- JSON string escaping, Unicode and case folding beyond ASCII.
- Player.SleepMs: an object-valued `sleep` is always rejected. JavaScript would compare it via its primitive value (a one-element array `[5]` passes).
- Env.UiTarsModelVersion: the numeric branch that compares the setting with the number 1 is not modelled. The lookup it relies on yields only strings or throws, so that branch cannot be taken.
- Env.ConfigStore.OverrideAIConfig: keys are assumed distinct, as the entries of an object always are. The thrown error is an `Error` with the message, as the source throws.
- Engine.ContextEngine.CompleteStep: the returned step is a snapshot, not the live object.
- Agent.PageAgent.AiAction: the step id is always truthy, as a uuid is, so the context-engine branches test only whether the engine is enabled.
- Agent.RunName: an explicitly undefined `groupName` is read as omitted, so it gives the default name. The source's `Object.assign` copies the undefined value over the default, and the run is then named "Test Run".
- A script without a `tasks` list. The player is given the possibly empty list of tasks.
