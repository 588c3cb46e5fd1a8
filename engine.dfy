/** The context engine: one optional active run whose step list is capped at `maxSteps`
    (oldest evicted first), an append-only history of completed runs, and a numbered digest of
    the completed steps for prompt injection. */
module Engine {
  import opened Js
  import opened ContextTypes
  import Summarizer

  const NoActiveRunMessage: string := "No active test run. Call startTestRun first."

  // ---------------------------------------------------------------------------------------
  // Options

  /** `options.maxSteps || 10`: an omitted or zero bound gives the documented default. */
  function ResolveMaxSteps(m: Option<int>): (r: int)
    ensures r != 0
    ensures m.None? || m == Some(0) ==> r == DefaultMaxSteps
    ensures m.Some? && m.value != 0 ==> r == m.value
  {
    if m.Some? && m.value != 0 then m.value else DefaultMaxSteps
  }

  /** `options.useAiSummaries !== false`: only an explicit false turns summaries off. */
  function ResolveUseAiSummaries(u: Option<bool>): (r: bool)
    ensures !r <==> u == Some(false)
  {
    u != Some(false)
  }

  /** The number of steps a run can retain: a negative bound retains none, since every push
      is followed by a shift. */
  function Capacity(maxSteps: int): nat {
    if maxSteps < 0 then 0 else maxSteps
  }

  // ---------------------------------------------------------------------------------------
  // The step list

  /** `steps.push(x)` followed by `steps.shift()` when the length exceeds `maxSteps`. */
  function Push<T>(xs: seq<T>, x: T, maxSteps: int): seq<T> {
    var t := xs + [x];
    if |t| > maxSteps then t[1..] else t
  }

  /** The last `n` elements of `s` (all of them when there are fewer). */
  function LastN<T>(s: seq<T>, n: nat): (r: seq<T>)
    ensures |r| <= n && |r| <= |s|
  {
    if |s| <= n then s else s[|s| - n..]
  }

  /** Pushing onto the retained suffix gives the retained suffix of the longer sequence. */
  lemma PushKeepsLast<T>(a: seq<T>, x: T, maxSteps: int)
    ensures Push(LastN(a, Capacity(maxSteps)), x, maxSteps) == LastN(a + [x], Capacity(maxSteps))
  {
    var c := Capacity(maxSteps);
    var l := LastN(a, c);
    if |a| >= c && c > 0 {
      assert l + [x] == (a + [x])[|a| - c..];
      assert (l + [x])[1..] == (a + [x])[|a| + 1 - c..];
    }
  }

  /** The step list after pushing each of `adds` in turn onto an empty run. */
  function Replay<T>(adds: seq<T>, maxSteps: int): seq<T> {
    if |adds| == 0 then [] else Push(Replay(adds[..|adds| - 1], maxSteps), adds[|adds| - 1], maxSteps)
  }

  /** Whatever the sequence of additions, the run retains exactly the last `maxSteps` of
      them, in insertion order; in particular its length never exceeds the bound. */
  lemma {:induction false} ReplayIsLastN<T>(adds: seq<T>, maxSteps: int)
    ensures Replay(adds, maxSteps) == LastN(adds, Capacity(maxSteps))
    ensures |Replay(adds, maxSteps)| <= Capacity(maxSteps)
  {
    if |adds| > 0 {
      var init := adds[..|adds| - 1];
      ReplayIsLastN(init, maxSteps);
      PushKeepsLast(init, adds[|adds| - 1], maxSteps);
      assert init + [adds[|adds| - 1]] == adds;
    }
  }

  /** With a bound of 2, adding a, b and c retains exactly b and c. */
  lemma EvictionScenario()
    ensures Replay(["a", "b", "c"], 2) == ["b", "c"]
  {
    ReplayIsLastN(["a", "b", "c"], 2);
    assert ["a", "b", "c"][1..] == ["b", "c"];
  }

  function Ids(steps: seq<Step>): (r: seq<nat>)
    ensures |r| == |steps|
    ensures forall i :: 0 <= i < |steps| ==> r[i] == steps[i].id
  {
    seq(|steps|, i requires 0 <= i < |steps| => steps[i].id)
  }

  lemma IdsPush(steps: seq<Step>, s: Step, maxSteps: int)
    ensures Ids(Push(steps, s, maxSteps)) == Push(Ids(steps), s.id, maxSteps)
  {
    var t := steps + [s];
    assert Ids(t) == Ids(steps) + [s.id];
    if |t| > maxSteps {
      assert Ids(t[1..]) == Ids(t)[1..];
    }
  }

  /** The first position holding a step with this id (`steps.find`). */
  function FindStep(steps: seq<Step>, id: nat): (r: Option<nat>)
    ensures r.Some? ==> r.value < |steps| && steps[r.value].id == id
    ensures r.Some? ==> forall j :: 0 <= j < r.value ==> steps[j].id != id
    ensures r.None? <==> forall j :: 0 <= j < |steps| ==> steps[j].id != id
  {
    if |steps| == 0 then None
    else if steps[0].id == id then Some(0)
    else match FindStep(steps[1..], id)
      case None => None
      case Some(k) => Some(k + 1)
  }

  // ---------------------------------------------------------------------------------------
  // Steps and runs

  /** A step as addStep creates it: pending, with no error, result or summary. */
  function NewStep(id: nat, action: string, description: string, metadata: JsValue, now: int): Step {
    Step(id, action, description, Pending, None, Undefined, None, metadata, now)
  }

  /** A run as startTestRun creates it: no steps, pending, not completed. */
  function NewRun(id: nat, name: string, description: Option<string>, now: int): Run {
    Run(id, name, description, [], Pending, None, now, None)
  }

  /** A step after completeStep: the new result; the error only when the given one is a
      non-empty string; the action result only when it is defined; a fresh summary (computed
      from the updated step) only when AI summaries are on. */
  function CompleteOne(s: Step, result: StepStatus, error: Option<string>, actionResult: JsValue,
                       useAi: bool, ai: Summarizer.Oracle): (c: Step)
    ensures c.id == s.id && c.result == result
  {
    var s1 := s.(result := result,
                 error := if Present(error) then error else s.error,
                 actionResult := if actionResult.Undefined? then s.actionResult else actionResult);
    if useAi then s1.(summary := Some(Summarizer.GenerateStepSummary(s1, ai))) else s1
  }

  /** The active slot after completeStep: unchanged when there is no run or no step with the
      id, otherwise the first step with the id is replaced by its completed form. */
  function AfterComplete(run: Option<Run>, id: nat, result: StepStatus, error: Option<string>,
                         actionResult: JsValue, useAi: bool, ai: Summarizer.Oracle): (r: Option<Run>)
    ensures r.None? <==> run.None?
    ensures run.Some? && FindStep(run.value.steps, id).None? ==> r == run
    ensures r.Some? ==> |r.value.steps| == |run.value.steps| && r.value.id == run.value.id
  {
    match run
    case None => None
    case Some(r) =>
      match FindStep(r.steps, id)
      case None => run
      case Some(i) => Some(r.(steps := r.steps[i := CompleteOne(r.steps[i], result, error, actionResult, useAi, ai)]))
  }

  /** The aggregate result: failure iff some step failed; pending steps count as success. */
  function Aggregate(steps: seq<Step>): (r: StepStatus)
    ensures r != Pending
    ensures r == Failure <==> exists j :: 0 <= j < |steps| && steps[j].result == Failure
  {
    if |steps| == 0 then Success
    else if steps[0].result == Failure then Failure
    else
      var rest := Aggregate(steps[1..]);
      assert forall j :: 1 <= j < |steps| ==> steps[j] == steps[1..][j - 1];
      rest
  }

  /** A run as completeTestRun archives it: the aggregate result, the completion time and,
      when AI summaries are on, a summary computed after the result is set. */
  function Finalize(run: Run, now: int, useAi: bool, ai: Summarizer.Oracle): Run {
    var r1 := run.(result := Aggregate(run.steps), completedTimestamp := Some(now));
    if useAi then r1.(summary := Some(Summarizer.GenerateTestRunSummary(r1, ai))) else r1
  }

  /** The completed steps (success or failure), in list order. */
  function Completed(steps: seq<Step>): (r: seq<Step>)
    ensures |r| <= |steps|
    ensures forall x :: x in r <==> x in steps && x.result != Pending
  {
    if |steps| == 0 then []
    else
      var rest := Completed(steps[1..]);
      assert forall x :: x in steps <==> x == steps[0] || x in steps[1..];
      if steps[0].result != Pending then [steps[0]] + rest else rest
  }

  /** Filtering distributes over concatenation: the completed steps of `a + b` are those of
      `a` followed by those of `b`, so list order and multiplicity are kept. */
  lemma {:induction false} CompletedAppend(a: seq<Step>, b: seq<Step>)
    ensures Completed(a + b) == Completed(a) + Completed(b)
    decreases |a|
  {
    if |a| == 0 {
      assert a + b == b;
    } else {
      assert (a + b)[0] == a[0];
      assert (a + b)[1..] == a[1..] + b;
      CompletedAppend(a[1..], b);
    }
  }

  /** Adding a step adds it to the completed steps, at the end, exactly when it is not
      pending. */
  lemma CompletedSnoc(steps: seq<Step>, x: Step)
    ensures Completed(steps + [x]) == Completed(steps) + (if x.result != Pending then [x] else [])
  {
    CompletedAppend(steps, [x]);
    assert [x][1..] == [];
  }

  /** Step ids strictly increase along the list. */
  predicate IncreasingIds(steps: seq<Step>) {
    forall i, j :: 0 <= i < j < |steps| ==> steps[i].id < steps[j].id
  }

  /** When step ids increase along the list, they increase along the completed steps too: the
      completed steps come in list order, each once. */
  lemma {:induction false} CompletedKeepsOrder(steps: seq<Step>)
    requires IncreasingIds(steps)
    ensures IncreasingIds(Completed(steps))
    decreases |steps|
  {
    if |steps| > 0 {
      var rest := steps[1..];
      assert IncreasingIds(rest) by {
        forall i, j | 0 <= i < j < |rest| ensures rest[i].id < rest[j].id {
          assert rest[i] == steps[i + 1] && rest[j] == steps[j + 1];
        }
      }
      CompletedKeepsOrder(rest);
      var cr := Completed(rest);
      if steps[0].result != Pending {
        forall x | x in cr ensures steps[0].id < x.id {
          var j :| 0 <= j < |rest| && rest[j] == x;
          assert steps[j + 1] == x;
        }
        FrontIncreasing(steps[0], cr);
      }
    }
  }

  /** Prepending a step with a smaller id than all others keeps the ids increasing. */
  lemma FrontIncreasing(s: Step, cr: seq<Step>)
    requires IncreasingIds(cr)
    requires forall x :: x in cr ==> s.id < x.id
    ensures IncreasingIds([s] + cr)
  {
    var cs := [s] + cr;
    forall i, j | 0 <= i < j < |cs| ensures cs[i].id < cs[j].id {
      assert cs[j] == cr[j - 1];
      if i == 0 {
        assert cr[j - 1] in cr;
      } else {
        assert cs[i] == cr[i - 1];
      }
    }
  }

  /** A suffix of a strictly increasing sequence is strictly increasing. */
  lemma SuffixIncreasing(xs: seq<nat>, c: nat)
    requires forall j, k :: 0 <= j < k < |xs| ==> xs[j] < xs[k]
    ensures var l := LastN(xs, c);
      forall j, k :: 0 <= j < k < |l| ==> l[j] < l[k]
  {
    var l := LastN(xs, c);
    if |xs| > c {
      forall j, k | 0 <= j < k < |l| ensures l[j] < l[k] {
        assert l[j] == xs[|xs| - c + j] && l[k] == xs[|xs| - c + k];
      }
    }
  }

  /** Steps whose ids are the last additions of an increasing id sequence have completed steps
      with increasing ids. */
  lemma RetainedInOrder(steps: seq<Step>, added: seq<nat>, c: nat)
    requires forall j, k :: 0 <= j < k < |added| ==> added[j] < added[k]
    requires Ids(steps) == LastN(added, c)
    ensures IncreasingIds(Completed(steps))
  {
    var ids := Ids(steps);
    SuffixIncreasing(added, c);
    forall i, j | 0 <= i < j < |steps| ensures steps[i].id < steps[j].id {
      assert ids[i] == steps[i].id && ids[j] == steps[j].id;
    }
    CompletedKeepsOrder(steps);
  }

  /** A digest line: the step's summary, or `action: description (result)` without one. */
  function DigestLine(n: nat, s: Step): string {
    NatToString(n) + ". " +
    (if Present(s.summary) then s.summary.value
     else s.action + ": " + s.description + " (" + StatusName(s.result) + ")")
  }

  /** The numbered lines, 1 first, one per completed step in order. */
  function DigestLines(cs: seq<Step>): (r: seq<string>)
    ensures |r| == |cs|
    ensures forall i :: 0 <= i < |cs| ==> r[i] == DigestLine(i + 1, cs[i])
  {
    seq(|cs|, i requires 0 <= i < |cs| => DigestLine(i + 1, cs[i]))
  }

  const DigestHeader: string :=
    "\n### Previous Actions Summary\nThe following actions have already been performed:\n\n"

  /** getActionSummaries' text: empty without completed steps, otherwise the header and one
      numbered line per completed step. */
  function Digest(cs: seq<Step>): (r: string)
    ensures r == "" <==> |cs| == 0
    ensures |cs| > 0 ==> |DigestHeader| <= |r| && r[..|DigestHeader|] == DigestHeader
  {
    if |cs| == 0 then "" else DigestHeader + Join(DigestLines(cs), "\n") + "\n"
  }

  /** The digest is empty exactly when no step is completed. */
  lemma DigestEmptyIff(steps: seq<Step>)
    ensures Digest(Completed(steps)) == "" <==> forall j :: 0 <= j < |steps| ==> steps[j].result == Pending
  {
    var cs := Completed(steps);
    if |cs| > 0 {
      assert cs[0] in cs;
      var j :| 0 <= j < |steps| && steps[j] == cs[0];
      assert steps[j].result != Pending;
      assert |DigestHeader| > 0;
    } else {
      forall j | 0 <= j < |steps| ensures steps[j].result == Pending {
        assert steps[j] in steps;
        assert steps[j] !in cs;
      }
    }
  }

  /** Completing a step the same way twice is the same as completing it once. */
  lemma CompleteOneIdempotent(s: Step, result: StepStatus, error: Option<string>, actionResult: JsValue,
                              useAi: bool, ai: Summarizer.Oracle)
    ensures CompleteOne(CompleteOne(s, result, error, actionResult, useAi, ai), result, error, actionResult, useAi, ai)
         == CompleteOne(s, result, error, actionResult, useAi, ai)
  {
    var once := CompleteOne(s, result, error, actionResult, useAi, ai);
    var twice := CompleteOne(once, result, error, actionResult, useAi, ai);
    var s1 := s.(result := result,
                 error := if Present(error) then error else s.error,
                 actionResult := if actionResult.Undefined? then s.actionResult else actionResult);
    assert once == if useAi then s1.(summary := Some(Summarizer.GenerateStepSummary(s1, ai))) else s1;
    var o1 := once.(result := result,
                    error := if Present(error) then error else once.error,
                    actionResult := if actionResult.Undefined? then once.actionResult else actionResult);
    assert o1 == once;
    if useAi {
      Summarizer.SummaryIgnoresSummary(s1, once.summary, ai);
      assert once == s1.(summary := once.summary);
    }
  }

  /** With AI summaries on, a completed step always carries a non-empty summary, so its
      digest line shows the summary rather than the `action: description (result)` text. */
  lemma CompletedStepHasSummary(s: Step, result: StepStatus, error: Option<string>, actionResult: JsValue,
                                ai: Summarizer.Oracle)
    ensures Present(CompleteOne(s, result, error, actionResult, true, ai).summary)
  {
  }

  /** The field rules of completeStep: the result is always set; the error is overwritten only
      by a non-empty one, the action result only by a defined one, and the summary only when AI
      summaries are on, in which case it summarises the completed step itself; id, action,
      description, metadata and timestamp stay. */
  lemma CompleteOneFields(s: Step, result: StepStatus, error: Option<string>, actionResult: JsValue,
                          useAi: bool, ai: Summarizer.Oracle)
    ensures var c := CompleteOne(s, result, error, actionResult, useAi, ai);
      c.id == s.id && c.action == s.action && c.description == s.description &&
      c.metadata == s.metadata && c.timestamp == s.timestamp &&
      c.result == result &&
      (Present(error) ==> c.error == error) && (!Present(error) ==> c.error == s.error) &&
      (!actionResult.Undefined? ==> c.actionResult == actionResult) &&
      (actionResult.Undefined? ==> c.actionResult == s.actionResult) &&
      (useAi ==> c.summary == Some(Summarizer.GenerateStepSummary(c, ai))) &&
      (!useAi ==> c.summary == s.summary)
  {
    var c := CompleteOne(s, result, error, actionResult, useAi, ai);
    if useAi {
      var s1 := s.(result := result,
                   error := if Present(error) then error else s.error,
                   actionResult := if actionResult.Undefined? then s.actionResult else actionResult);
      Summarizer.SummaryIgnoresSummary(s1, c.summary, ai);
      assert c == s1.(summary := c.summary);
    }
  }

  /** Completing a step changes no other step, keeps every id, and gives the step the new
      result. */
  lemma AfterCompleteFrame(run: Run, id: nat, result: StepStatus, error: Option<string>,
                           actionResult: JsValue, useAi: bool, ai: Summarizer.Oracle)
    requires FindStep(run.steps, id).Some?
    ensures var r := AfterComplete(Some(run), id, result, error, actionResult, useAi, ai);
      var i := FindStep(run.steps, id).value;
      r.Some? && |r.value.steps| == |run.steps| &&
      Ids(r.value.steps) == Ids(run.steps) &&
      r.value.steps[i].result == result &&
      (forall j :: 0 <= j < |run.steps| && j != i ==> r.value.steps[j] == run.steps[j]) &&
      FindStep(r.value.steps, id) == Some(i)
  {
    var i := FindStep(run.steps, id).value;
    var steps' := run.steps[i := CompleteOne(run.steps[i], result, error, actionResult, useAi, ai)];
    assert Ids(steps') == Ids(run.steps);
  }

  /** A step just pushed with an id no retained step has is found at the end of the list,
      provided the bound retains at least one step. */
  lemma FindPushed(steps: seq<Step>, s: Step, maxSteps: int)
    requires Capacity(maxSteps) > 0 && |steps| <= Capacity(maxSteps)
    requires forall j :: 0 <= j < |steps| ==> steps[j].id != s.id
    ensures var p := Push(steps, s, maxSteps);
      |p| > 0 && FindStep(p, s.id) == Some(|p| - 1)
  {
    var p := Push(steps, s, maxSteps);
    assert p[|p| - 1] == s;
    forall j | 0 <= j < |p| - 1 ensures p[j].id != s.id {
      if |steps + [s]| > maxSteps {
        assert p[j] == steps[j + 1];
      } else {
        assert p[j] == steps[j];
      }
    }
  }

  /** An archived run has a final result that is failure iff one of its steps failed, and a
      completion time. */
  lemma FinalizeResult(run: Run, now: int, useAi: bool, ai: Summarizer.Oracle)
    ensures Finalize(run, now, useAi, ai).result != Pending
    ensures Finalize(run, now, useAi, ai).result == Failure <==>
            exists j :: 0 <= j < |run.steps| && run.steps[j].result == Failure
    ensures Finalize(run, now, useAi, ai).completedTimestamp == Some(now)
    ensures Finalize(run, now, useAi, ai).steps == run.steps
  {
  }

  /** A run with a successful and a failed step completes as failure. */
  lemma FailureScenario(a: Step, b: Step, run: Run, now: int)
    requires a.result == Success && b.result == Failure && run.steps == [a, b]
    ensures Finalize(run, now, false, x => None).result == Failure
  {
    assert run.steps[1].result == Failure;
  }

  // ---------------------------------------------------------------------------------------
  // The engine

  class ContextEngine {
    const maxSteps: int
    const useAiSummaries: bool
    /** The active run (`currentTestRun`); None is null. */
    var current: Option<Run>
    /** Completed runs, oldest first. */
    var history: seq<Run>
    /** Where uuid generation is modelled: every drawn id is this counter's value. */
    var nextId: nat
    /** The ids of all steps added to the active run, oldest first. */
    ghost var added: seq<nat>

    ghost predicate Valid()
      reads this
    {
      maxSteps != 0 &&
      (forall k :: 0 <= k < |added| ==> added[k] < nextId) &&
      (forall j, k :: 0 <= j < k < |added| ==> added[j] < added[k]) &&
      (current.Some? ==> Ids(current.value.steps) == LastN(added, Capacity(maxSteps)))
    }

    /** The steps of the active run (none without one). */
    function Steps(): seq<Step>
      reads this
    {
      if current.Some? then current.value.steps else []
    }

    /** The result of the retained step with this id, if there is one. */
    function StepResult(id: nat): Option<StepStatus>
      reads this
    {
      match FindStep(Steps(), id)
      case None => None
      case Some(i) => Some(Steps()[i].result)
    }

    lemma RetainedIdsFresh()
      requires Valid()
      ensures forall j :: 0 <= j < |Steps()| ==> Steps()[j].id < nextId
      ensures |Steps()| <= Capacity(maxSteps)
    {
      if current.Some? {
        var ids := Ids(current.value.steps);
        forall j | 0 <= j < |Steps()| ensures Steps()[j].id < nextId {
          assert ids[j] == Steps()[j].id;
          assert ids[j] in added;
        }
      }
    }

    constructor (options: EngineOptions)
      ensures maxSteps == ResolveMaxSteps(options.maxSteps)
      ensures useAiSummaries == ResolveUseAiSummaries(options.useAiSummaries)
      ensures current.None? && history == []
      ensures Valid()
    {
      maxSteps := ResolveMaxSteps(options.maxSteps);
      useAiSummaries := ResolveUseAiSummaries(options.useAiSummaries);
      current := None;
      history := [];
      nextId := 0;
      added := [];
    }

    /** completeTestRun */
    method CompleteTestRun(now: int, ai: Summarizer.Oracle) returns (r: Option<Run>)
      requires Valid()
      modifies this
      ensures Valid()
      ensures old(current).None? ==> r.None? && current.None? && history == old(history)
      ensures old(current).Some? ==>
                r == Some(Finalize(old(current).value, now, useAiSummaries, ai)) &&
                current.None? && history == old(history) + [r.value]
      ensures nextId == old(nextId)
    {
      if current.None? {
        return None;
      }
      var finished := Finalize(current.value, now, useAiSummaries, ai);
      history := history + [finished];
      current := None;
      added := [];
      r := Some(finished);
    }

    /** startTestRun: an active run is completed and archived first. */
    method StartTestRun(name: string, description: Option<string>, now: int, ai: Summarizer.Oracle)
      returns (run: Run)
      requires Valid()
      modifies this
      ensures Valid()
      ensures old(current).Some? ==> history == old(history) + [Finalize(old(current).value, now, useAiSummaries, ai)]
      ensures old(current).None? ==> history == old(history)
      ensures run == NewRun(old(nextId), name, description, now)
      ensures current == Some(run)
      ensures nextId == old(nextId) + 1
    {
      if current.Some? {
        var _ := CompleteTestRun(now, ai);
      }
      run := NewRun(nextId, name, description, now);
      nextId := nextId + 1;
      current := Some(run);
      added := [];
    }

    /** addStep: throws without an active run; otherwise pushes a pending step and evicts the
        oldest one when the bound is exceeded. */
    method AddStep(action: string, description: string, metadata: JsValue, now: int)
      returns (r: Result<Step, Thrown>)
      requires Valid()
      modifies this
      ensures Valid()
      ensures old(current).None? ==>
                r == Err(NewError(NoActiveRunMessage)) && current == old(current) && nextId == old(nextId)
      ensures old(current).Some? ==>
                r == Ok(NewStep(old(nextId), action, description, metadata, now)) &&
                current == Some(old(current).value.(steps := Push(old(current).value.steps, r.value, maxSteps))) &&
                nextId == old(nextId) + 1 && added == old(added) + [old(nextId)]
      ensures history == old(history)
    {
      if current.None? {
        return Err(NewError(NoActiveRunMessage));
      }
      var step := NewStep(nextId, action, description, metadata, now);
      var run := current.value;
      IdsPush(run.steps, step, maxSteps);
      PushKeepsLast(added, step.id, maxSteps);
      current := Some(run.(steps := Push(run.steps, step, maxSteps)));
      added := added + [nextId];
      nextId := nextId + 1;
      r := Ok(step);
    }

    /** completeStep: None and no change without an active run or for an id that is not
        retained; otherwise the first step with the id is completed and returned. */
    method CompleteStep(id: nat, result: StepStatus, error: Option<string>, actionResult: JsValue,
                        ai: Summarizer.Oracle)
      returns (r: Option<Step>)
      requires Valid()
      modifies this
      ensures Valid()
      ensures current == AfterComplete(old(current), id, result, error, actionResult, useAiSummaries, ai)
      ensures r.None? <==> old(StepResult(id)).None?
      ensures r.None? ==> current == old(current)
      ensures r.Some? ==> r.value.id == id && r.value.result == result && StepResult(id) == Some(result)
      ensures r.Some? ==>
                var i := FindStep(old(Steps()), id).value;
                r.value == CompleteOne(old(Steps())[i], result, error, actionResult, useAiSummaries, ai) &&
                r.value == Steps()[i]
      ensures history == old(history) && nextId == old(nextId) && added == old(added)
    {
      if current.None? {
        return None;
      }
      var run := current.value;
      var found := FindStep(run.steps, id);
      if found.None? {
        return None;
      }
      var i := found.value;
      AfterCompleteFrame(run, id, result, error, actionResult, useAiSummaries, ai);
      var step := CompleteOne(run.steps[i], result, error, actionResult, useAiSummaries, ai);
      current := Some(run.(steps := run.steps[i := step]));
      r := Some(step);
    }

    /** getCompletedSteps */
    function CompletedSteps(): (r: seq<Step>)
      reads this
      ensures forall x :: x in r <==> x in Steps() && x.result != Pending
      ensures |Steps()| > 0 ==>
                var n := |Steps()| - 1;
                r == Completed(Steps()[..n]) + (if Steps()[n].result != Pending then [Steps()[n]] else [])
    {
      if |Steps()| > 0 then
        var n := |Steps()| - 1;
        CompletedSnoc(Steps()[..n], Steps()[n]);
        assert Steps()[..n] + [Steps()[n]] == Steps();
        Completed(Steps())
      else Completed(Steps())
    }

    /** The completed steps come in insertion order, each once: their ids increase. */
    lemma CompletedStepsInOrder()
      requires Valid()
      ensures IncreasingIds(CompletedSteps())
    {
      if current.Some? {
        RetainedInOrder(current.value.steps, added, Capacity(maxSteps));
      }
    }

    /** getActionSummaries */
    function ActionSummaries(): (r: string)
      reads this
      ensures r == "" <==> |CompletedSteps()| == 0
      ensures |CompletedSteps()| > 0 ==> |DigestHeader| <= |r| && r[..|DigestHeader|] == DigestHeader
    {
      Digest(CompletedSteps())
    }

    /** getCurrentTestRun */
    method GetCurrentTestRun() returns (r: Option<Run>)
      ensures r == current
    {
      r := current;
    }

    /** getTestRunHistory: a copy, so later changes to the engine do not reach it. */
    method GetTestRunHistory() returns (h: seq<Run>)
      ensures h == history
    {
      h := history;
    }

    /** clear */
    method Clear()
      requires Valid()
      modifies this
      ensures Valid()
      ensures current.None? && history == []
      ensures nextId == old(nextId)
    {
      current := None;
      history := [];
      added := [];
    }

    /** The digest is empty exactly when the active run has no completed step. */
    lemma ActionSummariesEmptyIff()
      ensures ActionSummaries() == "" <==> forall j :: 0 <= j < |Steps()| ==> Steps()[j].result == Pending
    {
      DigestEmptyIff(Steps());
    }
  }
}
