/**
 * Running the tool calls of one reply in parallel (agent/src/agent/core/tool_runtime.py). Every call has a
 * coroutine of its own that runs alone between two awaits: such a stretch is one step, and steps interleave in
 * any order.
 */
module ToolRuntime {
  import opened Text

  const MAX_CONCURRENCY: nat := 4

  const WRITE_TOOLS: seq<string> := ["write", "edit", "apply_patch", "trash", "purge"]

  datatype ToolCall = ToolCall(callId: string, toolName: string, arguments: string)

  datatype ToolResult = ToolResult(callId: string, toolName: string, success: bool, result: string, errorCode: string)

  /** How the tool itself ends: it answers or raises. */
  datatype Outcome = Answered(success: bool, result: string, errorCode: string) | Raised(message: string)

  datatype Task = Starting | HoldsWrite | Running | Done(result: ToolResult, ran: bool)

  datatype State = State(
    calls: seq<ToolCall>,
    tasks: seq<Task>,
    globalFree: nat,
    writeFree: nat,
    interrupted: bool,
    results: seq<ToolResult>)

  /**
   * The steps. Cancel is a cancellation that reaches a call's coroutine, from the watcher of the interrupt or from
   * outside, when the batch itself is cancelled while it awaits that call; CollectCancelled is one that reaches the
   * batch just after the call it awaits has ended. Either way the batch swallows it and goes on.
   */
  datatype Action =
    | TakeWrite(i: nat)
    | TakeGlobal(i: nat)
    | Finish(i: nat, outcome: Outcome)
    | Interrupt
    | Cancel(i: nat)
    | Collect
    | CollectCancelled

  predicate IsWrite(call: ToolCall) { OneOf(call.toolName, WRITE_TOOLS) }

  function Interrupted(call: ToolCall): ToolResult {
    ToolResult(call.callId, call.toolName, false, "工具执行已被中断", "CANCELLED")
  }

  function ResultOf(call: ToolCall, outcome: Outcome): ToolResult {
    match outcome
    case Answered(success, result, errorCode) => ToolResult(call.callId, call.toolName, success, result, errorCode)
    case Raised(message) => ToolResult(call.callId, call.toolName, false, "工具执行失败: " + message, "TOOL_ERROR")
  }

  function Initial(calls: seq<ToolCall>): State {
    State(calls, seq(|calls|, i => Starting), MAX_CONCURRENCY, 1, false, [])
  }

  predicate Enabled(s: State, a: Action)
    requires |s.tasks| == |s.calls|
  {
    match a
    case TakeWrite(i) => i < |s.calls| && s.tasks[i].Starting? && IsWrite(s.calls[i]) && s.writeFree > 0
    case TakeGlobal(i) =>
      i < |s.calls| && s.globalFree > 0 && (s.tasks[i].HoldsWrite? || (s.tasks[i].Starting? && !IsWrite(s.calls[i])))
    case Finish(i, _) => i < |s.calls| && s.tasks[i].Running?
    case Interrupt => !s.interrupted
    case Cancel(i) => i < |s.calls| && !s.tasks[i].Done?
    case Collect => |s.results| < |s.calls| && s.tasks[|s.results|].Done?
    case CollectCancelled => |s.results| < |s.calls| && s.tasks[|s.results|].Done?
  }

  /** A coroutine ends and gives back every permit it holds. */
  function End(s: State, i: nat, result: ToolResult, ran: bool): State
    requires |s.tasks| == |s.calls| && i < |s.calls|
  {
    s.(tasks := s.tasks[i := Done(result, ran)],
       globalFree := if s.tasks[i].Running? then s.globalFree + 1 else s.globalFree,
       writeFree := if HoldsWritePermit(s.calls[i], s.tasks[i]) then s.writeFree + 1 else s.writeFree)
  }

  predicate HoldsWritePermit(call: ToolCall, task: Task) {
    task.HoldsWrite? || (task.Running? && IsWrite(call))
  }

  function Step(s: State, a: Action): State
    requires |s.tasks| == |s.calls|
  {
    if !Enabled(s, a) then s
    else match a
      case TakeWrite(i) => s.(tasks := s.tasks[i := HoldsWrite], writeFree := s.writeFree - 1)
      case TakeGlobal(i) =>
        if s.interrupted then End(s, i, Interrupted(s.calls[i]), false)
        else s.(tasks := s.tasks[i := Running], globalFree := s.globalFree - 1)
      case Finish(i, outcome) => End(s, i, ResultOf(s.calls[i], outcome), true)
      case Interrupt => s.(interrupted := true)
      case Cancel(i) => End(s, i, Interrupted(s.calls[i]), false)
      case Collect => s.(results := s.results + [s.tasks[|s.results|].result])
      case CollectCancelled => s.(results := s.results + [Interrupted(s.calls[|s.results|])])
  }

  // ---- what every schedule keeps ----

  ghost function RunningTasks(tasks: seq<Task>): set<nat> {
    set i: nat | i < |tasks| && tasks[i].Running?
  }

  ghost function Writers(calls: seq<ToolCall>, tasks: seq<Task>): set<nat>
    requires |tasks| == |calls|
  {
    set i: nat | i < |calls| && HoldsWritePermit(calls[i], tasks[i])
  }

  /** Only a write tool holds the write permit early, and a finished task answers its own call. */
  predicate Answers(call: ToolCall, task: Task) {
    && (task.HoldsWrite? ==> IsWrite(call))
    && (task.Done? ==>
          && task.result.callId == call.callId && task.result.toolName == call.toolName
          && (!task.ran ==> task.result == Interrupted(call)))
  }

  /** The batch took over the result of a finished task, or was cancelled just then. */
  predicate Collected(call: ToolCall, task: Task, result: ToolResult) {
    task.Done? && (result == task.result || result == Interrupted(call))
  }

  ghost predicate Inv(s: State) {
    && |s.tasks| == |s.calls| && |s.results| <= |s.calls|
    && s.globalFree + |RunningTasks(s.tasks)| == MAX_CONCURRENCY
    && s.writeFree + |Writers(s.calls, s.tasks)| == 1
    && (forall i :: 0 <= i < |s.calls| ==> Answers(s.calls[i], s.tasks[i]))
    && (forall i :: 0 <= i < |s.results| ==> Collected(s.calls[i], s.tasks[i], s.results[i]))
  }

  lemma InvInitial(calls: seq<ToolCall>)
    ensures Inv(Initial(calls))
  {
    assert RunningTasks(Initial(calls).tasks) == {} && Writers(calls, Initial(calls).tasks) == {};
  }

  function One(b: bool): nat { if b then 1 else 0 }

  lemma RunningUpdate(tasks: seq<Task>, i: nat, t: Task)
    requires i < |tasks|
    ensures |RunningTasks(tasks[i := t])| == |RunningTasks(tasks)| - One(tasks[i].Running?) + One(t.Running?)
  {
    var R := RunningTasks(tasks);
    assert RunningTasks(tasks[i := t]) == if t.Running? then R + {i} else R - {i};
  }

  lemma WritersUpdate(calls: seq<ToolCall>, tasks: seq<Task>, i: nat, t: Task)
    requires |tasks| == |calls| && i < |tasks|
    ensures |Writers(calls, tasks[i := t])| ==
            |Writers(calls, tasks)| - One(HoldsWritePermit(calls[i], tasks[i])) + One(HoldsWritePermit(calls[i], t))
  {
    hide HoldsWritePermit;
    var W := Writers(calls, tasks);
    assert Writers(calls, tasks[i := t]) == if HoldsWritePermit(calls[i], t) then W + {i} else W - {i};
  }

  lemma PermitsStep(s: State, a: Action)
    requires Inv(s)
    ensures var s' := Step(s, a);
            s'.globalFree + |RunningTasks(s'.tasks)| == MAX_CONCURRENCY &&
              s'.writeFree + |Writers(s'.calls, s'.tasks)| == 1
  {
    if Enabled(s, a) && (a.TakeWrite? || a.TakeGlobal? || a.Finish? || a.Cancel?) {
      RunningUpdate(s.tasks, a.i, Step(s, a).tasks[a.i]);
      WritersUpdate(s.calls, s.tasks, a.i, Step(s, a).tasks[a.i]);
      hide Answers, IsWrite, RunningTasks, Writers;
      assert Step(s, a).tasks == s.tasks[a.i := Step(s, a).tasks[a.i]];
    }
  }

  lemma TaskStep(s: State, a: Action, i: nat)
    requires |s.tasks| == |s.calls| && i < |s.calls| && Answers(s.calls[i], s.tasks[i])
    ensures Answers(s.calls[i], Step(s, a).tasks[i])
    ensures s.tasks[i].Done? ==> Step(s, a).tasks[i] == s.tasks[i]
  {
  }

  lemma InvStep(s: State, a: Action)
    requires Inv(s)
    ensures Inv(Step(s, a))
  {
    PermitsStep(s, a);
    forall i | 0 <= i < |s.calls|
      ensures Answers(s.calls[i], Step(s, a).tasks[i])
      ensures s.tasks[i].Done? ==> Step(s, a).tasks[i] == s.tasks[i]
    {
      TaskStep(s, a, i);
    }
    hide RunningTasks, Writers, Answers, Interrupted;
  }

  function Run(calls: seq<ToolCall>, actions: seq<Action>): (s: State)
    ensures |s.tasks| == |calls| && s.calls == calls
  {
    if actions == [] then Initial(calls) else Step(Run(calls, actions[..|actions| - 1]), actions[|actions| - 1])
  }

  /** Under every schedule, with an interrupt and with cancellations from outside at any point. */
  lemma {:induction false} InvAlways(calls: seq<ToolCall>, actions: seq<Action>)
    ensures Inv(Run(calls, actions))
    decreases |actions|
  {
    hide Inv, Step;
    if actions == [] {
      InvInitial(calls);
    } else {
      InvAlways(calls, actions[..|actions| - 1]);
      InvStep(Run(calls, actions[..|actions| - 1]), actions[|actions| - 1]);
    }
  }

  /** At no time do more than four tools run, or two write tools. */
  lemma ConcurrencyLimits(calls: seq<ToolCall>, actions: seq<Action>)
    ensures var s := Run(calls, actions);
            && |RunningTasks(s.tasks)| <= MAX_CONCURRENCY
            && forall i: nat, j: nat :: (i in RunningTasks(s.tasks) && j in RunningTasks(s.tasks) &&
                                         IsWrite(calls[i]) && IsWrite(calls[j])) ==> i == j
  {
    InvAlways(calls, actions);
    var s := Run(calls, actions);
    forall i: nat, j: nat | i in RunningTasks(s.tasks) && j in RunningTasks(s.tasks) &&
                            IsWrite(calls[i]) && IsWrite(calls[j])
      ensures i == j
    {
      assert {i, j} <= Writers(s.calls, s.tasks);
      AtMostOne(Writers(s.calls, s.tasks), i, j);
    }
  }

  lemma AtMostOne(members: set<nat>, i: nat, j: nat)
    requires |members| <= 1 && i in members && j in members
    ensures i == j
  {
    assert |members - {i}| == 0;
    assert i != j ==> j in members - {i};
  }

  // ---- every schedule ends ----

  function Rank(t: Task): nat {
    match t
    case Starting => 3
    case HoldsWrite => 2
    case Running => 1
    case Done(_, _) => 0
  }

  function TotalRank(tasks: seq<Task>): nat {
    if tasks == [] then 0 else Rank(tasks[0]) + TotalRank(tasks[1..])
  }

  lemma {:induction false} TotalRankUpdate(tasks: seq<Task>, i: nat, t: Task)
    requires i < |tasks|
    ensures TotalRank(tasks[i := t]) == TotalRank(tasks) - Rank(tasks[i]) + Rank(t)
  {
    if i == 0 {
      assert tasks[i := t][1..] == tasks[1..];
    } else {
      TotalRankUpdate(tasks[1..], i - 1, t);
      assert tasks[i := t][1..] == tasks[1..][i - 1 := t];
    }
  }

  /** The steps that can still be taken. */
  function Measure(s: State): nat
    requires |s.results| <= |s.calls|
  {
    TotalRank(s.tasks) + (|s.calls| - |s.results|) + if s.interrupted then 0 else 1
  }

  lemma StepDecreases(s: State, a: Action)
    requires Inv(s) && Enabled(s, a)
    ensures |Step(s, a).results| <= |Step(s, a).calls| && Measure(Step(s, a)) < Measure(s)
  {
    if a.TakeWrite? || a.TakeGlobal? || a.Finish? || a.Cancel? {
      TotalRankUpdate(s.tasks, a.i, Step(s, a).tasks[a.i]);
    }
  }

  /** While results are missing, some task or the collecting loop can move: there is no deadlock. */
  lemma SomeoneCanMove(s: State) returns (a: Action)
    requires Inv(s) && |s.results| < |s.calls|
    ensures Enabled(s, a) && !a.Interrupt? && !a.Cancel? && !a.CollectCancelled?
  {
    hide Answers, OneOf;
    if s.tasks[|s.results|].Done? {
      return Collect;
    }
    hide IsWrite;
    if i: nat :| i in RunningTasks(s.tasks) {
      return Finish(i, Raised(""));
    }
    assert RunningTasks(s.tasks) == {};
    if i: nat :| i in Writers(s.calls, s.tasks) {
      assert i !in RunningTasks(s.tasks);
      return TakeGlobal(i);
    }
    assert Writers(s.calls, s.tasks) == {};
    assert |s.results| !in RunningTasks(s.tasks) && |s.results| !in Writers(s.calls, s.tasks);
    a := if IsWrite(s.calls[|s.results|]) then TakeWrite(|s.results|) else TakeGlobal(|s.results|);
  }

  predicate AllEnabled(calls: seq<ToolCall>, actions: seq<Action>) {
    actions == [] ||
    (AllEnabled(calls, actions[..|actions| - 1]) &&
      Enabled(Run(calls, actions[..|actions| - 1]), actions[|actions| - 1]))
  }

  lemma {:induction false} InitialRank(n: nat)
    ensures TotalRank(seq(n, i => Starting)) == 3 * n
  {
    if n == 0 {
    } else {
      InitialRank(n - 1);
      assert seq(n, i => Starting)[1..] == seq(n - 1, i => Starting);
    }
  }

  /** No schedule has more than 4 n + 1 steps. */
  lemma {:induction false} SchedulesAreShort(calls: seq<ToolCall>, actions: seq<Action>)
    requires AllEnabled(calls, actions)
    ensures Inv(Run(calls, actions)) && Measure(Run(calls, actions)) + |actions| <= 4 * |calls| + 1
    decreases |actions|
  {
    InvAlways(calls, actions);
    if actions == [] {
      InitialRank(|calls|);
      assert Initial(calls).tasks == seq(|calls|, i => Starting);
    } else {
      SchedulesAreShort(calls, actions[..|actions| - 1]);
      StepDecreases(Run(calls, actions[..|actions| - 1]), actions[|actions| - 1]);
    }
  }

  // ---- the runtime object ----

  /** A scheduler: it may consult everything and always picks a step that is possible. */
  ghost predicate Schedules(pick: State -> Action) {
    forall s :: Inv(s) && |s.results| < |s.calls| ==> Enabled(s, pick(s))
  }

  class ParallelToolRuntime {
    const calls: seq<ToolCall>
    var tasks: seq<Task>
    var globalFree: nat
    var writeFree: nat
    var interrupted: bool
    var results: seq<ToolResult>

    function Abs(): State
      reads this
    {
      State(calls, tasks, globalFree, writeFree, interrupted, results)
    }

    constructor (tools: seq<ToolCall>)
      ensures Abs() == Initial(tools) && Inv(Abs())
    {
      calls, tasks := tools, seq(|tools|, i => Starting);
      globalFree, writeFree, interrupted, results := MAX_CONCURRENCY, 1, false, [];
      new;
      InvInitial(tools);
    }

    method Release(i: nat, result: ToolResult, ran: bool)
      requires |tasks| == |calls| && i < |calls|
      modifies this
      ensures Abs() == End(old(Abs()), i, result, ran)
    {
      if tasks[i].Running? {
        globalFree := globalFree + 1;
      }
      if tasks[i].HoldsWrite? || (tasks[i].Running? && IsWrite(calls[i])) {
        writeFree := writeFree + 1;
      }
      tasks := tasks[i := Done(result, ran)];
    }

    method Advance(a: Action)
      requires Inv(Abs()) && Enabled(Abs(), a)
      modifies this
      ensures Inv(Abs()) && Abs() == Step(old(Abs()), a) && Measure(Abs()) < old(Measure(Abs()))
    {
      StepDecreases(Abs(), a);
      InvStep(Abs(), a);
      hide Inv, Measure;
      match a {
        case TakeWrite(i) =>
          writeFree := writeFree - 1;
          tasks := tasks[i := HoldsWrite];
        case TakeGlobal(i) =>
          if interrupted {
            Release(i, Interrupted(calls[i]), false);
          } else {
            globalFree := globalFree - 1;
            tasks := tasks[i := Running];
          }
        case Finish(i, outcome) => Release(i, ResultOf(calls[i], outcome), true);
        case Interrupt => interrupted := true;
        case Cancel(i) => Release(i, Interrupted(calls[i]), false);
        case Collect => results := results + [tasks[|results|].result];
        case CollectCancelled => results := results + [Interrupted(calls[|results|])];
      }
    }
  }

  /** A result belongs to a call. */
  predicate ResultFor(call: ToolCall, r: ToolResult) {
    r.callId == call.callId && r.toolName == call.toolName
  }

  /** The run is possible and is the one the scheduler chose. */
  predicate Follows(calls: seq<ToolCall>, pick: State -> Action, actions: seq<Action>) {
    actions == [] ||
    var before := actions[..|actions| - 1];
    Follows(calls, pick, before) && Enabled(Run(calls, before), actions[|before|]) &&
      actions[|before|] == pick(Run(calls, before))
  }

  lemma FollowsNext(calls: seq<ToolCall>, pick: State -> Action, actions: seq<Action>)
    requires Follows(calls, pick, actions) && Enabled(Run(calls, actions), pick(Run(calls, actions)))
    ensures var next := actions + [pick(Run(calls, actions))];
            Follows(calls, pick, next) && Run(calls, next) == Step(Run(calls, actions), pick(Run(calls, actions)))
  {
    var next := actions + [pick(Run(calls, actions))];
    assert next[..|next| - 1] == actions;
  }

  /**
   * Whatever the schedule, the batch ends with one result per call, in call order: the results of the scheduled
   * run. A result other than the cancelled one is what the tool said.
   */
  method RunBatch(calls: seq<ToolCall>, pick: State -> Action)
    returns (results: seq<ToolResult>, ghost actions: seq<Action>)
    requires Schedules(pick)
    ensures Follows(calls, pick, actions) && results == Run(calls, actions).results
    ensures |results| == |calls| && forall i :: 0 <= i < |calls| ==> ResultFor(calls[i], results[i])
    ensures forall i :: 0 <= i < |calls| && results[i] != Interrupted(calls[i]) ==>
              Run(calls, actions).tasks[i] == Done(results[i], true)
  {
    hide Enabled, Step;
    actions := [];
    if calls == [] { return [], []; }
    var runtime := new ParallelToolRuntime(calls);
    while |runtime.results| < |runtime.calls|
      invariant Inv(runtime.Abs()) && fresh(runtime) && runtime.calls == calls
      invariant Follows(calls, pick, actions) && runtime.Abs() == Run(calls, actions)
      decreases Measure(runtime.Abs())
    {
      FollowsNext(calls, pick, actions);
      actions := actions + [pick(runtime.Abs())];
      runtime.Advance(pick(runtime.Abs()));
    }
    results := runtime.results;
  }
}
