/**
 * One-shot approvals (backend/internal/tools/approval.go), the checks that ask for them
 * (backend/internal/tools/executor.go), and the gate before a tool runs (backend/internal/handler/agent.go).
 */
module Approvals {
  import opened Wrappers

  datatype Status = Pending | Granted | Denied

  datatype Approval = Approval(thread: string, tool: string, raw: string, resolved: string, status: Status)

  datatype Action =
    | Create(id: string, thread: string, tool: string, raw: string, resolved: string)
    | Resolve(id: string, thread: string, decision: string)
    | Consume(id: string, thread: string, tool: string, resolved: string)
    | CancelThread(thread: string)

  type Records = map<string, Approval>

  predicate ResolveSucceeds(r: Records, id: string, thread: string) {
    id in r && r[id].thread == thread
  }

  predicate ConsumeSucceeds(r: Records, id: string, thread: string, tool: string, resolved: string) {
    id in r && r[id].thread == thread && r[id].tool == tool && r[id].resolved == resolved && r[id].status == Granted
  }

  function Decided(decision: string): Status { if decision == "allow" then Granted else Denied }

  /** A pending approval of the thread is denied. */
  function Cancelled(a: Approval, thread: string): Approval {
    if a.thread == thread && a.status == Pending then a.(status := Denied) else a
  }

  function Step(r: Records, a: Action): Records {
    match a
    case Create(id, thread, tool, raw, resolved) => r[id := Approval(thread, tool, raw, resolved, Pending)]
    case Resolve(id, thread, decision) =>
      if ResolveSucceeds(r, id, thread) then r[id := r[id].(status := Decided(decision))] else r
    case Consume(id, thread, tool, resolved) =>
      if ConsumeSucceeds(r, id, thread, tool, resolved) then r - {id} else r
    case CancelThread(thread) => map id | id in r :: Cancelled(r[id], thread)
  }

  /** The records after the first n actions. */
  function Run(actions: seq<Action>, n: nat): Records
    requires n <= |actions|
  {
    if n == 0 then map[] else Step(Run(actions, n - 1), actions[n - 1])
  }

  // ---- what a run says about one approval ----

  /** Request ids are never drawn twice. */
  ghost predicate FreshIds(actions: seq<Action>) {
    forall i, j :: 0 <= i < j < |actions| && actions[i].Create? && actions[j].Create? ==> actions[i].id != actions[j].id
  }

  predicate Creates(a: Action, id: string, record: Approval) {
    a.Create? && a.id == id && a.thread == record.thread && a.tool == record.tool && a.raw == record.raw &&
      a.resolved == record.resolved
  }

  predicate Resolves(a: Action, id: string, thread: string) { a.Resolve? && a.id == id && a.thread == thread }

  /** Action k is the thread's last decision on the approval among the first n, and it allows. */
  ghost predicate LastAllows(actions: seq<Action>, k: nat, n: nat, id: string, thread: string) {
    && k < n <= |actions| && Resolves(actions[k], id, thread) && actions[k].decision == "allow"
    && forall m :: k < m < n ==> !Resolves(actions[m], id, thread)
  }

  /** Consumption k of the run succeeds. */
  predicate Consumes(actions: seq<Action>, k: nat) {
    && k < |actions| && actions[k].Consume?
    && ConsumeSucceeds(Run(actions, k), actions[k].id, actions[k].thread, actions[k].tool, actions[k].resolved)
  }

  /** A record goes back to its creation, and if granted, to the last decision of its thread after it. */
  lemma {:induction false} RecordHistory(actions: seq<Action>, n: nat, id: string) returns (c: nat, r: nat)
    requires n <= |actions| && id in Run(actions, n)
    ensures c < n && Creates(actions[c], id, Run(actions, n)[id])
    ensures Run(actions, n)[id].status == Granted ==> c < r && LastAllows(actions, r, n, id, Run(actions, n)[id].thread)
  {
    var a, before := actions[n - 1], Run(actions, n - 1);
    if a.Create? && a.id == id { return n - 1, 0; }
    c, r := RecordHistory(actions, n - 1, id);
    if Resolves(a, id, before[id].thread) { r := n - 1; }
  }

  lemma {:induction false} AbsentStaysAbsent(actions: seq<Action>, k: nat, n: nat, id: string)
    requires k <= n <= |actions| && id !in Run(actions, k)
    requires forall m :: k <= m < n && actions[m].Create? ==> actions[m].id != id
    ensures id !in Run(actions, n)
    decreases n - k
  {
    if k == n {
    } else {
      AbsentStaysAbsent(actions, k, n - 1, id);
    }
  }

  /** A used approval is used up. */
  lemma ConsumedOnce(actions: seq<Action>, k: nat, m: nat)
    requires FreshIds(actions) && k < m < |actions| && Consumes(actions, k) && actions[m].Consume? &&
        actions[m].id == actions[k].id
    ensures !Consumes(actions, m)
  {
    var id := actions[k].id;
    var c, r := RecordHistory(actions, k, id);
    assert id !in Run(actions, k + 1);
    AbsentStaysAbsent(actions, k + 1, m, id);
  }

  /**
   * Every consumption is justified: the approval was created for the same thread, tool and resolved path, the last
   * decision of its thread on it was to allow it, and no other consumption of the run uses it.
   */
  lemma ConsumptionJustified(actions: seq<Action>, k: nat) returns (c: nat, r: nat)
    requires FreshIds(actions) && Consumes(actions, k)
    ensures var a := actions[k];
            && c < r < k && actions[c].Create? && actions[c].id == a.id
            && actions[c].thread == a.thread && actions[c].tool == a.tool && actions[c].resolved == a.resolved
            && LastAllows(actions, r, k, a.id, a.thread)
            && forall m :: 0 <= m < |actions| && m != k && actions[m].Consume? && actions[m].id == a.id ==>
                 !Consumes(actions, m)
  {
    c, r := RecordHistory(actions, k, actions[k].id);
    forall m | 0 <= m < |actions| && m != k && actions[m].Consume? && actions[m].id == actions[k].id
      ensures !Consumes(actions, m)
    {
      if Consumes(actions, m) {
        ConsumedOnce(actions, if m < k then m else k, if m < k then k else m);
      }
    }
  }

  // ---- consumptions never outnumber grants ----

  /** The approvals that the first n actions grant. */
  function GrantedIds(actions: seq<Action>, n: nat): set<string>
    requires n <= |actions|
  {
    if n == 0 then {}
    else
      var a := actions[n - 1];
      GrantedIds(actions, n - 1) +
      if a.Resolve? && a.decision == "allow" && ResolveSucceeds(Run(actions, n - 1), a.id, a.thread) then {a.id} else {}
  }

  /** The approvals that the first n actions use up for this tool. */
  function ConsumedIds(actions: seq<Action>, n: nat, tool: string): set<string>
    requires n <= |actions|
  {
    if n == 0 then {}
    else
      ConsumedIds(actions, n - 1, tool) +
      if Consumes(actions, n - 1) && actions[n - 1].tool == tool then {actions[n - 1].id} else {}
  }

  function Consumptions(actions: seq<Action>, n: nat, tool: string): nat
    requires n <= |actions|
  {
    if n == 0 then 0
    else Consumptions(actions, n - 1, tool) + if Consumes(actions, n - 1) && actions[n - 1].tool == tool then 1 else 0
  }

  lemma {:induction false} GrantedWereGranted(actions: seq<Action>, n: nat, id: string)
    requires n <= |actions| && id in Run(actions, n) && Run(actions, n)[id].status == Granted
    ensures id in GrantedIds(actions, n)
  {
    var a := actions[n - 1];
    var before := Run(actions, n - 1);
    if !(a.Resolve? && a.id == id && ResolveSucceeds(before, id, a.thread)) {
      GrantedWereGranted(actions, n - 1, id);
    }
  }

  lemma {:induction false} ConsumedSome(actions: seq<Action>, n: nat, tool: string, id: string) returns (k: nat)
    requires n <= |actions| && id in ConsumedIds(actions, n, tool)
    ensures k < n && Consumes(actions, k) && actions[k].id == id
  {
    if Consumes(actions, n - 1) && actions[n - 1].tool == tool && actions[n - 1].id == id { return n - 1; }
    k := ConsumedSome(actions, n - 1, tool, id);
  }

  lemma ConsumedIsNew(actions: seq<Action>, k: nat, tool: string)
    requires FreshIds(actions) && Consumes(actions, k)
    ensures actions[k].id !in ConsumedIds(actions, k, tool) && actions[k].id in GrantedIds(actions, k)
  {
    var id := actions[k].id;
    GrantedWereGranted(actions, k, id);
    if id in ConsumedIds(actions, k, tool) {
      var j := ConsumedSome(actions, k, tool, id);
      ConsumedOnce(actions, j, k);
    }
  }

  lemma {:induction false} ConsumptionsWithinGrants(actions: seq<Action>, n: nat, tool: string)
    requires FreshIds(actions) && n <= |actions|
    ensures Consumptions(actions, n, tool) == |ConsumedIds(actions, n, tool)|
    ensures ConsumedIds(actions, n, tool) <= GrantedIds(actions, n)
  {
    hide Run, Consumes, FreshIds;
    if n > 0 {
      ConsumptionsWithinGrants(actions, n - 1, tool);
      if Consumes(actions, n - 1) {
        ConsumedIsNew(actions, n - 1, tool);
      }
    }
  }

  lemma SubsetSize<T>(a: set<T>, b: set<T>)
    requires a <= b
    ensures |a| <= |b|
  {
    assert a + (b - a) == b;
  }

  // ---- which calls need an approval ----

  /** What the arguments of a tool call hold; Malformed if they are no JSON object. */
  datatype Args = Malformed | Args(path: Option<string>, paths: Option<seq<string>>, entry: Option<string>)

  /** Path resolution and containment in a directory, as the path guard decides them. */
  datatype Guard = Guard(resolve: string -> Option<string>, contains: string -> bool)

  datatype Check = Clear | NeedsApproval(raw: string, resolved: string) | CheckFailed

  function CheckSinglePath(path: string, workspace: Guard): Check {
    match workspace.resolve(path)
    case None => CheckFailed
    case Some(resolved) => if workspace.contains(path) then Clear else NeedsApproval(path, resolved)
  }

  function CheckTrashPath(args: Args, workspace: Guard): Check {
    match args
    case Malformed => CheckFailed
    case Args(Some(path), _, _) => CheckSinglePath(path, workspace)
    case Args(None, Some(paths), _) =>
      if paths == [] || exists i :: 0 <= i < |paths| && !workspace.contains(paths[i]) then CheckFailed else Clear
    case Args(None, None, _) => CheckFailed
  }

  /** A single file name. */
  predicate ValidPurgeEntry(entry: string) {
    entry != "" && entry != "." && entry != ".." && '/' !in entry && '\\' !in entry
  }

  function Join(dir: string, entry: string): string { if entry == "" then dir else dir + "/" + entry }

  function CheckPurgePath(args: Args, trashDir: string, trash: Option<Guard>): Check {
    if args.Malformed? || trashDir == "" then CheckFailed
    else
      var entry := if args.entry.Some? then args.entry.value else "";
      var target := Join(trashDir, entry);
      if entry != "" && !ValidPurgeEntry(entry) then CheckFailed
      else if trash.None? || !trash.value.contains(target) then CheckFailed
      else NeedsApproval(target, target)
  }

  datatype Directories = Directories(workspace: Guard, trashDir: string, trash: Option<Guard>)

  /** A file tool that takes paths. */
  predicate TakesPath(tool: string) { tool == "read" || tool == "write" || tool == "edit" || tool == "trash" }

  /**
   * A purge always asks, for a target in the trash. A file tool asks just for a single path outside the workspace, and
   * is cleared just if all it names lies inside. Other tools never ask.
   */
  function CheckPath(tool: string, args: Args, dirs: Directories): (check: Check)
    ensures tool == "purge" ==>
              !check.Clear? && (check.NeedsApproval? ==> dirs.trash.Some? && dirs.trash.value.contains(check.resolved))
    ensures TakesPath(tool) ==>
              (check.NeedsApproval? <==>
                 && args.Args? && args.path.Some?
                 && dirs.workspace.resolve(args.path.value).Some? && !dirs.workspace.contains(args.path.value))
    ensures TakesPath(tool) && check.NeedsApproval? ==>
              check.raw == args.path.value && dirs.workspace.resolve(args.path.value) == Some(check.resolved)
    ensures TakesPath(tool) && check.Clear? ==>
              && args.Args?
              && (args.path.Some? ==> dirs.workspace.contains(args.path.value))
              && (args.path.None? ==> tool == "trash" && args.paths.Some? &&
                                      forall p :: p in args.paths.value ==> dirs.workspace.contains(p))
    ensures !TakesPath(tool) && tool != "purge" ==> check.Clear?
  {
    if tool == "read" || tool == "write" || tool == "edit" then
      if args.Malformed? || args.path.None? then CheckFailed else CheckSinglePath(args.path.value, dirs.workspace)
    else if tool == "trash" then CheckTrashPath(args, dirs.workspace)
    else if tool == "purge" then CheckPurgePath(args, dirs.trashDir, dirs.trash)
    else Clear
  }

  // ---- the manager and the gate ----

  class ApprovalManager {
    var records: map<string, Approval>
    ghost var history: seq<Action>

    ghost predicate Valid()
      reads this
    {
      records == Run(history, |history|) && FreshIds(history)
    }

    constructor ()
      ensures Valid() && history == []
    {
      records, history := map[], [];
    }

    ghost predicate Unused(id: string)
      reads this
    {
      forall i :: 0 <= i < |history| && history[i].Create? ==> history[i].id != id
    }

    ghost method Note(a: Action)
      requires Valid() && (a.Create? ==> Unused(a.id))
      modifies this`history
      ensures history == old(history) + [a] && FreshIds(history)
      ensures Run(history, |history|) == Step(old(records), a)
    {
      RunPrefix(history, history + [a], |history|);
      history := history + [a];
    }

    method CreateRequest(id: string, thread: string, tool: string, raw: string, resolved: string)
      requires Valid() && Unused(id)
      modifies this
      ensures Valid() && history == old(history) + [Create(id, thread, tool, raw, resolved)]
    {
      Note(Create(id, thread, tool, raw, resolved));
      records := records[id := Approval(thread, tool, raw, resolved, Pending)];
    }

    method ResolveRequest(thread: string, id: string, decision: string) returns (ok: bool)
      requires Valid()
      modifies this
      ensures Valid() && history == old(history) + [Resolve(id, thread, decision)]
      ensures ok == ResolveSucceeds(old(records), id, thread)
    {
      Note(Resolve(id, thread, decision));
      if id !in records { return false; }
      var approval := records[id];
      if approval.thread != thread { return false; }
      if decision == "allow" {
        records := records[id := approval.(status := Granted)];
      } else {
        records := records[id := approval.(status := Denied)];
      }
      ok := true;
    }

    method ConsumeRequest(thread: string, id: string, tool: string, resolved: string) returns (ok: bool)
      requires Valid()
      modifies this
      ensures Valid() && history == old(history) + [Consume(id, thread, tool, resolved)]
      ensures ok == ConsumeSucceeds(old(records), id, thread, tool, resolved)
    {
      Note(Consume(id, thread, tool, resolved));
      if id !in records { return false; }
      var approval := records[id];
      if approval.thread != thread { return false; }
      if approval.tool != tool { return false; }
      if approval.resolved != resolved { return false; }
      if approval.status != Granted { return false; }
      records := records - {id};
      ok := true;
    }

    method CancelAll(thread: string)
      requires Valid()
      modifies this
      ensures Valid() && history == old(history) + [CancelThread(thread)]
    {
      Note(CancelThread(thread));
      var rest := records.Keys;
      while rest != {}
        invariant rest <= old(records).Keys == records.Keys && history == old(history) + [CancelThread(thread)]
        invariant forall id :: id in records ==>
                    records[id] == if id in rest then old(records)[id] else Cancelled(old(records)[id], thread)
        decreases |rest|
      {
        assert (forall id: string :: id !in rest) ==> rest == {};
        var id :| id in rest;
        rest := rest - {id};
        if records[id].thread == thread && records[id].status == Pending {
          records := records[id := records[id].(status := Denied)];
        }
      }
    }
  }

  lemma {:induction false} RunPrefix(a: seq<Action>, b: seq<Action>, n: nat)
    requires n <= |a| && a <= b
    ensures Run(a, n) == Run(b, n)
  {
    if n == 0 {
    } else {
      RunPrefix(a, b, n - 1);
    }
  }

  datatype Answer = Failed | AskUser(id: string) | Invalid | Executed

  /** What a tool call asks of the approval manager. */
  function GateActions(session: string, tool: string, check: Check, approvalId: string, newId: string): seq<Action> {
    match check
    case NeedsApproval(raw, resolved) =>
      if approvalId == ""
      then [Create(newId, session, tool, raw, resolved)]
      else [Consume(approvalId, session, tool, resolved)]
    case _ => []
  }

  class AgentHandler {
    const approvals: ApprovalManager
    /** How often a purge was executed. */
    ghost var purges: nat

    /** Every executed purge used up an approval of its own. */
    ghost predicate Valid()
      reads this, approvals
    {
      approvals.Valid() && purges == Consumptions(approvals.history, |approvals.history|, "purge")
    }

    constructor ()
      ensures Valid() && fresh(approvals)
    {
      approvals := new ApprovalManager();
      purges := 0;
    }

    /** The gate: a call that needs permission runs only if it uses up an approval for just this call. */
    method ExecuteTool(session: string, tool: string, args: Args, dirs: Directories, approvalId: string, newId: string)
      returns (answer: Answer)
      requires Valid() && approvals.Unused(newId)
      modifies this, approvals
      ensures Valid()
      ensures answer.Executed? <==>
                match CheckPath(tool, args, dirs)
                case CheckFailed => false
                case Clear => true
                case NeedsApproval(raw, resolved) =>
                  approvalId != "" && ConsumeSucceeds(old(approvals.records), approvalId, session, tool, resolved)
      ensures purges == old(purges) + if answer.Executed? && tool == "purge" then 1 else 0
      ensures approvals.history ==
          old(approvals.history) + GateActions(session, tool, CheckPath(tool, args, dirs), approvalId, newId)
    {
      var check := CheckPath(tool, args, dirs);
      ghost var before := approvals.history;
      match check {
        case CheckFailed => return Failed;
        case Clear =>
        case NeedsApproval(raw, resolved) =>
          if approvalId == "" {
            approvals.CreateRequest(newId, session, tool, raw, resolved);
            ConsumptionsNext(before, approvals.history);
            return AskUser(newId);
          }
          var ok := approvals.ConsumeRequest(session, approvalId, tool, resolved);
          ConsumptionsNext(before, approvals.history);
          RunPrefix(before, approvals.history, |before|);
          if !ok { return Invalid; }
      }
      if tool == "purge" { purges := purges + 1; }
      answer := Executed;
    }

    /** The user's decision on a request. */
    method ResolveApproval(session: string, id: string, decision: string) returns (ok: bool)
      requires Valid()
      modifies this, approvals
      ensures Valid() && purges == old(purges)
      ensures approvals.history == old(approvals.history) + [Resolve(id, session, decision)]
      ensures ok == ResolveSucceeds(old(approvals.records), id, session)
    {
      ghost var before := approvals.history;
      ok := approvals.ResolveRequest(session, id, decision);
      ConsumptionsNext(before, approvals.history);
    }

    /** The end of a session denies what is still pending in it. */
    method CancelApprovals(session: string)
      requires Valid()
      modifies this, approvals
      ensures Valid() && purges == old(purges)
      ensures approvals.history == old(approvals.history) + [CancelThread(session)]
    {
      ghost var before := approvals.history;
      approvals.CancelAll(session);
      ConsumptionsNext(before, approvals.history);
    }

    /** Over any run of the handler, purges never outnumber the approvals the user granted. */
    lemma PurgesWithinGrants()
      requires Valid()
      ensures purges <= |GrantedIds(approvals.history, |approvals.history|)|
    {
      ConsumptionsWithinGrants(approvals.history, |approvals.history|, "purge");
      SubsetSize(ConsumedIds(approvals.history, |approvals.history|, "purge"),
                 GrantedIds(approvals.history, |approvals.history|));
    }
  }

  lemma ConsumptionsNext(a: seq<Action>, b: seq<Action>)
    requires |b| == |a| + 1 && a <= b
    ensures Consumptions(b, |b|, "purge") ==
            Consumptions(a, |a|, "purge") + if Consumes(b, |a|) && b[|a|].tool == "purge" then 1 else 0
  {
    ConsumptionsPrefix(a, b, |a|);
  }

  lemma {:induction false} ConsumptionsPrefix(a: seq<Action>, b: seq<Action>, n: nat)
    requires n <= |a| && a <= b
    ensures Consumptions(a, n, "purge") == Consumptions(b, n, "purge")
  {
    if n == 0 {
    } else {
      ConsumptionsPrefix(a, b, n - 1);
      RunPrefix(a, b, n - 1);
    }
  }
}
