/**
 * The snapshot manager (backend/internal/snapshot/manager.go) as a system of interleaved steps: every section
 * under a mutex is one step, and goroutines take their steps in any order.
 */
module SnapshotManager {
  import opened Wrappers

  datatype Reason = Debounce | Ticker | Lock | Manual

  datatype Job = SnapshotJob | RestoreJob | CleanupJob

  /** Where a goroutine stands. All phases but Waiting are spent holding opMu. */
  datatype Phase = Waiting | Holding | Capturing(id: string) | Captured | Leaving

  datatype Thread = Thread(job: Job, phase: Phase)

  /** The fields that mu guards. */
  datatype Flags = Flags(enabled: bool, snapshotting: bool, rearmAfter: bool, pendingManual: bool, queued: bool)

  /**
   * The goroutines, the owner of opMu, and the snapshot directories (complete or not). The last three fields
   * record history: accepted triggers, captures started for them, and whether a trigger came after the last start.
   */
  datatype Pool = Pool(
    opMu: Option<nat>,
    threads: map<nat, Thread>,
    nextThread: nat,
    store: map<string, bool>,
    accepted: nat,
    started: nat,
    owed: bool)

  datatype State = State(flags: Flags, pool: Pool)

  /** A cleanup, which may stop inside a removal, leaves some directories gone and some no longer complete. */
  datatype Action =
    | Trigger(reason: Reason)
    | Configure(enable: bool)
    | Close
    | RequestRestore
    | Acquire(t: nat)
    | StartCapture(t: nat, id: string)
    | EndCapture(t: nat, ok: bool)
    | Cleanup(t: nat, gone: set<string>, spoiled: set<string>)
    | Finish(t: nat)
    | Release(t: nat)

  const INITIAL := State(Flags(false, false, false, false, false), Pool(None, map[], 0, map[], 0, 0, false))

  function Spawn(p: Pool, job: Job): Pool {
    p.(threads := p.threads[p.nextThread := Thread(job, Waiting)], nextThread := p.nextThread + 1)
  }

  function SetPhase(p: Pool, t: nat, phase: Phase): Pool
    requires t in p.threads
  {
    p.(threads := p.threads[t := p.threads[t].(phase := phase)])
  }

  /** trigger: one of the three automatic causes or the user. */
  function TriggerStep(s: State, reason: Reason): State {
    var f, p := s.flags, s.pool;
    if !f.enabled then s
    else
      var noted := p.(accepted := p.accepted + 1, owed := true);
      if f.snapshotting then
        State(if reason.Manual? then f.(pendingManual := true, queued := true) else f.(rearmAfter := true), noted)
      else
        State(f.(snapshotting := true), Spawn(noted, SnapshotJob))
  }

  /** Configure and its start of the background cleanup; a failed or disabling call ends with enable = false. */
  function ConfigureStep(s: State, enable: bool): State {
    var p := s.pool.(owed := false);
    State(Flags(enable, false, false, false, false), if enable then Spawn(p, CleanupJob) else p)
  }

  /** The locked section of finishSnapshot. */
  function FinishFlags(f: Flags): Flags {
    if f.pendingManual then f.(pendingManual := false, queued := false, snapshotting := true)
    else if f.rearmAfter then f.(rearmAfter := false, snapshotting := true)
    else f.(snapshotting := false)
  }

  function FinishStep(s: State, t: nat): State
    requires t in s.pool.threads
  {
    var p := SetPhase(s.pool, t, Leaving);
    State(FinishFlags(s.flags), if s.flags.pendingManual || s.flags.rearmAfter then Spawn(p, SnapshotJob) else p)
  }

  predicate Enabled(s: State, a: Action) {
    var p := s.pool;
    match a
    case Trigger(_) => true
    case Configure(_) => true
    case Close => true
    case RequestRestore => true
    case Acquire(t) => t in p.threads && p.threads[t].phase.Waiting? && p.opMu.None?
    case StartCapture(t, id) =>
      t in p.threads && p.threads[t].phase.Holding? && !p.threads[t].job.CleanupJob? && id !in p.store
    case EndCapture(t, _) => t in p.threads && p.threads[t].phase.Capturing?
    case Cleanup(t, _, _) =>
      && t in p.threads && !p.threads[t].job.RestoreJob?
      && (if p.threads[t].job.CleanupJob? then p.threads[t].phase.Holding? else p.threads[t].phase.Captured?)
    case Finish(t) => t in p.threads && p.threads[t].job.SnapshotJob? && p.threads[t].phase.Captured?
    case Release(t) =>
      && t in p.threads
      && (p.threads[t].phase.Leaving? ||
          (!p.threads[t].job.SnapshotJob? && (p.threads[t].phase.Captured? || p.threads[t].phase.Holding?)))
  }

  /** One step; an action that is not enabled changes nothing. */
  function Step(s: State, a: Action): State {
    var p := s.pool;
    if !Enabled(s, a) then s
    else match a
      case Trigger(reason) => TriggerStep(s, reason)
      case Configure(enable) => ConfigureStep(s, enable)
      case Close => s.(flags := s.flags.(enabled := false))
      case RequestRestore => s.(pool := Spawn(p, RestoreJob))
      case Acquire(t) => s.(pool := SetPhase(p, t, Holding).(opMu := Some(t)))
      case StartCapture(t, id) =>
        var q := SetPhase(p, t, Capturing(id)).(store := p.store[id := false]);
        s.(pool := if p.threads[t].job.SnapshotJob? then q.(started := p.started + 1, owed := false) else q)
      case EndCapture(t, ok) =>
        s.(pool := SetPhase(p, t, Captured).(store := if ok then p.store[p.threads[t].phase.id := true] else p.store))
      case Cleanup(t, gone, spoiled) =>
        s.(pool := p.(store := map id | id in p.store && id !in gone :: p.store[id] && id !in spoiled))
      case Finish(t) => FinishStep(s, t)
      case Release(t) => s.(pool := p.(threads := p.threads - {t}, opMu := None))
  }

  function Run(s: State, actions: seq<Action>): State {
    if actions == [] then s else Step(Run(s, actions[..|actions| - 1]), actions[|actions| - 1])
  }

  // ---- what every run keeps ----

  /** A runner that has not begun its capture. */
  predicate Unstarted(th: Thread) {
    th.job.SnapshotJob? && (th.phase.Waiting? || th.phase.Holding?)
  }

  /** A runner that has yet to pass the locked section of finishSnapshot. */
  predicate Live(th: Thread) {
    th.job.SnapshotJob? && !th.phase.Leaving?
  }

  function UnstartedRunners(p: Pool): set<nat> {
    set t | t in p.threads && Unstarted(p.threads[t])
  }

  function Raised(flag: bool): nat {
    if flag then 1 else 0
  }

  /** opMu serialises captures, restores and cleanups, and a capture in flight still has its directory. */
  ghost predicate Exclusive(p: Pool) {
    && (forall t :: t in p.threads ==> t < p.nextThread && (p.opMu == Some(t) <==> !p.threads[t].phase.Waiting?))
    && (forall t :: t in p.threads && p.threads[t].phase.Capturing? ==>
          p.threads[t].phase.id in p.store && !p.store[p.threads[t].phase.id])
    && (p.opMu.Some? ==> p.opMu.value in p.threads)
  }

  ghost predicate FlagsConsistent(s: State) {
    && (s.flags.pendingManual || s.flags.rearmAfter ==> s.flags.snapshotting)
    && s.flags.queued == s.flags.pendingManual
    && (s.flags.snapshotting ==> exists t :: t in s.pool.threads && Live(s.pool.threads[t]))
  }

  /** A trigger newer than the last capture start is owed by a flag or by a runner that has not started. */
  ghost predicate NoTriggerLost(s: State) {
    s.pool.owed ==> s.flags.pendingManual || s.flags.rearmAfter || UnstartedRunners(s.pool) != {}
  }

  /** Captures never outnumber the triggers that asked for them. */
  ghost predicate NoSpuriousCapture(s: State) {
    s.pool.started + |UnstartedRunners(s.pool)| + Raised(s.flags.pendingManual) + Raised(s.flags.rearmAfter) <=
      s.pool.accepted
  }

  ghost predicate Inv(s: State) {
    Exclusive(s.pool) && FlagsConsistent(s) && NoTriggerLost(s) && NoSpuriousCapture(s)
  }

  lemma ExclusiveStep(s: State, a: Action)
    requires Exclusive(s.pool)
    ensures Exclusive(Step(s, a).pool)
  {
  }

  lemma FlagsStep(s: State, a: Action)
    requires Exclusive(s.pool) && FlagsConsistent(s)
    ensures FlagsConsistent(Step(s, a))
  {
    var s' := Step(s, a);
    if s'.flags.snapshotting {
      if s'.pool.nextThread > s.pool.nextThread && s'.pool.threads[s.pool.nextThread].job.SnapshotJob? {
        assert Live(s'.pool.threads[s.pool.nextThread]);
      } else {
        var t :| t in s.pool.threads && Live(s.pool.threads[t]);
        assert t in s'.pool.threads && Live(s'.pool.threads[t]);
      }
    }
  }

  /** How a step changes the set of runners that have not started. */
  lemma UnstartedStep(s: State, a: Action)
    requires Exclusive(s.pool)
    ensures var before, after := UnstartedRunners(s.pool), UnstartedRunners(Step(s, a).pool);
            if a.StartCapture? && Enabled(s, a) && s.pool.threads[a.t].job.SnapshotJob?
            then a.t in before && after == before - {a.t}
            else if SpawnsRunner(s, a)
            then s.pool.nextThread !in before && after == before + {s.pool.nextThread}
            else after == before
  {
    var before, after := UnstartedRunners(s.pool), UnstartedRunners(Step(s, a).pool);
    if !SpawnsRunner(s, a) {
      assert forall t :: t in s.pool.threads && t in Step(s, a).pool.threads ==>
               Step(s, a).pool.threads[t].job == s.pool.threads[t].job;
    }
  }

  predicate SpawnsRunner(s: State, a: Action) {
    Enabled(s, a) &&
    match a
    case Trigger(_) => s.flags.enabled && !s.flags.snapshotting
    case Finish(_) => s.flags.pendingManual || s.flags.rearmAfter
    case _ => false
  }

  lemma LedgerStep(s: State, a: Action)
    requires Inv(s)
    ensures NoTriggerLost(Step(s, a)) && NoSpuriousCapture(Step(s, a))
  {
    UnstartedStep(s, a);
  }

  lemma InvStep(s: State, a: Action)
    requires Inv(s)
    ensures Inv(Step(s, a))
  {
    ExclusiveStep(s, a);
    FlagsStep(s, a);
    LedgerStep(s, a);
  }

  /** Over every interleaving of triggers, runners, restores, cleanups and reconfigurations. */
  lemma {:induction false} InvAlways(actions: seq<Action>)
    ensures Inv(Run(INITIAL, actions))
    decreases |actions|
  {
    if actions == [] {
      assert UnstartedRunners(INITIAL.pool) == {};
    } else {
      InvAlways(actions[..|actions| - 1]);
      InvStep(Run(INITIAL, actions[..|actions| - 1]), actions[|actions| - 1]);
    }
  }

  /** At most one goroutine is past the acquisition of opMu. */
  lemma OperationsNeverOverlap(actions: seq<Action>, t: nat, u: nat)
    requires var p := Run(INITIAL, actions).pool;
             t in p.threads && u in p.threads && !p.threads[t].phase.Waiting? && !p.threads[u].phase.Waiting?
    ensures t == u
  {
    InvAlways(actions);
  }

  /** A cleanup, whenever it comes, removes no directory that a capture is still writing. */
  lemma CleanupSparesCaptures(actions: seq<Action>, a: Action, t: nat)
    requires a.Cleanup? && Enabled(Run(INITIAL, actions), a)
    requires t in Run(INITIAL, actions).pool.threads
    ensures !Run(INITIAL, actions).pool.threads[t].phase.Capturing?
  {
    InvAlways(actions);
  }

  // ---- the manager object ----

  class Manager {
    var enabled: bool
    var snapshotting: bool
    var rearmAfter: bool
    var pendingManual: bool
    var queued: bool
    ghost var pool: Pool

    ghost function Abs(): State
      reads this
    {
      State(Flags(enabled, snapshotting, rearmAfter, pendingManual, queued), pool)
    }

    constructor ()
      ensures Abs() == INITIAL
    {
      enabled, snapshotting, rearmAfter, pendingManual, queued := false, false, false, false, false;
      pool := INITIAL.pool;
    }

    method TriggerSnapshot(reason: Reason)
      requires Inv(Abs())
      modifies this
      ensures Abs() == Step(old(Abs()), Trigger(reason)) && Inv(Abs())
    {
      InvStep(Abs(), Trigger(reason));
      if !enabled { return; }
      pool := pool.(accepted := pool.accepted + 1, owed := true);
      if snapshotting {
        if reason == Manual {
          pendingManual := true;
          queued := true;
        } else {
          rearmAfter := true;
        }
        return;
      }
      snapshotting := true;
      pool := Spawn(pool, SnapshotJob);
    }

    method FinishSnapshot(ghost t: nat)
      requires Inv(Abs()) && Enabled(Abs(), Finish(t))
      modifies this
      ensures Abs() == Step(old(Abs()), Finish(t)) && Inv(Abs())
    {
      InvStep(Abs(), Finish(t));
      pool := SetPhase(pool, t, Leaving);
      snapshotting := false;
      if pendingManual {
        pendingManual := false;
        queued := false;
        snapshotting := true;
        pool := Spawn(pool, SnapshotJob);
        return;
      }
      if rearmAfter {
        rearmAfter := false;
        snapshotting := true;
        pool := Spawn(pool, SnapshotJob);
      }
    }

    /** `usable`: the directories pass the checks and the watcher starts. */
    method Reconfigure(enable: bool, usable: bool)
      requires Inv(Abs())
      modifies this
      ensures Abs() == Step(old(Abs()), Configure(enable && usable)) && Inv(Abs())
    {
      InvStep(Abs(), Configure(enable && usable));
      enabled, snapshotting, rearmAfter, pendingManual, queued := false, false, false, false, false;
      pool := pool.(owed := false);
      if !enable || !usable { return; }
      enabled := true;
      pool := Spawn(pool, CleanupJob);
    }
  }

  // ---- ListSnapshots ----

  datatype Listed = Listed(id: string, createdAt: int)

  ghost predicate NewestFirst(s: seq<Listed>) {
    forall i, j :: 0 <= i < j < |s| ==> s[i].createdAt >= s[j].createdAt
  }

  /** Positions before i hold their final entries. */
  ghost predicate SettledBefore(s: seq<Listed>, i: nat) {
    forall a, b :: 0 <= a < i && a < b < |s| ==> s[a].createdAt >= s[b].createdAt
  }

  function Exchanged(s: seq<Listed>, i: nat, j: nat): seq<Listed>
    requires i < j < |s|
  {
    if s[j].createdAt > s[i].createdAt then s[i := s[j]][j := s[i]] else s
  }

  /** No position after i and before j holds a newer entry than position i. */
  ghost predicate NewestUpTo(s: seq<Listed>, i: nat, j: nat) {
    i < |s| && forall b :: i < b < j && b < |s| ==> s[i].createdAt >= s[b].createdAt
  }

  lemma ExchangeKeeps(s: seq<Listed>, i: nat, j: nat)
    requires i < j < |s| && SettledBefore(s, i) && NewestUpTo(s, i, j)
    ensures var t := Exchanged(s, i, j); |t| == |s| && SettledBefore(t, i) && NewestUpTo(t, i, j + 1)
    ensures multiset(Exchanged(s, i, j)) == multiset(s)
  {
  }

  method ExchangeIfNewer(result: array<Listed>, i: nat, j: nat)
    requires i < j < result.Length
    modifies result
    ensures result[..] == Exchanged(old(result[..]), i, j)
  {
    if result[j].createdAt > result[i].createdAt {
      result[i], result[j] := result[j], result[i];
    }
  }

  /** The exchange sort that ListSnapshots applies in place. */
  method SortNewestFirst(result: array<Listed>)
    modifies result
    ensures NewestFirst(result[..])
    ensures multiset(result[..]) == multiset(old(result[..]))
  {
    var n := result.Length;
    for i := 0 to n
      invariant multiset(result[..]) == multiset(old(result[..]))
      invariant SettledBefore(result[..], i)
    {
      for j := i + 1 to n
        invariant multiset(result[..]) == multiset(old(result[..]))
        invariant SettledBefore(result[..], i) && NewestUpTo(result[..], i, j)
      {
        ExchangeKeeps(result[..], i, j);
        hide SettledBefore, NewestUpTo, Exchanged;
        ExchangeIfNewer(result, i, j);
      }
      NextSettled(result[..], i);
    }
  }

  lemma NextSettled(s: seq<Listed>, i: nat)
    requires SettledBefore(s, i) && NewestUpTo(s, i, |s|)
    ensures SettledBefore(s, i + 1)
  {
  }
}
