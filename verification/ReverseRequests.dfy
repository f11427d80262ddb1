/**
 * Requests from the server to a client (backend/internal/thread/reverse.go, manager.go). Goroutines race to resolve
 * them; every section under reqMu and every send on a response channel is one step.
 */
module ReverseRequests {
  import opened Wrappers

  datatype Error = InvalidDecision(decision: string) | Released(reason: string)

  datatype Result = Decided(decision: string) | Erred(error: Error)

  datatype Request = Request(thread: string, decisions: seq<string>)

  /** A goroutine on its way through resolveRequest: before it takes the request, and before it sends. */
  datatype Task = Resolving(id: int, result: Result) | Sending(id: int, result: Result)

  /** How waiting for a request ended: with what its channel held, or at its deadline. */
  datatype Heard = Got(result: Result) | TimedOut

  /**
   * The pending table, the goroutines, and the response channels (capacity one). `taken`, `created`, `channels` and
   * `heard` record history: the requests that left the table, every request ever created, what was sent on each
   * channel, and what the goroutine that waits for each request got.
   */
  datatype State = State(
    nextId: int,
    pending: map<int, Request>,
    tasks: map<nat, Task>,
    nextTask: nat,
    channels: map<int, Result>,
    created: map<int, Request>,
    taken: set<int>,
    heard: map<int, Heard>)

  datatype Action =
    | Create(thread: string, decisions: seq<string>)
    | Answer(id: int, decision: string)
    | Release(id: int, reason: string)
    | Take(t: nat)
    | Send(t: nat)
    | Receive(id: int)
    | TimeOut(id: int)

  const INITIAL := State(1, map[], map[], 0, map[], map[], {}, map[])

  function Spawn(s: State, task: Task): State {
    s.(tasks := s.tasks[s.nextTask := task], nextTask := s.nextTask + 1)
  }

  /** The result of an answer: its decision if the request offers it. */
  function Validated(r: Request, decision: string): Result {
    if decision in r.decisions then Decided(decision) else Erred(InvalidDecision(decision))
  }

  predicate Enabled(s: State, a: Action) {
    match a
    case Take(t) => t in s.tasks && s.tasks[t].Resolving?
    case Send(t) => t in s.tasks && s.tasks[t].Sending?
    case Receive(id) => id in s.channels && id !in s.heard
    case TimeOut(id) => id in s.created && id !in s.heard
    case _ => true
  }

  function Step(s: State, a: Action): State {
    if !Enabled(s, a) then s
    else match a
      case Create(thread, decisions) =>
        var r := Request(thread, decisions);
        s.(nextId := s.nextId + 1, pending := s.pending[s.nextId := r], created := s.created[s.nextId := r])
      case Answer(id, decision) =>
        if id in s.pending then Spawn(s, Resolving(id, Validated(s.pending[id], decision))) else s
      case Release(id, reason) => Spawn(s, Resolving(id, Erred(Released(reason))))
      case Take(t) =>
        var id := s.tasks[t].id;
        if id in s.pending then
          s.(pending := s.pending - {id}, taken := s.taken + {id},
             tasks := s.tasks[t := Sending(id, s.tasks[t].result)])
        else s.(tasks := s.tasks - {t})
      case Send(t) =>
        var id := s.tasks[t].id;
        s.(channels := if id in s.channels then s.channels else s.channels[id := s.tasks[t].result],
           tasks := s.tasks - {t})
      case Receive(id) => s.(heard := s.heard[id := Got(s.channels[id])])
      case TimeOut(id) => s.(heard := s.heard[id := TimedOut])
  }

  function Run(actions: seq<Action>): State {
    if actions == [] then INITIAL else Step(Run(actions[..|actions| - 1]), actions[|actions| - 1])
  }

  // ---- what every run keeps ----

  /** A decision that the request offers, or an error. */
  predicate Offered(r: Request, result: Result) {
    result.Decided? ==> result.decision in r.decisions
  }

  predicate Sends(s: State, t: nat, id: int) {
    t in s.tasks && s.tasks[t].Sending? && s.tasks[t].id == id
  }

  /** Created requests are the pending ones and the taken ones, and no id is used twice. */
  ghost predicate Ledger(s: State) {
    && s.created.Keys == s.pending.Keys + s.taken && s.pending.Keys !! s.taken
    && (forall id :: id in s.pending ==> s.created[id] == s.pending[id])
    && forall id :: id in s.created ==> id < s.nextId
  }

  /** A taken request has its result in the channel or on the way there, and only one. */
  ghost predicate OneResult(s: State) {
    && (forall id :: id in s.channels ==> id in s.taken)
    && (forall id :: id in s.taken && id !in s.channels ==> exists t: nat :: Sends(s, t, id))
    && (forall t: nat, id :: Sends(s, t, id) ==> id in s.taken && id !in s.channels)
    && (forall t: nat, u: nat, id :: Sends(s, t, id) && Sends(s, u, id) ==> t == u)
  }

  ghost predicate ResultsOffered(s: State) {
    && (forall id :: id in s.channels && id in s.created ==> Offered(s.created[id], s.channels[id]))
    && forall t :: t in s.tasks && s.tasks[t].id in s.created ==> Offered(s.created[s.tasks[t].id], s.tasks[t].result)
  }

  /** Nothing is known about ids not yet given out, except that only errors wait for them. */
  ghost predicate NoPrediction(s: State) {
    && (forall t :: t in s.tasks ==> t < s.nextTask)
    && forall t :: t in s.tasks && s.tasks[t].id !in s.created ==> s.tasks[t].result.Erred?
  }

  /** Whoever waited heard of a request there is, and got just what was sent. */
  ghost predicate HeardRight(s: State) {
    forall id :: id in s.heard ==>
      id in s.created && (s.heard[id].Got? ==> id in s.channels && s.heard[id].result == s.channels[id])
  }

  ghost predicate Inv(s: State) {
    Ledger(s) && OneResult(s) && ResultsOffered(s) && NoPrediction(s) && HeardRight(s)
  }

  lemma LedgerStep(s: State, a: Action)
    requires Ledger(s)
    ensures Ledger(Step(s, a))
  {
  }

  lemma OfferedStep(s: State, a: Action)
    requires Inv(s)
    ensures ResultsOffered(Step(s, a)) && NoPrediction(Step(s, a))
  {
    hide Sends, HeardRight;
    if a.Send? && Enabled(s, a) { assert Sends(s, a.t, s.tasks[a.t].id) by { SendsTask(s, a.t); } }
  }

  lemma SendsTask(s: State, t: nat)
    requires t in s.tasks && s.tasks[t].Sending?
    ensures Sends(s, t, s.tasks[t].id)
  {
  }

  lemma HeardStep(s: State, a: Action)
    requires Inv(s)
    ensures HeardRight(Step(s, a))
  {
    hide ResultsOffered, Offered, NoPrediction;
  }

  /** Which goroutines are about to send after a step. */
  lemma SendsAfter(s: State, a: Action)
    requires NoPrediction(s)
    ensures forall t: nat, id :: Sends(Step(s, a), t, id) <==>
              (Sends(s, t, id) && a != Send(t)) ||
              (a == Take(t) && Enabled(s, a) && s.tasks[t].id == id && id in s.pending)
  {
  }

  /** A request is taken, and a goroutine is about to send its result. */
  lemma TakenGetsSender(s: State, s': State, id: int, t: nat)
    requires OneResult(s) && id !in s.taken && s'.taken == s.taken + {id} && s'.channels == s.channels
    requires forall u: nat, k :: Sends(s', u, k) <==> Sends(s, u, k) || (u == t && k == id)
    ensures OneResult(s')
  {
    hide Sends;
    assert Sends(s', t, id);
  }

  /** The goroutine sends. */
  lemma SenderDelivers(s: State, s': State, id: int, t: nat)
    requires OneResult(s) && Sends(s, t, id) && s'.taken == s.taken && s'.channels.Keys == s.channels.Keys + {id}
    requires forall u: nat, k :: Sends(s', u, k) <==> Sends(s, u, k) && u != t
    ensures OneResult(s')
  {
    assert forall k: int :: k != id ==> !Sends(s, t, k);
    hide Sends;
  }

  lemma OneResultStep(s: State, a: Action)
    requires Inv(s)
    ensures OneResult(Step(s, a))
  {
    SendsAfter(s, a);
    if a.Send? && Enabled(s, a) { SendsTask(s, a.t); }
    hide ResultsOffered, HeardRight, NoPrediction, Sends, OneResult;
    var s' := Step(s, a);
    if a.Take? && Enabled(s, a) && s.tasks[a.t].id in s.pending {
      TakenGetsSender(s, s', s.tasks[a.t].id, a.t);
    } else if a.Send? && Enabled(s, a) {
      assert s.tasks[a.t].id !in s.channels by { SenderIsFirst(s, a.t); }
      SenderDelivers(s, s', s.tasks[a.t].id, a.t);
    } else {
      SameResults(s, s');
    }
  }

  lemma SenderIsFirst(s: State, t: nat)
    requires OneResult(s) && t in s.tasks && s.tasks[t].Sending?
    ensures s.tasks[t].id !in s.channels
  {
    assert Sends(s, t, s.tasks[t].id);
  }

  lemma SameResults(s: State, s': State)
    requires OneResult(s) && s'.taken == s.taken && s'.channels == s.channels
    requires forall t: nat, id :: Sends(s', t, id) <==> Sends(s, t, id)
    ensures OneResult(s')
  {
    hide Sends;
  }

  lemma InvStep(s: State, a: Action)
    requires Inv(s)
    ensures Inv(Step(s, a))
  {
    LedgerStep(s, a);
    OneResultStep(s, a);
    OfferedStep(s, a);
    HeardStep(s, a);
  }

  lemma {:induction false} InvAlways(actions: seq<Action>)
    ensures Inv(Run(actions))
    decreases |actions|
  {
    if actions == [] {
    } else {
      InvAlways(actions[..|actions| - 1]);
      InvStep(Run(actions[..|actions| - 1]), actions[|actions| - 1]);
    }
  }

  /** Ids are never reused: a request once created keeps its id for itself. */
  lemma IdsNeverReused(actions: seq<Action>, a: Action)
    ensures var s := Run(actions);
            && (a.Create? ==> s.nextId !in s.created && s.nextId in Step(s, a).created)
            && forall id :: id in s.created ==> id in Step(s, a).created && Step(s, a).created[id] == s.created[id]
  {
    InvAlways(actions);
  }

  /** Under any race of answers, aborts and shutdowns, a request gets one result and keeps it. */
  lemma ResultIsFinal(actions: seq<Action>, a: Action, id: int)
    requires id in Run(actions).channels
    ensures var s := Run(actions);
            id in Step(s, a).channels && Step(s, a).channels[id] == s.channels[id] && id !in s.pending &&
            id in s.created && Offered(s.created[id], s.channels[id])
  {
    InvAlways(actions);
  }

  /** Waiting ends once: with a decision that the request offers, with an error, or at the deadline. */
  lemma HeardIsFinal(actions: seq<Action>, a: Action, id: int)
    requires id in Run(actions).heard
    ensures var s := Run(actions);
            && id in Step(s, a).heard && Step(s, a).heard[id] == s.heard[id]
            && id in s.created && (s.heard[id].Got? ==> Offered(s.created[id], s.heard[id].result))
  {
    InvAlways(actions);
  }

  /** A request stays pending when its deadline passes: a later answer is still taken, and reaches nobody. */
  lemma LateAnswerIsLost(actions: seq<Action>, id: int, decision: string)
    requires var s := Run(actions); id in s.pending && id !in s.heard && decision in s.pending[id].decisions
    ensures var t := Run(actions).nextTask;
            var later := Run(actions + [TimeOut(id), Answer(id, decision), Take(t), Send(t)]);
            && id in later.channels && later.channels[id] == Decided(decision)
            && id in later.heard && later.heard[id] == TimedOut
  {
    InvAlways(actions);
    var s, t := Run(actions), Run(actions).nextTask;
    RunNext(actions, TimeOut(id));
    RunNext(actions + [TimeOut(id)], Answer(id, decision));
    RunNext(actions + [TimeOut(id)] + [Answer(id, decision)], Take(t));
    RunNext(actions + [TimeOut(id)] + [Answer(id, decision)] + [Take(t)], Send(t));
    assert actions + [TimeOut(id)] + [Answer(id, decision)] + [Take(t)] + [Send(t)] ==
        actions + [TimeOut(id), Answer(id, decision), Take(t), Send(t)];
  }

  lemma RunNext(actions: seq<Action>, a: Action)
    ensures Run(actions + [a]) == Step(Run(actions), a)
  {
    assert (actions + [a])[..|actions|] == actions;
  }

  /** A send never meets a full channel, so no result is dropped. */
  lemma NoResultDropped(actions: seq<Action>, t: nat)
    requires Enabled(Run(actions), Send(t))
    ensures Run(actions).tasks[t].id !in Run(actions).channels
  {
    InvAlways(actions);
    assert Sends(Run(actions), t, Run(actions).tasks[t].id);
  }

  /** When no goroutine is under way, the requests are the pending ones and those with their one result. */
  lemma SettledWhenIdle(actions: seq<Action>)
    requires Run(actions).tasks == map[]
    ensures var s := Run(actions);
            s.created.Keys == s.pending.Keys + s.channels.Keys && s.pending.Keys !! s.channels.Keys
  {
    InvAlways(actions);
    var s := Run(actions);
    assert forall t: nat, id :: !Sends(s, t, id);
    forall id | id in s.taken
      ensures id in s.channels
    {
      assert id !in s.channels ==> exists t: nat :: Sends(s, t, id);
    }
    assert forall id :: id in s.channels.Keys ==> id in s.taken;
    assert s.taken == s.channels.Keys;
  }

  // ---- the manager, one call at a time ----

  class Manager {
    var nextReqId: int
    var pending: map<int, Request>
    var responses: map<int, Result>

    /** No goroutine is under way, and every id below nextReqId is pending or answered. */
    ghost predicate Valid()
      reads this
    {
      && 1 <= nextReqId
      && pending.Keys !! responses.Keys
      && forall id :: id in pending || id in responses <==> 1 <= id < nextReqId
    }

    constructor ()
      ensures Valid() && nextReqId == 1
    {
      nextReqId, pending, responses := 1, map[], map[];
    }

    method CreateServerRequest(thread: string, decisions: seq<string>) returns (id: int)
      requires Valid()
      modifies this
      ensures Valid() && id == old(nextReqId)
      ensures pending == old(pending)[id := Request(thread, decisions)] && responses == old(responses)
    {
      id := nextReqId;
      nextReqId := nextReqId + 1;
      pending := pending[id := Request(thread, decisions)];
    }

    method ResolveRequest(id: int, result: Result)
      requires Valid()
      modifies this
      ensures Valid() && nextReqId == old(nextReqId)
      ensures pending == old(pending) - {id}
      ensures responses == if id in old(pending) then old(responses)[id := result] else old(responses)
    {
      if id !in pending { return; }
      pending := pending - {id};
      if id !in responses {
        responses := responses[id := result];
      }
    }

    method ResolveServerRequest(id: int, decision: string) returns (found: bool)
      requires Valid()
      modifies this
      ensures Valid() && found == (id in old(pending)) && pending == old(pending) - {id}
      ensures responses == if found then old(responses)[id := Validated(old(pending)[id], decision)] else old(responses)
    {
      found := id in pending;
      if !found { return; }
      var offered := pending[id].decisions;
      var valid := false;
      for i := 0 to |offered|
        invariant Valid() && valid == (decision in offered[..i])
        invariant unchanged(this)
      {
        if offered[i] == decision {
          valid := true;
          break;
        }
      }
      if valid {
        ResolveRequest(id, Decided(decision));
      } else {
        ResolveRequest(id, Erred(InvalidDecision(decision)));
      }
    }

    /** Every pending request gets the error; what was answered stays. */
    method AbortAllPending(reason: string)
      requires Valid()
      modifies this
      ensures Valid() && pending == map[] && nextReqId == old(nextReqId)
      ensures forall id :: id in responses <==> id in old(responses) || id in old(pending)
      ensures forall id :: id in old(pending) ==> responses[id] == Erred(Released(reason))
      ensures forall id :: id in old(responses) ==> responses[id] == old(responses)[id]
    {
      var all := pending.Keys;
      while all != {}
        invariant Valid() && nextReqId == old(nextReqId)
        invariant all == pending.Keys <= old(pending).Keys
        invariant forall id :: id in responses <==> id in old(responses) || (id in old(pending) && id !in all)
        invariant forall id :: id in old(pending) && id !in all ==> responses[id] == Erred(Released(reason))
        invariant forall id :: id in old(responses) ==> responses[id] == old(responses)[id]
        decreases |all|
      {
        assert (forall id: int :: id !in all) ==> all == {};
        var id :| id in all;
        all := all - {id};
        ResolveRequest(id, Erred(Released(reason)));
      }
    }
  }
}
