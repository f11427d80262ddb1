/**
 * One turn of the agent (agent/src/agent/core/turn_engine.py): sample the model, run the tools it asks for, go on.
 * Replies, schedules, tool results, clocks, interjections and interrupts are arbitrary.
 */
module TurnEngine {
  import opened Wrappers
  import opened ToolRuntime
  import opened Conversation
  import opened Steering

  const MAX_ITERATIONS: nat := 15
  const STUCK_THRESHOLD: nat := 3

  datatype Usage = Usage(input: nat, cached: nat, output: nat, estimated: bool)

  /** How a call of the model ends: with a reply, or by cancellation, or with another exception. */
  datatype Reply = Reply(content: string, calls: seq<ToolCall>, usage: Usage) | Cancelled | Failed

  /** What the outside does, by iteration of the sampling loop. */
  datatype World = World(
    pushes: nat -> seq<string>,
    interrupts: nat -> bool,
    expired: nat -> bool,
    reply: nat -> Reply,
    pick: nat -> (State -> Action),
    itemId: (nat, nat) -> string)

  ghost predicate Fair(world: World) { forall k: nat :: Schedules(world.pick(k)) }

  /**
   * The events of a turn. Three are not emitted: Steered stands for the interjections taken in, Asked for a call of
   * the model, and Ran for the results of a batch of tool calls.
   */
  datatype Event =
    | TurnStarted(opening: seq<Message>)
    | Steered(k: nat, steers: seq<string>)
    | Asked(k: nat, messages: seq<Message>, reply: Reply)
    | ItemStarted(itemId: string)
    | Ran(k: nat, calls: seq<ToolCall>, results: seq<ToolResult>)
    | ItemCompleted(itemId: string, result: ToolResult)
    | UsageUpdate(input: nat, cached: nat, output: nat, total: nat, estimated: bool)
    | TurnCompleted(answer: string)
    | TurnAborted(reason: string)

  // ---- the grammar of events ----

  datatype Phase =
    | Fresh
    | Idle
    | Opening(left: nat, ids: seq<string>)
    | Completing(ids: seq<string>)
    | Reported
    | Ended
    | Broken

  function NextPhase(p: Phase, e: Event, total: Usage): Phase {
    match (p, e)
    case (Fresh, TurnStarted(_)) => Idle
    case (Idle, Steered(_, _)) => Idle
    case (Idle, Asked(_, _, Reply(_, calls, _))) => if calls == [] then Idle else Opening(|calls|, [])
    case (Idle, Asked(_, _, _)) => Idle
    case (Opening(left, ids), ItemStarted(id)) =>
      if left <= 1 then Completing(ids + [id]) else Opening(left - 1, ids + [id])
    case (Completing(ids), Ran(_, _, _)) => Completing(ids)
    case (Completing(ids), ItemCompleted(id, _)) =>
      if ids == [] || ids[0] != id then Broken else if |ids| == 1 then Idle else Completing(ids[1..])
    case (Idle, UsageUpdate(input, cached, output, sum, estimated)) =>
      if Usage(input, cached, output, estimated) == total && sum == input + output then Reported else Broken
    case (Reported, TurnCompleted(_)) => Ended
    case (Reported, TurnAborted(_)) => Ended
    case _ => Broken
  }

  function AddUsage(total: Usage, u: Usage): Usage {
    Usage(total.input + u.input, total.cached + u.cached, total.output + u.output, total.estimated || u.estimated)
  }

  function Signature(call: ToolCall): string { call.toolName + ":" + call.arguments }

  function Signatures(calls: seq<ToolCall>): seq<string> {
    seq(|calls|, i requires 0 <= i < |calls| => Signature(calls[i]))
  }

  /** The last three tool calls coincide. */
  predicate Stuck(signatures: seq<string>) {
    var n := |signatures|;
    n >= STUCK_THRESHOLD && signatures[n - 1] == signatures[n - 2] == signatures[n - 3]
  }

  function Users(steers: seq<string>): seq<Message> {
    seq(|steers|, i requires 0 <= i < |steers| => User(steers[i]))
  }

  /** The content of the last assistant message that says anything. */
  function LastAnswer(ms: seq<Message>, n: nat): string
    requires n <= |ms|
  {
    if n == 0 then ""
    else if ms[n - 1].Assistant? && ms[n - 1].content != "" then ms[n - 1].content
    else LastAnswer(ms, n - 1)
  }

  /**
   * What an observer sees in a trace: the phase of the grammar; the usage summed over the replies; the signatures
   * of the tool calls; the list the turn opened with and what was said since, with the calls that wait for their
   * answers and the results they will get; and the number of model calls. `proper` says that each model call got
   * just that list, with whole rounds since the opening, and was made when not stuck; that each completed item has
   * the result of its run; and that a completed turn answers with the last thing said. `sound` says that the lists
   * given to the model were well formed.
   */
  datatype Seen = Seen(
    phase: Phase,
    usage: Usage,
    signatures: seq<string>,
    opening: seq<Message>,
    said: seq<Message>,
    waiting: seq<ToolCall>,
    ran: seq<ToolResult>,
    asked: nat,
    proper: bool,
    sound: bool)
  {
    /** The message list that the events tell. */
    function Messages(): seq<Message> { opening + said }
  }

  const NOTHING_SEEN := Seen(Fresh, Usage(0, 0, 0, false), [], [], [], [], [], 0, true, true)

  function See(seen: Seen, e: Event): Seen {
    var next := seen.(phase := NextPhase(seen.phase, e, seen.usage));
    match e
    case TurnStarted(opening) => next.(opening := opening, said := [])
    case Steered(_, steers) => next.(said := seen.said + Users(steers))
    case Asked(_, messages, reply) => Replied(next.(
        asked := seen.asked + 1,
        proper := seen.proper && messages == seen.Messages() && WellFormed(seen.said) && !Stuck(seen.signatures),
        sound := seen.sound && WellFormed(messages)), reply)
    case Ran(_, calls, results) => next.(ran := results, proper := seen.proper && calls == seen.waiting)
    case ItemCompleted(_, result) =>
      if seen.waiting == [] || seen.ran == [] then next.(proper := false)
      else
        next.(said := seen.said + [ToolMessage(seen.waiting[0], result)],
              waiting := seen.waiting[1..],
              ran := seen.ran[1..],
              proper := seen.proper && result == seen.ran[0])
    case TurnCompleted(answer) =>
      next.(proper := seen.proper && answer == LastAnswer(seen.Messages(), |seen.Messages()|))
    case _ => next
  }

  function Replied(seen: Seen, reply: Reply): Seen {
    if !reply.Reply? then seen
    else
      seen.(usage := AddUsage(seen.usage, reply.usage),
            signatures := seen.signatures + Signatures(reply.calls),
            said := seen.said + [Assistant(reply.content, reply.calls)],
            waiting := reply.calls)
  }

  function ObserveFrom(seen: Seen, events: seq<Event>): Seen {
    if events == [] then seen else See(ObserveFrom(seen, events[..|events| - 1]), events[|events| - 1])
  }

  function Observe(trace: seq<Event>): Seen { ObserveFrom(NOTHING_SEEN, trace) }

  lemma ObserveAppend(seen: Seen, events: seq<Event>, e: Event)
    ensures ObserveFrom(seen, events + [e]) == See(ObserveFrom(seen, events), e)
  {
    assert (events + [e])[..|events|] == events;
  }

  lemma {:induction false} ObserveConcat(seen: Seen, a: seq<Event>, b: seq<Event>)
    ensures ObserveFrom(seen, a + b) == ObserveFrom(ObserveFrom(seen, a), b)
    decreases |b|
  {
    hide See;
    if b == [] {
      assert a + b == a;
    } else {
      var front, last := b[..|b| - 1], b[|b| - 1];
      ObserveConcat(seen, a, front);
      assert a + b == (a + front) + [last];
      ObserveAppend(seen, a + front, last);
    }
  }

  lemma SeeSound(seen: Seen, e: Event)
    ensures See(seen, e).sound <==> seen.sound && (e.Asked? ==> WellFormed(e.messages))
  {
    hide WellFormed, NextPhase, Stuck, LastAnswer;
  }

  /** The lists given to the model were well formed, said event by event. */
  lemma {:induction false} SoundIff(trace: seq<Event>)
    ensures Observe(trace).sound <==> forall i :: 0 <= i < |trace| && trace[i].Asked? ==> WellFormed(trace[i].messages)
    decreases |trace|
  {
    hide WellFormed, See;
    if trace == [] {
    } else {
      var front := trace[..|trace| - 1];
      SoundIff(front);
      SeeSound(Observe(front), trace[|trace| - 1]);
      assert forall i :: 0 <= i < |front| ==> trace[i] == front[i];
    }
  }

  /**
   * The event agrees with the outside: replies, interjections and tool runs are its own, and no call ignores a stop.
   */
  ghost predicate Heeds(world: World, e: Event) {
    match e
    case Steered(k, steers) => steers == Newest(world.pushes(k))
    case Ran(k, calls, results) =>
      exists actions :: Follows(calls, world.pick(k), actions) && results == ToolRuntime.Run(calls, actions).results
    case Asked(k, _, reply) =>
      reply == world.reply(k) && !world.expired(k) && forall j: nat :: 1 <= j <= k ==> !world.interrupts(j)
    case _ => true
  }

  ghost predicate AllHeed(world: World, trace: seq<Event>) {
    forall i :: 0 <= i < |trace| ==> Heeds(world, trace[i])
  }

  // ---- the events of one batch of tool calls ----

  ghost predicate DistinctIds(calls: seq<ToolCall>) {
    forall i, j :: 0 <= i < j < |calls| ==> calls[i].callId != calls[j].callId
  }

  /** The last of the first n calls with this id. */
  function LastWith(calls: seq<ToolCall>, id: string, n: nat): (i: nat)
    requires n <= |calls| && exists k :: 0 <= k < n && calls[k].callId == id
    ensures i < n && calls[i].callId == id && forall k :: i < k < n ==> calls[k].callId != id
  {
    if calls[n - 1].callId == id then n - 1 else LastWith(calls, id, n - 1)
  }

  /** The item reported as completed for call i: the dictionary of item ids keeps the last entry of each call id. */
  function ReportedItem(calls: seq<ToolCall>, items: seq<string>, i: nat): string
    requires i < |calls| == |items|
  {
    items[LastWith(calls, calls[i].callId, |calls|)]
  }

  /** With item ids of their own, every completed item is the one started for its call just when call ids differ. */
  lemma ReportedItemsMatchIff(calls: seq<ToolCall>, items: seq<string>)
    requires |items| == |calls| && forall i, j :: 0 <= i < j < |items| ==> items[i] != items[j]
    ensures (forall i :: 0 <= i < |calls| ==> ReportedItem(calls, items, i) == items[i]) <==> DistinctIds(calls)
  {
    if forall i :: 0 <= i < |calls| ==> ReportedItem(calls, items, i) == items[i] {
      forall i, j | 0 <= i < j < |calls|
        ensures calls[i].callId != calls[j].callId
      {
        var last := LastWith(calls, calls[i].callId, |calls|);
        assert ReportedItem(calls, items, i) == items[i];
        assert last == i;
      }
    }
  }

  function StartEvents(items: seq<string>, n: nat): seq<Event>
    requires n <= |items|
  {
    if n == 0 then [] else StartEvents(items, n - 1) + [ItemStarted(items[n - 1])]
  }

  function CompleteEvents(calls: seq<ToolCall>, items: seq<string>, results: seq<ToolResult>, n: nat): seq<Event>
    requires n <= |calls| == |items| == |results|
  {
    if n == 0 then []
    else
      var last := ItemCompleted(ReportedItem(calls, items, n - 1), results[n - 1]);
      CompleteEvents(calls, items, results, n - 1) + [last]
  }

  function WithPhase(seen: Seen, phase: Phase): Seen { seen.(phase := phase) }

  /** The phase when n of the items have been announced. */
  function AfterStarts(items: seq<string>, n: nat): Phase
    requires n <= |items|
  {
    if n < |items| then Opening(|items| - n, items[..n]) else Completing(items)
  }

  lemma StartSeen(seen: Seen, items: seq<string>, n: nat)
    requires 0 < n <= |items|
    ensures See(WithPhase(seen, AfterStarts(items, n - 1)), ItemStarted(items[n - 1])) ==
        WithPhase(seen, AfterStarts(items, n))
  {
    assert items[..n - 1] + [items[n - 1]] == items[..n];
    assert items[..|items|] == items;
  }

  lemma BeforeStarts(seen: Seen, items: seq<string>)
    requires items != [] && seen.phase == Opening(|items|, [])
    ensures WithPhase(seen, AfterStarts(items, 0)) == seen
  {
  }

  lemma {:induction false} StartsSeen(seen: Seen, items: seq<string>, n: nat)
    requires n <= |items| && items != [] && seen.phase == Opening(|items|, [])
    ensures ObserveFrom(seen, StartEvents(items, n)) == WithPhase(seen, AfterStarts(items, n))
  {
    hide See, WithPhase, AfterStarts;
    if n == 0 {
      BeforeStarts(seen, items);
    } else {
      StartsSeen(seen, items, n - 1);
      ObserveAppend(seen, StartEvents(items, n - 1), ItemStarted(items[n - 1]));
      StartSeen(seen, items, n);
    }
  }

  lemma {:induction false} StartsOnlyPhase(seen: Seen, items: seq<string>, n: nat)
    requires n <= |items|
    ensures var after := ObserveFrom(seen, StartEvents(items, n)); after == WithPhase(seen, after.phase)
  {
    hide NextPhase;
    if n > 0 {
      StartsOnlyPhase(seen, items, n - 1);
      ObserveAppend(seen, StartEvents(items, n - 1), ItemStarted(items[n - 1]));
    }
  }

  /** What the first n completions of a batch tell: their tool messages. */
  function WithResults(seen: Seen, calls: seq<ToolCall>, results: seq<ToolResult>, n: nat, phase: Phase): Seen
    requires n <= |calls| && n <= |results|
  {
    seen.(phase := phase, said := seen.said + ToolMessages(calls, results, n),
          waiting := calls[n..], ran := results[n..])
  }

  lemma CompletionSeen(seen: Seen, calls: seq<ToolCall>, results: seq<ToolResult>, n: nat, phase: Phase, item: string)
    requires 0 < n <= |calls| == |results|
    ensures See(WithResults(seen, calls, results, n - 1, phase), ItemCompleted(item, results[n - 1])) ==
            WithResults(seen, calls, results, n, NextPhase(phase, ItemCompleted(item, results[n - 1]), seen.usage))
  {
    hide NextPhase;
    assert calls[n - 1..][1..] == calls[n..] && results[n - 1..][1..] == results[n..];
    assert seen.said + ToolMessages(calls, results, n - 1) + [ToolMessage(calls[n - 1], results[n - 1])] ==
           seen.said + ToolMessages(calls, results, n);
  }

  /** The phase after n completions, whatever the ids. */
  function PhaseAfter(phase: Phase, calls: seq<ToolCall>, items: seq<string>, results: seq<ToolResult>, n: nat,
                      usage: Usage): Phase
    requires n <= |calls| == |items| == |results|
  {
    if n == 0 then phase
    else NextPhase(PhaseAfter(phase, calls, items, results, n - 1, usage),
                   ItemCompleted(ReportedItem(calls, items, n - 1), results[n - 1]), usage)
  }

  lemma {:induction false} CompletionsSeen(seen: Seen, calls: seq<ToolCall>, items: seq<string>,
                                           results: seq<ToolResult>, n: nat)
    requires n <= |calls| == |items| == |results| && seen.waiting == calls && seen.ran == results
    ensures ObserveFrom(seen, CompleteEvents(calls, items, results, n)) ==
            WithResults(seen, calls, results, n, PhaseAfter(seen.phase, calls, items, results, n, seen.usage))
  {
    hide NextPhase, See, ReportedItem;
    if n == 0 {
      assert calls[0..] == calls && results[0..] == results && seen.said + [] == seen.said;
    } else {
      CompletionsSeen(seen, calls, items, results, n - 1);
      var item := ReportedItem(calls, items, n - 1);
      ObserveAppend(seen, CompleteEvents(calls, items, results, n - 1), ItemCompleted(item, results[n - 1]));
      CompletionSeen(seen, calls, results, n, PhaseAfter(seen.phase, calls, items, results, n - 1, seen.usage), item);
    }
  }

  /** With distinct call ids the completions fit the announcements. */
  lemma {:induction false} CompletionsFit(calls: seq<ToolCall>, items: seq<string>, results: seq<ToolResult>, n: nat,
                                          usage: Usage)
    requires n <= |calls| == |items| == |results| && calls != [] && DistinctIds(calls)
    ensures PhaseAfter(Completing(items), calls, items, results, n, usage) ==
        if n < |items| then Completing(items[n..]) else Idle
  {
    if n == 0 {
      assert items[0..] == items;
    } else {
      CompletionsFit(calls, items, results, n - 1, usage);
      assert LastWith(calls, calls[n - 1].callId, |calls|) == n - 1;
      assert items[n - 1..][1..] == items[n..];
    }
  }

  function Batch(k: nat, calls: seq<ToolCall>, items: seq<string>, results: seq<ToolResult>): seq<Event>
    requires |calls| == |items| == |results|
  {
    StartEvents(items, |items|) + [Ran(k, calls, results)] + CompleteEvents(calls, items, results, |calls|)
  }

  lemma RanSeen(seen: Seen, k: nat, calls: seq<ToolCall>, items: seq<string>, results: seq<ToolResult>)
    requires |calls| == |items| == |results| && calls != [] && seen.waiting == calls
    ensures var after := ObserveFrom(seen, StartEvents(items, |items|) + [Ran(k, calls, results)]);
            && after == seen.(phase := after.phase, ran := results)
            && (seen.phase == Opening(|calls|, []) ==> after.phase == Completing(items))
  {
    StartsOnlyPhase(seen, items, |items|);
    if seen.phase == Opening(|calls|, []) { StartsSeen(seen, items, |items|); }
    ObserveAppend(seen, StartEvents(items, |items|), Ran(k, calls, results));
    hide ObserveFrom, StartEvents;
  }

  /** A batch tells the tool messages of its results and brings the observer back to where a model call may follow. */
  lemma BatchSeen(seen: Seen, k: nat, calls: seq<ToolCall>, items: seq<string>, results: seq<ToolResult>)
    requires |calls| == |items| == |results| && calls != [] && seen.waiting == calls
    ensures var after := ObserveFrom(seen, Batch(k, calls, items, results));
            && after == WithResults(seen, calls, results, |calls|, after.phase)
            && (seen.phase == Opening(|calls|, []) && DistinctIds(calls) ==> after.phase == Idle)
  {
    var start := StartEvents(items, |items|) + [Ran(k, calls, results)];
    var begun := ObserveFrom(seen, start);
    RanSeen(seen, k, calls, items, results);
    ObserveConcat(seen, start, CompleteEvents(calls, items, results, |calls|));
    CompletionsSeen(begun, calls, items, results, |calls|);
    hide StartEvents, CompleteEvents, DistinctIds, PhaseAfter, ObserveFrom;
    if seen.phase == Opening(|calls|, []) && DistinctIds(calls) {
      CompletionsFit(calls, items, results, |calls|, begun.usage);
    }
  }

  lemma {:induction false} BatchHeeds(world: World, calls: seq<ToolCall>, items: seq<string>, results: seq<ToolResult>,
                                      n: nat)
    requires n <= |calls| == |items| == |results|
    ensures AllHeed(world, StartEvents(items, n)) && AllHeed(world, CompleteEvents(calls, items, results, n))
  {
    if n == 0 {
    } else {
      BatchHeeds(world, calls, items, results, n - 1);
      assert Heeds(world, ItemStarted(items[n - 1]));
      assert Heeds(world, ItemCompleted(ReportedItem(calls, items, n - 1), results[n - 1]));
      hide Heeds, ReportedItem;
    }
  }

  /** Call ids differ within every reply. */
  ghost predicate DistinctReplies(world: World) {
    forall k: nat :: world.reply(k).Reply? ==> DistinctIds(world.reply(k).calls)
  }

  // ---- the engine ----

  datatype End = Returned | CancelledError | OtherError

  lemma {:induction false} UsersKeep(ms: seq<Message>, steers: seq<string>)
    requires WellFormed(ms)
    ensures WellFormed(ms + Users(steers))
    decreases |steers|
  {
    if steers == [] {
      assert ms + Users(steers) == ms;
    } else {
      var front, last := steers[..|steers| - 1], steers[|steers| - 1];
      UsersKeep(ms, front);
      assert ms + Users(steers) == ms + Users(front) + [User(last)];
      OwedAppend(ms + Users(front), User(last));
    }
  }

  lemma PlainAnswerKeeps(ms: seq<Message>, content: string)
    requires WellFormed(ms)
    ensures WellFormed(ms + [Assistant(content, [])])
  {
    OwedAppend(ms, Assistant(content, []));
    assert Ids([]) == [];
  }

  lemma EmptyIsWellFormed()
    ensures WellFormed([])
  {
  }

  lemma ConcatKeeps(a: seq<Message>, b: seq<Message>)
    requires WellFormed(a) && WellFormed(b)
    ensures WellFormed(a + b)
  {
    OwedConcat(a, b);
  }

  lemma UserKeeps(ms: seq<Message>, content: string)
    requires WellFormed(ms)
    ensures WellFormed(ms + [User(content)])
  {
    OwedAppend(ms, User(content));
  }

  class Engine {
    const steer: SteerQueue
    var interrupted: bool
    var messages: seq<Message>
    var total: Usage
    var signatures: seq<string>
    ghost var trace: seq<Event>
    /** The messages since the turn opened, and those it opened with. */
    ghost var opening: seq<Message>
    ghost var said: seq<Message>

    /** The turn's own rounds are whole, and the books of the engine are those of an observer of its trace. */
    ghost predicate Valid()
      reads this`messages, this`total, this`signatures, this`trace, this`opening, this`said
    {
      WellFormed(said) && Booked()
    }

    lemma BooksAreSound()
      requires Valid()
      ensures WellFormed(opening) ==> Observe(trace).sound
    {
    }

    ghost predicate Booked()
      reads this`messages, this`total, this`signatures, this`trace, this`opening, this`said
    {
      var seen := Observe(trace);
      && seen.usage == total && seen.signatures == signatures && seen.proper
      && seen.opening == opening && seen.said == said && messages == opening + said
      && (WellFormed(opening) ==> seen.sound)
    }

    constructor ()
      ensures steer.Valid() && fresh(steer) && steer.pushed == []
      ensures messages == [] && total == NOTHING_SEEN.usage && signatures == [] && trace == [] && !interrupted
    {
      steer := new SteerQueue();
      interrupted, messages, total, signatures := false, [], Usage(0, 0, 0, false), [];
      trace, opening, said := [], [], [];
    }

    ghost method Note(e: Event)
      modifies this`trace
      ensures trace == old(trace) + [e] && Observe(trace) == See(Observe(old(trace)), e)
    {
      ObserveAppend(NOTHING_SEEN, trace, e);
      trace := trace + [e];
    }

    /** What came in since the last boundary; an interrupt also empties the queue. */
    method TakeInputs(world: World, k: nat)
      requires steer.Valid() && steer.pushed == []
      modifies this`interrupted, steer
      ensures steer.Valid()
      ensures interrupted == (old(interrupted) || world.interrupts(k))
      ensures steer.pushed == if world.interrupts(k) then [] else world.pushes(k)
    {
      var inputs := world.pushes(k);
      for i := 0 to |inputs|
        invariant steer.Valid() && steer.pushed == inputs[..i] && interrupted == old(interrupted)
      {
        steer.Push(inputs[i]);
      }
      if world.interrupts(k) {
        interrupted := true;
        steer.Clear();
      }
    }

    method DrainSteering(ghost k: nat)
      requires Valid() && steer.Valid()
      modifies this`messages, this`trace, this`said, steer
      ensures Valid() && steer.Valid() && steer.pushed == []
      ensures messages == old(messages) + Users(Newest(old(steer.pushed)))
      ensures trace == old(trace) + [Steered(k, Newest(old(steer.pushed)))]
      ensures Observe(trace).asked == Observe(old(trace)).asked
      ensures Observe(old(trace)).phase == Idle ==> Observe(trace).phase == Idle
    {
      hide WellFormed, Stuck, LastAnswer;
      ghost var users := Users(Newest(steer.pushed));
      UsersKeep(said, Newest(steer.pushed));
      Note(Steered(k, Newest(steer.pushed)));
      AppendSteers();
      assert opening + said + users == opening + (said + users);
      said := said + users;
    }

    method AppendSteers()
      requires steer.Valid()
      modifies this`messages, steer
      ensures steer.Valid() && steer.pushed == []
      ensures messages == old(messages) + Users(Newest(old(steer.pushed)))
    {
      var steers := steer.Drain();
      for i := 0 to |steers|
        invariant messages == old(messages) + Users(steers[..i]) && steer.Valid() && steer.pushed == []
      {
        messages := messages + [User(steers[i])];
        assert Users(steers[..i + 1]) == Users(steers[..i]) + [User(steers[i])];
      }
      assert steers[..|steers|] == steers;
    }

    method CheckLoopTermination(iteration: nat, expired: bool) returns (stop: bool)
      ensures stop <==> iteration >= MAX_ITERATIONS || expired || Stuck(signatures)
    {
      if iteration >= MAX_ITERATIONS { return true; }
      if expired { return true; }
      if |signatures| >= STUCK_THRESHOLD {
        var last := signatures[|signatures| - STUCK_THRESHOLD..];
        if last[0] == last[1] && last[1] == last[2] { return true; }
      }
      return false;
    }

    /** Announces every call and keeps the item ids by call id, as a dictionary does. */
    method StartItems(calls: seq<ToolCall>, items: seq<string>) returns (itemIds: map<string, string>)
      requires |items| == |calls|
      modifies this`trace
      ensures trace == old(trace) + StartEvents(items, |items|)
      ensures forall i :: 0 <= i < |calls| ==>
                calls[i].callId in itemIds && itemIds[calls[i].callId] == ReportedItem(calls, items, i)
    {
      itemIds := map[];
      for i := 0 to |calls|
        invariant trace == old(trace) + StartEvents(items, i)
        invariant forall j :: 0 <= j < i ==>
                    calls[j].callId in itemIds && itemIds[calls[j].callId] == items[LastWith(calls, calls[j].callId, i)]
      {
        itemIds := itemIds[calls[i].callId := items[i]];
        trace := trace + [ItemStarted(items[i])];
      }
    }

    method CompleteItems(calls: seq<ToolCall>, ghost items: seq<string>, itemIds: map<string, string>,
                         results: seq<ToolResult>)
      requires |items| == |calls| == |results|
      requires forall i :: 0 <= i < |calls| ==>
                 calls[i].callId in itemIds && itemIds[calls[i].callId] == ReportedItem(calls, items, i)
      modifies this`trace
      ensures trace == old(trace) + CompleteEvents(calls, items, results, |calls|)
    {
      hide ReportedItem;
      for i := 0 to |calls|
        invariant trace == old(trace) + CompleteEvents(calls, items, results, i)
      {
        var itemId := itemIds[calls[i].callId];
        trace := trace + [ItemCompleted(itemId, results[i])];
      }
    }

    method ExecuteTools(calls: seq<ToolCall>, world: World, k: nat) returns (results: seq<ToolResult>)
      requires Schedules(world.pick(k)) && calls != [] && Observe(trace).waiting == calls
      modifies this`trace
      ensures |results| == |calls| && forall i :: 0 <= i < |calls| ==> ResultFor(calls[i], results[i])
      ensures Heeds(world, Ran(k, calls, results))
      ensures var before, after := Observe(old(trace)), Observe(trace);
              && after == WithResults(before, calls, results, |calls|, after.phase)
              && (before.phase == Opening(|calls|, []) && DistinctIds(calls) ==> after.phase == Idle)
      ensures old(trace) <= trace && (AllHeed(world, old(trace)) ==> AllHeed(world, trace))
    {
      hide Schedules, DistinctIds, ReportedItem, ObserveFrom, Follows, ToolRuntime.Run;
      var items := seq(|calls|, i requires 0 <= i < |calls| => world.itemId(k, i));
      var itemIds := StartItems(calls, items);
      ghost var actions;
      results, actions := RunBatch(calls, world.pick(k));
      trace := trace + [Ran(k, calls, results)];
      assert Heeds(world, Ran(k, calls, results));
      CompleteItems(calls, items, itemIds, results);
      BatchSeen(Observe(old(trace)), k, calls, items, results);
      ObserveConcat(NOTHING_SEEN, old(trace), Batch(k, calls, items, results));
      BatchHeeds(world, calls, items, results, |calls|);
      hide StartEvents, CompleteEvents, Heeds;
      assert trace == old(trace) + Batch(k, calls, items, results);
    }

    method RecordResults(calls: seq<ToolCall>, results: seq<ToolResult>)
      requires |results| == |calls|
      modifies this`messages
      ensures messages == old(messages) + ToolMessages(calls, results, |calls|)
    {
      for i := 0 to |calls|
        invariant messages == old(messages) + ToolMessages(calls, results, i)
      {
        var text := results[i].result;
        if |text| > MAX_TOOL_RESULT_CHARS {
          text := text[..MAX_TOOL_RESULT_CHARS] + "\n... (结果已截断)";
        }
        messages := messages + [Tool(calls[i].callId, calls[i].toolName, text)];
      }
    }

    method AccumulateUsage(u: Usage)
      modifies this`total
      ensures total == AddUsage(old(total), u)
    {
      total := Usage(total.input + u.input, total.cached + u.cached, total.output + u.output,
                     total.estimated || u.estimated);
    }

    /** The reply is in the books but for the signatures of its calls, which wait for their results. */
    ghost predicate Owing(calls: seq<ToolCall>)
      reads this`messages, this`total, this`signatures, this`trace, this`opening, this`said
    {
      var seen := Observe(trace);
      && seen.usage == total && seen.signatures == signatures + Signatures(calls) && seen.waiting == calls
      && seen.opening == opening && seen.said == said && messages == opening + said
      && seen.proper && (WellFormed(opening) ==> seen.sound)
    }

    /** The model call, and its reply in the books. */
    method Ask(world: World, k: nat) returns (reply: Reply)
      requires Valid() && !Stuck(signatures) && AllHeed(world, trace)
      requires Heeds(world, Asked(k, messages, world.reply(k)))
      modifies this`messages, this`total, this`trace, this`said
      ensures reply == world.reply(k) && AllHeed(world, trace)
      ensures trace == old(trace) + [Asked(k, old(messages), reply)]
      ensures Observe(trace).asked == Observe(old(trace)).asked + 1
      ensures !reply.Reply? ==> Valid() && messages == old(messages)
      ensures reply.Reply? ==>
                && Owing(reply.calls) && said == old(said) + [Assistant(reply.content, reply.calls)]
                && messages == old(messages) + [Assistant(reply.content, reply.calls)]
      ensures Observe(old(trace)).phase == Idle ==>
                Observe(trace).phase == if reply.Reply? && reply.calls != [] then Opening(|reply.calls|, []) else Idle
    {
      hide WellFormed, Stuck, Observe, Heeds, LastAnswer, Signatures;
      if WellFormed(opening) { ConcatKeeps(opening, said); }
      reply := world.reply(k);
      Note(Asked(k, messages, reply));
      if reply.Reply? {
        AccumulateUsage(reply.usage);
        messages := messages + [Assistant(reply.content, reply.calls)];
        said := said + [Assistant(reply.content, reply.calls)];
        assert messages == opening + said;
      }
    }

    /** The tools of a reply, and their results in the list and in the books. */
    method RunTools(calls: seq<ToolCall>, world: World, k: nat, ghost before: seq<Message>, ghost content: string)
      requires Schedules(world.pick(k)) && calls != [] && Owing(calls) && AllHeed(world, trace)
      requires WellFormed(before) && said == before + [Assistant(content, calls)]
      modifies this`messages, this`signatures, this`trace, this`said
      ensures Valid() && old(messages) <= messages && old(trace) <= trace && AllHeed(world, trace)
      ensures Observe(trace).asked == Observe(old(trace)).asked
      ensures Observe(old(trace)).phase == Opening(|calls|, []) && DistinctIds(calls) ==> Observe(trace).phase == Idle
    {
      hide WellFormed, Schedules, DistinctIds, Observe, Heeds, ToolMessages, Signatures;
      var results := ExecuteTools(calls, world, k);
      RecordResults(calls, results);
      said := said + ToolMessages(calls, results, |calls|);
      assert messages == opening + said;
      RoundKeeps(before, content, calls, results);
      signatures := signatures + Signatures(calls);
    }

    /** One round: ask the model, and run the tools of its reply. `more` tells whether to sample again. */
    method Sample(world: World, k: nat) returns (end: End, more: bool)
      requires Fair(world) && Valid() && !Stuck(signatures) && AllHeed(world, trace)
      requires Heeds(world, Asked(k, messages, world.reply(k)))
      modifies this`messages, this`total, this`signatures, this`trace, this`said
      ensures Valid() && old(messages) <= messages && old(trace) <= trace && AllHeed(world, trace)
      ensures end == match world.reply(k)
                     case Reply(_, _, _) => Returned
                     case Cancelled => CancelledError
                     case Failed => OtherError
      ensures more <==> world.reply(k).Reply? && world.reply(k).calls != []
      ensures end == OtherError ==> trace != [] && trace[|trace| - 1].Asked?
      ensures Observe(trace).asked == Observe(old(trace)).asked + 1
      ensures Observe(old(trace)).phase == Idle && (world.reply(k).Reply? ==> DistinctIds(world.reply(k).calls)) ==>
                Observe(trace).phase == Idle
    {
      hide WellFormed, Stuck, DistinctIds, Observe, Heeds, Schedules;
      ghost var before := said;
      var reply := Ask(world, k);
      match reply
      case Cancelled => return CancelledError, false;
      case Failed => return OtherError, false;
      case Reply(content, calls, _) =>
        if calls == [] {
          PlainAnswerKeeps(before, content);
          assert Signatures([]) == [] && signatures + [] == signatures;
          return Returned, false;
        }
        RunTools(calls, world, k, before, content);
        return Returned, true;
    }

    /** The sampling loop; `k` is the number of boundaries it reached. */
    method SampleLoop(world: World) returns (end: End, k: nat)
      requires Fair(world) && Valid() && steer.Valid() && steer.pushed == [] && !interrupted
      requires Observe(trace).asked == 0 && Observe(trace).phase == Idle && AllHeed(world, trace)
      modifies this, steer
      ensures Valid() && steer.Valid() && steer.pushed == [] && old(messages) <= messages && AllHeed(world, trace)
      ensures old(trace) <= trace && opening == old(opening)
      ensures Observe(trace).asked < MAX_ITERATIONS
      ensures DistinctReplies(world) ==> Observe(trace).phase == Idle
      ensures interrupted <==> exists j: nat :: 1 <= j <= k && world.interrupts(j)
      ensures end != Returned ==> !interrupted
      ensures end == OtherError ==> trace != [] && trace[|trace| - 1].Asked?
    {
      hide WellFormed, Stuck, DistinctIds, Observe, Schedules, Newest, Users;
      k := 0;
      var more := true;
      end := Returned;
      while more
        invariant k <= MAX_ITERATIONS && (more ==> k < MAX_ITERATIONS && end == Returned)
        invariant Valid() && steer.Valid() && steer.pushed == [] && old(messages) <= messages && AllHeed(world, trace)
        invariant opening == old(opening)
        invariant old(trace) <= trace && (end == OtherError ==> trace != [] && trace[|trace| - 1].Asked?)
        invariant Observe(trace).asked <= k && Observe(trace).asked < MAX_ITERATIONS
        invariant DistinctReplies(world) ==> Observe(trace).phase == Idle
        invariant !interrupted && forall j: nat :: 1 <= j <= k ==> !world.interrupts(j)
        decreases more, MAX_ITERATIONS - k
      {
        k := k + 1;
        TakeInputs(world, k);
        if interrupted {
          steer.Clear();
          return;
        }
        DrainSteering(k);
        var stop := CheckLoopTermination(k, world.expired(k));
        if stop { return; }
        end, more := Sample(world, k);
      }
    }

    method GetLastAgentMessage() returns (answer: string)
      ensures answer == LastAnswer(messages, |messages|)
    {
      var n := |messages|;
      while n > 0
        invariant 0 <= n <= |messages| && LastAnswer(messages, n) == LastAnswer(messages, |messages|)
      {
        if messages[n - 1].Assistant? && messages[n - 1].content != "" { return messages[n - 1].content; }
        n := n - 1;
      }
      answer := "";
    }

    method EmitUsage(ghost world: World)
      requires Valid() && AllHeed(world, trace)
      modifies this`trace
      ensures Valid() && AllHeed(world, trace) && old(trace) <= trace
      ensures Observe(trace).asked == Observe(old(trace)).asked
      ensures Observe(old(trace)).phase == Idle ==> Observe(trace).phase == Reported
    {
      hide WellFormed, Stuck, LastAnswer;
      Note(UsageUpdate(total.input, total.cached, total.output, total.input + total.output, total.estimated));
    }

    /** The last event of a turn. */
    ghost method Close(e: Event, world: World)
      requires Valid() && AllHeed(world, trace)
      requires e.TurnAborted? || e == TurnCompleted(LastAnswer(messages, |messages|))
      modifies this`trace
      ensures Valid() && AllHeed(world, trace) && trace == old(trace) + [e]
      ensures Observe(trace).asked == Observe(old(trace)).asked
      ensures Observe(old(trace)).phase == Reported ==> Observe(trace).phase == Ended
    {
      hide WellFormed, Stuck, LastAnswer;
      Note(e);
    }

    /** The first event of a turn. */
    ghost method Open(history: seq<Message>, userMessage: string, world: World)
      requires trace == [] && total == NOTHING_SEEN.usage && signatures == []
      requires messages == history + [User(userMessage)]
      modifies this`trace, this`opening, this`said
      ensures Valid() && AllHeed(world, trace) && trace == [TurnStarted(messages)] && opening == messages
      ensures Observe(trace).asked == 0 && Observe(trace).phase == Idle
    {
      hide WellFormed, Stuck, LastAnswer;
      Note(TurnStarted(messages));
      opening, said := messages, [];
      EmptyIsWellFormed();
    }

    /** What follows the loop: the usage and one last event. */
    method Finish(end: End, k: nat, world: World) returns (aborted: bool, answer: string)
      requires end != OtherError && Valid() && steer.Valid() && steer.pushed == [] && AllHeed(world, trace)
      requires end == CancelledError ==> !interrupted
      modifies this`interrupted, this`trace, steer
      ensures Valid() && AllHeed(world, trace) && old(trace) <= trace
      ensures Observe(trace).asked == Observe(old(trace)).asked
      ensures Observe(old(trace)).phase == Idle ==> Observe(trace).phase == Ended
      ensures aborted <==> end == CancelledError || interrupted
      ensures trace != []
      ensures trace[|trace| - 1] == if !aborted then TurnCompleted(answer)
                                    else TurnAborted(if interrupted then "interrupted" else "cancelled")
    {
      hide WellFormed, ObserveFrom, LastAnswer, Stuck, AllHeed;
      aborted, answer := true, "";
      if end == CancelledError {
        EmitUsage(world);
        Close(TurnAborted("cancelled"), world);
        return;
      }
      TakeInputs(world, k + 1);
      EmitUsage(world);
      if interrupted {
        Close(TurnAborted("interrupted"), world);
        return;
      }
      aborted := false;
      answer := GetLastAgentMessage();
      Close(TurnCompleted(answer), world);
    }

    /** The turn behind its opening: the loop, and unless that failed, what follows it. */
    method Play(world: World) returns (end: End, aborted: bool, answer: string)
      requires Fair(world) && Valid() && steer.Valid() && steer.pushed == [] && !interrupted
      requires Observe(trace).asked == 0 && Observe(trace).phase == Idle && AllHeed(world, trace)
      modifies this, steer
      ensures Valid() && opening == old(opening) && old(trace) <= trace && AllHeed(world, trace)
      ensures Observe(trace).asked < MAX_ITERATIONS
      ensures end == OtherError ==> trace != [] && trace[|trace| - 1].Asked?
      ensures DistinctReplies(world) && end != OtherError ==> Observe(trace).phase == Ended
      ensures end != OtherError ==> trace != [] && (aborted <==> end == CancelledError || interrupted)
      ensures end != OtherError ==>
                trace[|trace| - 1] == if !aborted then TurnCompleted(answer)
                                      else TurnAborted(if interrupted then "interrupted" else "cancelled")
    {
      hide WellFormed, DistinctReplies, Schedules, Fair, Observe, Stuck, AllHeed, Valid;
      var k;
      end, k := SampleLoop(world);
      aborted, answer := false, "";
      if end != OtherError {
        aborted, answer := Finish(end, k, world);
      }
    }

    /**
     * The whole turn, from any history. Every list given to the model is the one the events tell, the turn's own
     * rounds in it are whole, and it is well formed if the history is; the replies, interjections, tool runs and
     * stops are those of the outside; at most fourteen model calls are made, none after three equal tool calls in a
     * row; and with distinct call ids the events follow the grammar to its end.
     */
    method Run(userMessage: string, history: seq<Message>, world: World)
      returns (end: End, aborted: bool, answer: string)
      requires Fair(world) && steer.Valid() && steer.pushed == [] && !interrupted
      requires trace == [] && signatures == [] && total == NOTHING_SEEN.usage
      modifies this, steer
      ensures Valid() && opening == history + [User(userMessage)] && AllHeed(world, trace)
      ensures WellFormed(history) ==> Observe(trace).sound
      ensures trace != [] && trace[0] == TurnStarted(history + [User(userMessage)])
      ensures Observe(trace).asked < MAX_ITERATIONS
      ensures end == OtherError ==> trace[|trace| - 1].Asked?
      ensures DistinctReplies(world) && end != OtherError ==> Observe(trace).phase == Ended
      ensures end != OtherError ==> (aborted <==> end == CancelledError || interrupted)
      ensures end != OtherError ==>
                trace[|trace| - 1] == if !aborted then TurnCompleted(answer)
                                      else TurnAborted(if interrupted then "interrupted" else "cancelled")
    {
      if WellFormed(history) { UserKeeps(history, userMessage); }
      hide WellFormed, DistinctReplies, Schedules, Fair, Observe, Stuck, AllHeed, Valid;
      messages := history + [User(userMessage)];
      Open(history, userMessage, world);
      end, aborted, answer := Play(world);
      BooksAreSound();
    }
  }
}
