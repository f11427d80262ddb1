/**
 * A chat session over its turns: the entry point that runs a turn (agent/src/agent/core/react_agent.py), and the
 * history file that each turn appends to and later turns load (agent/src/agent/grpc_client.py).
 */
module Session {
  import opened Wrappers
  import opened ToolRuntime
  import opened Conversation
  import opened TurnEngine

  /** A tool call made before the turn on behalf of the user, and what the tool answered. */
  datatype Forced = Forced(call: ToolCall, result: string)

  datatype Line = Entry(message: Message) | Meta(executor: string)

  /** The messages in the first n lines. */
  function Messages(lines: seq<Line>, n: nat): seq<Message>
    requires n <= |lines|
  {
    if n == 0 then []
    else Messages(lines, n - 1) + if lines[n - 1].Entry? then [lines[n - 1].message] else []
  }

  function Entries(ms: seq<Message>): seq<Line> {
    seq(|ms|, i requires 0 <= i < |ms| => Entry(ms[i]))
  }

  lemma {:induction false} MessagesAppend(file: seq<Line>, ms: seq<Message>, n: nat)
    requires n <= |ms|
    ensures Messages(file + Entries(ms), |file| + n) == Messages(file, |file|) + ms[..n]
  {
    if n == 0 {
      MessagesPrefix(file, Entries(ms), |file|);
      assert Messages(file, |file|) + ms[..0] == Messages(file, |file|);
    } else {
      MessagesAppend(file, ms, n - 1);
      assert ms[..n] == ms[..n - 1] + [ms[n - 1]];
    }
  }

  lemma {:induction false} MessagesPrefix(file: seq<Line>, more: seq<Line>, n: nat)
    requires n <= |file|
    ensures Messages(file + more, n) == Messages(file, n)
  {
    if n == 0 {
    } else {
      MessagesPrefix(file, more, n - 1);
    }
  }

  /** The turn is written behind the lines there are and closed by a line with its executor. */
  function Appended(file: seq<Line>, ms: seq<Message>, executor: string): seq<Line> {
    file + Entries(ms) + [Meta(executor)]
  }

  /** What is loaded after a turn is what was loaded before it, and then the turn. */
  lemma LoadAfterAppend(file: seq<Line>, ms: seq<Message>, executor: string)
    ensures var after := Appended(file, ms, executor);
            Messages(after, |after|) == Messages(file, |file|) + ms
  {
    MessagesAppend(file, ms, |ms|);
    MessagesPrefix(file + Entries(ms), [Meta(executor)], |file + Entries(ms)|);
    assert ms[..|ms|] == ms;
  }

  lemma ForcedKeeps(history: seq<Message>, forced: Forced)
    requires WellFormed(history)
    ensures WellFormed(history + ForcedRound(forced))
  {
    var call := forced.call;
    OwedAppend(history, Assistant("", [call]));
    var begun := history + [Assistant("", [call])];
    var answer := Tool(call.callId, call.toolName, Cut(forced.result));
    OwedAppend(begun, answer);
    assert history + ForcedRound(forced) == begun + [answer];
    assert Ids([call]) == [call.callId];
    assert Owed(begun) == Some([call.callId]) && [call.callId][1..] == [];
  }

  /** The list sent to the model is the engine's list behind the system prompt. */
  lemma SystemPromptKeeps(prompt: string, ms: seq<Message>)
    requires WellFormed(ms)
    ensures WellFormed([System(prompt)] + ms)
  {
    OwedAppend([], System(prompt));
    assert [] + [System(prompt)] == [System(prompt)];
    OwedConcat([System(prompt)], ms);
  }

  function Cut(text: string): string {
    if |text| > MAX_TOOL_RESULT_CHARS then text[..MAX_TOOL_RESULT_CHARS] else text
  }

  function ForcedRound(forced: Forced): seq<Message> {
    [Assistant("", [forced.call]), Tool(forced.call.callId, forced.call.toolName, Cut(forced.result))]
  }

  method BuildRecordedMessages(originalLength: nat, userMessage: string, ms: seq<Message>)
    returns (recorded: seq<Message>)
    requires originalLength <= |ms|
    ensures recorded == [User(userMessage)] + Recorded(ms[originalLength..], |ms| - originalLength)
  {
    recorded := [User(userMessage)];
    var news := ms[originalLength..];
    for i := 0 to |news|
      invariant recorded == [User(userMessage)] + Recorded(news, i)
    {
      if news[i].Assistant? || news[i].Tool? {
        recorded := recorded + [news[i]];
      }
    }
  }

  /** The user's message and what is recorded of whole rounds form a well-formed list. */
  lemma RecordedIsWellFormed(userMessage: string, news: seq<Message>)
    requires WellFormed(news)
    ensures WellFormed([User(userMessage)] + Recorded(news, |news|))
  {
    assert news[..|news|] == news;
    RecordingKeeps(news, |news|);
    OwedAppend([], User(userMessage));
    assert [] + [User(userMessage)] == [User(userMessage)];
    OwedConcat([User(userMessage)], Recorded(news, |news|));
  }

  /** The messages of a turn behind its history: the forced round, the user's message, and what was said since. */
  function News(forced: Option<Forced>, userMessage: string, said: seq<Message>): seq<Message> {
    (if forced.Some? then ForcedRound(forced.value) else []) + [User(userMessage)] + said
  }

  lemma NewsAreWellFormed(forced: Option<Forced>, userMessage: string, said: seq<Message>)
    requires WellFormed(said)
    ensures WellFormed(News(forced, userMessage, said))
  {
    EmptyIsWellFormed();
    var start := if forced.Some? then ForcedRound(forced.value) else [];
    if forced.Some? {
      ForcedKeeps([], forced.value);
      assert [] + start == start;
    }
    UserKeeps(start, userMessage);
    ConcatKeeps(start + [User(userMessage)], said);
  }

  /** The list a turn starts from, before the user's message. */
  function Started(history: seq<Message>, forced: Option<Forced>): seq<Message> {
    history + if forced.Some? then ForcedRound(forced.value) else []
  }

  /**
   * What is recorded of the turn a trace tells: the user's message, and what agent and tools said behind the history.
   */
  function RecordOf(history: seq<Message>, userMessage: string, trace: seq<Event>): seq<Message> {
    var ms := Observe(trace).Messages();
    [User(userMessage)] + if |history| <= |ms| then Recorded(ms[|history|..], |ms| - |history|) else []
  }

  /** The trace is that of a turn from this history in this world: every model call got just the list so far. */
  ghost predicate TurnOf(trace: seq<Event>, history: seq<Message>, userMessage: string, world: World) {
    && trace != [] && trace[0] == TurnStarted(history + [User(userMessage)])
    && Observe(trace).opening == history + [User(userMessage)]
    && Observe(trace).proper && Observe(trace).asked < MAX_ITERATIONS && AllHeed(world, trace)
  }

  /** The trace came to its end. */
  predicate Finished(trace: seq<Event>) {
    trace != [] && (trace[|trace| - 1].TurnCompleted? || trace[|trace| - 1].TurnAborted?)
  }

  lemma StartedKeeps(history: seq<Message>, forced: Option<Forced>)
    ensures WellFormed(history) ==> WellFormed(Started(history, forced))
  {
    if WellFormed(history) {
      if forced.Some? {
        ForcedKeeps(history, forced.value);
      } else {
        assert history + [] == history;
      }
    }
  }

  /** Puts the forced round behind the history; a well-formed history stays so. */
  method Start(history: seq<Message>, forced: Option<Forced>) returns (started: seq<Message>)
    ensures started == Started(history, forced) && (WellFormed(history) ==> WellFormed(started))
  {
    StartedKeeps(history, forced);
    started := history;
    if forced.Some? {
      var call := forced.value.call;
      started := started + [Assistant("", [call])];
      var text := forced.value.result;
      if |text| > MAX_TOOL_RESULT_CHARS { text := text[..MAX_TOOL_RESULT_CHARS]; }
      started := started + [Tool(call.callId, call.toolName, text)];
    }
    assert started == Started(history, forced);
  }

  /** Whatever the history, what is recorded of a turn is well formed. */
  lemma RecordKeeps(history: seq<Message>, forced: Option<Forced>, userMessage: string, said: seq<Message>)
    requires WellFormed(said)
    ensures var ms := Started(history, forced) + [User(userMessage)] + said;
            |history| <= |ms| && WellFormed([User(userMessage)] + Recorded(ms[|history|..], |ms| - |history|))
  {
    hide WellFormed, Recorded;
    var ms, news := Started(history, forced) + [User(userMessage)] + said, News(forced, userMessage, said);
    NewsAreWellFormed(forced, userMessage, said);
    RecordedIsWellFormed(userMessage, news);
    assert ms == history + news && ms[|history|..] == news;
  }

  /**
   * The agent's entry point: the forced round, the turn, the messages to record. None is returned when the turn
   * ended with an exception other than a cancellation. The trace of the turn is returned with it.
   */
  method RunAgent(userMessage: string, history: seq<Message>, forced: Option<Forced>, world: World)
    returns (recorded: Option<seq<Message>>, ghost trace: seq<Event>)
    requires Fair(world)
    ensures TurnOf(trace, Started(history, forced), userMessage, world)
    ensures WellFormed(history) ==> Observe(trace).sound
    ensures recorded.Some? ==> recorded.value == RecordOf(history, userMessage, trace) && WellFormed(recorded.value)
    ensures recorded.Some? <==> Finished(trace)
    ensures recorded.Some? && DistinctReplies(world) ==> Observe(trace).phase == Ended
  {
    hide WellFormed, Recorded, Schedules, Fair, DistinctReplies, AllHeed, ObserveFrom;
    var engine := new Engine();
    var started := Start(history, forced);
    var end, aborted, answer := engine.Run(userMessage, started, world);
    trace := engine.trace;
    if end == OtherError { return None, trace; }
    RecordKeeps(history, forced, userMessage, engine.said);
    hide Started;
    var ms := BuildRecordedMessages(|history|, userMessage, engine.messages);
    recorded := Some(ms);
  }

  /** A chat whose turn has run, or has failed, and that has yet to append its record. */
  datatype Chat = Chat(session: string, record: Option<seq<Message>>, executor: string)

  /**
   * The agent process. Every chat is a task of its own: it loads the history, runs its turn, and appends the record
   * under a lock. Other chats, of the same session too, run in between; loading and appending do not overlap.
   */
  class Client {
    var files: map<string, seq<Line>>
    /** The chats under way. */
    var chats: map<nat, Chat>

    /** Every history file holds a well-formed list, and so does every record on its way there. */
    ghost predicate Valid()
      reads this
    {
      && (forall id :: id in files ==> WellFormed(Messages(files[id], |files[id]|)))
      && forall t :: t in chats && chats[t].record.Some? ==> WellFormed(chats[t].record.value)
    }

    constructor ()
      ensures Valid() && files == map[] && chats == map[]
    {
      files, chats := map[], map[];
    }

    /** The lines of a session's file; none if there is no file. */
    function File(session: string): seq<Line>
      reads this
    {
      if session in files then files[session] else []
    }

    method LoadHistory(session: string) returns (history: seq<Message>)
      requires Valid()
      ensures history == Messages(File(session), |File(session)|) && WellFormed(history)
    {
      history := [];
      if session in files {
        var lines := files[session];
        for i := 0 to |lines|
          invariant history == Messages(lines, i)
        {
          if lines[i].Entry? {
            history := history + [lines[i].message];
          }
        }
      }
    }

    /**
     * A chat up to the append, from any given history or else the one in the file as it is now. Every list given to
     * the model is well formed, unless the given history is not.
     */
    method StartChat(t: nat, session: string, userMessage: string, given: seq<Message>, forced: Option<Forced>,
                     executor: string, world: World)
      returns (ghost trace: seq<Event>, ghost history: seq<Message>)
      requires Valid() && Fair(world) && t !in chats
      modifies this`chats
      ensures Valid()
      ensures history == if given != [] then given else Messages(File(session), |File(session)|)
      ensures TurnOf(trace, Started(history, forced), userMessage, world)
      ensures given == [] || WellFormed(given) ==> Observe(trace).sound
      ensures chats == old(chats)[t := Chat(session, RecordIf(history, userMessage, trace), executor)]
    {
      var loaded := given;
      if given == [] {
        loaded := LoadHistory(session);
      }
      history := loaded;
      var recorded;
      recorded, trace := RunAgent(userMessage, loaded, forced, world);
      hide WellFormed, Messages, RecordOf, TurnOf, Finished;
      chats := chats[t := Chat(session, recorded, executor)];
    }

    /** The append: the file, whatever it has become since the chat started, grows by just the chat's record. */
    method FinishChat(t: nat)
      requires Valid() && t in chats
      modifies this
      ensures Valid() && chats == old(chats) - {t}
      ensures var chat := old(chats)[t];
              files == if chat.record.None? then old(files)
                       else old(files)[chat.session := Appended(old(File(chat.session)), chat.record.value,
                                                                chat.executor)]
    {
      var chat := chats[t];
      chats := chats - {t};
      if chat.record.None? { return; }
      var file := File(chat.session);
      LoadAfterAppend(file, chat.record.value, chat.executor);
      OwedConcat(Messages(file, |file|), chat.record.value);
      hide WellFormed, Messages, Appended;
      files := files[chat.session := Appended(file, chat.record.value, chat.executor)];
    }

    /** A chat that is cancelled before its append. */
    method DropChat(t: nat)
      requires Valid() && t in chats
      modifies this`chats
      ensures Valid() && chats == old(chats) - {t}
    {
      chats := chats - {t};
    }

    /** A chat that no other one interrupts. */
    method HandleChat(t: nat, session: string, userMessage: string, given: seq<Message>, forced: Option<Forced>,
                      executor: string, world: World)
      returns (ghost trace: seq<Event>, ghost history: seq<Message>)
      requires Valid() && Fair(world) && t !in chats
      modifies this
      ensures Valid() && chats == old(chats)
      ensures history == if given != [] then given else Messages(old(File(session)), |old(File(session))|)
      ensures TurnOf(trace, Started(history, forced), userMessage, world)
      ensures given == [] || WellFormed(given) ==> Observe(trace).sound
      ensures files == if !Finished(trace) then old(files)
                       else old(files)[session := Appended(old(File(session)), RecordOf(history, userMessage, trace),
                                                           executor)]
    {
      hide WellFormed, Messages, RecordOf, TurnOf, Appended, Finished, Fair, Valid;
      trace, history := StartChat(t, session, userMessage, given, forced, executor, world);
      FinishChat(t);
      assert chats == old(chats);
    }
  }

  /** The record of a turn that came to its end. */
  function RecordIf(history: seq<Message>, userMessage: string, trace: seq<Event>): Option<seq<Message>> {
    if Finished(trace) then Some(RecordOf(history, userMessage, trace)) else None
  }
}
