/**
 * Message lists as the agent keeps them (agent/src/agent/core/turn_engine.py, react_agent.py, grpc_client.py).
 * A list is well formed if every assistant message with tool calls is followed at once by one tool message per
 * call, in the order of the calls, and tool messages stand nowhere else.
 */
module Conversation {
  import opened Wrappers
  import opened ToolRuntime

  datatype Message =
    | System(content: string)
    | User(content: string)
    | Assistant(content: string, calls: seq<ToolCall>)
    | Tool(callId: string, name: string, content: string)

  function Ids(calls: seq<ToolCall>): seq<string> {
    seq(|calls|, i requires 0 <= i < |calls| => calls[i].callId)
  }

  /** The calls that wait for their answers after message m, if `ids` waited before it. */
  function NextOwed(ids: seq<string>, m: Message): Option<seq<string>> {
    if ids != [] then
      if m.Tool? && m.callId == ids[0] then Some(ids[1..]) else None
    else
      match m
      case Tool(_, _, _) => None
      case Assistant(_, calls) => Some(Ids(calls))
      case _ => Some([])
  }

  /** The calls that wait for their answers at the end of the list; None if the list is broken. */
  function Owed(ms: seq<Message>): Option<seq<string>> {
    if ms == [] then Some([])
    else
      var before := Owed(ms[..|ms| - 1]);
      if before.None? then None else NextOwed(before.value, ms[|ms| - 1])
  }

  predicate WellFormed(ms: seq<Message>) { Owed(ms) == Some([]) }

  lemma OwedAppend(ms: seq<Message>, m: Message)
    requires Owed(ms).Some?
    ensures Owed(ms + [m]) == NextOwed(Owed(ms).value, m)
  {
    assert (ms + [m])[..|ms|] == ms;
  }

  lemma {:induction false} OwedConcat(a: seq<Message>, b: seq<Message>)
    requires WellFormed(a)
    ensures Owed(a + b) == Owed(b)
    decreases |b|
  {
    if b == [] {
      assert a + b == a;
    } else {
      OwedConcat(a, b[..|b| - 1]);
      assert (a + b)[..|a + b| - 1] == a + b[..|b| - 1];
    }
  }

  // ---- the same, said position by position ----

  predicate AnswersCall(m: Message, call: ToolCall) { m.Tool? && m.callId == call.callId }

  /** The assistant message at i has its answers right behind it. */
  ghost predicate AnsweredAt(ms: seq<Message>, i: nat)
    requires i < |ms| && ms[i].Assistant?
  {
    && i + |ms[i].calls| < |ms|
    && forall k :: 0 <= k < |ms[i].calls| ==> AnswersCall(ms[i + 1 + k], ms[i].calls[k])
  }

  /** Position j lies in the block of answers to the assistant message at i. */
  predicate Covers(ms: seq<Message>, i: nat, j: nat) {
    i < j && i < |ms| && ms[i].Assistant? && j <= i + |ms[i].calls|
  }

  ghost predicate AnsweredAtOnce(ms: seq<Message>) {
    && (forall i :: 0 <= i < |ms| && ms[i].Assistant? ==> AnsweredAt(ms, i))
    && (forall j :: 0 <= j < |ms| && ms[j].Tool? ==> exists i: nat :: Covers(ms, i, j))
  }

  /** Some block begun before position n is still open there. */
  ghost predicate InBlock(ms: seq<Message>, n: nat) { exists i: nat :: Covers(ms, i, n) }

  /** What waits at position n is what the open block still lacks. */
  ghost predicate OwedAt(ms: seq<Message>, n: nat, owed: seq<string>) {
    && (forall i: nat :: Covers(ms, i, n) ==> owed == Ids(ms[i].calls)[n - i - 1..])
    && (!InBlock(ms, n) ==> owed == [])
  }

  /** The message at position n answers the block it lies in, and is a tool message only in a block. */
  ghost predicate Fits(ms: seq<Message>, n: nat)
    requires n < |ms|
  {
    && (forall i: nat :: Covers(ms, i, n) ==> AnswersCall(ms[n], ms[i].calls[n - i - 1]))
    && (ms[n].Tool? ==> InBlock(ms, n))
  }

  /** One position further. */
  lemma NextPosition(ms: seq<Message>, n: nat, owed: seq<string>)
    requires n < |ms| && OwedAt(ms, n, owed) && NextOwed(owed, ms[n]).Some?
    ensures Fits(ms, n) && OwedAt(ms, n + 1, NextOwed(owed, ms[n]).value)
  {
    if InBlock(ms, n) {
      var i: nat :| Covers(ms, i, n);
      InsideBlock(ms, i, n, owed);
    } else {
      OutsideBlock(ms, n);
    }
  }

  lemma InsideBlock(ms: seq<Message>, i: nat, n: nat, owed: seq<string>)
    requires n < |ms| && OwedAt(ms, n, owed) && NextOwed(owed, ms[n]).Some? && Covers(ms, i, n)
    ensures Fits(ms, n) && OwedAt(ms, n + 1, NextOwed(owed, ms[n]).value)
  {
    var next := NextOwed(owed, ms[n]).value;
    assert InBlock(ms, n) && ms[n].Tool? && next == owed[1..];
    forall a: nat | Covers(ms, a, n + 1)
      ensures next == Ids(ms[a].calls)[n + 1 - a - 1..]
    {
      assert Covers(ms, a, n);
    }
    assert !InBlock(ms, n + 1) ==> !Covers(ms, i, n + 1);
  }

  lemma OutsideBlock(ms: seq<Message>, n: nat)
    requires n < |ms| && !InBlock(ms, n) && NextOwed([], ms[n]).Some?
    ensures Fits(ms, n) && OwedAt(ms, n + 1, NextOwed([], ms[n]).value)
  {
    var next := NextOwed([], ms[n]).value;
    forall a: nat | Covers(ms, a, n + 1)
      ensures next == Ids(ms[a].calls)[n + 1 - a - 1..]
    {
      assert !Covers(ms, a, n);
    }
    assert ms[n].Assistant? && ms[n].calls != [] ==> Covers(ms, n, n + 1);
  }

  lemma {:induction false} OwedMeansFits(ms: seq<Message>, n: nat)
    requires n <= |ms| && Owed(ms[..n]).Some?
    ensures OwedAt(ms, n, Owed(ms[..n]).value) && forall j :: 0 <= j < n ==> Fits(ms, j)
  {
    if n > 0 {
      assert ms[..n][..n - 1] == ms[..n - 1];
      OwedMeansFits(ms, n - 1);
      hide OwedAt, Fits;
      NextPosition(ms, n - 1, Owed(ms[..n - 1]).value);
    }
  }

  lemma {:induction false} FitsMeansOwed(ms: seq<Message>, n: nat)
    requires n <= |ms| && forall j :: 0 <= j < n ==> Fits(ms, j)
    ensures Owed(ms[..n]).Some? && OwedAt(ms, n, Owed(ms[..n]).value)
  {
    if n == 0 {
    } else {
      assert ms[..n][..n - 1] == ms[..n - 1];
      FitsMeansOwed(ms, n - 1);
      var owed := Owed(ms[..n - 1]).value;
      assert Fits(ms, n - 1);
      FittingIsNext(ms, n - 1, owed);
      hide OwedAt, Fits;
      NextPosition(ms, n - 1, owed);
    }
  }

  lemma FittingIsNext(ms: seq<Message>, n: nat, owed: seq<string>)
    requires n < |ms| && OwedAt(ms, n, owed) && Fits(ms, n)
    ensures NextOwed(owed, ms[n]).Some?
  {
    if i: nat :| Covers(ms, i, n) {
      assert owed[0] == ms[i].calls[n - i - 1].callId;
    } else {
      assert !InBlock(ms, n);
    }
  }

  /** Everything fits and no block is open at the end, exactly if every call is answered at once. */
  lemma AnsweredMeansFits(ms: seq<Message>)
    ensures AnsweredAtOnce(ms) <==> (forall j :: 0 <= j < |ms| ==> Fits(ms, j)) && !InBlock(ms, |ms|)
  {
    if AnsweredAtOnce(ms) {
      forall j, i: nat | 0 <= j < |ms| && Covers(ms, i, j)
        ensures AnswersCall(ms[j], ms[i].calls[j - i - 1])
      {
        assert AnsweredAt(ms, i) && ms[i + 1 + (j - i - 1)] == ms[j];
      }
      forall i: nat
        ensures !Covers(ms, i, |ms|)
      {
        assert i < |ms| && ms[i].Assistant? ==> AnsweredAt(ms, i);
      }
    }
    if (forall j :: 0 <= j < |ms| ==> Fits(ms, j)) && !InBlock(ms, |ms|) {
      forall i: nat | i < |ms| && ms[i].Assistant?
        ensures AnsweredAt(ms, i)
      {
        assert !Covers(ms, i, |ms|);
        forall k | 0 <= k < |ms[i].calls|
          ensures AnswersCall(ms[i + 1 + k], ms[i].calls[k])
        {
          assert Fits(ms, i + 1 + k) && Covers(ms, i, i + 1 + k);
        }
      }
      forall j | 0 <= j < |ms| && ms[j].Tool?
        ensures exists i: nat :: Covers(ms, i, j)
      {
        assert Fits(ms, j);
      }
    }
  }

  /** The two ways of saying it agree. */
  lemma WellFormedIff(ms: seq<Message>)
    ensures WellFormed(ms) <==> AnsweredAtOnce(ms)
  {
    assert ms[..|ms|] == ms;
    AnsweredMeansFits(ms);
    hide AnsweredAtOnce, Fits;
    if WellFormed(ms) {
      OwedMeansFits(ms, |ms|);
      OpenMeansOwed(ms, |ms|, []);
    }
    if AnsweredAtOnce(ms) { FitsMeansOwed(ms, |ms|); }
  }

  lemma OpenMeansOwed(ms: seq<Message>, n: nat, owed: seq<string>)
    requires OwedAt(ms, n, owed)
    ensures InBlock(ms, n) ==> owed != []
  {
    if i: nat :| Covers(ms, i, n) {
      assert |owed| == |ms[i].calls| - (n - i - 1);
    }
  }

  // ---- answers, and what is recorded ----

  const MAX_TOOL_RESULT_CHARS: nat := 10000

  function Clip(text: string): string {
    if |text| > MAX_TOOL_RESULT_CHARS then text[..MAX_TOOL_RESULT_CHARS] + "\n... (结果已截断)" else text
  }

  /** The answer to a call, cut to size. */
  function ToolMessage(call: ToolCall, r: ToolResult): Message { Tool(call.callId, call.toolName, Clip(r.result)) }

  /** The tool messages for the first n calls. */
  function ToolMessages(calls: seq<ToolCall>, results: seq<ToolResult>, n: nat): seq<Message>
    requires n <= |calls| && n <= |results|
  {
    if n == 0 then []
    else ToolMessages(calls, results, n - 1) + [ToolMessage(calls[n - 1], results[n - 1])]
  }

  /** Answering one call after the other pays the debt off from the front. */
  lemma {:induction false} AnswersPayOff(ms: seq<Message>, calls: seq<ToolCall>, results: seq<ToolResult>, n: nat)
    requires n <= |calls| && n <= |results| && Owed(ms) == Some(Ids(calls))
    ensures Owed(ms + ToolMessages(calls, results, n)) == Some(Ids(calls)[n..])
  {
    if n == 0 {
      assert ms + ToolMessages(calls, results, n) == ms;
      assert Ids(calls)[0..] == Ids(calls);
    } else {
      AnswersPayOff(ms, calls, results, n - 1);
      assert Ids(calls)[n - 1..][1..] == Ids(calls)[n..];
      hide Owed, Clip;
      var so := ms + ToolMessages(calls, results, n - 1);
      var m := ToolMessage(calls[n - 1], results[n - 1]);
      assert ms + ToolMessages(calls, results, n) == so + [m];
      OwedAppend(so, m);
    }
  }

  /** A list that ends in an answered round of tool calls. */
  lemma RoundKeeps(ms: seq<Message>, content: string, calls: seq<ToolCall>, results: seq<ToolResult>)
    requires WellFormed(ms) && |results| == |calls|
    ensures WellFormed(ms + [Assistant(content, calls)] + ToolMessages(calls, results, |calls|))
  {
    OwedAppend(ms, Assistant(content, calls));
    hide Owed, ToolMessages;
    AnswersPayOff(ms + [Assistant(content, calls)], calls, results, |calls|);
    assert Ids(calls)[|calls|..] == [];
  }

  /** The assistant and tool messages of the first n. */
  function Recorded(ms: seq<Message>, n: nat): seq<Message>
    requires n <= |ms|
  {
    if n == 0 then []
    else Recorded(ms, n - 1) + if ms[n - 1].Assistant? || ms[n - 1].Tool? then [ms[n - 1]] else []
  }

  /** Dropping the user messages breaks no round: they stand between rounds only. */
  lemma {:induction false} RecordingKeeps(ms: seq<Message>, n: nat)
    requires n <= |ms| && Owed(ms[..n]).Some?
    ensures Owed(Recorded(ms, n)) == Owed(ms[..n])
  {
    if n == 0 {
    } else {
      assert ms[..n][..n - 1] == ms[..n - 1];
      RecordingKeeps(ms, n - 1);
      OwedAppend(Recorded(ms, n - 1), ms[n - 1]);
      assert Recorded(ms, n - 1) + [] == Recorded(ms, n - 1);
    }
  }
}
