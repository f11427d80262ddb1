/**
 * Streaming a model reply through the backend (backend/internal/llm/client.go) and on to the agent
 * (backend/internal/handler/agent.go). The transport is arbitrary.
 */
module LlmStream {
  import opened Wrappers

  const NETWORK_ERROR: nat := 1001
  const TIMEOUT: nat := 1002
  const STREAM_INTERRUPTED: nat := 1003

  datatype Error = Classified(code: nat) | Unclassified(text: string)

  datatype Usage = Usage(prompt: int, cached: int, completion: int, reasoning: int, total: int)

  /**
   * What one scan of the response body brings: a line and whether the channel takes it in time, the end, or an error.
   */
  datatype Scan = Line(data: string, taken: bool) | Finish | Broke(deadline: bool, text: string)

  /** One HTTP request: it fails before the body is read, or its body is scanned; a body that runs out has ended. */
  datatype Attempt = Refused(err: Error) | Opened(scans: seq<Scan>)

  datatype Payload = Empty | Text(data: string) | Failure(code: nat)

  datatype Chunk = Chunk(payload: Payload, done: bool, usage: Option<Usage>)

  /** How an attempt ends. */
  datatype Ending = Finished(usage: Option<Usage>) | FailedWith(err: Error)

  /** Recognises the frame that carries the usage. */
  type UsageOf = string -> Option<Usage>

  // ---- one attempt ----

  /** The frames handed to the channel before the scan ends or fails. */
  function FramesOf(scans: seq<Scan>, usageOf: UsageOf): seq<string> {
    if scans == [] || !scans[0].Line? then []
    else if scans[0].data == "" || usageOf(scans[0].data).Some? then FramesOf(scans[1..], usageOf)
    else if !scans[0].taken then []
    else [scans[0].data] + FramesOf(scans[1..], usageOf)
  }

  function EndingOf(scans: seq<Scan>, usage: Option<Usage>, usageOf: UsageOf): Ending {
    if scans == [] then Finished(usage)
    else match scans[0]
      case Finish => Finished(usage)
      case Broke(deadline, text) => FailedWith(if deadline then Classified(TIMEOUT) else Unclassified(text))
      case Line(data, taken) =>
        if data == "" then EndingOf(scans[1..], usage, usageOf)
        else if usageOf(data).Some? then EndingOf(scans[1..], usageOf(data), usageOf)
        else if !taken then FailedWith(Classified(TIMEOUT))
        else EndingOf(scans[1..], usage, usageOf)
  }

  function Frames(a: Attempt, usageOf: UsageOf): seq<string> {
    if a.Refused? then [] else FramesOf(a.scans, usageOf)
  }

  function HowEnded(a: Attempt, usageOf: UsageOf): Ending {
    if a.Refused? then FailedWith(a.err) else EndingOf(a.scans, None, usageOf)
  }

  function DataChunks(frames: seq<string>): seq<Chunk> {
    seq(|frames|, i requires 0 <= i < |frames| => Chunk(Text(frames[i]), false, None))
  }

  /** Frames are never empty and never carry usage. */
  lemma {:induction false} FramesAreData(scans: seq<Scan>, usageOf: UsageOf)
    ensures forall i :: 0 <= i < |FramesOf(scans, usageOf)| ==>
              FramesOf(scans, usageOf)[i] != "" && usageOf(FramesOf(scans, usageOf)[i]).None?
  {
    if scans == [] {
    } else {
      FramesAreData(scans[1..], usageOf);
    }
  }

  // ---- the channel ----

  predicate Retryable(err: Error) {
    err.Classified? ==> err.code == NETWORK_ERROR || err.code >= 500
  }

  /** The code that the last chunk reports when every attempt failed with nothing sent. */
  function ReportedCode(err: Error): nat {
    if err.Classified? then err.code else NETWORK_ERROR
  }

  class Channel {
    var chunks: seq<Chunk>

    constructor ()
      ensures chunks == []
    {
      chunks := [];
    }

    method Send(c: Chunk)
      modifies this
      ensures chunks == old(chunks) + [c]
    {
      chunks := chunks + [c];
    }

    method DoStream(a: Attempt, usageOf: UsageOf) returns (sent: bool, err: Option<Error>)
      modifies this
      ensures err.None? <==> HowEnded(a, usageOf).Finished?
      ensures chunks == old(chunks) + DataChunks(Frames(a, usageOf)) +
                        if err.None? then [Chunk(Empty, true, HowEnded(a, usageOf).usage)] else []
      ensures err.Some? ==> HowEnded(a, usageOf) == FailedWith(err.value) && (sent <==> Frames(a, usageOf) != [])
    {
      if a.Refused? { return false, Some(a.err); }
      var usage: Option<Usage> := None;
      sent := false;
      ghost var given: seq<string> := [];
      for n := 0 to |a.scans|
        invariant chunks == old(chunks) + DataChunks(given)
        invariant FramesOf(a.scans, usageOf) == given + FramesOf(a.scans[n..], usageOf)
        invariant EndingOf(a.scans, None, usageOf) == EndingOf(a.scans[n..], usage, usageOf)
        invariant sent <==> given != []
      {
        assert a.scans[n..][1..] == a.scans[n + 1..];
        match a.scans[n]
        case Finish =>
          Send(Chunk(Empty, true, usage));
          return false, None;
        case Broke(deadline, text) =>
          return sent, Some(if deadline then Classified(TIMEOUT) else Unclassified(text));
        case Line(data, taken) =>
          if data == "" { continue; }
          if usageOf(data).Some? {
            usage := usageOf(data);
            continue;
          }
          if !taken { return sent, Some(Classified(TIMEOUT)); }
          Send(Chunk(Text(data), false, None));
          sent := true;
          ghost var rest := FramesOf(a.scans[n + 1..], usageOf);
          assert given + ([data] + rest) == (given + [data]) + rest;
          given := given + [data];
      }
      Send(Chunk(Empty, true, usage));
      err := None;
    }

    /** At most two attempts; the second only if the first failed retryably with nothing sent. */
    method StreamWithRetry(attempts: nat -> Attempt, usageOf: UsageOf) returns (made: nat)
      requires chunks == []
      modifies this
      ensures 1 <= made <= 2
      ensures made == 2 <==> Frames(attempts(0), usageOf) == [] && HowEnded(attempts(0), usageOf).FailedWith? &&
                             Retryable(HowEnded(attempts(0), usageOf).err)
      ensures chunks == Channelled(attempts(made - 1), usageOf)
    {
      hide FramesOf, EndingOf;
      var lastErr := Unclassified("");
      for attempt := 0 to 2
        invariant chunks == []
        invariant attempt > 0 ==> HowEnded(attempts(0), usageOf).FailedWith?
        invariant attempt > 0 ==> Retryable(HowEnded(attempts(0), usageOf).err) && Frames(attempts(0), usageOf) == []
        invariant attempt > 0 ==> HowEnded(attempts(attempt - 1), usageOf) == FailedWith(lastErr)
        invariant attempt > 0 ==> Frames(attempts(attempt - 1), usageOf) == []
      {
        made := attempt + 1;
        var sent, err := DoStream(attempts(attempt), usageOf);
        if err.None? { return; }
        lastErr := err.value;
        if sent {
          Send(Chunk(Failure(STREAM_INTERRUPTED), true, None));
          return;
        }
        if attempt == 0 && lastErr.Classified? && !Retryable(lastErr) {
          Send(Chunk(Failure(lastErr.code), true, None));
          return;
        }
      }
      Send(Chunk(Failure(ReportedCode(lastErr)), true, None));
      made := 2;
    }
  }

  /** The channel's content when this attempt was the last. */
  function Channelled(a: Attempt, usageOf: UsageOf): seq<Chunk> {
    DataChunks(Frames(a, usageOf)) + [LastChunk(a, usageOf)]
  }

  function LastChunk(a: Attempt, usageOf: UsageOf): Chunk {
    match HowEnded(a, usageOf)
    case Finished(usage) => Chunk(Empty, true, usage)
    case FailedWith(err) =>
      Chunk(Failure(if Frames(a, usageOf) != [] then STREAM_INTERRUPTED else ReportedCode(err)), true, None)
  }

  // ---- forwarding to the agent ----

  datatype Response = Response(isError: bool, payload: Payload, usage: Option<Usage>)

  function Forwarded(chunks: seq<Chunk>, n: nat): seq<Response>
    requires n <= |chunks|
  {
    if n == 0 then []
    else
      var c := chunks[n - 1];
      Forwarded(chunks, n - 1) +
      if c.done && c.payload.Empty? then [] else [Response(c.done && !c.payload.Empty?, c.payload, c.usage)]
  }

  /** The usage of the last of the first n chunks that has one. */
  function LastUsage(chunks: seq<Chunk>, n: nat): Option<Usage>
    requires n <= |chunks|
  {
    if n == 0 then None else if chunks[n - 1].usage.Some? then chunks[n - 1].usage else LastUsage(chunks, n - 1)
  }

  function Responses(chunks: seq<Chunk>): seq<Response> {
    Forwarded(chunks, |chunks|) + UsageResponse(LastUsage(chunks, |chunks|))
  }

  function UsageResponse(usage: Option<Usage>): seq<Response> {
    if usage.Some? then [Response(false, Empty, usage)] else []
  }

  /** The forwarding loop; `accepts` tells which sends the agent's end of the stream takes. */
  method CallLLM(chunks: seq<Chunk>, accepts: nat -> bool) returns (stream: seq<Response>)
    ensures stream <= Responses(chunks)
    ensures (forall n :: accepts(n)) ==> stream == Responses(chunks)
  {
    stream := [];
    var lastUsage: Option<Usage> := None;
    for n := 0 to |chunks|
      invariant stream == Forwarded(chunks, n) && lastUsage == LastUsage(chunks, n)
    {
      var c := chunks[n];
      ForwardedGrows(chunks, n + 1, |chunks|);
      if c.usage.Some? { lastUsage := c.usage; }
      if c.done && c.payload.Empty? { continue; }
      if !accepts(|stream|) { return; }
      stream := stream + [Response(c.done && !c.payload.Empty?, c.payload, c.usage)];
    }
    if lastUsage.Some? && accepts(|stream|) {
      stream := stream + [Response(false, Empty, lastUsage)];
    }
  }

  lemma {:induction false} ForwardedGrows(chunks: seq<Chunk>, n: nat, m: nat)
    requires n <= m <= |chunks|
    ensures Forwarded(chunks, n) <= Forwarded(chunks, m)
    decreases m
  {
    if n == m {
    } else {
      ForwardedGrows(chunks, n, m - 1);
    }
  }

  function TextResponses(frames: seq<string>): seq<Response> {
    seq(|frames|, i requires 0 <= i < |frames| => Response(false, Text(frames[i]), None))
  }

  lemma {:induction false} ForwardedFrames(frames: seq<string>, last: Chunk, n: nat)
    requires n <= |frames|
    ensures Forwarded(DataChunks(frames) + [last], n) == TextResponses(frames[..n])
    ensures LastUsage(DataChunks(frames) + [last], n).None?
  {
    if n == 0 {
    } else {
      ForwardedFrames(frames, last, n - 1);
      assert frames[..n] == frames[..n - 1] + [frames[n - 1]];
    }
  }

  /**
   * End to end: the agent gets the frames of one attempt in order, none of them empty or usage, then one error, or
   * the usage, or nothing, so text of two attempts is never mixed and an error is the only one and comes last.
   */
  lemma StreamShape(a: Attempt, usageOf: UsageOf)
    ensures var stream := Responses(Channelled(a, usageOf));
            stream == TextResponses(Frames(a, usageOf)) +
                      match HowEnded(a, usageOf)
                      case Finished(usage) => UsageResponse(usage)
                      case FailedWith(err) => [Response(true, LastChunk(a, usageOf).payload, None)]
    ensures forall text :: text in Frames(a, usageOf) ==> text != "" && usageOf(text).None?
  {
    if a.Opened? { FramesAreData(a.scans, usageOf); }
    var frames, last := Frames(a, usageOf), LastChunk(a, usageOf);
    ForwardedFrames(frames, last, |frames|);
    assert frames[..|frames|] == frames;
    assert (DataChunks(frames) + [last])[|frames|] == last;
  }
}
