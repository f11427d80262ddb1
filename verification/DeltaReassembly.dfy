/** Putting a streamed model reply together again (call_llm_via_go in agent/src/agent/grpc_client.py). */
module DeltaReassembly {

  /** A fragment of a tool call; missing fields are empty. */
  datatype Piece = Piece(index: int, id: string, kind: string, name: string, arguments: string)

  datatype Delta = Delta(content: string, pieces: seq<Piece>)

  /**
   * A message of the stream: an error, a frame that is no JSON, one without a delta, a delta, or JSON of another shape,
   * such as a delta whose tool_calls are null, on which the receiver raises an exception that nothing here catches.
   */
  datatype Frame = ErrorFrame(message: string) | Malformed | NoDelta | DeltaFrame(delta: Delta) | Misshapen

  datatype Call = Call(id: string, kind: string, name: string, arguments: string)

  datatype Result = Success(content: string, calls: seq<Call>) | Failure(message: string) | Raised

  const PARSE_ERROR := "Response parse error"

  const EMPTY := Call("", "", "", "")

  function Over(earlier: string, later: string): string { if later != "" then later else earlier }

  /** The entry of an index after one more of its fragments. */
  function Merge(c: Call, p: Piece): Call {
    Call(Over(c.id, p.id), Over(c.kind, p.kind), Over(c.name, p.name), c.arguments + p.arguments)
  }

  /** The entries by index after a list of fragments. */
  function Assembled(pieces: seq<Piece>): map<int, Call> {
    if pieces == [] then map[]
    else
      var before, p := Assembled(pieces[..|pieces| - 1]), pieces[|pieces| - 1];
      before[p.index := Merge(if p.index in before then before[p.index] else EMPTY, p)]
  }

  /** The fragments of one index, in their order. */
  function Own(pieces: seq<Piece>, index: int): seq<Piece> {
    if pieces == [] then []
    else
      var p := pieces[|pieces| - 1];
      Own(pieces[..|pieces| - 1], index) + if p.index == index then [p] else []
  }

  function Folded(pieces: seq<Piece>): Call {
    if pieces == [] then EMPTY else Merge(Folded(pieces[..|pieces| - 1]), pieces[|pieces| - 1])
  }

  /** An entry depends on the fragments of its own index only. */
  lemma {:induction false} EntryIsOwnFold(pieces: seq<Piece>, index: int)
    ensures index in Assembled(pieces) <==> Own(pieces, index) != []
    ensures index in Assembled(pieces) ==> Assembled(pieces)[index] == Folded(Own(pieces, index))
    decreases |pieces|
  {
    if pieces == [] {
    } else {
      var before, p := pieces[..|pieces| - 1], pieces[|pieces| - 1];
      EntryIsOwnFold(before, index);
      if p.index == index {
        var own := Own(before, index);
        assert (own + [p])[..|own|] == own;
      } else {
        assert Own(before, index) + [] == Own(before, index);
      }
    }
  }

  /** However fragments of different indices are interleaved, the entries are the same. */
  lemma InterleavingIrrelevant(a: seq<Piece>, b: seq<Piece>)
    requires forall index :: Own(a, index) == Own(b, index)
    ensures Assembled(a) == Assembled(b)
  {
    forall index: int
      ensures index in Assembled(a) <==> index in Assembled(b)
      ensures index in Assembled(a) ==> Assembled(a)[index] == Assembled(b)[index]
    {
      EntryIsOwnFold(a, index);
      EntryIsOwnFold(b, index);
    }
  }

  // ---- splitting calls and putting them together ----

  function Arguments(pieces: seq<Piece>): string {
    if pieces == [] then "" else Arguments(pieces[..|pieces| - 1]) + pieces[|pieces| - 1].arguments
  }

  /** A field is sent in some fragment and left out or repeated in the others. */
  ghost predicate Carries(fields: seq<string>, field: string) {
    && (forall i :: 0 <= i < |fields| ==> fields[i] == "" || fields[i] == field)
    && exists i :: 0 <= i < |fields| && fields[i] == field
  }

  function IdsOf(pieces: seq<Piece>): seq<string> { seq(|pieces|, i requires 0 <= i < |pieces| => pieces[i].id) }

  function KindsOf(pieces: seq<Piece>): seq<string> { seq(|pieces|, i requires 0 <= i < |pieces| => pieces[i].kind) }

  function NamesOf(pieces: seq<Piece>): seq<string> { seq(|pieces|, i requires 0 <= i < |pieces| => pieces[i].name) }

  /** The fragments spell out the call: its arguments cut anywhere, its other fields in some fragment. */
  ghost predicate Splits(pieces: seq<Piece>, call: Call) {
    && pieces != [] && Arguments(pieces) == call.arguments
    && Carries(IdsOf(pieces), call.id) && Carries(KindsOf(pieces), call.kind) && Carries(NamesOf(pieces), call.name)
  }

  /** The last of the fields that says anything. */
  function LastSaid(fields: seq<string>): string {
    if fields == [] then "" else Over(LastSaid(fields[..|fields| - 1]), fields[|fields| - 1])
  }

  lemma {:induction false} FoldedFields(pieces: seq<Piece>)
    ensures Folded(pieces) ==
        Call(LastSaid(IdsOf(pieces)), LastSaid(KindsOf(pieces)), LastSaid(NamesOf(pieces)), Arguments(pieces))
    decreases |pieces|
  {
    if pieces == [] {
    } else {
      var before := pieces[..|pieces| - 1];
      FoldedFields(before);
      assert IdsOf(pieces)[..|pieces| - 1] == IdsOf(before);
      assert KindsOf(pieces)[..|pieces| - 1] == KindsOf(before);
      assert NamesOf(pieces)[..|pieces| - 1] == NamesOf(before);
    }
  }

  lemma {:induction false} CarriedIsSaid(fields: seq<string>, field: string)
    requires forall i :: 0 <= i < |fields| ==> fields[i] == "" || fields[i] == field
    ensures LastSaid(fields) == "" || LastSaid(fields) == field
    ensures field in fields ==> LastSaid(fields) == field
    decreases |fields|
  {
    if fields == [] {
    } else {
      CarriedIsSaid(fields[..|fields| - 1], field);
    }
  }

  lemma SplitFolds(pieces: seq<Piece>, call: Call)
    requires Splits(pieces, call)
    ensures Folded(pieces) == call
  {
    FoldedFields(pieces);
    CarriedIsSaid(IdsOf(pieces), call.id);
    CarriedIsSaid(KindsOf(pieces), call.kind);
    CarriedIsSaid(NamesOf(pieces), call.name);
  }

  /** Each call is split into fragments under its own index, and the fragments are interleaved in any way. */
  ghost predicate Fragments(pieces: seq<Piece>, calls: seq<Call>) {
    && (forall i :: 0 <= i < |calls| ==> Splits(Own(pieces, i), calls[i]))
    && forall index: int :: !(0 <= index < |calls|) ==> Own(pieces, index) == []
  }

  lemma FragmentsAssemble(pieces: seq<Piece>, calls: seq<Call>)
    requires Fragments(pieces, calls)
    ensures Assembled(pieces) == map i | 0 <= i < |calls| :: calls[i]
  {
    forall index: int
      ensures index in Assembled(pieces) <==> 0 <= index < |calls|
      ensures 0 <= index < |calls| ==> index in Assembled(pieces) && Assembled(pieces)[index] == calls[index]
    {
      EntryIsOwnFold(pieces, index);
      if 0 <= index < |calls| { SplitFolds(Own(pieces, index), calls[index]); }
    }
  }

  // ---- the calls that are kept, in index order ----

  /** Recognises JSON text. */
  type IsJson = string -> bool

  predicate Kept(c: Call, isJson: IsJson) {
    (c.arguments == "" || isJson(c.arguments)) && c.name != ""
  }

  /** The keys of the table, each once. */
  ghost predicate Lists(keys: seq<int>, entries: map<int, Call>) {
    (forall i :: 0 <= i < |keys| ==> keys[i] in entries) && forall k :: k in entries ==> k in keys
  }

  predicate Ascending(keys: seq<int>) { forall i, j :: 0 <= i < j < |keys| ==> keys[i] < keys[j] }

  /** The kept entries of the first n keys. */
  function KeptOf(keys: seq<int>, entries: map<int, Call>, isJson: IsJson, n: nat): seq<Call>
    requires n <= |keys| && forall i :: 0 <= i < |keys| ==> keys[i] in entries
  {
    if n == 0 then []
    else
      var last := entries[keys[n - 1]];
      KeptOf(keys, entries, isJson, n - 1) + if Kept(last, isJson) then [last] else []
  }

  function KeptCalls(calls: seq<Call>, isJson: IsJson, n: nat): seq<Call>
    requires n <= |calls|
  {
    if n == 0 then []
    else KeptCalls(calls, isJson, n - 1) + if Kept(calls[n - 1], isJson) then [calls[n - 1]] else []
  }

  method SortedKeys(entries: map<int, Call>) returns (keys: seq<int>)
    ensures Ascending(keys) && Lists(keys, entries)
  {
    keys := [];
    var rest := entries.Keys;
    while rest != {}
      invariant Ascending(keys) && rest <= entries.Keys
      invariant forall i :: 0 <= i < |keys| ==> keys[i] in entries
      invariant forall k :: k in entries ==> k in rest || k in keys
      invariant forall i, r :: 0 <= i < |keys| && r in rest ==> keys[i] < r
      decreases |rest|
    {
      var least := Least(rest);
      keys := keys + [least];
      rest := rest - {least};
    }
  }

  method Least(s: set<int>) returns (least: int)
    requires s != {}
    ensures least in s && forall k :: k in s ==> least <= k
  {
    assert (forall k: int :: k !in s) ==> s == {};
    least :| least in s;
    var rest := s - {least};
    while rest != {}
      invariant rest <= s && least in s
      invariant forall k :: k in s && k !in rest ==> least <= k
      decreases |rest|
    {
      assert (forall k: int :: k !in rest) ==> rest == {};
      var k :| k in rest;
      if k < least { least := k; }
      rest := rest - {k};
    }
  }

  /** The keys of a dense table come out in order. */
  lemma {:induction false} DenseKeys(keys: seq<int>, n: nat)
    requires Ascending(keys) && forall i :: 0 <= i < |keys| ==> 0 <= keys[i] < n
    requires forall k :: 0 <= k < n ==> k in keys
    ensures |keys| == n && forall i :: 0 <= i < n ==> keys[i] == i
    decreases |keys|
  {
    assert n > 0 ==> 0 in keys;
    if keys != [] {
      var last := |keys| - 1;
      assert 0 <= keys[last] < n;
      assert n - 1 in keys;
      var i :| 0 <= i < |keys| && keys[i] == n - 1;
      assert i == last;
      forall k | 0 <= k < n - 1
        ensures k in keys[..last]
      {
        assert k in keys;
      }
      DenseKeys(keys[..last], n - 1);
    }
  }

  lemma {:induction false} KeptOfDense(keys: seq<int>, calls: seq<Call>, isJson: IsJson, n: nat)
    requires n <= |keys| == |calls| && forall i :: 0 <= i < |keys| ==> keys[i] == i
    ensures KeptOf(keys, map i | 0 <= i < |calls| :: calls[i], isJson, n) == KeptCalls(calls, isJson, n)
  {
    if n == 0 {
    } else {
      KeptOfDense(keys, calls, isJson, n - 1);
    }
  }

  // ---- the receiving loop ----

  function PiecesOf(frames: seq<Frame>, n: nat): seq<Piece>
    requires n <= |frames|
  {
    if n == 0 then []
    else PiecesOf(frames, n - 1) + if frames[n - 1].DeltaFrame? then frames[n - 1].delta.pieces else []
  }

  function ContentOf(frames: seq<Frame>, n: nat): string
    requires n <= |frames|
  {
    if n == 0 then ""
    else ContentOf(frames, n - 1) + if frames[n - 1].DeltaFrame? then frames[n - 1].delta.content else ""
  }

  function Concat(texts: seq<string>): string {
    if texts == [] then "" else Concat(texts[..|texts| - 1]) + texts[|texts| - 1]
  }

  predicate Good(frame: Frame) { frame.NoDelta? || frame.DeltaFrame? }

  predicate Sound(frames: seq<Frame>) {
    forall i :: 0 <= i < |frames| ==> Good(frames[i])
  }

  /** How receiving ends at a frame that is not good. */
  function Outcome(frame: Frame): Result
    requires !Good(frame)
  {
    match frame
    case ErrorFrame(message) => Failure(message)
    case Malformed => Failure(PARSE_ERROR)
    case Misshapen => Raised
  }

  /** The first frame that is not good decides. */
  ghost predicate EndsAt(frames: seq<Frame>, n: nat, result: Result) {
    n < |frames| && Sound(frames[..n]) && !Good(frames[n]) && result == Outcome(frames[n])
  }

  class Receiver {
    var content: string
    var entries: map<int, Call>
    /** The text events sent to the user interface. */
    var emitted: seq<string>

    constructor ()
      ensures content == "" && entries == map[] && emitted == []
    {
      content, entries, emitted := "", map[], [];
    }

    method TakePiece(p: Piece, ghost before: seq<Piece>)
      requires entries == Assembled(before)
      modifies this`entries
      ensures entries == Assembled(before + [p])
    {
      assert (before + [p])[..|before|] == before;
      if p.index !in entries {
        entries := entries[p.index := Call(p.id, p.kind, "", "")];
      }
      var entry := entries[p.index];
      if p.id != "" { entry := entry.(id := p.id); }
      if p.kind != "" { entry := entry.(kind := p.kind); }
      if p.name != "" { entry := entry.(name := p.name); }
      if p.arguments != "" { entry := entry.(arguments := entry.arguments + p.arguments); }
      assert forall text: string :: text + "" == text;
      entries := entries[p.index := entry];
    }

    method TakePieces(pieces: seq<Piece>, ghost before: seq<Piece>)
      requires entries == Assembled(before)
      modifies this`entries
      ensures entries == Assembled(before + pieces)
    {
      hide Assembled;
      assert before + pieces[..0] == before;
      for i := 0 to |pieces|
        invariant entries == Assembled(before + pieces[..i])
      {
        TakePiece(pieces[i], before + pieces[..i]);
        assert before + pieces[..i] + [pieces[i]] == before + pieces[..i + 1];
      }
      assert pieces[..|pieces|] == pieces;
    }

    method TakeDelta(delta: Delta, ghost before: seq<Piece>)
      requires entries == Assembled(before)
      modifies this
      ensures entries == Assembled(before + delta.pieces)
      ensures content == old(content) + delta.content && Concat(emitted) == Concat(old(emitted)) + delta.content
    {
      hide Assembled;
      if delta.content != "" {
        content := content + delta.content;
      }
      TakePieces(delta.pieces, before);
      if delta.content != "" {
        assert (emitted + [delta.content])[..|emitted|] == emitted;
        emitted := emitted + [delta.content];
      }
    }

    method Keep(isJson: IsJson) returns (calls: seq<Call>, ghost keys: seq<int>)
      ensures Ascending(keys) && Lists(keys, entries)
      ensures calls == KeptOf(keys, entries, isJson, |keys|)
    {
      var sorted := SortedKeys(entries);
      keys := sorted;
      calls := [];
      for i := 0 to |sorted|
        invariant calls == KeptOf(sorted, entries, isJson, i)
      {
        var c := entries[sorted[i]];
        if c.arguments != "" && !isJson(c.arguments) { continue; }
        if c.name == "" { continue; }
        calls := calls + [c];
      }
    }

    /** The reply: the first frame that is not good decides; without one, text and calls are those of the stream. */
    method Receive(frames: seq<Frame>, isJson: IsJson) returns (result: Result, ghost keys: seq<int>)
      requires content == "" && entries == map[] && emitted == []
      modifies this
      ensures result.Success? <==> Sound(frames)
      ensures !result.Success? ==> exists n: nat :: EndsAt(frames, n, result)
      ensures result.Success? ==>
                && result.content == ContentOf(frames, |frames|) == Concat(emitted)
                && entries == Assembled(PiecesOf(frames, |frames|))
                && Ascending(keys) && Lists(keys, entries)
                && result.calls == KeptOf(keys, entries, isJson, |keys|)
    {
      hide Assembled;
      keys := [];
      assert entries == Assembled([]) by { AssembledNothing(); }
      for n := 0 to |frames|
        invariant Sound(frames[..n])
        invariant entries == Assembled(PiecesOf(frames, n))
        invariant content == ContentOf(frames, n) == Concat(emitted)
      {
        assert !Good(frames[n]) ==> EndsAt(frames, n, Outcome(frames[n]));
        match frames[n]
        case ErrorFrame(message) => return Failure(message), keys;
        case Malformed => return Failure(PARSE_ERROR), keys;
        case Misshapen => return Raised, keys;
        case NoDelta =>
          assert PiecesOf(frames, n + 1) == PiecesOf(frames, n);
        case DeltaFrame(delta) => TakeDelta(delta, PiecesOf(frames, n));
      }
      assert frames[..|frames|] == frames;
      var calls;
      calls, keys := Keep(isJson);
      result := Success(content, calls);
    }
  }

  lemma AssembledNothing()
    ensures Assembled([]) == map[]
  {
  }

  /** Round trip: however calls are cut into fragments and interleaved, the reply has the same calls in order. */
  method RoundTrip(frames: seq<Frame>, calls: seq<Call>, isJson: IsJson) returns (result: Result)
    requires Sound(frames) && Fragments(PiecesOf(frames, |frames|), calls)
    ensures result == Success(ContentOf(frames, |frames|), KeptCalls(calls, isJson, |calls|))
    ensures (forall i :: 0 <= i < |calls| ==> Kept(calls[i], isJson)) ==> result.calls == calls
  {
    hide Fragments, KeptOf;
    var receiver := new Receiver();
    ghost var keys;
    result, keys := receiver.Receive(frames, isJson);
    FragmentsAssemble(PiecesOf(frames, |frames|), calls);
    assert forall k :: 0 <= k < |calls| ==> k in receiver.entries;
    DenseKeys(keys, |calls|);
    KeptOfDense(keys, calls, isJson, |calls|);
    if forall i :: 0 <= i < |calls| ==> Kept(calls[i], isJson) { AllKept(calls, isJson, |calls|); }
  }

  lemma {:induction false} AllKept(calls: seq<Call>, isJson: IsJson, n: nat)
    requires n <= |calls| && forall i :: 0 <= i < |calls| ==> Kept(calls[i], isJson)
    ensures KeptCalls(calls, isJson, n) == calls[..n]
    ensures calls[..|calls|] == calls
  {
    if n == 0 {
    } else {
      AllKept(calls, isJson, n - 1);
    }
  }
}
