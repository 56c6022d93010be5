/**
 The chat stream as the reader it is: it pulls upstream events only while nothing is
 pending, encodes chunks into a byte buffer and hands the buffer out in pieces of any size.
 */
module ChatStream {
  import opened Basics
  import opened ChatWire
  import S = ChatSpec
  import Discipline = ChatDiscipline

  /** How the upstream body ends. */
  datatype Ending = CleanEnd | ReadFailure

  datatype Outcome = Bytes(data: string) | EndOfFile | ReadError

  /** The encoded form of a list of chunks. */
  function EncodeAll(encode: Chunk -> string, chunks: seq<Chunk>): string
  {
    if chunks == [] then "" else EncodeAll(encode, chunks[..|chunks| - 1]) + encode(chunks[|chunks| - 1])
  }

  /** Every chunk is encoded once, in order, and nothing is written between them. */
  lemma {:induction false} EncodeTells(encode: Chunk -> string, a: seq<Chunk>, b: seq<Chunk>)
    ensures EncodeAll(encode, a + b) == EncodeAll(encode, a) + EncodeAll(encode, b)
    ensures EncodeAll(encode, []) == ""
    ensures |a| == 1 ==> EncodeAll(encode, a) == encode(a[0])
  {
    if |a| == 1 { assert a[..0] == []; }
    if b == [] {
      assert a + b == a;
    } else {
      EncodeTells(encode, a, b[..|b| - 1]);
      assert (a + b)[..|a + b| - 1] == a + b[..|b| - 1];
    }
  }

  class Stream {
    const rnd: nat -> string
    const encode: Chunk -> string
    const ending: Ending
    var source: seq<Event>
    var pending: string
    var failed: bool
    var started: bool
    var done: bool
    var byCall: map<string, nat>
    var byIndex: map<int, nat>
    var next: nat
    var sawTools: bool
    var argued: set<nat>
    var draws: nat
    ghost var out: seq<Chunk>
    ghost var delivered: string

    ghost function Abs(): S.State
      reads this
    {
      S.State(started, done, byCall, byIndex, next, sawTools, argued, draws, out)
    }

    /** Bytes handed out and bytes pending are together the chunks queued. */
    ghost predicate Valid()
      reads this
    {
      delivered + pending == EncodeAll(encode, out)
    }

    /** Where the stream will end if it is read to the end. */
    ghost function Goal(): S.State
      reads this
    {
      var s := S.Run(rnd, Abs(), source);
      if ending.CleanEnd? then S.AtEof(s) else s
    }

    /** Translating an event neither reads the source nor hands out bytes. */
    twostate predicate Translated()
      reads this
    {
      source == old(source) && failed == old(failed) && delivered == old(delivered) && Valid()
    }

    constructor (rnd: nat -> string, encode: Chunk -> string, source: seq<Event>, ending: Ending)
      ensures Valid() && Abs() == S.Init && delivered == "" && !failed
      ensures this.source == source && this.rnd == rnd && this.encode == encode && this.ending == ending
    {
      this.rnd, this.encode, this.source, this.ending := rnd, encode, source, ending;
      pending, failed, started, done := "", false, false, false;
      byCall, byIndex, next, sawTools, argued, draws := map[], map[], 0, false, {}, 0;
      out, delivered := [], "";
    }

    method Queue(c: Chunk)
      requires Valid()
      modifies this
      ensures Translated() && Abs() == S.Queue(old(Abs()), c)
    {
      assert (out + [c])[..|out|] == out;
      pending := pending + encode(c);
      out := out + [c];
    }

    method Begin()
      requires Valid()
      modifies this
      ensures Translated() && Abs() == S.Begin(old(Abs()))
    {
      if !started {
        Queue(RoleChunk);
        started := true;
      }
    }

    method Open(callId: string, name: string, index: int)
      requires Valid()
      modifies this
      ensures Translated() && Abs() == S.Open(old(Abs()), callId, name, index)
    {
      hide EncodeAll;
      Begin();
      var i := next;
      next := next + 1;
      byCall := byCall[callId := i];
      if index >= 0 { byIndex := byIndex[index := i]; }
      sawTools := true;
      assert Abs() == S.Begin(old(Abs())).(next := i + 1, byCall := byCall, byIndex := byIndex, sawTools := true);
      Queue(ToolStart(i, callId, name));
    }

    method Argue(i: nat, arguments: string)
      requires Valid()
      modifies this
      ensures Translated() && Abs() == S.Argue(old(Abs()), i, arguments)
    {
      Queue(ToolArguments(i, arguments));
      argued := argued + {i};
    }

    method Named(callId: string) returns (id: string)
      requires Valid()
      modifies this
      ensures Translated() && (Abs(), id) == S.Named(rnd, old(Abs()), callId)
    {
      id := callId;
      if id == "" {
        id := "call_" + rnd(draws);
        draws := draws + 1;
      }
    }

    function Resolve(callId: string, itemId: string, index: int): Option<nat>
      reads this
    {
      var key := FirstNonEmpty(callId, itemId);
      if key != "" && key in byCall then Some(byCall[key])
      else if index >= 0 && index in byIndex then Some(byIndex[index])
      else None
    }

    method ToolAdded(c: Call, index: int)
      requires Valid()
      modifies this
      ensures Translated() && Abs() == S.ToolAdded(rnd, old(Abs()), c, index)
    {
      hide S.Open, S.Named, CallName, CallId;
      if CallName(c) == "" && CallId(c) == "" { return; }
      var callId := Named(CallId(c));
      if callId in byCall {
        if index >= 0 { byIndex := byIndex[index := byCall[callId]]; }
      } else {
        Open(callId, CallName(c), index);
      }
    }

    method ToolDelta(callId: string, itemId: string, delta: string, index: int)
      requires Valid()
      modifies this
      ensures Translated() && Abs() == S.ToolDelta(rnd, old(Abs()), callId, itemId, delta, index)
    {
      hide S.Open, S.Named, S.Argue, FirstNonEmpty;
      if delta == "" { return; }
      var at := Resolve(callId, itemId, index);
      if at.Some? {
        Argue(at.value, delta);
      } else {
        var id := Named(FirstNonEmpty(callId, itemId));
        var i := next;
        Open(id, "", index);
        Argue(i, delta);
      }
    }

    method ToolDone(c: Call, index: int)
      requires Valid()
      modifies this
      ensures Translated() && Abs() == S.ToolDone(rnd, old(Abs()), c, index)
    {
      hide S.Open, S.Named, S.Argue, CallName, CallId, CallArguments, FirstNonEmpty;
      if CallName(c) == "" && CallId(c) == "" { return; }
      var at := Resolve(c.callId, "", index);
      var arguments := CallArguments(c);
      if at.Some? {
        if at.value !in argued && arguments != "" { Argue(at.value, arguments); }
      } else {
        var id := Named(CallId(c));
        var i := next;
        Open(id, CallName(c), index);
        if arguments != "" { Argue(i, arguments); }
      }
    }

    method Terminal(incomplete: bool)
      requires Valid()
      modifies this
      ensures Translated() && Abs() == S.Terminal(old(Abs()), incomplete)
    {
      hide S.Begin, S.Queue, S.FinishReason, EncodeAll;
      if done { return; }
      var reason := S.FinishReason(sawTools, incomplete);
      Begin();
      Queue(FinishChunk(reason));
      Queue(DoneFrame);
      done := true;
    }

    method Process(e: Event)
      requires Valid()
      modifies this
      ensures Translated() && Abs() == S.Step(rnd, old(Abs()), e)
    {
      hide S.ToolAdded, S.ToolDelta, S.ToolDone, S.Terminal, S.Begin, S.Queue, EncodeAll;
      match e
      case Created => Begin();
      case TextDelta(delta) =>
        Begin();
        Queue(if delta != "" then ContentChunk(delta) else EmptyChunk);
      case ItemAdded(item, index) => if item.CallItem? { ToolAdded(item.call, index); }
      case ArgumentsDelta(callId, itemId, delta, arguments, index) =>
        ToolDelta(callId, itemId, if delta != "" then delta else arguments, index);
      case ArgumentsDone =>
      case ItemDone(item, index) => if item.CallItem? { ToolDone(item.call, index); }
      case Completed => Terminal(false);
      case Incomplete => Terminal(true);
      case Failed(message) =>
        Queue(ErrorFrame(if message == "" then "upstream response failed" else message, "upstream_error"));
        done := true;
      case OtherEvent =>
    }

    /** Reads one event, or meets the end of the body. */
    method Pull()
      requires Valid() && !done && !failed
      modifies this
      ensures Valid() && Goal() == old(Goal()) && delivered == old(delivered)
      ensures |source| < |old(source)| || (source == old(source) == [] && (done || failed))
      ensures failed ==> ending.ReadFailure? && source == []
    {
      hide S.Step, S.AtEof;
      if source == [] {
        AtEnd();
      } else {
        var e := source[0];
        source := source[1..];
        Process(e);
      }
    }

    method AtEnd()
      requires Valid() && !done && !failed && source == []
      modifies this
      ensures Valid() && source == [] && Goal() == old(Goal()) && delivered == old(delivered)
      ensures done || failed
      ensures failed ==> ending.ReadFailure?
    {
      if ending.ReadFailure? {
        failed := true;
        return;
      }
      Queue(ErrorFrame(if started then "upstream stream ended before a terminal event" else "upstream stream empty",
                       "upstream_stream_truncated"));
      done := true;
    }

    /** Hands out at most `size` bytes. */
    method Read(size: nat) returns (outcome: Outcome)
      requires Valid() && (failed ==> ending.ReadFailure? && source == [])
      modifies this
      ensures Valid() && (failed ==> ending.ReadFailure? && source == [])
      ensures Goal() == old(Goal())
      ensures outcome.Bytes? ==> delivered == old(delivered) + outcome.data && |outcome.data| <= size
      ensures outcome.Bytes? && size > 0 ==> outcome.data != ""
      ensures !outcome.Bytes? ==> delivered == old(delivered) && delivered == EncodeAll(encode, Goal().out)
      ensures outcome.ReadError? ==> ending.ReadFailure?
      ensures outcome.EndOfFile? ==> Goal().done
      ensures outcome.Bytes? && size > 0 ==>
        || |source| < |old(source)|
        || (source == old(source) && !old(done || failed) && (done || failed))
        || (source == old(source) && (done || failed) == old(done || failed) && |pending| < |old(pending)|)
    {
      hide EncodeAll, S.Step;
      while pending == "" && !failed && !done
        invariant Valid() && (failed ==> ending.ReadFailure? && source == [])
        invariant Goal() == old(Goal()) && delivered == old(delivered)
        invariant |source| < |old(source)|
               || (source == old(source) && done == old(done) && failed == old(failed) && pending == old(pending))
               || (source == old(source) && !old(done || failed) && (done || failed))
        decreases |source|, if done || failed then 0 else 1
      {
        Pull();
      }
      if pending != "" {
        var n := if size < |pending| then size else |pending|;
        var data := pending[..n];
        assert delivered + pending == (delivered + data) + pending[n..];
        pending := pending[n..];
        delivered := delivered + data;
        return Bytes(data);
      }
      assert delivered + "" == delivered;
      assert S.Run(rnd, Abs(), source) == Abs();
      if failed { return ReadError; }
      return EndOfFile;
    }
  }

  /**
   Reads a stream to its end with buffers of the given sizes: what arrives is the encoding
   of one disciplined stream, a whole one when the upstream body ends cleanly.
   */
  method ReadAll(rnd: nat -> string, encode: Chunk -> string, source: seq<Event>, ending: Ending, sizes: nat -> nat)
    returns (data: string, ok: bool)
    requires forall i :: sizes(i) > 0
    ensures ending.CleanEnd? ==> ok && data == EncodeAll(encode, S.AtEof(S.Run(rnd, S.Init, source)).out)
    ensures ending.ReadFailure? ==> data == EncodeAll(encode, S.Run(rnd, S.Init, source).out)
    ensures exists chunks :: data == EncodeAll(encode, chunks) && Discipline.Read(chunks).Shape?
                             && (ending.CleanEnd? ==> Discipline.Whole(chunks))
  {
    hide S.Run, S.AtEof, Discipline.Read;
    Discipline.StreamDiscipline(rnd, source);
    var stream := new Stream(rnd, encode, source, ending);
    ghost var goal := stream.Goal();
    data := "";
    var i := 0;
    while true
      invariant fresh(stream) && stream.Valid() && (stream.failed ==> stream.ending.ReadFailure? && stream.source == [])
      invariant stream.encode == encode && stream.ending == ending
      invariant stream.Goal() == goal && data == stream.delivered
      decreases |stream.source|, if stream.done || stream.failed then 0 else 1, |stream.pending|
    {
      var outcome := stream.Read(sizes(i));
      i := i + 1;
      match outcome
      case Bytes(piece) => data := data + piece;
      case EndOfFile => return data, true;
      case ReadError => return data, false;
    }
  }
}
