/** The chunk discipline OpenAI clients rely on, as an automaton over chunks, kept on every event sequence. */
module ChatDiscipline {
  import opened Basics
  import opened ChatWire
  import opened ChatSpec

  datatype Phase = Idle | Streaming | Finished | Ended

  datatype Shape = Shape(phase: Phase, calls: nat) | Broken

  /** Role first and once; tool indices start in order; arguments follow their start; one terminal. */
  function Accept(g: Shape, c: Chunk): Shape
  {
    if g.Broken? then Broken
    else
      match c
      case RoleChunk => if g.phase == Idle then g.(phase := Streaming) else Broken
      case ContentChunk(_) => if g.phase == Streaming then g else Broken
      case EmptyChunk => if g.phase == Streaming then g else Broken
      case ToolStart(i, _, _) => if g.phase == Streaming && i == g.calls then g.(calls := g.calls + 1) else Broken
      case ToolArguments(i, _) => if g.phase == Streaming && i < g.calls then g else Broken
      case FinishChunk(reason) =>
        if g.phase == Streaming && (reason == "tool_calls" <==> g.calls > 0) then g.(phase := Finished) else Broken
      case DoneFrame => if g.phase == Finished then g.(phase := Ended) else Broken
      case ErrorFrame(_, _) => if g.phase == Idle || g.phase == Streaming then g.(phase := Ended) else Broken
  }

  function Read(trace: seq<Chunk>): Shape
  {
    if trace == [] then Shape(Idle, 0) else Accept(Read(trace[..|trace| - 1]), trace[|trace| - 1])
  }

  predicate Whole(trace: seq<Chunk>)
  {
    Read(trace).Shape? && Read(trace).phase == Ended
  }

  lemma ReadSnoc(trace: seq<Chunk>, c: Chunk)
    ensures Read(trace + [c]) == Accept(Read(trace), c)
  {
    assert (trace + [c])[..|trace|] == trace;
  }

  /** The translator's tables stay below the next index and mirror the chunks written. */
  ghost predicate Mid(s: State)
  {
    && !s.done
    && Read(s.out) == Shape(if s.started then Streaming else Idle, s.next)
    && (s.sawTools <==> s.next > 0)
    && (s.next > 0 ==> s.started)
    && Tabled(s)
  }

  ghost predicate Tabled(s: State)
  {
    && (forall k :: k in s.byCall ==> s.byCall[k] < s.next)
    && (forall k :: k in s.byIndex ==> s.byIndex[k] < s.next)
    && (forall i :: i in s.argued ==> i < s.next)
  }

  ghost predicate Sound(s: State)
  {
    if s.done then Whole(s.out) else Mid(s)
  }

  lemma BeginMid(s: State)
    requires Mid(s)
    ensures Mid(Begin(s)) && Begin(s).started && Begin(s).next == s.next
  {
    ReadSnoc(s.out, RoleChunk);
  }

  lemma OpenMid(s: State, callId: string, name: string, index: int)
    requires Mid(s)
    ensures Mid(Open(s, callId, name, index)) && Open(s, callId, name, index).next == s.next + 1
  {
    hide Begin, Read;
    BeginMid(s);
    ReadSnoc(Begin(s).out, ToolStart(s.next, callId, name));
  }

  lemma ArgueMid(s: State, i: nat, arguments: string)
    requires Mid(s) && i < s.next
    ensures Mid(Argue(s, i, arguments))
  {
    ReadSnoc(s.out, ToolArguments(i, arguments));
  }

  lemma NamedMid(rnd: nat -> string, s: State, callId: string)
    requires Mid(s)
    ensures Mid(Named(rnd, s, callId).0) && Named(rnd, s, callId).0.next == s.next
  {
  }

  lemma ToolAddedMid(rnd: nat -> string, s: State, c: Call, index: int)
    requires Mid(s)
    ensures Mid(ToolAdded(rnd, s, c, index))
  {
    hide Read;
    NamedMid(rnd, s, CallId(c));
    var (s1, callId) := Named(rnd, s, CallId(c));
    if callId !in s1.byCall {
      OpenMid(s1, callId, CallName(c), index);
    }
  }

  lemma ToolDeltaMid(rnd: nat -> string, s: State, callId: string, itemId: string, delta: string, index: int)
    requires Mid(s)
    ensures Mid(ToolDelta(rnd, s, callId, itemId, delta, index))
  {
    hide Read;
    var at := Resolve(s, callId, itemId, index);
    if at.Some? {
      ArgueMid(s, at.value, delta);
    } else {
      NamedMid(rnd, s, FirstNonEmpty(callId, itemId));
      var (s1, id) := Named(rnd, s, FirstNonEmpty(callId, itemId));
      OpenMid(s1, id, "", index);
      ArgueMid(Open(s1, id, "", index), s1.next, delta);
    }
  }

  lemma ToolDoneMid(rnd: nat -> string, s: State, c: Call, index: int)
    requires Mid(s)
    ensures Mid(ToolDone(rnd, s, c, index))
  {
    hide Read;
    var at := Resolve(s, c.callId, "", index);
    if at.Some? {
      ArgueMid(s, at.value, CallArguments(c));
    } else {
      NamedMid(rnd, s, CallId(c));
      var (s1, id) := Named(rnd, s, CallId(c));
      OpenMid(s1, id, CallName(c), index);
      ArgueMid(Open(s1, id, CallName(c), index), s1.next, CallArguments(c));
    }
  }

  lemma FinishReasonTool(sawTools: bool, incomplete: bool)
    ensures FinishReason(sawTools, incomplete) == "tool_calls" <==> sawTools
  {
    assert "tool_calls"[0] == 't' && "length"[0] == 'l' && "stop"[0] == 's';
  }

  lemma TerminalWhole(s: State, incomplete: bool)
    requires Mid(s)
    ensures Terminal(s, incomplete).done && Whole(Terminal(s, incomplete).out)
  {
    hide Read;
    BeginMid(s);
    var reason := FinishReason(s.sawTools, incomplete);
    FinishReasonTool(s.sawTools, incomplete);
    ReadSnoc(Begin(s).out, FinishChunk(reason));
    ReadSnoc(Begin(s).out + [FinishChunk(reason)], DoneFrame);
  }

  lemma ErrorWhole(s: State, message: string, code: string)
    requires Mid(s)
    ensures Whole(Queue(s, ErrorFrame(message, code)).out)
  {
    ReadSnoc(s.out, ErrorFrame(message, code));
  }

  lemma MidUndone(s: State)
    requires Mid(s)
    ensures !s.done
  {
  }

  lemma TextMid(s: State, delta: string)
    requires Mid(s)
    ensures Mid(Content(Begin(s), delta)) && !Content(Begin(s), delta).done
  {
    hide Begin, Read;
    BeginMid(s);
    ReadSnoc(Begin(s).out, if delta != "" then ContentChunk(delta) else EmptyChunk);
  }

  /** Every event keeps the discipline; a terminal event completes it. */
  lemma StepSound(rnd: nat -> string, s: State, e: Event)
    requires Mid(s)
    ensures Sound(Step(rnd, s, e))
    ensures Step(rnd, s, e).done <==> e.Completed? || e.Incomplete? || e.Failed?
  {
    hide Mid, Begin, Content, ToolAdded, ToolDelta, ToolDone, Terminal, Whole;
    BeginMid(s);
    MidUndone(s);
    match e
    case Created => MidUndone(Begin(s));
    case TextDelta(delta) => TextMid(s, delta);
    case ItemAdded(item, index) => if item.CallItem? { ToolAddedMid(rnd, s, item.call, index); MidUndone(Step(rnd, s, e)); }
    case ArgumentsDelta(callId, itemId, delta, arguments, index) =>
      ToolDeltaMid(rnd, s, callId, itemId, if delta != "" then delta else arguments, index);
      MidUndone(Step(rnd, s, e));
    case ItemDone(item, index) => if item.CallItem? { ToolDoneMid(rnd, s, item.call, index); MidUndone(Step(rnd, s, e)); }
    case Completed => TerminalWhole(s, false);
    case Incomplete => TerminalWhole(s, true);
    case Failed(message) => ErrorWhole(s, if message == "" then "upstream response failed" else message, "upstream_error");
    case _ =>
  }

  lemma {:induction false} RunSound(rnd: nat -> string, s: State, events: seq<Event>)
    requires Sound(s)
    ensures Sound(Run(rnd, s, events))
    decreases |events|
  {
    if !s.done && events != [] {
      StepSound(rnd, s, events[0]);
      RunSound(rnd, Step(rnd, s, events[0]), events[1..]);
    }
  }

  /** Whatever upstream sends, a body that ends cleanly yields one whole disciplined stream. */
  lemma StreamDiscipline(rnd: nat -> string, events: seq<Event>)
    ensures Whole(AtEof(Run(rnd, Init, events)).out)
    ensures Read(Run(rnd, Init, events).out).Shape?
  {
    RunSound(rnd, Init, events);
    var s := Run(rnd, Init, events);
    if !s.done {
      ErrorWhole(s, if s.started then "upstream stream ended before a terminal event" else "upstream stream empty",
                 "upstream_stream_truncated");
    }
  }

  /** Nothing can follow the terminal: any further chunk breaks the discipline. */
  lemma TerminalIsLast(trace: seq<Chunk>, c: Chunk)
    requires Whole(trace)
    ensures Read(trace + [c]).Broken?
  {
    ReadSnoc(trace, c);
  }

  /** In a disciplined stream every tool index below the count starts exactly once, in order. */
  function Starts(trace: seq<Chunk>): seq<nat>
  {
    if trace == [] then []
    else
      var c := trace[|trace| - 1];
      Starts(trace[..|trace| - 1]) + if c.ToolStart? then [c.index] else []
  }

  lemma {:induction false} StartsInOrder(trace: seq<Chunk>)
    requires Read(trace).Shape?
    ensures |Starts(trace)| == Read(trace).calls
    ensures forall i :: 0 <= i < |Starts(trace)| ==> Starts(trace)[i] == i
  {
    if trace != [] {
      StartsInOrder(trace[..|trace| - 1]);
    }
  }
}
