/** The chat stream as a function on states: what each upstream event does and which chunks it queues. */
module ChatSpec {
  import opened Basics
  import opened ChatWire

  datatype State = State(started: bool, done: bool, byCall: map<string, nat>, byIndex: map<int, nat>,
                         next: nat, sawTools: bool, argued: set<nat>, draws: nat, out: seq<Chunk>)

  const Init := State(false, false, map[], map[], 0, false, {}, 0, [])

  function Queue(s: State, c: Chunk): State
  {
    s.(out := s.out + [c])
  }

  function Begin(s: State): State
  {
    if s.started then s else Queue(s, RoleChunk).(started := true)
  }

  function Content(s: State, delta: string): State
  {
    Queue(s, if delta != "" then ContentChunk(delta) else EmptyChunk)
  }

  /** The index a call already has, by its id or else by its output index. */
  function Resolve(s: State, callId: string, itemId: string, index: int): Option<nat>
  {
    var key := FirstNonEmpty(callId, itemId);
    if key != "" && key in s.byCall then Some(s.byCall[key])
    else if index >= 0 && index in s.byIndex then Some(s.byIndex[index])
    else None
  }

  /** Gives a call the next index and announces it. */
  function Open(s: State, callId: string, name: string, index: int): State
  {
    var s1 := Begin(s);
    var i := s1.next;
    Queue(s1.(next := i + 1, byCall := s1.byCall[callId := i],
              byIndex := if index >= 0 then s1.byIndex[index := i] else s1.byIndex, sawTools := true),
          ToolStart(i, callId, name))
  }

  /** A call without an id gets a drawn one. */
  function Named(rnd: nat -> string, s: State, callId: string): (State, string)
  {
    if callId == "" then (s.(draws := s.draws + 1), "call_" + rnd(s.draws)) else (s, callId)
  }

  function Argue(s: State, i: nat, arguments: string): State
  {
    Queue(s, ToolArguments(i, arguments)).(argued := s.argued + {i})
  }

  function ToolAdded(rnd: nat -> string, s: State, c: Call, index: int): State
  {
    if CallName(c) == "" && CallId(c) == "" then s
    else
      var (s1, callId) := Named(rnd, s, CallId(c));
      if callId in s1.byCall then
        (if index >= 0 then s1.(byIndex := s1.byIndex[index := s1.byCall[callId]]) else s1)
      else Open(s1, callId, CallName(c), index)
  }

  function ToolDelta(rnd: nat -> string, s: State, callId: string, itemId: string, delta: string, index: int): State
  {
    if delta == "" then s
    else
      var at := Resolve(s, callId, itemId, index);
      if at.Some? then Argue(s, at.value, delta)
      else
        var (s1, id) := Named(rnd, s, FirstNonEmpty(callId, itemId));
        Argue(Open(s1, id, "", index), s1.next, delta)
  }

  function ToolDone(rnd: nat -> string, s: State, c: Call, index: int): State
  {
    if CallName(c) == "" && CallId(c) == "" then s
    else
      var at := Resolve(s, c.callId, "", index);
      if at.Some? then
        (if at.value !in s.argued && CallArguments(c) != "" then Argue(s, at.value, CallArguments(c)) else s)
      else
        var (s1, id) := Named(rnd, s, CallId(c));
        var s2 := Open(s1, id, CallName(c), index);
        if CallArguments(c) != "" then Argue(s2, s1.next, CallArguments(c)) else s2
  }

  function FinishReason(sawTools: bool, incomplete: bool): string
  {
    if sawTools then "tool_calls" else if incomplete then "length" else "stop"
  }

  function Terminal(s: State, incomplete: bool): State
  {
    if s.done then s
    else Queue(Queue(Begin(s), FinishChunk(FinishReason(s.sawTools, incomplete))), DoneFrame).(done := true)
  }

  function Step(rnd: nat -> string, s: State, e: Event): State
  {
    match e
    case Created => Begin(s)
    case TextDelta(delta) => Content(Begin(s), delta)
    case ItemAdded(item, index) => if item.CallItem? then ToolAdded(rnd, s, item.call, index) else s
    case ArgumentsDelta(callId, itemId, delta, arguments, index) =>
      ToolDelta(rnd, s, callId, itemId, if delta != "" then delta else arguments, index)
    case ArgumentsDone => s
    case ItemDone(item, index) => if item.CallItem? then ToolDone(rnd, s, item.call, index) else s
    case Completed => Terminal(s, false)
    case Incomplete => Terminal(s, true)
    case Failed(message) =>
      Queue(s, ErrorFrame(if message == "" then "upstream response failed" else message, "upstream_error")).(done := true)
    case OtherEvent => s
  }

  /** A clean end of the body without a terminal event is reported as an error. */
  function AtEof(s: State): State
  {
    if s.done then s
    else Queue(s, ErrorFrame(if s.started then "upstream stream ended before a terminal event" else "upstream stream empty",
                             "upstream_stream_truncated")).(done := true)
  }

  /** Reading stops at the first terminal event. */
  function Run(rnd: nat -> string, s: State, events: seq<Event>): State
    decreases |events|
  {
    if s.done || events == [] then s else Run(rnd, Step(rnd, s, events[0]), events[1..])
  }
}
