/**
 The stream translator as a function on states: what each upstream event does to
 the translator and which Anthropic events it writes. `AnthropicTranslator` is the
 imperative form and is proved equal to it.
 */
module AnthropicSpec {
  import opened Basics
  import opened AnthropicWire

  datatype Config = Config(requestModel: string, thinkingEnabled: bool, thinkingDisplay: string,
                           randomId: string)

  datatype Block = Block(index: nat, kind: Kind, emitted: bool, stopped: bool)

  datatype State = State(
    cfg: Config, model: string, msgId: string,
    started: bool, finished: bool, failed: bool, hasToolUse: bool,
    usageIn: int, usageOut: int,
    blocks: map<string, Block>, nextIndex: nat,
    thinking: Option<Block>, signature: string, stopPending: bool,
    reasoning: string, completed: set<string>,
    out: seq<Out>)

  function Init(cfg: Config): State
  {
    State(cfg, cfg.requestModel, "", false, false, false, false, 0, 0, map[], 0,
          None, "", false, "", {}, [])
  }

  function Emit(s: State, o: Out): State
  {
    s.(out := s.out + [o])
  }

  // Keys

  function KindPrefix(kind: Kind): string
  {
    match kind
    case Text => "text:"
    case Tool => "tool:"
    case Thinking => "thinking:"
  }

  function BlockKey(kind: Kind, key: string): string
  {
    var k := if Trim(key) == "" then "default" else Trim(key);
    if HasPrefix(k, KindPrefix(kind)) then k else KindPrefix(kind) + k
  }

  function ReasoningKey(key: string): string
  {
    var k := Trim(key);
    if k == "" then "reasoning:default" else if HasPrefix(k, "reasoning:") then k else "reasoning:" + k
  }

  function ItemKey(a: string, b: string, c: string): string
  {
    if Trim(a) != "" then Trim(a) else if Trim(b) != "" then Trim(b)
    else if Trim(c) != "" then Trim(c) else "default"
  }

  function EventKey(at: At): string
  {
    ItemKey(at.itemId, at.outputIndex, at.contentIndex)
  }

  function ReasoningEventKey(at: At): string
  {
    ReasoningKey(FirstNonEmpty(at.itemId, at.outputIndex))
  }

  // Message start

  function EnsureStart(s: State, id: string, model: string): State
  {
    if s.started then s
    else
      var shown := MessageId(if id == "" then "msg_" + s.cfg.randomId else id);
      var name :=
        if model != "" then model else if s.cfg.requestModel != "" then s.cfg.requestModel
        else if s.model != "" then s.model else "grok";
      Emit(s.(msgId := shown, model := name, started := true), MessageStart(shown, name, s.usageIn))
  }

  function Begin(s: State): State
  {
    EnsureStart(s, s.msgId, s.model)
  }

  // Thinking blocks

  function SignThinking(s: State, i: nat): State
  {
    if s.signature != "" then Emit(s, BlockDelta(i, SignaturePiece(s.signature))) else s
  }

  function RetireThinking(s: State, clear: bool): State
  {
    var s1 := s.(completed := if s.reasoning != "" then s.completed + {s.reasoning} else s.completed,
                 thinking := None, stopPending := false);
    if clear then s1.(signature := "", reasoning := "") else s1
  }

  function FinalizeThinking(s: State, clear: bool): State
  {
    if !s.cfg.thinkingEnabled then s
    else if s.thinking.None? then (if clear then s.(signature := "") else s)
    else
      var i := s.thinking.value.index;
      RetireThinking(Emit(SignThinking(s, i), BlockStop(i)), clear)
  }

  function FinishThinkingBeforeContent(s: State): State
  {
    if s.thinking.None? then s else FinalizeThinking(s, true)
  }

  function EnsureThinkingBlock(s: State): State
  {
    if !s.cfg.thinkingEnabled || s.thinking.Some? then s
    else
      var s1 := Begin(s);
      var i := s1.nextIndex;
      Emit(s1.(nextIndex := i + 1, thinking := Some(Block(i, Thinking, false, false)), stopPending := false),
           BlockStart(i, ThinkingBody))
  }

  function StartThinkingPart(s: State, key: string): State
  {
    if !s.cfg.thinkingEnabled then s
    else
      var s1 := if s.thinking.Some? && s.stopPending then FinalizeThinking(s, false) else s;
      EnsureThinkingBlock(s1.(reasoning := ReasoningKey(key)))
  }

  function WriteThinking(s: State, text: string): State
  {
    if !s.cfg.thinkingEnabled || s.cfg.thinkingDisplay == "omitted" || text == "" then s
    else
      var s1 := EnsureThinkingBlock(s);
      if s1.thinking.None? then s1
      else
        var b := s1.thinking.value;
        Emit(s1.(thinking := Some(b.(emitted := true))), BlockDelta(b.index, ThinkingPiece(text)))
  }

  function CaptureSignature(s: State, key: string, signature: string): State
  {
    if !s.cfg.thinkingEnabled || signature == "" then s
    else s.(reasoning := if Trim(key) != "" then ReasoningKey(key) else s.reasoning, signature := signature)
  }

  // Text and tool blocks

  function EnsureTextBlock(s: State, key: string): State
  {
    var s1 := FinishThinkingBeforeContent(s);
    var k := BlockKey(Text, key);
    if k in s1.blocks then s1
    else
      var i := s1.nextIndex;
      Emit(s1.(nextIndex := i + 1, blocks := s1.blocks[k := Block(i, Text, false, false)]),
           BlockStart(i, TextBody))
  }

  function EnsureToolBlock(s: State, key: string, callId: string, name: string): State
  {
    var s1 := FinishThinkingBeforeContent(s);
    var k := BlockKey(Tool, FirstNonEmpty(key, callId));
    if k in s1.blocks then s1
    else
      var i := s1.nextIndex;
      var id := if callId != "" then callId else if HasPrefix(k, "tool:") then k[5..] else k;
      Emit(s1.(nextIndex := i + 1, blocks := s1.blocks[k := Block(i, Tool, false, false)], hasToolUse := true),
           BlockStart(i, ToolBody(id, if name == "" then "tool" else name)))
  }

  /** Writes one delta on the block under key `k`, unless that block has stopped. */
  function DeltaOn(s: State, k: string, delta: Delta): State
    requires k in s.blocks
  {
    var b := s.blocks[k];
    if b.stopped then s
    else Emit(s.(blocks := s.blocks[k := b.(emitted := true)]), BlockDelta(b.index, delta))
  }

  function WriteText(s: State, key: string, text: string): State
  {
    if text == "" then s else DeltaOn(EnsureTextBlock(s, key), BlockKey(Text, key), TextPiece(text))
  }

  function WriteArguments(s: State, key: string, callId: string, name: string, args: string): State
  {
    if args == "" then s
    else DeltaOn(EnsureToolBlock(s, key, callId, name), BlockKey(Tool, FirstNonEmpty(key, callId)), JsonPiece(args))
  }

  function StopBlock(s: State, key: string, kind: Kind): State
  {
    var k := BlockKey(kind, key);
    if k !in s.blocks || s.blocks[k].stopped then s
    else
      var b := s.blocks[k];
      Emit(s.(blocks := s.blocks[k := b.(stopped := true)]), BlockStop(b.index))
  }

  function OpenIndices(blocks: map<string, Block>): set<nat>
  {
    set k | k in blocks && !blocks[k].stopped :: blocks[k].index
  }

  /** The stop events of the open blocks below `n`, in ascending index order. */
  function Stops(open: set<nat>, n: nat): seq<Out>
  {
    if n == 0 then [] else Stops(open, n - 1) + (if n - 1 in open then [BlockStop(n - 1)] else [])
  }

  function AllStopped(blocks: map<string, Block>): map<string, Block>
  {
    map k | k in blocks :: blocks[k].(stopped := true)
  }

  function StopAllBlocks(s: State): State
  {
    s.(blocks := AllStopped(s.blocks), out := s.out + Stops(OpenIndices(s.blocks), s.nextIndex))
  }

  function TextsOn(s: State, key: string, texts: seq<string>): State
    decreases |texts|
  {
    if texts == [] then s else TextsOn(WriteText(s, key, texts[0]), key, texts[1..])
  }

  // Final items

  /** A whole thinking block: opened, written and closed. */
  function ShowReasoning(s: State, key: string, summary: string, signature: string): State
  {
    FinalizeThinking(WriteThinking(EnsureThinkingBlock(s.(reasoning := key, signature := signature)), summary), true)
  }

  function FinalReasoning(s: State, item: Item, fallback: string): State
    requires item.Reasoning?
  {
    if !s.cfg.thinkingEnabled then s
    else
      var key := ReasoningKey(FirstNonEmpty(item.id, fallback));
      if key in s.completed then s
      else
        var summary := if s.cfg.thinkingDisplay == "omitted" then "" else SummaryText(item.summary);
        var signature := if item.signature == "" then s.signature else item.signature;
        if summary == "" && signature == "" then s
        else ShowReasoning(s, key, summary, signature)
  }

  predicate HasEmittedText(blocks: map<string, Block>)
  {
    exists k :: k in blocks && blocks[k].kind == Text && blocks[k].emitted
  }

  function Decimal(n: nat): string
  {
    if n < 10 then [('0' as int + n) as char] else Decimal(n / 10) + [('0' as int + n % 10) as char]
  }

  function FinalItem(s: State, item: Item, i: nat): State
  {
    match item
    case Reasoning(_, _, _) => FinalReasoning(s, item, "final-reasoning-" + Decimal(i))
    case Message(id, parts) =>
      var key := ItemKey(id, "final-" + Decimal(i), "");
      var k := BlockKey(Text, key);
      if k !in s.blocks && HasEmittedText(s.blocks) then s
      else if k in s.blocks && s.blocks[k].emitted then StopBlock(s, key, Text)
      else StopBlock(TextsOn(s, key, Texts(parts)), key, Text)
    case FunctionCall(id, itemCallId, name, arguments, _) =>
      var callId := FirstNonEmpty(itemCallId, id);
      var key := ItemKey(id, callId, "final-" + Decimal(i));
      var s1 := EnsureToolBlock(s, key, callId, name);
      var k := BlockKey(Tool, FirstNonEmpty(key, callId));
      var s2 :=
        if s1.blocks[k].emitted then s1
        else WriteArguments(s1, key, callId, name, if arguments == "" then "{}" else arguments);
      StopBlock(s2, key, Tool)
    case ToolCall(_, _, _, _, _) => s
    case OtherItem => s
  }

  function FinalOutput(s: State, items: seq<Item>, i: nat): State
    requires i <= |items|
    decreases |items| - i
  {
    if i == |items| then s else FinalOutput(FinalItem(s, items[i], i), items, i + 1)
  }

  // Terminal events

  function Finish(s: State, stopReason: string, usageIn: int, usageOut: int): State
  {
    if s.finished then s
    else
      var s1 := StopAllBlocks(FinalizeThinking(Begin(s), true));
      Emit(Emit(s1, MessageDelta(stopReason, usageIn, usageOut)), MessageStop).(finished := true)
  }

  function Fail(s: State, message: string): State
  {
    if s.finished then s
    else Emit(StopAllBlocks(FinalizeThinking(s, true)), ErrorFrame(message)).(failed := true, finished := true)
  }

  // Events

  function CompleteCall(s: State, key: string, callId: string, name: string, arguments: string): State
  {
    var s1 := EnsureToolBlock(s, key, callId, name);
    var k := BlockKey(Tool, FirstNonEmpty(key, callId));
    var s2 := if s1.blocks[k].emitted then s1 else WriteArguments(s1, key, callId, name, arguments);
    StopBlock(s2, key, Tool)
  }

  function OnItemAdded(s: State, item: Item, at: At): State
  {
    match item
    case Reasoning(id, _, signature) =>
      var key := ReasoningKey(FirstNonEmpty(id, ReasoningEventKey(at)));
      CaptureSignature(s.(reasoning := key), key, signature)
    case FunctionCall(id, itemCallId, name, arguments, _) =>
      var callId := FirstNonEmpty(itemCallId, id);
      var key := ItemKey(id, callId, EventKey(at));
      WriteArguments(EnsureToolBlock(s, key, callId, name), key, callId, name, arguments)
    case _ => s
  }

  function OnItemDone(s: State, item: Item, at: At): State
  {
    match item
    case Reasoning(id, _, signature) =>
      var key := ReasoningKey(FirstNonEmpty(id, ReasoningEventKey(at)));
      var s1 := CaptureSignature(s.(reasoning := key), key, signature);
      if s1.thinking.None? then FinalReasoning(s1, item, key) else FinalizeThinking(s1, true)
    case FunctionCall(id, itemCallId, name, arguments, _) =>
      var callId := FirstNonEmpty(itemCallId, id);
      CompleteCall(Begin(s), ItemKey(id, callId, EventKey(at)), callId, name, arguments)
    case Message(id, parts) =>
      var key := ItemKey(id, EventKey(at), "");
      var k := BlockKey(Text, key);
      if k in s.blocks && s.blocks[k].emitted then StopBlock(s, key, Text)
      else StopBlock(TextsOn(s, key, Texts(parts)), key, Text)
    case _ => s
  }

  /** A completion starts the message if nothing did, under the response's id. */
  function BeginCompletion(s: State, response: Option<Response>): State
  {
    if response.Some? && response.value.id != "" && s.msgId == ""
    then EnsureStart(s, response.value.id, s.cfg.requestModel) else Begin(s)
  }

  function NoteUsage(s: State, response: Option<Response>): State
  {
    if response.Some? && response.value.usage.Some?
    then s.(usageIn := InputCount(response.value.usage.value), usageOut := OutputCount(response.value.usage.value))
    else s
  }

  function EmitResponse(s: State, response: Option<Response>): State
  {
    if response.Some? then FinalOutput(s, response.value.output, 0) else s
  }

  function StopReason(usedTool: bool, incomplete: bool): string
  {
    if usedTool then "tool_use" else if incomplete then "max_tokens" else "end_turn"
  }

  function OnCompleted(s: State, incomplete: bool, response: Option<Response>): State
  {
    var s1 := NoteUsage(BeginCompletion(s, response), response);
    var s2 := EmitResponse(s1, response);
    Finish(s2, StopReason(s2.hasToolUse, incomplete), s1.usageIn, s1.usageOut)
  }

  function Step(s: State, e: Event): State
  {
    match e
    case Created(id, model, inputTokens) =>
      var s1 := if inputTokens > 0 then s.(usageIn := inputTokens) else s;
      EnsureStart(s1, id, if s.cfg.requestModel != "" then s.cfg.requestModel else model)
    case TextDelta(at, delta) => WriteText(Begin(s), EventKey(at), delta)
    case ReasoningPartAdded(at) => StartThinkingPart(Begin(s), ReasoningEventKey(at))
    case ReasoningDelta(at, delta) =>
      var s1 := Begin(s);
      var s2 := if s1.thinking.None? then StartThinkingPart(s1, ReasoningEventKey(at)) else s1;
      WriteThinking(s2, delta)
    case ReasoningPartDone => s.(stopPending := true)
    case ItemAdded(item, at) => OnItemAdded(Begin(s), item, at)
    case ArgumentsDelta(at, itemCallId, name, delta) =>
      var callId := FirstNonEmpty(itemCallId, at.itemId);
      WriteArguments(Begin(s), ItemKey(at.itemId, callId, EventKey(at)), callId, name, delta)
    case ArgumentsDone(at, itemCallId, name, arguments) =>
      var callId := FirstNonEmpty(itemCallId, at.itemId);
      CompleteCall(Begin(s), ItemKey(at.itemId, callId, EventKey(at)), callId, name, arguments)
    case ItemDone(item, at) => OnItemDone(s, item, at)
    case Completed(incomplete, response) => OnCompleted(s, incomplete, response)
    case Failed(message) => Fail(s, if message == "" then "upstream response failed" else message)
    case OtherEvent => s
    case Malformed => s
  }

  function Run(s: State, events: seq<Event>): State
    decreases |events|
  {
    if events == [] then s else Run(Step(s, events[0]), events[1..])
  }

  // The pipe around the translator

  /** How the upstream body ends after its last blank line. */
  datatype Ending = CleanEnd | ReadFailure(message: string)

  datatype Drained = Drained(state: State, alive: bool)

  const INVALID_JSON := "invalid JSON event"

  /** Feeds the dispatched events in turn; an undecodable one ends the pipe. */
  function Drain(s: State, events: seq<Event>): Drained
    decreases |events|
  {
    if events == [] then Drained(s, true)
    else if events[0].Malformed? then Drained(Fail(s, INVALID_JSON), false)
    else Drain(Step(s, events[0]), events[1..])
  }

  /** The end of the pipe: the event left in the buffer, then the missing-terminal error. */
  function Close(s: State, tail: Option<Event>, ending: Ending): State
  {
    match ending
    case ReadFailure(message) => if s.started && !s.finished then Fail(s, message) else s
    case CleanEnd =>
      if tail == Some(Malformed) then (if s.started && !s.finished then Fail(s, INVALID_JSON) else s)
      else
        var s1 := if tail.Some? then Step(s, tail.value) else s;
        if s1.finished then s1
        else if s1.started then Fail(s1, "upstream stream ended before a terminal event")
        else Fail(s1, "upstream stream empty")
  }

  function Pipe(cfg: Config, events: seq<Event>, tail: Option<Event>, ending: Ending): State
  {
    var d := Drain(Init(cfg), events);
    if d.alive then Close(d.state, tail, ending) else d.state
  }
}
