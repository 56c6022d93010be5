/**
 The grammar of an Anthropic Messages stream, as an automaton that reads the written
 events only, and the proof that the translator keeps to it on every event sequence.
 */
module AnthropicGrammar {
  import opened Basics
  import opened AnthropicWire
  import opened AnthropicSpec

  datatype Phase = Idle | Streaming | Closing | Ended

  /** What has been read: open blocks by index, the next index due, the open thinking block. */
  datatype Shape =
    | Shape(phase: Phase, open: map<nat, Kind>, next: nat, thinking: Option<nat>, signed: bool, usedTool: bool)
    | Broken

  const Fresh := Shape(Idle, map[], 0, None, false, false)

  function Accept(g: Shape, o: Out): Shape
  {
    if g.Broken? then Broken
    else
      match o
      case MessageStart(_, _, _) =>
        if g.phase == Idle then g.(phase := Streaming) else Broken
      case BlockStart(i, body) =>
        if g.phase == Streaming && i == g.next && g.thinking.None?
        then g.(open := g.open[i := BodyKind(body)], next := i + 1,
               thinking := if body.ThinkingBody? then Some(i) else None,
               usedTool := g.usedTool || body.ToolBody?)
        else Broken
      case BlockDelta(i, delta) =>
        if g.phase == Streaming && i in g.open && g.open[i] == DeltaKind(delta)
           && (g.thinking == None || g.thinking == Some(i)) && !g.signed
        then g.(signed := delta.SignaturePiece?)
        else Broken
      case BlockStop(i) =>
        if g.phase == Streaming && i in g.open
        then g.(open := g.open - {i}, thinking := if g.thinking == Some(i) then None else g.thinking,
               signed := g.signed && g.thinking != Some(i))
        else Broken
      case MessageDelta(reason, _, _) =>
        if g.phase == Streaming && g.open == map[] && (reason == "tool_use" <==> g.usedTool)
        then g.(phase := Closing) else Broken
      case MessageStop =>
        if g.phase == Closing then g.(phase := Ended) else Broken
      case ErrorFrame(_) =>
        if (g.phase == Idle || g.phase == Streaming) && g.open == map[] then g.(phase := Ended) else Broken
  }

  function Read(trace: seq<Out>): Shape
  {
    if trace == [] then Fresh else Accept(Read(trace[..|trace| - 1]), trace[|trace| - 1])
  }

  /** A prefix of some well-formed stream. */
  predicate Grammatical(trace: seq<Out>)
  {
    Read(trace).Shape?
  }

  /** A whole well-formed stream: it ends with exactly one message_stop or error. */
  predicate Whole(trace: seq<Out>)
  {
    Read(trace).Shape? && Read(trace).phase == Ended
  }

  lemma ReadSnoc(trace: seq<Out>, o: Out)
    ensures Read(trace + [o]) == Accept(Read(trace), o)
  {
    assert (trace + [o])[..|trace|] == trace;
  }

  /** What was broken or ended stays so: nothing follows a terminal event. */
  lemma {:induction false} BrokenStays(trace: seq<Out>, more: seq<Out>)
    ensures Read(trace).Broken? ==> Read(trace + more).Broken?
    ensures Whole(trace) && more != [] ==> Read(trace + more).Broken?
  {
    if more == [] {
      assert trace + more == trace;
    } else {
      var front := more[..|more| - 1];
      BrokenStays(trace, front);
      assert trace + more == (trace + front) + [more[|more| - 1]];
      ReadSnoc(trace + front, more[|more| - 1]);
      if front == [] { assert trace + front == trace; }
    }
  }

  // The translator invariant

  ghost predicate Keyed(blocks: map<string, Block>)
  {
    forall k :: k in blocks ==>
      && (HasPrefix(k, "text:") <==> blocks[k].kind == Text)
      && (HasPrefix(k, "tool:") <==> blocks[k].kind == Tool)
      && blocks[k].kind != Thinking
  }

  ghost predicate Numbered(blocks: map<string, Block>, n: nat, thinking: Option<nat>)
  {
    && (forall k :: k in blocks ==> blocks[k].index < n && thinking != Some(blocks[k].index))
    && (forall k, l :: k in blocks && l in blocks && blocks[k].index == blocks[l].index ==> k == l)
    && (thinking.Some? ==> thinking.value < n)
  }

  ghost predicate Structured(s: State)
  {
    && Keyed(s.blocks)
    && Numbered(s.blocks, s.nextIndex, ThinkingIndex(s))
    && (s.thinking.Some? ==> s.cfg.thinkingEnabled)
    && (!s.started ==> s.blocks == map[] && s.thinking.None? && s.nextIndex == 0 && !s.hasToolUse && s.msgId == "")
  }

  function ThinkingIndex(s: State): Option<nat>
  {
    if s.thinking.Some? then Some(s.thinking.value.index) else None
  }

  function Indices(o: Option<nat>): set<nat>
  {
    if o.Some? then {o.value} else {}
  }

  /** The open blocks read from the output are the translator's unstopped ones. */
  ghost predicate SameBlocks(blocks: map<string, Block>, thinking: Option<nat>, open: map<nat, Kind>)
  {
    && open.Keys == OpenIndices(blocks) + Indices(thinking)
    && (forall k :: k in blocks && !blocks[k].stopped ==> open[blocks[k].index] == blocks[k].kind)
    && (thinking.Some? ==> open[thinking.value] == Thinking)
  }

  ghost predicate Matches(s: State, g: Shape)
  {
    && g.Shape?
    && g.phase == (if s.started then Streaming else Idle)
    && g.next == s.nextIndex
    && g.thinking == ThinkingIndex(s)
    && !g.signed
    && g.usedTool == s.hasToolUse
    && SameBlocks(s.blocks, g.thinking, g.open)
  }

  /** Mid-stream: what was written is grammatical and mirrors the translator's blocks. */
  ghost predicate Mid(s: State)
  {
    Linked(s, Read(s.out))
  }

  ghost predicate Linked(s: State, g: Shape)
  {
    Structured(s) && !s.finished && Matches(s, g)
  }

  ghost predicate Live(s: State)
  {
    Mid(s) && s.started
  }

  lemma InitMid(cfg: Config)
    ensures Mid(Init(cfg))
  {
  }

  lemma BlockKeyPrefix(kind: Kind, key: string)
    ensures HasPrefix(BlockKey(kind, key), KindPrefix(kind))
    ensures kind == Text ==> !HasPrefix(BlockKey(kind, key), "tool:")
    ensures kind == Tool ==> !HasPrefix(BlockKey(kind, key), "text:")
  {
    var b := BlockKey(kind, key);
    assert HasPrefix(b, KindPrefix(kind));
    assert kind == Text ==> b[1] == 'e';
    assert kind == Tool ==> b[1] == 'o';
    assert "text:"[1] == 'e' && "tool:"[1] == 'o';
  }

  lemma EmitRead(s: State, o: Out)
    ensures Read(Emit(s, o).out) == Accept(Read(s.out), o)
  {
    ReadSnoc(s.out, o);
  }

  /** Fields the grammar does not see may change freely. */
  lemma SideMid(s: State, t: State)
    requires Mid(s)
    requires t == s.(reasoning := t.reasoning, signature := t.signature, stopPending := t.stopPending,
                     usageIn := t.usageIn, usageOut := t.usageOut)
    ensures Mid(t)
  {
  }

  lemma StartLive(s: State, id: string, model: string)
    requires Mid(s)
    ensures Live(EnsureStart(s, id, model))
    ensures EnsureStart(s, id, model).thinking == s.thinking
    ensures EnsureStart(s, id, model).blocks == s.blocks
  {
    if !s.started {
      var t := EnsureStart(s, id, model);
      ReadSnoc(s.out, t.out[|s.out|]);
    }
  }

  lemma SignatureLinked(s: State, g: Shape)
    requires Linked(s, g) && s.thinking.Some?
    ensures s.cfg.thinkingEnabled
    ensures var i := s.thinking.value.index;
            Accept(g, BlockDelta(i, SignaturePiece(s.signature))) == g.(signed := true)
  {
  }

  lemma ThinkingStopLinked(s: State, g: Shape, signed: bool, clear: bool)
    requires Linked(s, g) && s.thinking.Some?
    ensures Linked(FinalizeThinking(s, clear), Accept(g.(signed := signed), BlockStop(s.thinking.value.index)))
  {
    var i := s.thinking.value.index;
    ThinkingStopBlocks(s.blocks, s.nextIndex, i, g.open);
    assert Accept(g.(signed := signed), BlockStop(i)) == g.(signed := false, open := g.open - {i}, thinking := None);
  }

  lemma ThinkingStopBlocks(blocks: map<string, Block>, n: nat, i: nat, open: map<nat, Kind>)
    requires Numbered(blocks, n, Some(i)) && SameBlocks(blocks, Some(i), open)
    ensures Numbered(blocks, n, None) && SameBlocks(blocks, None, open - {i})
  {
    assert i !in OpenIndices(blocks);
    assert (open - {i}).Keys == OpenIndices(blocks);
  }

  lemma FinalizeLive(s: State, clear: bool)
    requires Mid(s)
    ensures Mid(FinalizeThinking(s, clear))
    ensures FinalizeThinking(s, clear).started == s.started
    ensures FinalizeThinking(s, clear).thinking.None?
    ensures FinalizeThinking(s, clear).blocks == s.blocks
    ensures FinalizeThinking(s, clear).hasToolUse == s.hasToolUse
  {
    hide Linked, Read;
    if s.thinking.Some? {
      var i := s.thinking.value.index;
      var g := Read(s.out);
      SignatureLinked(s, g);
      ThinkingStopLinked(s, g, s.signature != "", clear);
      var o := BlockDelta(i, SignaturePiece(s.signature));
      var mid := if s.signature != "" then s.out + [o] else s.out;
      ReadSnoc(s.out, o);
      ReadSnoc(mid, BlockStop(i));
      assert FinalizeThinking(s, clear).out == mid + [BlockStop(i)];
    } else {
      SideMid(s, FinalizeThinking(s, clear));
    }
  }

  lemma ThinkingOpenLinked(s: State, g: Shape)
    requires Linked(s, g) && s.started && s.cfg.thinkingEnabled && s.thinking.None?
    ensures Linked(s.(nextIndex := s.nextIndex + 1, thinking := Some(Block(s.nextIndex, Thinking, false, false)), stopPending := false),
                   Accept(g, BlockStart(s.nextIndex, ThinkingBody)))
  {
  }

  lemma ThinkingBlockLive(s: State)
    requires Mid(s)
    ensures Mid(EnsureThinkingBlock(s))
    ensures s.started ==> EnsureThinkingBlock(s).started
    ensures s.cfg.thinkingEnabled ==> EnsureThinkingBlock(s).started
    ensures EnsureThinkingBlock(s).blocks == s.blocks
  {
    if s.cfg.thinkingEnabled && s.thinking.None? {
      StartLive(s, s.msgId, s.model);
      var s1 := Begin(s);
      ThinkingOpenLinked(s1, Read(s1.out));
      ReadSnoc(s1.out, BlockStart(s1.nextIndex, ThinkingBody));
    }
  }

  lemma WriteThinkingLive(s: State, text: string)
    requires Mid(s)
    ensures Mid(WriteThinking(s, text))
    ensures s.started ==> WriteThinking(s, text).started
    ensures WriteThinking(s, text).blocks == s.blocks
  {
    hide Read, Linked, EnsureThinkingBlock;
    if s.cfg.thinkingEnabled && s.cfg.thinkingDisplay != "omitted" && text != "" {
      ThinkingBlockLive(s);
      ThinkingOpen(s);
      var s1 := EnsureThinkingBlock(s);
      var b := s1.thinking.value;
      ThinkingDeltaLinked(s1, Read(s1.out), text);
      ReadSnoc(s1.out, BlockDelta(b.index, ThinkingPiece(text)));
    }
  }

  lemma ThinkingOpen(s: State)
    requires s.cfg.thinkingEnabled
    ensures EnsureThinkingBlock(s).thinking.Some?
  {
  }

  lemma ThinkingDeltaLinked(s: State, g: Shape, text: string)
    requires Linked(s, g) && s.thinking.Some? && s.started
    ensures var o := BlockDelta(s.thinking.value.index, ThinkingPiece(text));
            Linked(Emit(s.(thinking := Some(s.thinking.value.(emitted := true))), o), Accept(g, o))
  {
    hide Structured;
    assert Accept(g, BlockDelta(s.thinking.value.index, ThinkingPiece(text))) == g;
    var t := Emit(s.(thinking := Some(s.thinking.value.(emitted := true))), BlockDelta(s.thinking.value.index, ThinkingPiece(text)));
    SameStructure(s, t);
  }

  lemma SameStructure(s: State, t: State)
    requires Structured(s) && ThinkingIndex(t) == ThinkingIndex(s)
    requires t == s.(thinking := t.thinking, out := t.out)
    ensures Structured(t)
  {
  }

  lemma StartPartLive(s: State, key: string)
    requires Live(s)
    ensures Live(StartThinkingPart(s, key))
  {
    hide Linked, Read;
    if s.cfg.thinkingEnabled {
      FinalizeLive(s, false);
      var s1 := if s.thinking.Some? && s.stopPending then FinalizeThinking(s, false) else s;
      SideMid(s1, s1.(reasoning := ReasoningKey(key)));
      ThinkingBlockLive(s1.(reasoning := ReasoningKey(key)));
    }
  }

  lemma OpenBlockBlocks(blocks: map<string, Block>, n: nat, open: map<nat, Kind>, k: string, kind: Kind)
    requires Numbered(blocks, n, None) && SameBlocks(blocks, None, open) && k !in blocks
    ensures var after := blocks[k := Block(n, kind, false, false)];
            Numbered(after, n + 1, None) && SameBlocks(after, None, open[n := kind])
  {
    var after := blocks[k := Block(n, kind, false, false)];
    assert Numbered(after, n + 1, None);
    assert OpenIndices(after) == OpenIndices(blocks) + {n} by {
      assert k in after && after[k].index == n;
      forall j | j in OpenIndices(blocks) ensures j in OpenIndices(after) {
        var l :| l in blocks && !blocks[l].stopped && blocks[l].index == j;
        assert l in after && after[l] == blocks[l];
      }
    }
  }

  /** Opening a text or tool block under a new key. */
  lemma OpenBlockLive(s: State, k: string, kind: Kind, body: Body)
    requires Live(s) && s.thinking.None? && k !in s.blocks
    requires kind != Thinking && BodyKind(body) == kind
    requires HasPrefix(k, "text:") <==> kind == Text
    requires HasPrefix(k, "tool:") <==> kind == Tool
    ensures Live(Emit(s.(nextIndex := s.nextIndex + 1, blocks := s.blocks[k := Block(s.nextIndex, kind, false, false)],
                        hasToolUse := s.hasToolUse || kind == Tool),
                      BlockStart(s.nextIndex, body)))
  {
    hide Linked, Read;
    OpenBlockLinked(s, Read(s.out), k, kind, body);
    EmitRead(s, BlockStart(s.nextIndex, body));
  }

  lemma OpenBlockLinked(s: State, g: Shape, k: string, kind: Kind, body: Body)
    requires Linked(s, g) && s.started && s.thinking.None? && k !in s.blocks
    requires kind != Thinking && BodyKind(body) == kind
    requires HasPrefix(k, "text:") <==> kind == Text
    requires HasPrefix(k, "tool:") <==> kind == Tool
    ensures Linked(Emit(s.(nextIndex := s.nextIndex + 1, blocks := s.blocks[k := Block(s.nextIndex, kind, false, false)],
                           hasToolUse := s.hasToolUse || kind == Tool),
                        BlockStart(s.nextIndex, body)),
                   Accept(g, BlockStart(s.nextIndex, body)))
  {
    var i := s.nextIndex;
    OpenBlockBlocks(s.blocks, i, g.open, k, kind);
    KeyedOpen(s.blocks, i, k, kind);
    hide Numbered, SameBlocks, Keyed, HasPrefix;
  }

  lemma KeyedOpen(blocks: map<string, Block>, n: nat, k: string, kind: Kind)
    requires Keyed(blocks) && kind != Thinking
    requires HasPrefix(k, "text:") <==> kind == Text
    requires HasPrefix(k, "tool:") <==> kind == Tool
    ensures Keyed(blocks[k := Block(n, kind, false, false)])
  {
    hide HasPrefix;
  }

  lemma KeyedText(s: State, k: string)
    requires Mid(s) && HasPrefix(k, "text:")
    ensures k in s.blocks ==> s.blocks[k].kind == Text
  {
  }

  lemma KeyedTool(s: State, k: string)
    requires Mid(s) && HasPrefix(k, "tool:")
    ensures k in s.blocks ==> s.blocks[k].kind == Tool
  {
  }

  lemma TextBlockLive(s: State, key: string)
    requires Live(s)
    ensures Live(EnsureTextBlock(s, key)) && EnsureTextBlock(s, key).thinking.None?
    ensures BlockKey(Text, key) in EnsureTextBlock(s, key).blocks
    ensures EnsureTextBlock(s, key).blocks[BlockKey(Text, key)].kind == Text
  {
    hide Linked, Read;
    FinalizeLive(s, true);
    BlockKeyPrefix(Text, key);
    var s1 := FinishThinkingBeforeContent(s);
    KeyedText(s1, BlockKey(Text, key));
    if BlockKey(Text, key) !in s1.blocks {
      OpenBlockLive(s1, BlockKey(Text, key), Text, TextBody);
    }
  }

  lemma ToolBlockLive(s: State, key: string, callId: string, name: string)
    requires Live(s)
    ensures Live(EnsureToolBlock(s, key, callId, name)) && EnsureToolBlock(s, key, callId, name).thinking.None?
    ensures BlockKey(Tool, FirstNonEmpty(key, callId)) in EnsureToolBlock(s, key, callId, name).blocks
    ensures EnsureToolBlock(s, key, callId, name).blocks[BlockKey(Tool, FirstNonEmpty(key, callId))].kind == Tool
  {
    hide Linked, Read;
    FinalizeLive(s, true);
    var k := BlockKey(Tool, FirstNonEmpty(key, callId));
    BlockKeyPrefix(Tool, FirstNonEmpty(key, callId));
    OpenToolLive(FinishThinkingBeforeContent(s), k, callId, name);
    KeyedTool(FinishThinkingBeforeContent(s), k);
  }

  lemma OpenToolLive(s: State, k: string, callId: string, name: string)
    requires Live(s) && s.thinking.None?
    requires HasPrefix(k, "tool:") && !HasPrefix(k, "text:")
    ensures k !in s.blocks ==>
      var id := if callId != "" then callId else k[5..];
      Live(Emit(s.(nextIndex := s.nextIndex + 1, blocks := s.blocks[k := Block(s.nextIndex, Tool, false, false)], hasToolUse := true),
           BlockStart(s.nextIndex, ToolBody(id, if name == "" then "tool" else name))))
  {
    hide Linked, Read;
    if k !in s.blocks {
      var id := if callId != "" then callId else k[5..];
      OpenBlockLive(s, k, Tool, ToolBody(id, if name == "" then "tool" else name));
    }
  }

  lemma DeltaOnLinked(s: State, g: Shape, k: string, delta: Delta)
    requires Linked(s, g) && s.started && s.thinking.None? && k in s.blocks && s.blocks[k].kind == DeltaKind(delta)
    requires !s.blocks[k].stopped
    ensures Accept(g, BlockDelta(s.blocks[k].index, delta)) == g
    ensures Linked(s.(blocks := s.blocks[k := s.blocks[k].(emitted := true)]), g)
  {
    var b := s.blocks[k];
    assert b.index in OpenIndices(s.blocks);
    assert b.index in g.open && g.open[b.index] == b.kind;
    SameOpen(s.blocks, k, b.(emitted := true));
  }

  lemma DeltaOnLive(s: State, k: string, delta: Delta)
    requires Live(s) && s.thinking.None? && k in s.blocks && s.blocks[k].kind == DeltaKind(delta)
    ensures Live(DeltaOn(s, k, delta)) && DeltaOn(s, k, delta).thinking.None?
  {
    if !s.blocks[k].stopped {
      DeltaOnLinked(s, Read(s.out), k, delta);
      ReadSnoc(s.out, BlockDelta(s.blocks[k].index, delta));
    }
  }

  lemma SameOpen(blocks: map<string, Block>, k: string, b: Block)
    requires k in blocks && b.index == blocks[k].index && b.stopped == blocks[k].stopped
    ensures OpenIndices(blocks[k := b]) == OpenIndices(blocks)
  {
    var after := blocks[k := b];
    forall j | j in OpenIndices(blocks) ensures j in OpenIndices(after) {
      var l :| l in blocks && !blocks[l].stopped && blocks[l].index == j;
      assert l in after && !after[l].stopped && after[l].index == j;
    }
    forall j | j in OpenIndices(after) ensures j in OpenIndices(blocks) {
      var l :| l in after && !after[l].stopped && after[l].index == j;
      assert l in blocks && !blocks[l].stopped && blocks[l].index == j;
    }
  }

  lemma WriteTextLive(s: State, key: string, text: string)
    requires Live(s)
    ensures Live(WriteText(s, key, text))
  {
    hide Linked, Read;
    if text != "" {
      TextBlockLive(s, key);
      BlockKeyPrefix(Text, key);
      DeltaOnLive(EnsureTextBlock(s, key), BlockKey(Text, key), TextPiece(text));
    }
  }

  lemma WriteArgumentsLive(s: State, key: string, callId: string, name: string, args: string)
    requires Live(s)
    ensures Live(WriteArguments(s, key, callId, name, args))
  {
    hide Linked, Read;
    if args != "" {
      ToolBlockLive(s, key, callId, name);
      BlockKeyPrefix(Tool, FirstNonEmpty(key, callId));
      DeltaOnLive(EnsureToolBlock(s, key, callId, name), BlockKey(Tool, FirstNonEmpty(key, callId)), JsonPiece(args));
    }
  }

  lemma StopBlocks(blocks: map<string, Block>, n: nat, thinking: Option<nat>, open: map<nat, Kind>, k: string)
    requires Numbered(blocks, n, thinking) && SameBlocks(blocks, thinking, open)
    requires k in blocks && !blocks[k].stopped
    ensures blocks[k].index in open
    ensures var after := blocks[k := blocks[k].(stopped := true)];
            Numbered(after, n, thinking) && SameBlocks(after, thinking, open - {blocks[k].index})
  {
    var i := blocks[k].index;
    var after := blocks[k := blocks[k].(stopped := true)];
    assert i in OpenIndices(blocks);
    forall j | j in OpenIndices(blocks) - {i} ensures j in OpenIndices(after) {
      var l :| l in blocks && !blocks[l].stopped && blocks[l].index == j;
      assert l in after && after[l] == blocks[l];
    }
    forall j | j in OpenIndices(after) ensures j in OpenIndices(blocks) - {i} {
      var l :| l in after && !after[l].stopped && after[l].index == j;
      assert l in blocks && l != k;
    }
    assert OpenIndices(after) == OpenIndices(blocks) - {i};
    assert (open - {i}).Keys == OpenIndices(after) + Indices(thinking);
  }

  lemma StopLinked(s: State, g: Shape, k: string)
    requires Linked(s, g) && k in s.blocks && !s.blocks[k].stopped
    ensures Linked(s.(blocks := s.blocks[k := s.blocks[k].(stopped := true)]), Accept(g, BlockStop(s.blocks[k].index)))
  {
    var i := s.blocks[k].index;
    StopBlocks(s.blocks, s.nextIndex, g.thinking, g.open, k);
    assert Accept(g, BlockStop(i)) == g.(open := g.open - {i});
    assert Keyed(s.blocks[k := s.blocks[k].(stopped := true)]);
  }

  lemma StopBlockLive(s: State, key: string, kind: Kind)
    requires Mid(s)
    ensures Mid(StopBlock(s, key, kind)) && StopBlock(s, key, kind).started == s.started
  {
    var k := BlockKey(kind, key);
    if k in s.blocks && !s.blocks[k].stopped {
      StopLinked(s, Read(s.out), k);
      ReadSnoc(s.out, BlockStop(s.blocks[k].index));
    }
  }

  lemma {:induction false} TextsOnLive(s: State, key: string, texts: seq<string>)
    requires Live(s)
    ensures Live(TextsOn(s, key, texts))
    decreases |texts|
  {
    hide Linked, Read;
    if texts != [] {
      WriteTextLive(s, key, texts[0]);
      TextsOnLive(WriteText(s, key, texts[0]), key, texts[1..]);
    }
  }

  lemma FinalReasoningMid(s: State, item: Item, fallback: string)
    requires Mid(s) && item.Reasoning?
    ensures Mid(FinalReasoning(s, item, fallback))
    ensures s.started ==> FinalReasoning(s, item, fallback).started
  {
    hide Linked, Read;
    var t := FinalReasoning(s, item, fallback);
    if t != s {
      var key := ReasoningKey(FirstNonEmpty(item.id, fallback));
      var summary := if s.cfg.thinkingDisplay == "omitted" then "" else SummaryText(item.summary);
      var signature := if item.signature == "" then s.signature else item.signature;
      var s1 := s.(reasoning := key, signature := signature);
      SideMid(s, s1);
      ThinkingBlockLive(s1);
      WriteThinkingLive(EnsureThinkingBlock(s1), summary);
      FinalizeLive(WriteThinking(EnsureThinkingBlock(s1), summary), true);
    }
  }

  lemma CompleteCallLive(s: State, key: string, callId: string, name: string, arguments: string)
    requires Live(s)
    ensures Live(CompleteCall(s, key, callId, name, arguments))
  {
    hide Linked, Read;
    ToolBlockLive(s, key, callId, name);
    var s1 := EnsureToolBlock(s, key, callId, name);
    WriteArgumentsLive(s1, key, callId, name, arguments);
    var s2 := if s1.blocks[BlockKey(Tool, FirstNonEmpty(key, callId))].emitted then s1
              else WriteArguments(s1, key, callId, name, arguments);
    StopBlockLive(s2, key, Tool);
  }

  lemma FinalItemLive(s: State, item: Item, i: nat)
    requires Live(s)
    ensures Live(FinalItem(s, item, i))
  {
    hide Linked, Read;
    match item
    case Reasoning(_, _, _) => FinalReasoningMid(s, item, "final-reasoning-" + Decimal(i));
    case Message(id, parts) =>
      var key := ItemKey(id, "final-" + Decimal(i), "");
      StopBlockLive(s, key, Text);
      TextsOnLive(s, key, Texts(parts));
      StopBlockLive(TextsOn(s, key, Texts(parts)), key, Text);
    case FunctionCall(id, itemCallId, name, arguments, _) =>
      var callId := FirstNonEmpty(itemCallId, id);
      CompleteCallLive(s, ItemKey(id, callId, "final-" + Decimal(i)), callId, name,
                       if arguments == "" then "{}" else arguments);
    case _ =>
  }

  lemma {:induction false} FinalOutputLive(s: State, items: seq<Item>, i: nat)
    requires Live(s) && i <= |items|
    ensures Live(FinalOutput(s, items, i))
    decreases |items| - i
  {
    hide Linked, Read;
    if i < |items| {
      FinalItemLive(s, items[i], i);
      FinalOutputLive(FinalItem(s, items[i], i), items, i + 1);
    }
  }

  /** After the stops of the open indices below `n`, exactly those blocks are closed. */
  ghost predicate ClosedBelow(g: Shape, h: Shape, open: set<nat>, n: nat)
  {
    && g.Shape? && h.Shape? && h.phase == g.phase && h.thinking.None? && !h.signed
    && h.next == g.next && h.usedTool == g.usedTool
    && (forall j :: j in h.open <==> j in g.open && !(j in open && j < n))
  }

  lemma {:induction false} StopsRead(trace: seq<Out>, open: set<nat>, n: nat)
    requires var g := Read(trace); g.Shape? && g.phase == Streaming && g.thinking.None? && !g.signed && open <= g.open.Keys
    ensures ClosedBelow(Read(trace), Read(trace + Stops(open, n)), open, n)
  {
    hide Read;
    if n == 0 {
      assert trace + Stops(open, 0) == trace;
    } else {
      StopsRead(trace, open, n - 1);
      var t := trace + Stops(open, n - 1);
      if n - 1 in open {
        assert trace + Stops(open, n) == t + [BlockStop(n - 1)];
        ReadSnoc(t, BlockStop(n - 1));
        StopNext(Read(trace), Read(t), open, n - 1);
      } else {
        assert trace + Stops(open, n) == t;
      }
    }
  }

  lemma StopNext(g: Shape, h: Shape, open: set<nat>, n: nat)
    requires ClosedBelow(g, h, open, n) && n in open && open <= g.open.Keys && g.phase == Streaming
    ensures ClosedBelow(g, Accept(h, BlockStop(n)), open, n + 1)
  {
    assert n in h.open;
  }

  /** Stopping all blocks leaves nothing open. */
  lemma StopAllRead(s: State)
    requires Mid(s) && s.thinking.None?
    ensures var h := Read(StopAllBlocks(s).out);
            h.Shape? && h.open == map[] && h.phase == Read(s.out).phase && h.usedTool == s.hasToolUse
  {
    var open := OpenIndices(s.blocks);
    if s.started {
      StopsRead(s.out, open, s.nextIndex);
      assert Read(StopAllBlocks(s).out).open.Keys == {};
    } else {
      assert open == {};
      assert Stops(open, 0) == [];
      assert s.out + Stops(open, s.nextIndex) == s.out;
      assert Read(s.out).open.Keys == {};
    }
  }

  lemma FinishWhole(s: State, stopReason: string, usageIn: int, usageOut: int)
    requires Mid(s)
    requires stopReason == "tool_use" <==> s.hasToolUse
    ensures Finish(s, stopReason, usageIn, usageOut).finished
    ensures Whole(Finish(s, stopReason, usageIn, usageOut).out)
  {
    hide Read;
    StartLive(s, s.msgId, s.model);
    FinalizeLive(Begin(s), true);
    var s0 := FinalizeThinking(Begin(s), true);
    StopAllRead(s0);
    var s1 := StopAllBlocks(s0);
    EmitRead(s1, MessageDelta(stopReason, usageIn, usageOut));
    EmitRead(Emit(s1, MessageDelta(stopReason, usageIn, usageOut)), MessageStop);
  }

  lemma FailWhole(s: State, message: string)
    requires Mid(s)
    ensures Fail(s, message).finished && Whole(Fail(s, message).out)
    ensures !s.started ==> Fail(s, message).out == [ErrorFrame(message)]
  {
    FinalizeLive(s, true);
    StopAllRead(FinalizeThinking(s, true));
    EmitRead(StopAllBlocks(FinalizeThinking(s, true)), ErrorFrame(message));
    if !s.started {
      UnstartedSilent(s);
      assert Stops(OpenIndices(s.blocks), 0) == [];
    }
  }

  lemma UnstartedSilent(s: State)
    requires Mid(s) && !s.started
    ensures s.out == []
  {
    if s.out != [] {
      IdleIsEmpty(s.out);
    }
  }

  lemma {:induction false} IdleIsEmpty(trace: seq<Out>)
    ensures Read(trace).Shape? && Read(trace).phase == Idle ==> trace == []
  {
    if trace != [] {
      IdleIsEmpty(trace[..|trace| - 1]);
    }
  }

  // Steps

  /** The one event that writes a block without opening the message first. */
  predicate Misopens(s: State, e: Event)
  {
    !s.started && e.ItemDone? && e.item.Message? && Texts(e.item.parts) != []
  }


  lemma ReasoningDoneMid(s: State, item: Item, at: At)
    requires Mid(s) && item.Reasoning?
    ensures Mid(OnItemDone(s, item, at))
  {
    hide Linked, Read;
    var key := ReasoningKey(FirstNonEmpty(item.id, ReasoningEventKey(at)));
    var s1 := CaptureSignature(s.(reasoning := key), key, item.signature);
    SideMid(s, s1);
    FinalizeLive(s1, true);
    FinalReasoningMid(s1, item, key);
  }

  lemma MessageDoneMid(s: State, item: Item, at: At)
    requires Mid(s) && item.Message? && !Misopens(s, ItemDone(item, at))
    ensures Mid(OnItemDone(s, item, at))
  {
    hide Linked, Read;
    var key := ItemKey(item.id, EventKey(at), "");
    StopBlockLive(s, key, Text);
    if s.started {
      TextsOnLive(s, key, Texts(item.parts));
      StopBlockLive(TextsOn(s, key, Texts(item.parts)), key, Text);
    }
  }

  lemma ItemDoneMid(s: State, item: Item, at: At)
    requires Mid(s) && !Misopens(s, ItemDone(item, at))
    ensures Mid(OnItemDone(s, item, at))
  {
    hide Linked, Read;
    match item
    case Reasoning(_, _, _) => ReasoningDoneMid(s, item, at);
    case FunctionCall(id, itemCallId, name, arguments, _) =>
      StartLive(s, s.msgId, s.model);
      var callId := FirstNonEmpty(itemCallId, id);
      CompleteCallLive(Begin(s), ItemKey(id, callId, EventKey(at)), callId, name, arguments);
    case Message(_, _) => MessageDoneMid(s, item, at);
    case _ =>
  }

  lemma ItemAddedMid(s: State, item: Item, at: At)
    requires Live(s)
    ensures Live(OnItemAdded(s, item, at))
  {
    hide Linked, Read, EnsureToolBlock, WriteArguments;
    match item
    case Reasoning(id, _, signature) => SideMid(s, OnItemAdded(s, item, at));
    case FunctionCall(id, itemCallId, name, arguments, _) =>
      var callId := FirstNonEmpty(itemCallId, id);
      var key := ItemKey(id, callId, EventKey(at));
      ToolBlockLive(s, key, callId, name);
      WriteArgumentsLive(EnsureToolBlock(s, key, callId, name), key, callId, name, arguments);
    case _ =>
  }

  lemma BeginCompletionLive(s: State, response: Option<Response>)
    requires Mid(s)
    ensures Live(NoteUsage(BeginCompletion(s, response), response))
  {
    hide Linked, Read;
    StartLive(s, s.msgId, s.model);
    if response.Some? { StartLive(s, response.value.id, s.cfg.requestModel); }
    SideMid(BeginCompletion(s, response), NoteUsage(BeginCompletion(s, response), response));
  }

  lemma StopReasonTool(usedTool: bool, incomplete: bool)
    ensures StopReason(usedTool, incomplete) == "tool_use" <==> usedTool
  {
    assert "tool_use"[0] == 't' && "max_tokens"[0] == 'm' && "end_turn"[0] == 'e';
  }

  lemma CompletedWhole(s: State, incomplete: bool, response: Option<Response>)
    requires Mid(s)
    ensures OnCompleted(s, incomplete, response).finished
    ensures Whole(OnCompleted(s, incomplete, response).out)
  {
    hide Linked, Read;
    BeginCompletionLive(s, response);
    var s1 := NoteUsage(BeginCompletion(s, response), response);
    if response.Some? { FinalOutputLive(s1, response.value.output, 0); }
    var s2 := EmitResponse(s1, response);
    StopReasonTool(s2.hasToolUse, incomplete);
    FinishWhole(s2, StopReason(s2.hasToolUse, incomplete), s1.usageIn, s1.usageOut);
  }

  lemma ReasoningDeltaLive(s: State, at: At, delta: string)
    requires Live(s)
    ensures Live(WriteThinking(if s.thinking.None? then StartThinkingPart(s, ReasoningEventKey(at)) else s, delta))
  {
    hide Linked, Read;
    StartPartLive(s, ReasoningEventKey(at));
    WriteThinkingLive(if s.thinking.None? then StartThinkingPart(s, ReasoningEventKey(at)) else s, delta);
  }

  /** Every event but a terminal one keeps the stream open and grammatical. */
  lemma StepMid(s: State, e: Event)
    requires Mid(s) && !Misopens(s, e) && !e.Completed? && !e.Failed?
    ensures Mid(Step(s, e))
  {
    hide Mid, WriteText, StartThinkingPart, WriteThinking, WriteArguments, CompleteCall, OnItemAdded, OnItemDone;
    StartLive(s, s.msgId, s.model);
    var b := Begin(s);
    match e
    case Created(id, model, inputTokens) =>
      var s1 := if inputTokens > 0 then s.(usageIn := inputTokens) else s;
      SideMid(s, s1);
      StartLive(s1, id, if s.cfg.requestModel != "" then s.cfg.requestModel else model);
    case TextDelta(at, delta) => WriteTextLive(b, EventKey(at), delta);
    case ReasoningPartAdded(at) => StartPartLive(b, ReasoningEventKey(at));
    case ReasoningDelta(at, delta) => ReasoningDeltaLive(b, at, delta);
    case ReasoningPartDone => SideMid(s, Step(s, e));
    case ItemAdded(item, at) => ItemAddedMid(b, item, at);
    case ArgumentsDelta(at, itemCallId, name, delta) =>
      var callId := FirstNonEmpty(itemCallId, at.itemId);
      WriteArgumentsLive(b, ItemKey(at.itemId, callId, EventKey(at)), callId, name, delta);
    case ArgumentsDone(at, itemCallId, name, arguments) =>
      var callId := FirstNonEmpty(itemCallId, at.itemId);
      CompleteCallLive(b, ItemKey(at.itemId, callId, EventKey(at)), callId, name, arguments);
    case ItemDone(item, at) => ItemDoneMid(s, item, at);
    case OtherEvent =>
    case Malformed =>
  }

  /** Every event keeps the stream grammatical, and a terminal event completes it. */
  lemma StepGrammar(s: State, e: Event)
    requires Mid(s) && !Misopens(s, e)
    ensures if e.Completed? || e.Failed? then Step(s, e).finished && Whole(Step(s, e).out) else Mid(Step(s, e))
  {
    hide Linked, Read;
    if e.Completed? {
      CompletedWhole(s, e.incomplete, e.response);
    } else if e.Failed? {
      FailWhole(s, if e.message == "" then "upstream response failed" else e.message);
    } else {
      StepMid(s, e);
    }
  }
}
