/**
 What a client is told at the end of a message: the stop reason and the token counts that
 a stream or a whole body reports, for every sequence of upstream events.
 */
module AnthropicReplies {
  import opened Basics
  import opened AnthropicWire
  import opened AnthropicSpec
  import opened AnthropicBatch

  // Everything but the end of a message

  predicate StartsTool(o: Out)
  {
    o.BlockStart? && o.body.ToolBody?
  }

  ghost predicate ToolAmong(out: seq<Out>, from: nat)
  {
    exists j :: from <= j < |out| && StartsTool(out[j])
  }

  /** From `s` on to `t` frames were only added, no message delta among them; a tool block was noted if one began. */
  ghost predicate Onward(s: State, t: State)
  {
    && t.finished == s.finished && t.usageIn == s.usageIn && t.usageOut == s.usageOut
    && s.out <= t.out
    && (forall j :: |s.out| <= j < |t.out| ==> !t.out[j].MessageDelta?)
    && (t.hasToolUse <==> s.hasToolUse || ToolAmong(t.out, |s.out|))
  }

  lemma Onwards(a: State, b: State, c: State)
    requires Onward(a, b) && Onward(b, c)
    ensures Onward(a, c)
  {
    if ToolAmong(b.out, |a.out|) {
      var j :| |a.out| <= j < |b.out| && StartsTool(b.out[j]);
      assert c.out[j] == b.out[j];
    }
    if ToolAmong(c.out, |a.out|) && !ToolAmong(c.out, |b.out|) {
      var j :| |a.out| <= j < |c.out| && StartsTool(c.out[j]);
      assert c.out[j] == b.out[j];
    }
    forall j | |a.out| <= j < |c.out| ensures !c.out[j].MessageDelta? {
      if j < |b.out| { assert c.out[j] == b.out[j]; }
    }
  }

  /** One plain frame, whatever else of the state changes. */
  lemma Plain(s: State, t: State, o: Out)
    requires t.out == s.out + [o] && !o.MessageDelta? && !StartsTool(o)
    requires t.finished == s.finished && t.usageIn == s.usageIn && t.usageOut == s.usageOut && t.hasToolUse == s.hasToolUse
    ensures Onward(s, t)
  {
  }

  lemma Quiet(s: State, t: State)
    requires t.out == s.out && t.finished == s.finished && t.usageIn == s.usageIn && t.usageOut == s.usageOut && t.hasToolUse == s.hasToolUse
    ensures Onward(s, t)
  {
  }

  lemma StartOnward(s: State, id: string, model: string)
    ensures Onward(s, EnsureStart(s, id, model)) && EnsureStart(s, id, model).hasToolUse == s.hasToolUse
  {
    hide MessageId;
  }

  lemma SignOnward(s: State, i: nat)
    ensures Onward(s, SignThinking(s, i)) && SignThinking(s, i).hasToolUse == s.hasToolUse
  {
    if s.signature != "" { Plain(s, SignThinking(s, i), BlockDelta(i, SignaturePiece(s.signature))); } else { Quiet(s, s); }
  }

  lemma FinalizeOnward(s: State, clear: bool)
    ensures Onward(s, FinalizeThinking(s, clear)) && FinalizeThinking(s, clear).hasToolUse == s.hasToolUse
  {
    hide Onward, SignThinking;
    Quiet(s, s);
    Quiet(s, s.(signature := ""));
    if s.cfg.thinkingEnabled && s.thinking.Some? {
      var i := s.thinking.value.index;
      var s1 := SignThinking(s, i);
      var s2 := Emit(s1, BlockStop(i));
      SignOnward(s, i);
      Plain(s1, s2, BlockStop(i));
      Quiet(s2, RetireThinking(s2, clear));
      Onwards(s, s1, s2);
      Onwards(s, s2, RetireThinking(s2, clear));
    }
  }

  lemma ThinkingOnward(s: State)
    ensures Onward(s, EnsureThinkingBlock(s))
  {
    StartOnward(s, s.msgId, s.model);
    if s.cfg.thinkingEnabled && s.thinking.None? {
      var b := Begin(s);
      Plain(b, EnsureThinkingBlock(s), BlockStart(b.nextIndex, ThinkingBody));
      hide Onward;
      Onwards(s, b, EnsureThinkingBlock(s));
    } else {
      Quiet(s, s);
    }
  }

  lemma WriteThinkingOnward(s: State, text: string)
    ensures Onward(s, WriteThinking(s, text))
  {
    Quiet(s, s);
    ThinkingOnward(s);
    var s1 := EnsureThinkingBlock(s);
    if s.cfg.thinkingEnabled && s.cfg.thinkingDisplay != "omitted" && text != "" && s1.thinking.Some? {
      Plain(s1, WriteThinking(s, text), BlockDelta(s1.thinking.value.index, ThinkingPiece(text)));
      hide Onward;
      Onwards(s, s1, WriteThinking(s, text));
    }
  }

  lemma PartOnward(s: State, key: string)
    ensures Onward(s, StartThinkingPart(s, key))
  {
    hide EnsureThinkingBlock, FinalizeThinking;
    Quiet(s, s);
    FinalizeOnward(s, false);
    if s.cfg.thinkingEnabled {
      var s1 := if s.thinking.Some? && s.stopPending then FinalizeThinking(s, false) else s;
      var s2 := s1.(reasoning := ReasoningKey(key));
      Quiet(s1, s2);
      ThinkingOnward(s2);
      hide Onward;
      Onwards(s, s1, s2);
      Onwards(s, s2, EnsureThinkingBlock(s2));
    }
  }

  lemma TextBlockOnward(s: State, key: string)
    ensures Onward(s, EnsureTextBlock(s, key))
  {
    hide FinalizeThinking;
    Quiet(s, s);
    FinalizeOnward(s, true);
    var s1 := FinishThinkingBeforeContent(s);
    var s2 := EnsureTextBlock(s, key);
    if BlockKey(Text, key) !in s1.blocks { Plain(s1, s2, BlockStart(s1.nextIndex, TextBody)); }
    hide Onward;
    if BlockKey(Text, key) !in s1.blocks { Onwards(s, s1, s2); }
  }

  lemma ToolBlockOnward(s: State, key: string, callId: string, name: string)
    ensures Onward(s, EnsureToolBlock(s, key, callId, name))
  {
    hide FinalizeThinking;
    Quiet(s, s);
    FinalizeOnward(s, true);
    var s1 := FinishThinkingBeforeContent(s);
    var s2 := EnsureToolBlock(s, key, callId, name);
    if BlockKey(Tool, FirstNonEmpty(key, callId)) !in s1.blocks {
      assert s2.out == s1.out + [s2.out[|s1.out|]] && StartsTool(s2.out[|s1.out|]);
      assert Onward(s1, s2);
    }
    hide Onward;
    if BlockKey(Tool, FirstNonEmpty(key, callId)) !in s1.blocks { Onwards(s, s1, s2); }
  }

  lemma DeltaOnward(s: State, k: string, delta: Delta)
    requires k in s.blocks
    ensures Onward(s, DeltaOn(s, k, delta))
  {
    if s.blocks[k].stopped { Quiet(s, s); } else { Plain(s, DeltaOn(s, k, delta), BlockDelta(s.blocks[k].index, delta)); }
  }

  lemma WriteTextOnward(s: State, key: string, text: string)
    ensures Onward(s, WriteText(s, key, text))
  {
    Quiet(s, s);
    if text != "" {
      TextBlockOnward(s, key);
      var s1 := EnsureTextBlock(s, key);
      DeltaOnward(s1, BlockKey(Text, key), TextPiece(text));
      hide Onward;
      Onwards(s, s1, WriteText(s, key, text));
    }
  }

  lemma WriteArgumentsOnward(s: State, key: string, callId: string, name: string, args: string)
    ensures Onward(s, WriteArguments(s, key, callId, name, args))
  {
    Quiet(s, s);
    if args != "" {
      ToolBlockOnward(s, key, callId, name);
      var s1 := EnsureToolBlock(s, key, callId, name);
      DeltaOnward(s1, BlockKey(Tool, FirstNonEmpty(key, callId)), JsonPiece(args));
      hide Onward;
      Onwards(s, s1, WriteArguments(s, key, callId, name, args));
    }
  }

  lemma StopOnward(s: State, key: string, kind: Kind)
    ensures Onward(s, StopBlock(s, key, kind))
  {
    var k := BlockKey(kind, key);
    if k !in s.blocks || s.blocks[k].stopped { Quiet(s, s); } else { Plain(s, StopBlock(s, key, kind), BlockStop(s.blocks[k].index)); }
  }

  /** A call shown to its end, its arguments only if none were shown. */
  lemma CallOnward(s: State, key: string, callId: string, name: string, args: string)
    ensures Onward(s, CompleteCall(s, key, callId, name, args))
  {
    hide WriteArguments, StopBlock, Onward;
    ToolBlockOnward(s, key, callId, name);
    var s1 := EnsureToolBlock(s, key, callId, name);
    WriteArgumentsOnward(s1, key, callId, name, args);
    Quiet(s1, s1);
    var s2 := if s1.blocks[BlockKey(Tool, FirstNonEmpty(key, callId))].emitted then s1 else WriteArguments(s1, key, callId, name, args);
    Onwards(s, s1, s2);
    StopOnward(s2, key, Tool);
    Onwards(s, s2, StopBlock(s2, key, Tool));
  }

  lemma {:induction false} TextsOnward(s: State, key: string, texts: seq<string>)
    ensures Onward(s, TextsOn(s, key, texts))
    decreases |texts|
  {
    hide WriteText, Onward;
    if texts == [] {
      Quiet(s, s);
    } else {
      WriteTextOnward(s, key, texts[0]);
      TextsOnward(WriteText(s, key, texts[0]), key, texts[1..]);
      Onwards(s, WriteText(s, key, texts[0]), TextsOn(s, key, texts));
    }
  }

  lemma ShowOnward(s: State, key: string, summary: string, signature: string)
    ensures Onward(s, ShowReasoning(s, key, summary, signature))
  {
    hide EnsureThinkingBlock, WriteThinking, FinalizeThinking;
    var s0 := s.(reasoning := key, signature := signature);
    Quiet(s, s0);
    hide Onward;
    ThinkingOnward(s0);
    var s1 := EnsureThinkingBlock(s0);
    WriteThinkingOnward(s1, summary);
    var s2 := WriteThinking(s1, summary);
    FinalizeOnward(s2, true);
    Onwards(s, s0, s1);
    Onwards(s, s1, s2);
    Onwards(s, s2, FinalizeThinking(s2, true));
  }

  lemma ReasoningOnward(s: State, item: Item, fallback: string)
    requires item.Reasoning?
    ensures Onward(s, FinalReasoning(s, item, fallback))
  {
    hide ShowReasoning, Onward;
    Quiet(s, s);
    ShowOnward(s, ReasoningKey(FirstNonEmpty(item.id, fallback)),
               if s.cfg.thinkingDisplay == "omitted" then "" else SummaryText(item.summary),
               if item.signature == "" then s.signature else item.signature);
  }

  /** A finished message: its texts unless some were shown, and the end of its block. */
  lemma MessageOnward(s: State, key: string, texts: seq<string>)
    ensures Onward(s, StopBlock(TextsOn(s, key, texts), key, Text))
  {
    hide TextsOn, StopBlock, Onward;
    TextsOnward(s, key, texts);
    StopOnward(TextsOn(s, key, texts), key, Text);
    Onwards(s, TextsOn(s, key, texts), StopBlock(TextsOn(s, key, texts), key, Text));
  }

  lemma FinalItemOnward(s: State, item: Item, i: nat)
    ensures Onward(s, FinalItem(s, item, i))
  {
    hide TextsOn, StopBlock, FinalReasoning, Onward, WriteArguments, EnsureToolBlock, Texts, HasEmittedText;
    Quiet(s, s);
    match item
    case Message(id, parts) =>
      var key := ItemKey(id, "final-" + Decimal(i), "");
      MessageOnward(s, key, Texts(parts));
      StopOnward(s, key, Text);
    case FunctionCall(id, itemCallId, name, arguments, _) =>
      var callId := FirstNonEmpty(itemCallId, id);
      CallOnward(s, ItemKey(id, callId, "final-" + Decimal(i)), callId, name, if arguments == "" then "{}" else arguments);
    case Reasoning(_, _, _) => ReasoningOnward(s, item, "final-reasoning-" + Decimal(i));
    case _ =>
  }

  lemma {:induction false} FinalOutputOnward(s: State, items: seq<Item>, i: nat)
    requires i <= |items|
    ensures Onward(s, FinalOutput(s, items, i))
    decreases |items| - i
  {
    hide FinalItem, Onward;
    if i == |items| {
      Quiet(s, s);
    } else {
      FinalItemOnward(s, items[i], i);
      FinalOutputOnward(FinalItem(s, items[i], i), items, i + 1);
      Onwards(s, FinalItem(s, items[i], i), FinalOutput(s, items, i));
    }
  }

  lemma {:induction false} StopsOnly(open: set<nat>, n: nat)
    ensures forall j :: 0 <= j < |Stops(open, n)| ==> Stops(open, n)[j].BlockStop?
  {
    if n > 0 { StopsOnly(open, n - 1); }
  }

  lemma StopAllOnward(s: State)
    ensures Onward(s, StopAllBlocks(s)) && StopAllBlocks(s).hasToolUse == s.hasToolUse
  {
    StopsOnly(OpenIndices(s.blocks), s.nextIndex);
    hide Stops, OpenIndices, AllStopped;
    var t := StopAllBlocks(s);
    forall j | |s.out| <= j < |t.out| ensures t.out[j].BlockStop? {
      assert t.out[j] == Stops(OpenIndices(s.blocks), s.nextIndex)[j - |s.out|];
    }
  }

  // Events

  /** A positive token count announced at the start is kept. */
  function Noted(s: State, e: Event): State
  {
    if e.Created? && e.inputTokens > 0 then s.(usageIn := e.inputTokens) else s
  }

  lemma AddedOnward(s: State, item: Item, at: At)
    ensures Onward(s, OnItemAdded(s, item, at))
  {
    hide EnsureToolBlock, WriteArguments;
    match item
    case Reasoning(id, _, signature) => Quiet(s, OnItemAdded(s, item, at));
    case FunctionCall(id, itemCallId, name, arguments, _) =>
      hide Onward;
      var callId := FirstNonEmpty(itemCallId, id);
      var key := ItemKey(id, callId, EventKey(at));
      ToolBlockOnward(s, key, callId, name);
      var s1 := EnsureToolBlock(s, key, callId, name);
      WriteArgumentsOnward(s1, key, callId, name, arguments);
      Onwards(s, s1, OnItemAdded(s, item, at));
    case _ => Quiet(s, s);
  }

  lemma DoneOnward(s: State, item: Item, at: At)
    ensures Onward(s, OnItemDone(s, item, at))
  {
    hide TextsOn, StopBlock, FinalReasoning, CompleteCall, FinalizeThinking, Begin, Texts, Onward;
    Quiet(s, s);
    match item
    case Reasoning(id, _, signature) =>
      var key := ReasoningKey(FirstNonEmpty(id, ReasoningEventKey(at)));
      var s1 := CaptureSignature(s.(reasoning := key), key, signature);
      Quiet(s, s1);
      ReasoningOnward(s1, item, key);
      FinalizeOnward(s1, true);
      Onwards(s, s1, OnItemDone(s, item, at));
    case FunctionCall(id, itemCallId, name, arguments, _) =>
      var callId := FirstNonEmpty(itemCallId, id);
      BeginOnward(s);
      CallOnward(Begin(s), ItemKey(id, callId, EventKey(at)), callId, name, arguments);
      Onwards(s, Begin(s), OnItemDone(s, item, at));
    case Message(id, parts) =>
      var key := ItemKey(id, EventKey(at), "");
      MessageOnward(s, key, Texts(parts));
      StopOnward(s, key, Text);
    case _ =>
  }

  lemma BeginOnward(s: State)
    ensures Onward(s, Begin(s)) && Begin(s).hasToolUse == s.hasToolUse
  {
    hide EnsureStart;
    StartOnward(s, s.msgId, s.model);
  }

  lemma ReasoningDeltaOnward(s: State, e: Event)
    requires e.ReasoningDelta?
    ensures Onward(s, Step(s, e))
  {
    hide Begin, StartThinkingPart, WriteThinking, Onward;
    BeginOnward(s);
    var b := Begin(s);
    PartOnward(b, ReasoningEventKey(e.at));
    Quiet(b, b);
    var s2 := if b.thinking.None? then StartThinkingPart(b, ReasoningEventKey(e.at)) else b;
    WriteThinkingOnward(s2, e.delta);
    Onwards(s, b, s2);
    Onwards(s, s2, WriteThinking(s2, e.delta));
  }

  lemma CallEventOnward(s: State, e: Event)
    requires e.ArgumentsDelta? || e.ArgumentsDone?
    ensures Onward(s, Step(s, e))
  {
    hide Begin, WriteArguments, CompleteCall, Onward;
    BeginOnward(s);
    var callId := FirstNonEmpty(e.callId, e.at.itemId);
    var key := ItemKey(e.at.itemId, callId, EventKey(e.at));
    if e.ArgumentsDelta? {
      WriteArgumentsOnward(Begin(s), key, callId, e.name, e.delta);
    } else {
      CallOnward(Begin(s), key, callId, e.name, e.arguments);
    }
    Onwards(s, Begin(s), Step(s, e));
  }

  /** No event but a completion writes a message delta, and only a terminal one finishes. */
  lemma StepOnward(s: State, e: Event)
    requires !e.Completed? && !e.Failed?
    ensures Onward(Noted(s, e), Step(s, e))
  {
    hide Begin, EnsureStart, WriteText, StartThinkingPart, OnItemAdded, OnItemDone, Onward;
    BeginOnward(s);
    match e
    case Created(id, model, _) => StartOnward(Noted(s, e), id, if s.cfg.requestModel != "" then s.cfg.requestModel else model);
    case TextDelta(at, delta) =>
      WriteTextOnward(Begin(s), EventKey(at), delta);
      Onwards(s, Begin(s), Step(s, e));
    case ReasoningPartAdded(at) =>
      PartOnward(Begin(s), ReasoningEventKey(at));
      Onwards(s, Begin(s), Step(s, e));
    case ReasoningDelta(_, _) => ReasoningDeltaOnward(s, e);
    case ReasoningPartDone => Quiet(s, Step(s, e));
    case ItemAdded(item, at) =>
      AddedOnward(Begin(s), item, at);
      Onwards(s, Begin(s), Step(s, e));
    case ItemDone(item, at) => DoneOnward(s, item, at);
    case OtherEvent => Quiet(s, s);
    case Malformed => Quiet(s, s);
    case _ => CallEventOnward(s, e);
  }

  // The end of a message

  ghost predicate NoDelta(out: seq<Out>)
  {
    forall j :: 0 <= j < |out| ==> !out[j].MessageDelta?
  }

  /** The one message delta of an output, at `k`. */
  ghost predicate DeltaAt(out: seq<Out>, k: nat, incomplete: bool, response: Option<Response>, announced: int)
  {
    && k < |out| && out[k].MessageDelta? && (forall j :: 0 <= j < |out| && j != k ==> !out[j].MessageDelta?)
    && (out[k].stopReason == "tool_use" <==> exists j :: 0 <= j < k && StartsTool(out[j]))
    && (out[k].stopReason == "max_tokens" <==> incomplete && !exists j :: 0 <= j < k && StartsTool(out[j]))
    && out[k].stopReason in ["tool_use", "max_tokens", "end_turn"]
    && Counts(response, announced, out[k].inputTokens, out[k].outputTokens)
  }

  /** The counts a completion reports. */
  ghost predicate Counts(response: Option<Response>, announced: int, usageIn: int, usageOut: int)
  {
    match (if response.Some? then response.value.usage else None)
    case None => usageIn == announced && usageOut == 0
    case Some(u) => Counted(u.inputTokens, u.promptTokens, usageIn) && Counted(u.outputTokens, u.completionTokens, usageOut)
  }

  /**
   How an output ends by the events dispatched, `announced` being the last positive count of
   input tokens so far: the first terminal event decides. A completion is told by one
   message delta; a failure, an undecodable event or the lack of a terminal one by none.
   */
  ghost predicate Told(out: seq<Out>, events: seq<Event>, announced: int)
    decreases |events|
  {
    if events == [] then NoDelta(out)
    else
      match events[0]
      case Completed(incomplete, response) => exists k: nat :: DeltaAt(out, k, incomplete, response, announced)
      case Failed(_) => NoDelta(out)
      case Malformed => NoDelta(out)
      case Created(_, _, inputTokens) => Told(out, events[1..], if inputTokens > 0 then inputTokens else announced)
      case _ => Told(out, events[1..], announced)
  }

  /** No end told so far, and the tool blocks noted. */
  ghost predicate Silent(s: State)
  {
    NoDelta(s.out) && (s.hasToolUse <==> ToolAmong(s.out, 0))
  }

  /** Before any terminal event. */
  ghost predicate Fresh(s: State, announced: int)
  {
    !s.finished && s.usageIn == announced && s.usageOut == 0 && Silent(s)
  }

  /** Frames added after the end: no message delta among them. */
  ghost predicate Trails(s: State, t: State)
  {
    t.finished && s.out <= t.out && forall j :: |s.out| <= j < |t.out| ==> !t.out[j].MessageDelta?
  }

  lemma SilentOn(s: State, t: State)
    requires Silent(s) && Onward(s, t)
    ensures Silent(t)
  {
    if ToolAmong(s.out, 0) {
      var j :| 0 <= j < |s.out| && StartsTool(s.out[j]);
      assert t.out[j] == s.out[j];
    }
    if ToolAmong(t.out, 0) && !ToolAmong(t.out, |s.out|) {
      var j :| 0 <= j < |t.out| && StartsTool(t.out[j]);
      assert s.out[j] == t.out[j];
    }
    forall j | 0 <= j < |t.out| ensures !t.out[j].MessageDelta? {
      if j < |s.out| { assert t.out[j] == s.out[j]; }
    }
  }

  lemma DeltaTold(d: State, out: seq<Out>, incomplete: bool, response: Option<Response>, announced: int, usageIn: int, usageOut: int)
    requires Silent(d) && Counts(response, announced, usageIn, usageOut)
    requires out == d.out + [MessageDelta(StopReason(d.hasToolUse, incomplete), usageIn, usageOut), MessageStop]
    ensures DeltaAt(out, |d.out|, incomplete, response, announced)
  {
    if ToolAmong(d.out, 0) {
      var j :| 0 <= j < |d.out| && StartsTool(d.out[j]);
      assert out[j] == d.out[j];
    } else {
      forall j | 0 <= j < |d.out| ensures !StartsTool(out[j]) { assert out[j] == d.out[j]; }
    }
  }

  lemma FinishTells(s: State, incomplete: bool, response: Option<Response>, announced: int, usageIn: int, usageOut: int)
    requires !s.finished && Silent(s) && Counts(response, announced, usageIn, usageOut)
    ensures var t := Finish(s, StopReason(s.hasToolUse, incomplete), usageIn, usageOut);
            t.finished && exists k: nat :: DeltaAt(t.out, k, incomplete, response, announced)
  {
    hide Begin, FinalizeThinking, StopAllBlocks, Onward, Silent, DeltaAt, Counts, StopReason;
    var b := Begin(s);
    var c := FinalizeThinking(b, true);
    var d := StopAllBlocks(c);
    BeginOnward(s);
    FinalizeOnward(b, true);
    StopAllOnward(c);
    SilentOn(s, b);
    SilentOn(b, c);
    SilentOn(c, d);
    var t := Finish(s, StopReason(s.hasToolUse, incomplete), usageIn, usageOut);
    assert t.out == d.out + [MessageDelta(StopReason(s.hasToolUse, incomplete), usageIn, usageOut), MessageStop];
    DeltaTold(d, t.out, incomplete, response, announced, usageIn, usageOut);
  }

  lemma UsageCounts(s: State, response: Option<Response>, announced: int)
    requires s.usageIn == announced && s.usageOut == 0
    ensures var t := NoteUsage(s, response);
            Counts(response, announced, t.usageIn, t.usageOut) && t == s.(usageIn := t.usageIn, usageOut := t.usageOut)
  {
  }

  lemma CompletionOnward(s: State, response: Option<Response>)
    ensures Onward(s, BeginCompletion(s, response))
  {
    hide EnsureStart, Onward;
    BeginOnward(s);
    if response.Some? { StartOnward(s, response.value.id, s.cfg.requestModel); }
  }

  lemma ResponseOnward(s: State, response: Option<Response>)
    ensures Onward(s, EmitResponse(s, response))
  {
    hide FinalOutput, Onward;
    Quiet(s, s);
    if response.Some? { FinalOutputOnward(s, response.value.output, 0); }
  }

  lemma CompletedTells(s: State, incomplete: bool, response: Option<Response>, announced: int)
    requires Fresh(s, announced)
    ensures var t := OnCompleted(s, incomplete, response);
            t.finished && exists k: nat :: DeltaAt(t.out, k, incomplete, response, announced)
  {
    hide BeginCompletion, EmitResponse, Finish, Silent, DeltaAt, Counts, NoteUsage, StopReason;
    var s0 := BeginCompletion(s, response);
    CompletionOnward(s, response);
    SilentOn(s, s0);
    UsageCounts(s0, response, announced);
    var s1 := NoteUsage(s0, response);
    SameSilence(s0, s1);
    ResponseOnward(s1, response);
    var s2 := EmitResponse(s1, response);
    SilentOn(s1, s2);
    FinishTells(s2, incomplete, response, announced, s1.usageIn, s1.usageOut);
  }

  lemma SameSilence(s: State, t: State)
    requires Silent(s) && t == s.(usageIn := t.usageIn, usageOut := t.usageOut)
    ensures Silent(t)
  {
  }

  /** After the end no event tells another. */
  lemma FinishedTrails(s: State, e: Event)
    requires s.finished
    ensures Trails(s, Step(s, e))
  {
    if e.Completed? {
      hide BeginCompletion, EmitResponse;
      var s0 := BeginCompletion(s, e.response);
      CompletionOnward(s, e.response);
      var s1 := NoteUsage(s0, e.response);
      ResponseOnward(s1, e.response);
      TrailsOn(s, s0, s1);
      var s2 := EmitResponse(s1, e.response);
      TrailsOn(s1, s2, s2);
      TrailTogether(s, s1, s2);
    } else if !e.Failed? {
      hide Step;
      StepOnward(s, e);
    }
  }

  lemma TrailsOn(s: State, t: State, u: State)
    requires s.finished && Onward(s, t) && u.out == t.out && u.finished == t.finished
    ensures Trails(s, u)
  {
  }

  lemma TrailTogether(s: State, t: State, u: State)
    requires Trails(s, t) && Trails(t, u)
    ensures Trails(s, u)
  {
    forall j | |s.out| <= j < |u.out| ensures !u.out[j].MessageDelta? {
      if j < |t.out| { assert u.out[j] == t.out[j]; }
    }
  }

  lemma TrailTells(s: State, t: State, incomplete: bool, response: Option<Response>, announced: int, k: nat)
    requires Trails(s, t) && DeltaAt(s.out, k, incomplete, response, announced)
    ensures DeltaAt(t.out, k, incomplete, response, announced)
  {
    assert forall j :: 0 <= j < |s.out| ==> t.out[j] == s.out[j];
    assert (exists j :: 0 <= j < k && StartsTool(t.out[j])) <==> exists j :: 0 <= j < k && StartsTool(s.out[j]);
  }

  lemma TrailSilent(s: State, t: State)
    requires Trails(s, t) && NoDelta(s.out)
    ensures NoDelta(t.out)
  {
    assert forall j :: 0 <= j < |s.out| ==> t.out[j] == s.out[j];
  }

  lemma FailSilent(s: State, message: string)
    requires Silent(s)
    ensures NoDelta(Fail(s, message).out) && Fail(s, message).finished
  {
    hide FinalizeThinking, StopAllBlocks, Onward, Silent;
    SilentIs(s);
    if !s.finished {
      var c := FinalizeThinking(s, true);
      FinalizeOnward(s, true);
      SilentOn(s, c);
      StopAllOnward(c);
      SilentOn(c, StopAllBlocks(c));
      SilentIs(StopAllBlocks(c));
    }
  }

  lemma SilentIs(s: State)
    requires Silent(s)
    ensures NoDelta(s.out)
  {
  }

  lemma FailTrails(s: State, message: string)
    requires s.finished
    ensures Trails(s, Fail(s, message))
  {
  }

  // Whole runs

  lemma {:induction false} DrainTrails(s: State, events: seq<Event>)
    requires s.finished
    ensures Trails(s, Drain(s, events).state)
    decreases |events|
  {
    hide Step, Fail, Trails;
    SelfTrails(s);
    if events != [] {
      FailTrails(s, INVALID_JSON);
      if !events[0].Malformed? {
        FinishedTrails(s, events[0]);
        TrailsFinished(s, Step(s, events[0]));
        DrainTrails(Step(s, events[0]), events[1..]);
        TrailTogether(s, Step(s, events[0]), Drain(s, events).state);
      }
    }
  }

  lemma SelfTrails(s: State)
    requires s.finished
    ensures Trails(s, s)
  {
  }

  lemma TrailsFinished(s: State, t: State)
    requires Trails(s, t)
    ensures t.finished
  {
  }

  lemma CloseTrails(s: State, tail: Option<Event>, ending: Ending)
    requires s.finished
    ensures Trails(s, Close(s, tail, ending))
  {
    hide Step, Fail, Trails;
    SelfTrails(s);
    if tail.Some? {
      FinishedTrails(s, tail.value);
      TrailsFinished(s, Step(s, tail.value));
    }
  }

  /** What the pipe makes of the events still to come. */
  function Rest(s: State, events: seq<Event>, tail: Option<Event>, ending: Ending): State
  {
    var d := Drain(s, events);
    if d.alive then Close(d.state, tail, ending) else d.state
  }

  lemma RestTrails(s: State, events: seq<Event>, tail: Option<Event>, ending: Ending)
    requires s.finished
    ensures Trails(s, Rest(s, events, tail, ending))
  {
    hide Drain, Close, Trails;
    DrainTrails(s, events);
    var d := Drain(s, events);
    TrailsFinished(s, d.state);
    CloseTrails(d.state, tail, ending);
    if d.alive { TrailTogether(s, d.state, Close(d.state, tail, ending)); }
  }

  /** The events the translator gets to see: those of the body, and the last one if the body ends cleanly without a blank line. */
  function Seen(events: seq<Event>, tail: Option<Event>, ending: Ending): seq<Event>
  {
    if tail.Some? && ending.CleanEnd? then events + [tail.value] else events
  }

  function Announced(announced: int, e: Event): int
  {
    if e.Created? && e.inputTokens > 0 then e.inputTokens else announced
  }

  /** An event that is not terminal keeps the beginning. */
  lemma FreshStep(s: State, e: Event, announced: int)
    requires Fresh(s, announced) && !e.Completed? && !e.Failed?
    ensures Fresh(Step(s, e), Announced(announced, e))
  {
    hide Step, Silent, Onward;
    StepOnward(s, e);
    SameSilence(s, Noted(s, e));
    SilentOn(Noted(s, e), Step(s, e));
    OnwardKeeps(Noted(s, e), Step(s, e));
  }

  lemma OnwardKeeps(s: State, t: State)
    requires Onward(s, t)
    ensures t.finished == s.finished && t.usageIn == s.usageIn && t.usageOut == s.usageOut
  {
  }

  /** A terminal event at `s`, and whatever comes after it. */
  lemma TerminalTells(s: State, e: Event, u: State, announced: int, more: seq<Event>)
    requires Fresh(s, announced) && (e.Completed? || e.Failed?) && Trails(Step(s, e), u)
    ensures Told(u.out, [e] + more, announced)
  {
    hide OnCompleted, Fail, Trails, DeltaAt, NoDelta, Silent;
    assert ([e] + more)[0] == e;
    if e.Completed? {
      CompletedTells(s, e.incomplete, e.response, announced);
      var k: nat :| DeltaAt(Step(s, e).out, k, e.incomplete, e.response, announced);
      TrailTells(Step(s, e), u, e.incomplete, e.response, announced, k);
    } else {
      FailSilent(s, if e.message == "" then "upstream response failed" else e.message);
      TrailSilent(Step(s, e), u);
    }
  }

  lemma TerminalFinishes(s: State, e: Event, announced: int)
    requires Fresh(s, announced) && (e.Completed? || e.Failed?)
    ensures Step(s, e).finished
  {
    hide OnCompleted, Fail, Silent;
    if e.Completed? { CompletedTells(s, e.incomplete, e.response, announced); }
    else { FailSilent(s, if e.message == "" then "upstream response failed" else e.message); }
  }

  /** The end of the body at a state before any terminal event. */
  lemma CloseTells(s: State, tail: Option<Event>, ending: Ending, announced: int)
    requires Fresh(s, announced)
    ensures Told(Close(s, tail, ending).out, Seen([], tail, ending), announced)
  {
    hide Step, Fail, Fresh, Trails;
    FreshSilent(s, announced);
    FailSilent(s, INVALID_JSON);
    FailSilent(s, "upstream stream empty");
    FailSilent(s, "upstream stream ended before a terminal event");
    match ending
    case ReadFailure(message) => FailSilent(s, message);
    case CleanEnd =>
      if tail.Some? {
        var e := tail.value;
        assert Seen([], tail, ending) == [e] && [e][1..] == [];
        if e.Completed? || e.Failed? {
          TerminalFinishes(s, e, announced);
          SelfTrails(Step(s, e));
          assert [e] + [] == [e];
          TerminalTells(s, e, Step(s, e), announced, []);
        } else if !e.Malformed? {
          FreshStep(s, e, announced);
          FreshSilent(Step(s, e), Announced(announced, e));
          FailSilent(Step(s, e), "upstream stream empty");
          FailSilent(Step(s, e), "upstream stream ended before a terminal event");
        }
      }
  }

  lemma FreshSilent(s: State, announced: int)
    requires Fresh(s, announced)
    ensures Silent(s) && NoDelta(s.out) && !s.finished
  {
  }

  lemma {:induction false} RestTells(s: State, events: seq<Event>, tail: Option<Event>, ending: Ending, announced: int)
    requires Fresh(s, announced)
    ensures Told(Rest(s, events, tail, ending).out, Seen(events, tail, ending), announced)
    decreases |events|
  {
    hide Step, Fail, Fresh, Trails, Close, DeltaAt, NoDelta;
    if events == [] {
      CloseTells(s, tail, ending, announced);
    } else {
      var e := events[0];
      var more := Seen(events[1..], tail, ending);
      assert Seen(events, tail, ending) == [e] + more;
      if e.Malformed? {
        FreshSilent(s, announced);
        FailSilent(s, INVALID_JSON);
      } else {
        assert Rest(s, events, tail, ending) == Rest(Step(s, e), events[1..], tail, ending);
        if e.Completed? || e.Failed? {
          TerminalFinishes(s, e, announced);
          RestTrails(Step(s, e), events[1..], tail, ending);
          TerminalTells(s, e, Rest(Step(s, e), events[1..], tail, ending), announced, more);
        } else {
          FreshStep(s, e, announced);
          RestTells(Step(s, e), events[1..], tail, ending, Announced(announced, e));
        }
      }
    }
  }

  /**
   Every run of the pipe, over every event sequence and way of ending: a message delta is
   written exactly if a completion is the first event that ends the message, and then once.
   It says "tool_use" exactly if a tool block began before it, otherwise "max_tokens"
   exactly if the response is incomplete, otherwise "end_turn"; and it counts the tokens
   of the response, or those announced at the start.
   */
  lemma PipeTells(cfg: Config, events: seq<Event>, tail: Option<Event>, ending: Ending)
    ensures Told(Pipe(cfg, events, tail, ending).out, Seen(events, tail, ending), 0)
  {
    hide Told, Drain, Close;
    assert Pipe(cfg, events, tail, ending) == Rest(Init(cfg), events, tail, ending);
    RestTells(Init(cfg), events, tail, ending, 0);
  }

  // The client's reading

  /** What a client reads as stop reason and counts is the one message delta. */
  lemma {:induction false} ReadsDelta(out: seq<Out>, k: nat)
    requires k < |out| && out[k].MessageDelta? && forall j :: 0 <= j < |out| && j != k ==> !out[j].MessageDelta?
    ensures var r := ReadReply(out);
            r.stopReason == out[k].stopReason && r.inputTokens == out[k].inputTokens && r.outputTokens == out[k].outputTokens
  {
    var front := out[..|out| - 1];
    if k < |front| {
      assert front[k] == out[k] && forall j :: 0 <= j < |front| ==> front[j] == out[j];
      ReadsDelta(front, k);
    }
  }

  lemma {:induction false} ReadsNone(out: seq<Out>)
    requires NoDelta(out)
    ensures var r := ReadReply(out); r.stopReason == "" && r.inputTokens == 0 && r.outputTokens == 0
  {
    if out != [] {
      var front := out[..|out| - 1];
      assert forall j :: 0 <= j < |front| ==> front[j] == out[j];
      ReadsNone(front);
    }
  }
}
