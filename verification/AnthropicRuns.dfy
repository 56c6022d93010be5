/**
 Whole runs of the Anthropic pipe, over every event sequence and every way of ending:
 the output is grammatical exactly when no message completion opens the stream and no
 event after the terminal one makes the translator write again.
 */
module AnthropicRuns {
  import opened Basics
  import opened AnthropicWire
  import opened AnthropicSpec
  import opened AnthropicGrammar

  // The output only grows

  lemma Longer(a: State, b: State, c: State)
    requires a.out <= b.out && b.out <= c.out
    ensures a.out <= c.out && |a.out| <= |b.out| <= |c.out|
  {
  }

  lemma FinalizeGrows(s: State, clear: bool)
    ensures s.out <= FinalizeThinking(s, clear).out
  {
    if s.cfg.thinkingEnabled && s.thinking.Some? {
      var o := BlockDelta(s.thinking.value.index, SignaturePiece(s.signature));
      Longer(s, if s.signature != "" then Emit(s, o) else s, FinalizeThinking(s, clear));
    }
  }

  lemma BeginGrows(s: State)
    ensures s.out <= Begin(s).out && (!s.started ==> |s.out| < |Begin(s).out|)
    ensures Begin(s).started
  {
  }

  lemma ThinkingGrows(s: State)
    ensures s.out <= EnsureThinkingBlock(s).out
    ensures s.cfg.thinkingEnabled && s.thinking.None? ==> |s.out| < |EnsureThinkingBlock(s).out|
  {
    BeginGrows(s);
    Longer(s, Begin(s), EnsureThinkingBlock(if s.started then s else Begin(s)));
  }

  lemma WriteThinkingGrows(s: State, text: string)
    ensures s.out <= WriteThinking(s, text).out
  {
    ThinkingGrows(s);
    if s.cfg.thinkingEnabled && s.cfg.thinkingDisplay != "omitted" && text != "" {
      Longer(s, EnsureThinkingBlock(s), WriteThinking(s, text));
    }
  }

  lemma PartGrows(s: State, key: string)
    ensures s.out <= StartThinkingPart(s, key).out
    ensures s.cfg.thinkingEnabled && s.thinking.None? ==> |s.out| < |StartThinkingPart(s, key).out|
  {
    if s.cfg.thinkingEnabled {
      FinalizeGrows(s, false);
      var s1 := if s.thinking.Some? && s.stopPending then FinalizeThinking(s, false) else s;
      ThinkingGrows(s1.(reasoning := ReasoningKey(key)));
      Longer(s, s1, StartThinkingPart(s, key));
    }
  }

  lemma TextBlockGrows(s: State, key: string)
    ensures s.out <= EnsureTextBlock(s, key).out
    ensures BlockKey(Text, key) !in s.blocks ==> |s.out| < |EnsureTextBlock(s, key).out|
  {
    FinalizeGrows(s, true);
    Longer(s, FinishThinkingBeforeContent(s), EnsureTextBlock(s, key));
  }

  lemma ToolBlockGrows(s: State, key: string, callId: string, name: string)
    ensures s.out <= EnsureToolBlock(s, key, callId, name).out
    ensures CallKey(key, callId) !in s.blocks ==> |s.out| < |EnsureToolBlock(s, key, callId, name).out|
  {
    FinalizeGrows(s, true);
    Longer(s, FinishThinkingBeforeContent(s), EnsureToolBlock(s, key, callId, name));
  }

  lemma WriteTextGrows(s: State, key: string, text: string)
    ensures s.out <= WriteText(s, key, text).out
    ensures text != "" && BlockKey(Text, key) !in s.blocks ==> |s.out| < |WriteText(s, key, text).out|
  {
    TextBlockGrows(s, key);
    if text != "" {
      Longer(s, EnsureTextBlock(s, key), WriteText(s, key, text));
    }
  }

  lemma WriteArgumentsGrows(s: State, key: string, callId: string, name: string, args: string)
    ensures s.out <= WriteArguments(s, key, callId, name, args).out
    ensures args != "" && CallKey(key, callId) !in s.blocks
            ==> |s.out| < |WriteArguments(s, key, callId, name, args).out|
  {
    ToolBlockGrows(s, key, callId, name);
    if args != "" {
      Longer(s, EnsureToolBlock(s, key, callId, name), WriteArguments(s, key, callId, name, args));
    }
  }

  lemma CompleteCallGrows(s: State, key: string, callId: string, name: string, args: string)
    ensures s.out <= CompleteCall(s, key, callId, name, args).out
    ensures CallKey(key, callId) !in s.blocks ==> |s.out| < |CompleteCall(s, key, callId, name, args).out|
  {
    ToolBlockGrows(s, key, callId, name);
    var s1 := EnsureToolBlock(s, key, callId, name);
    WriteArgumentsGrows(s1, key, callId, name, args);
    var s2 := if s1.blocks[CallKey(key, callId)].emitted then s1 else WriteArguments(s1, key, callId, name, args);
    Longer(s, s1, s2);
    StopGrows(s2, key, Tool);
    Longer(s, s2, StopBlock(s2, key, Tool));
    assert CompleteCall(s, key, callId, name, args) == StopBlock(s2, key, Tool);
  }

  lemma StopGrows(s: State, key: string, kind: Kind)
    ensures s.out <= StopBlock(s, key, kind).out
  {
  }

  lemma ShowGrows(s: State, key: string, summary: string, signature: string)
    ensures s.out <= ShowReasoning(s, key, summary, signature).out
    ensures s.cfg.thinkingEnabled && s.thinking.None? ==> |s.out| < |ShowReasoning(s, key, summary, signature).out|
  {
    hide EnsureThinkingBlock, WriteThinking, FinalizeThinking;
    var s0 := s.(reasoning := key, signature := signature);
    ThinkingGrows(s0);
    var s1 := EnsureThinkingBlock(s0);
    WriteThinkingGrows(s1, summary);
    var s2 := WriteThinking(s1, summary);
    FinalizeGrows(s2, true);
    Longer(s, s1, s2);
    Longer(s, s2, FinalizeThinking(s2, true));
  }

  lemma FinalReasoningGrows(s: State, item: Item, fallback: string)
    requires item.Reasoning?
    ensures s.out <= FinalReasoning(s, item, fallback).out
    ensures s.thinking.None? && !SilentReasoning(s, item, fallback)
            ==> |s.out| < |FinalReasoning(s, item, fallback).out|
  {
    hide ShowReasoning;
    ShowGrows(s, ReasoningKey(FirstNonEmpty(item.id, fallback)),
              if s.cfg.thinkingDisplay == "omitted" then "" else SummaryText(item.summary),
              if item.signature == "" then s.signature else item.signature);
  }

  lemma {:induction false} TextsOnGrows(s: State, key: string, texts: seq<string>)
    ensures s.out <= TextsOn(s, key, texts).out
    ensures texts != [] && texts[0] != "" && BlockKey(Text, key) !in s.blocks
            ==> |s.out| < |TextsOn(s, key, texts).out|
    decreases |texts|
  {
    if texts != [] {
      var s1 := WriteText(s, key, texts[0]);
      WriteTextGrows(s, key, texts[0]);
      TextsOnGrows(s1, key, texts[1..]);
      Longer(s, s1, TextsOn(s1, key, texts[1..]));
    }
  }

  lemma FinalItemGrows(s: State, item: Item, i: nat)
    ensures s.out <= FinalItem(s, item, i).out
  {
    match item
    case Message(id, parts) =>
      var key := ItemKey(id, "final-" + Decimal(i), "");
      TextsOnGrows(s, key, Texts(parts));
      Longer(s, TextsOn(s, key, Texts(parts)), StopBlock(TextsOn(s, key, Texts(parts)), key, Text));
    case FunctionCall(id, itemCallId, name, arguments, _) =>
      var callId := FirstNonEmpty(itemCallId, id);
      CompleteCallGrows(s, ItemKey(id, callId, "final-" + Decimal(i)), callId, name, if arguments == "" then "{}" else arguments);
    case Reasoning(_, _, _) => FinalReasoningGrows(s, item, "final-reasoning-" + Decimal(i));
    case _ =>
  }

  lemma {:induction false} FinalOutputGrows(s: State, items: seq<Item>, i: nat)
    requires i <= |items|
    ensures s.out <= FinalOutput(s, items, i).out
    decreases |items| - i
  {
    if i < |items| {
      var s1 := FinalItem(s, items[i], i);
      FinalItemGrows(s, items[i], i);
      FinalOutputGrows(s1, items, i + 1);
      Longer(s, s1, FinalOutput(s1, items, i + 1));
    }
  }

  lemma FailGrows(s: State, message: string)
    ensures s.out <= Fail(s, message).out
  {
    FinalizeGrows(s, true);
    var s1 := FinalizeThinking(s, true);
    Longer(s, s1, StopAllBlocks(s1));
    Longer(s, StopAllBlocks(s1), Emit(StopAllBlocks(s1), ErrorFrame(message)));
  }

  lemma FinishGrows(s: State, stopReason: string, usageIn: int, usageOut: int)
    ensures s.out <= Finish(s, stopReason, usageIn, usageOut).out
  {
    BeginGrows(s);
    var s0 := Begin(s);
    FinalizeGrows(s0, true);
    var s1 := FinalizeThinking(s0, true);
    Longer(s, s0, s1);
    Longer(s, s1, StopAllBlocks(s1));
    var s2 := Emit(StopAllBlocks(s1), MessageDelta(stopReason, usageIn, usageOut));
    Longer(s, StopAllBlocks(s1), s2);
    Longer(s, s2, Emit(s2, MessageStop));
  }

  lemma CompletedGrows(s: State, incomplete: bool, response: Option<Response>)
    ensures s.out <= OnCompleted(s, incomplete, response).out
    ensures !s.started ==> |s.out| < |OnCompleted(s, incomplete, response).out|
  {
    BeginGrows(s);
    var s1 := NoteUsage(BeginCompletion(s, response), response);
    assert s.out <= s1.out && (!s.started ==> |s.out| < |s1.out|);
    EmitResponseGrows(s1, response);
    var s2 := EmitResponse(s1, response);
    Longer(s, s1, s2);
    var reason := StopReason(s2.hasToolUse, incomplete);
    FinishGrows(s2, reason, s1.usageIn, s1.usageOut);
    Longer(s, s2, Finish(s2, reason, s1.usageIn, s1.usageOut));
  }

  lemma EmitResponseGrows(s: State, response: Option<Response>)
    ensures s.out <= EmitResponse(s, response).out
  {
    if response.Some? { FinalOutputGrows(s, response.value.output, 0); }
  }

  lemma AddedGrows(s: State, item: Item, at: At)
    ensures s.out <= OnItemAdded(s, item, at).out
    ensures item.FunctionCall?
            && CallKey(ItemKey(item.id, FirstNonEmpty(item.callId, item.id), EventKey(at)), FirstNonEmpty(item.callId, item.id)) !in s.blocks
            ==> |s.out| < |OnItemAdded(s, item, at).out|
  {
    hide EnsureToolBlock, WriteArguments, CallKey;
    if item.FunctionCall? {
      var callId := FirstNonEmpty(item.callId, item.id);
      var key := ItemKey(item.id, callId, EventKey(at));
      ToolBlockGrows(s, key, callId, item.name);
      var s1 := EnsureToolBlock(s, key, callId, item.name);
      WriteArgumentsGrows(s1, key, callId, item.name, item.arguments);
      Longer(s, s1, OnItemAdded(s, item, at));
    }
  }

  lemma MessageDoneGrows(s: State, item: Item, at: At)
    requires item.Message?
    ensures s.out <= OnItemDone(s, item, at).out
  {
    hide TextsOn, StopBlock;
    var key := ItemKey(item.id, EventKey(at), "");
    var s1 := TextsOn(s, key, Texts(item.parts));
    TextsOnGrows(s, key, Texts(item.parts));
    StopGrows(s, key, Text);
    StopGrows(s1, key, Text);
    Longer(s, s1, StopBlock(s1, key, Text));
  }

  lemma ReasoningDoneGrows(s: State, item: Item, at: At)
    requires item.Reasoning?
    ensures s.out <= OnItemDone(s, item, at).out
  {
    hide FinalReasoning, FinalizeThinking;
    var key := ReasoningKey(FirstNonEmpty(item.id, ReasoningEventKey(at)));
    var s1 := CaptureSignature(s.(reasoning := key), key, item.signature);
    FinalReasoningGrows(s1, item, key);
    FinalizeGrows(s1, true);
  }

  lemma CallDoneGrows(s: State, item: Item, at: At)
    requires item.FunctionCall?
    ensures s.out <= OnItemDone(s, item, at).out && (!s.started ==> |s.out| < |OnItemDone(s, item, at).out|)
  {
    hide CompleteCall, Begin;
    var callId := FirstNonEmpty(item.callId, item.id);
    BeginGrows(s);
    CompleteCallGrows(Begin(s), ItemKey(item.id, callId, EventKey(at)), callId, item.name, item.arguments);
    Longer(s, Begin(s), OnItemDone(s, item, at));
  }

  lemma DoneGrows(s: State, item: Item, at: At)
    ensures s.out <= OnItemDone(s, item, at).out
    ensures item.FunctionCall? && !s.started ==> |s.out| < |OnItemDone(s, item, at).out|
  {
    match item
    case Message(_, _) => MessageDoneGrows(s, item, at);
    case Reasoning(_, _, _) => ReasoningDoneGrows(s, item, at);
    case FunctionCall(_, _, _, _, _) => CallDoneGrows(s, item, at);
    case _ =>
  }

  lemma ReasoningDeltaGrows(s: State, e: Event)
    requires e.ReasoningDelta?
    ensures s.out <= Step(s, e).out && (!s.started ==> |s.out| < |Step(s, e).out|)
  {
    hide Begin, StartThinkingPart, WriteThinking;
    BeginGrows(s);
    var b := Begin(s);
    PartGrows(b, ReasoningEventKey(e.at));
    var s2 := if b.thinking.None? then StartThinkingPart(b, ReasoningEventKey(e.at)) else b;
    WriteThinkingGrows(s2, e.delta);
    Longer(s, b, s2);
    Longer(s, s2, WriteThinking(s2, e.delta));
  }

  lemma CallEventGrows(s: State, e: Event)
    requires e.ArgumentsDelta? || e.ArgumentsDone?
    ensures s.out <= Step(s, e).out && (!s.started ==> |s.out| < |Step(s, e).out|)
  {
    hide Begin, WriteArguments, CompleteCall;
    BeginGrows(s);
    var b := Begin(s);
    var callId := FirstNonEmpty(e.callId, e.at.itemId);
    var key := ItemKey(e.at.itemId, callId, EventKey(e.at));
    if e.ArgumentsDelta? {
      WriteArgumentsGrows(b, key, callId, e.name, e.delta);
    } else {
      CompleteCallGrows(b, key, callId, e.name, e.arguments);
    }
    Longer(s, b, Step(s, e));
  }

  lemma StartGrows(s: State, id: string, model: string)
    ensures s.out <= EnsureStart(s, id, model).out && (!s.started ==> |s.out| < |EnsureStart(s, id, model).out|)
  {
  }

  lemma CreatedGrows(s: State, e: Event)
    requires e.Created?
    ensures s.out <= Step(s, e).out && (!s.started ==> |s.out| < |Step(s, e).out|)
  {
    hide EnsureStart;
    StartGrows(if e.inputTokens > 0 then s.(usageIn := e.inputTokens) else s, e.id,
               if s.cfg.requestModel != "" then s.cfg.requestModel else e.model);
  }

  lemma DoneEventGrows(s: State, e: Event)
    requires e.ItemDone?
    ensures s.out <= Step(s, e).out && (e.item.FunctionCall? && !s.started ==> |s.out| < |Step(s, e).out|)
  {
    hide OnItemDone;
    DoneGrows(s, e.item, e.at);
  }

  lemma TextGrows(s: State, e: Event)
    requires e.TextDelta?
    ensures s.out <= Step(s, e).out && (!s.started ==> |s.out| < |Step(s, e).out|)
  {
    hide Begin, WriteText;
    BeginGrows(s);
    WriteTextGrows(Begin(s), EventKey(e.at), e.delta);
    Longer(s, Begin(s), Step(s, e));
  }

  lemma PartEventGrows(s: State, e: Event)
    requires e.ReasoningPartAdded?
    ensures s.out <= Step(s, e).out && (!s.started ==> |s.out| < |Step(s, e).out|)
  {
    hide Begin, StartThinkingPart;
    BeginGrows(s);
    PartGrows(Begin(s), ReasoningEventKey(e.at));
    Longer(s, Begin(s), Step(s, e));
  }

  lemma AddedEventGrows(s: State, e: Event)
    requires e.ItemAdded?
    ensures s.out <= Step(s, e).out && (!s.started ==> |s.out| < |Step(s, e).out|)
  {
    hide Begin, OnItemAdded;
    BeginGrows(s);
    AddedGrows(Begin(s), e.item, e.at);
    Longer(s, Begin(s), Step(s, e));
  }

  lemma EndGrows(s: State, e: Event)
    requires e.Completed? || e.Failed? || e.ReasoningPartDone? || e.OtherEvent? || e.Malformed?
    ensures s.out <= Step(s, e).out && (e.Completed? && !s.started ==> |s.out| < |Step(s, e).out|)
  {
    hide OnCompleted, Fail;
    if e.Completed? {
      CompletedGrows(s, e.incomplete, e.response);
    } else if e.Failed? {
      FailGrows(s, if e.message == "" then "upstream response failed" else e.message);
    }
  }

  /** Nothing written is ever taken back; an event that opens the message always writes. */
  lemma StepGrows(s: State, e: Event)
    ensures s.out <= Step(s, e).out
    ensures !s.started && Opens(e) ==> |s.out| < |Step(s, e).out|
  {
    hide Step;
    match e
    case Created(_, _, _) => CreatedGrows(s, e);
    case TextDelta(_, _) => TextGrows(s, e);
    case ReasoningPartAdded(_) => PartEventGrows(s, e);
    case ReasoningDelta(_, _) => ReasoningDeltaGrows(s, e);
    case ItemAdded(_, _) => AddedEventGrows(s, e);
    case ArgumentsDelta(_, _, _, _) => CallEventGrows(s, e);
    case ArgumentsDone(_, _, _, _) => CallEventGrows(s, e);
    case ItemDone(_, _) => DoneEventGrows(s, e);
    case _ => EndGrows(s, e);
  }

  /** Events whose handling always starts the message. */
  predicate Opens(e: Event)
  {
    e.Created? || e.TextDelta? || e.ReasoningPartAdded? || e.ReasoningDelta? || e.ItemAdded?
    || e.ArgumentsDelta? || e.ArgumentsDone? || e.Completed? || (e.ItemDone? && e.item.FunctionCall?)
  }

  lemma {:induction false} DrainGrows(s: State, events: seq<Event>)
    ensures s.out <= Drain(s, events).state.out
    decreases |events|
  {
    if events != [] {
      FailGrows(s, INVALID_JSON);
      if !events[0].Malformed? {
        StepGrows(s, events[0]);
        DrainGrows(Step(s, events[0]), events[1..]);
        Longer(s, Step(s, events[0]), Drain(s, events).state);
      }
    }
  }

  lemma CloseGrows(s: State, tail: Option<Event>, ending: Ending)
    ensures s.out <= Close(s, tail, ending).out
  {
    var s1 := if tail.Some? then Step(s, tail.value) else s;
    if tail.Some? {
      StepGrows(s, tail.value);
    }
    match ending
    case ReadFailure(message) => FailGrows(s, message);
    case CleanEnd =>
      FailGrows(s, INVALID_JSON);
      FailGrows(s1, "upstream stream ended before a terminal event");
      FailGrows(s1, "upstream stream empty");
      if tail != Some(Malformed) {
        Longer(s, s1, Close(s, tail, ending));
      }
  }

  lemma GrownBroken(a: seq<Out>, b: seq<Out>)
    requires a <= b
    ensures Read(a).Broken? ==> Read(b).Broken?
    ensures Whole(a) && a != b ==> Read(b).Broken?
  {
    assert b == a + b[|a|..];
    BrokenStays(a, b[|a|..]);
  }

  // A message completion that opens the stream

  lemma MisopenBreaks(s: State, e: Event)
    requires Mid(s) && Misopens(s, e)
    ensures Read(Step(s, e).out).Broken?
  {
    UnstartedSilent(s);
    MisopenShape(s, e);
    var first := [BlockStart(0, TextBody)];
    FirstBlockShows(s, ItemKey(e.item.id, EventKey(e.at), ""), Texts(e.item.parts));
    hide Mid, Step, TextsOn, StopBlock;
    StopGrows(TextsOn(s, ItemKey(e.item.id, EventKey(e.at), ""), Texts(e.item.parts)), ItemKey(e.item.id, EventKey(e.at), ""), Text);
    StartBreaks();
    GrownBroken(first, Step(s, e).out);
  }

  lemma StartBreaks()
    ensures Read([BlockStart(0, TextBody)]).Broken?
  {
    ReadSnoc([], BlockStart(0, TextBody));
    assert [] + [BlockStart(0, TextBody)] == [BlockStart(0, TextBody)];
  }

  /** A misopening event writes the texts of its message on a state that has no block yet. */
  lemma MisopenShape(s: State, e: Event)
    requires Mid(s) && Misopens(s, e)
    ensures s.blocks == map[] && s.thinking.None? && s.nextIndex == 0
    ensures Texts(e.item.parts) != [] && Texts(e.item.parts)[0] != ""
    ensures var key := ItemKey(e.item.id, EventKey(e.at), "");
            Step(s, e) == StopBlock(TextsOn(s, key, Texts(e.item.parts)), key, Text)
  {
    hide Read, TextsOn, StopBlock, EventKey;
    UnstartedSilent(s);
    TextsNonEmpty(e.item.parts);
  }

  lemma FirstBlockShows(s: State, key: string, texts: seq<string>)
    requires s.out == [] && s.blocks == map[] && s.thinking.None? && s.nextIndex == 0
    requires texts != [] && texts[0] != ""
    ensures [BlockStart(0, TextBody)] <= TextsOn(s, key, texts).out
  {
    var s1 := WriteText(s, key, texts[0]);
    assert [] + [BlockStart(0, TextBody)] == [BlockStart(0, TextBody)];
    assert [BlockStart(0, TextBody)] <= s1.out;
    hide WriteText;
    TextsOnGrows(s1, key, texts[1..]);
    assert TextsOn(s, key, texts) == TextsOn(s1, key, texts[1..]);
  }

  lemma {:induction false} TextsNonEmpty(parts: seq<Part>)
    ensures forall i :: 0 <= i < |Texts(parts)| ==> Texts(parts)[i] != ""
  {
    if parts != [] {
      TextsNonEmpty(parts[1..]);
    }
  }

  // After the terminal event

  ghost predicate Done(s: State)
  {
    && s.finished && Whole(s.out) && s.thinking.None?
    && (forall k :: k in s.blocks ==> s.blocks[k].stopped)
  }

  lemma FinishDone(s: State, stopReason: string, usageIn: int, usageOut: int)
    requires Mid(s) && (stopReason == "tool_use" <==> s.hasToolUse)
    ensures Done(Finish(s, stopReason, usageIn, usageOut))
  {
    FinishWhole(s, stopReason, usageIn, usageOut);
    StartLive(s, s.msgId, s.model);
    FinalizeLive(Begin(s), true);
  }

  lemma FailDone(s: State, message: string)
    requires Mid(s)
    ensures Done(Fail(s, message))
  {
    FailWhole(s, message);
    FinalizeLive(s, true);
  }

  lemma CompletedDone(s: State, incomplete: bool, response: Option<Response>)
    requires Mid(s)
    ensures Done(OnCompleted(s, incomplete, response))
  {
    hide Linked, Read;
    BeginCompletionLive(s, response);
    var s1 := NoteUsage(BeginCompletion(s, response), response);
    if response.Some? { FinalOutputLive(s1, response.value.output, 0); }
    var s2 := EmitResponse(s1, response);
    StopReasonTool(s2.hasToolUse, incomplete);
    FinishDone(s2, StopReason(s2.hasToolUse, incomplete), s1.usageIn, s1.usageOut);
  }

  /** A reasoning item that a finished translator passes over. */
  predicate SilentReasoning(s: State, item: Item, fallback: string)
    requires item.Reasoning?
  {
    || !s.cfg.thinkingEnabled
    || ReasoningKey(FirstNonEmpty(item.id, fallback)) in s.completed
    || ((s.cfg.thinkingDisplay == "omitted" || SummaryText(item.summary) == "") && item.signature == "" && s.signature == "")
  }

  predicate SilentFinal(s: State, item: Item, i: nat)
  {
    match item
    case Reasoning(_, _, _) => SilentReasoning(s, item, "final-reasoning-" + Decimal(i))
    case Message(id, parts) =>
      BlockKey(Text, ItemKey(id, "final-" + Decimal(i), "")) in s.blocks || HasEmittedText(s.blocks) || Texts(parts) == []
    case FunctionCall(id, callId, _, _, _) =>
      CallKey(ItemKey(id, FirstNonEmpty(callId, id), "final-" + Decimal(i)), FirstNonEmpty(callId, id)) in s.blocks
    case _ => true
  }

  function CallKey(key: string, callId: string): string
  {
    BlockKey(Tool, FirstNonEmpty(key, callId))
  }

  /** The events a finished translator passes over, read off their fields and the blocks already shown. */
  predicate Silent(s: State, e: Event)
  {
    match e
    case Created(_, _, _) => s.started
    case TextDelta(at, delta) => s.started && (delta == "" || BlockKey(Text, EventKey(at)) in s.blocks)
    case ReasoningPartAdded(_) => s.started && !s.cfg.thinkingEnabled
    case ReasoningDelta(_, _) => s.started && !s.cfg.thinkingEnabled
    case ReasoningPartDone => true
    case ItemAdded(item, at) =>
      s.started && (item.FunctionCall? ==>
        CallKey(ItemKey(item.id, FirstNonEmpty(item.callId, item.id), EventKey(at)), FirstNonEmpty(item.callId, item.id)) in s.blocks)
    case ArgumentsDelta(at, callId, _, delta) =>
      s.started && (delta == "" ||
        CallKey(ItemKey(at.itemId, FirstNonEmpty(callId, at.itemId), EventKey(at)), FirstNonEmpty(callId, at.itemId)) in s.blocks)
    case ArgumentsDone(at, callId, _, _) =>
      s.started
      && CallKey(ItemKey(at.itemId, FirstNonEmpty(callId, at.itemId), EventKey(at)), FirstNonEmpty(callId, at.itemId)) in s.blocks
    case ItemDone(Reasoning(id, summary, signature), at) =>
      SilentReasoning(s, e.item, ReasoningKey(FirstNonEmpty(id, ReasoningEventKey(at))))
    case ItemDone(Message(id, parts), at) =>
      BlockKey(Text, ItemKey(id, EventKey(at), "")) in s.blocks || Texts(parts) == []
    case ItemDone(FunctionCall(id, callId, _, _, _), at) =>
      s.started
      && CallKey(ItemKey(id, FirstNonEmpty(callId, id), EventKey(at)), FirstNonEmpty(callId, id)) in s.blocks
    case ItemDone(_, _) => true
    case Completed(_, response) =>
      s.started && (response.Some? ==>
        forall i :: 0 <= i < |response.value.output| ==> SilentFinal(s, response.value.output[i], i))
    case Failed(_) => true
    case OtherEvent => true
    case Malformed => true
  }

  lemma {:induction false} StoppedTexts(s: State, key: string, texts: seq<string>)
    requires Done(s) && BlockKey(Text, key) in s.blocks
    ensures TextsOn(s, key, texts) == s
    decreases |texts|
  {
    hide Whole;
    if texts != [] {
      assert WriteText(s, key, texts[0]) == s;
      StoppedTexts(s, key, texts[1..]);
    }
  }

  /** Writing the texts of a completed message shows whenever its block is new and it has text. */
  lemma TextsShow(s: State, key: string, parts: seq<Part>)
    requires Done(s)
    ensures var t := StopBlock(TextsOn(s, key, Texts(parts)), key, Text);
            if BlockKey(Text, key) in s.blocks || Texts(parts) == [] then t == s else t.out != s.out
  {
    hide Whole;
    var texts := Texts(parts);
    if BlockKey(Text, key) in s.blocks {
      StoppedTexts(s, key, texts);
    } else if texts != [] {
      TextsNonEmpty(parts);
      TextsOnGrows(s, key, texts);
      Longer(s, TextsOn(s, key, texts), StopBlock(TextsOn(s, key, texts), key, Text));
    }
  }

  lemma ReasoningShows(s: State, item: Item, fallback: string)
    requires Done(s) && item.Reasoning?
    ensures if SilentReasoning(s, item, fallback) then FinalReasoning(s, item, fallback) == s
            else FinalReasoning(s, item, fallback).out != s.out
  {
    hide Whole;
    FinalReasoningGrows(s, item, fallback);
  }

  lemma CallShows(s: State, key: string, callId: string, name: string, arguments: string)
    requires Done(s)
    ensures if CallKey(key, callId) in s.blocks then CompleteCall(s, key, callId, name, arguments) == s
            else CompleteCall(s, key, callId, name, arguments).out != s.out
  {
    hide Whole;
    if CallKey(key, callId) !in s.blocks {
      CompleteCallGrows(s, key, callId, name, arguments);
    } else {
      assert EnsureToolBlock(s, key, callId, name) == s;
      assert WriteArguments(s, key, callId, name, arguments) == s;
    }
  }

  lemma FinalItemShows(s: State, item: Item, i: nat)
    requires Done(s)
    ensures if SilentFinal(s, item, i) then FinalItem(s, item, i) == s else FinalItem(s, item, i).out != s.out
  {
    hide Whole;
    match item
    case Reasoning(_, _, _) => ReasoningShows(s, item, "final-reasoning-" + Decimal(i));
    case Message(id, parts) => TextsShow(s, ItemKey(id, "final-" + Decimal(i), ""), parts);
    case FunctionCall(id, itemCallId, name, arguments, _) =>
      var callId := FirstNonEmpty(itemCallId, id);
      CallShows(s, ItemKey(id, callId, "final-" + Decimal(i)), callId, name, if arguments == "" then "{}" else arguments);
    case _ =>
  }

  lemma {:induction false} FinalOutputShows(s: State, items: seq<Item>, i: nat)
    requires Done(s) && i <= |items|
    ensures if forall j :: i <= j < |items| ==> SilentFinal(s, items[j], j) then FinalOutput(s, items, i) == s
            else FinalOutput(s, items, i).out != s.out
    decreases |items| - i
  {
    hide Done, FinalItem, SilentFinal;
    if i < |items| {
      FinalItemShows(s, items[i], i);
      if SilentFinal(s, items[i], i) {
        FinalOutputShows(s, items, i + 1);
      } else {
        FinalItemGrows(s, items[i], i);
        FinalOutputGrows(FinalItem(s, items[i], i), items, i + 1);
      }
    }
  }

  lemma SilentFinalFrame(s: State, t: State, items: seq<Item>)
    requires t == s.(usageIn := t.usageIn, usageOut := t.usageOut)
    ensures (forall i :: 0 <= i < |items| ==> SilentFinal(s, items[i], i))
       <==> (forall i :: 0 <= i < |items| ==> SilentFinal(t, items[i], i))
  {
    forall i | 0 <= i < |items| ensures SilentFinal(s, items[i], i) == SilentFinal(t, items[i], i) {
    }
  }

  lemma CompletedShows(s: State, incomplete: bool, response: Option<Response>)
    requires Done(s) && s.started
    ensures Silent(s, Completed(incomplete, response)) <==> OnCompleted(s, incomplete, response).out == s.out
    ensures Silent(s, Completed(incomplete, response)) ==> Done(OnCompleted(s, incomplete, response))
  {
    hide Whole, FinalOutput, SilentFinal;
    var s1 := NoteUsage(BeginCompletion(s, response), response);
    assert Done(s1) && s1 == s.(usageIn := s1.usageIn, usageOut := s1.usageOut);
    var s2 := EmitResponse(s1, response);
    if response.Some? {
      FinalOutputShows(s1, response.value.output, 0);
      SilentFinalFrame(s, s1, response.value.output);
    }
    EmitResponseGrows(s1, response);
    var reason := StopReason(s2.hasToolUse, incomplete);
    FinishGrows(s2, reason, s1.usageIn, s1.usageOut);
    Longer(s1, s2, Finish(s2, reason, s1.usageIn, s1.usageOut));
  }

  /** After the terminal event the translator writes nothing exactly on the silent events. */
  lemma LateEvent(s: State, e: Event)
    requires Done(s)
    ensures Silent(s, e) <==> Step(s, e).out == s.out
    ensures Silent(s, e) ==> Done(Step(s, e))
  {
    hide Done, Step, Silent;
    if !s.started && Opens(e) {
      LateOpening(s, e);
    } else if e.TextDelta? || e.ItemAdded? || e.ArgumentsDelta? || e.ArgumentsDone? || e.ItemDone? {
      LateContent(s, e);
    } else if e.ReasoningPartAdded? || e.ReasoningDelta? {
      LateThinking(s, e);
    } else if e.Completed? {
      LateCompleted(s, e);
    } else {
      LateRest(s, e);
    }
  }

  lemma LateOpening(s: State, e: Event)
    requires !s.started && Opens(e)
    ensures !Silent(s, e) && Step(s, e).out != s.out
  {
    StepGrows(s, e);
    hide Step;
  }

  lemma LateContent(s: State, e: Event)
    requires Done(s) && (Opens(e) ==> s.started)
    requires e.TextDelta? || e.ItemAdded? || e.ArgumentsDelta? || e.ArgumentsDone? || e.ItemDone?
    ensures Silent(s, e) <==> Step(s, e).out == s.out
    ensures Silent(s, e) ==> Done(Step(s, e))
  {
    hide Done, WriteText, WriteArguments, CompleteCall, OnItemAdded, OnItemDone, CallKey;
    if e.ItemDone? {
      hide Silent;
      LateDone(s, e.item, e.at);
    } else if e.ItemAdded? {
      hide Silent;
      LateAdded(s, e.item, e.at);
    } else if e.TextDelta? {
      LateText(s, EventKey(e.at), e.delta);
    } else {
      var callId := FirstNonEmpty(e.callId, e.at.itemId);
      var key := ItemKey(e.at.itemId, callId, EventKey(e.at));
      if e.ArgumentsDelta? {
        LateArguments(s, key, callId, e.name, e.delta);
      } else {
        CallShows(s, key, callId, e.name, e.arguments);
      }
    }
  }

  lemma LateThinking(s: State, e: Event)
    requires Done(s) && s.started && (e.ReasoningPartAdded? || e.ReasoningDelta?)
    ensures Silent(s, e) <==> Step(s, e).out == s.out
    ensures Silent(s, e) ==> Done(Step(s, e))
  {
    hide Whole, FinalizeThinking;
    PartGrows(s, ReasoningEventKey(e.at));
    if e.ReasoningDelta? && s.cfg.thinkingEnabled {
      var s1 := StartThinkingPart(s, ReasoningEventKey(e.at));
      WriteThinkingGrows(s1, e.delta);
      Longer(s, s1, WriteThinking(s1, e.delta));
    }
  }

  lemma LateCompleted(s: State, e: Event)
    requires Done(s) && s.started && e.Completed?
    ensures Silent(s, e) <==> Step(s, e).out == s.out
    ensures Silent(s, e) ==> Done(Step(s, e))
  {
    hide Done, OnCompleted, Silent;
    CompletedShows(s, e.incomplete, e.response);
  }

  lemma LateRest(s: State, e: Event)
    requires Done(s) && (e.Created? ==> s.started)
    requires e.Created? || e.ReasoningPartDone? || e.Failed? || e.OtherEvent? || e.Malformed?
    ensures Silent(s, e) && Step(s, e).out == s.out && Done(Step(s, e))
  {
    hide Whole;
  }

  lemma LateText(s: State, key: string, delta: string)
    requires Done(s)
    ensures if delta == "" || BlockKey(Text, key) in s.blocks then WriteText(s, key, delta) == s
            else WriteText(s, key, delta).out != s.out
  {
    hide Whole;
    WriteTextGrows(s, key, delta);
  }

  lemma LateArguments(s: State, key: string, callId: string, name: string, delta: string)
    requires Done(s)
    ensures if delta == "" || CallKey(key, callId) in s.blocks then WriteArguments(s, key, callId, name, delta) == s
            else WriteArguments(s, key, callId, name, delta).out != s.out
  {
    hide Whole;
    WriteArgumentsGrows(s, key, callId, name, delta);
  }

  lemma LateAdded(s: State, item: Item, at: At)
    requires Done(s) && s.started
    ensures Silent(s, ItemAdded(item, at)) <==> OnItemAdded(s, item, at).out == s.out
    ensures Silent(s, ItemAdded(item, at)) ==> Done(OnItemAdded(s, item, at))
  {
    hide Whole;
    AddedGrows(s, item, at);
    if item.FunctionCall? {
      var callId := FirstNonEmpty(item.callId, item.id);
      var key := ItemKey(item.id, callId, EventKey(at));
      if CallKey(key, callId) in s.blocks {
        assert EnsureToolBlock(s, key, callId, item.name) == s;
        LateArguments(s, key, callId, item.name, item.arguments);
      }
    }
  }

  lemma LateReasoning(s: State, item: Item, at: At)
    requires Done(s) && item.Reasoning?
    ensures Silent(s, ItemDone(item, at)) <==> OnItemDone(s, item, at).out == s.out
    ensures Silent(s, ItemDone(item, at)) ==> Done(OnItemDone(s, item, at))
  {
    var key := ReasoningKey(FirstNonEmpty(item.id, ReasoningEventKey(at)));
    var s1 := CaptureSignature(s.(reasoning := key), key, item.signature);
    CapturedDone(s, key, item.signature);
    CapturedSilent(s, item, key);
    ReasoningShows(s1, item, key);
    hide Done, CaptureSignature, FinalReasoning, SilentReasoning;
  }

  /** Taking a signature leaves a finished translator finished, with the same output. */
  lemma CapturedDone(s: State, key: string, signature: string)
    requires Done(s)
    ensures var s1 := CaptureSignature(s.(reasoning := key), key, signature); Done(s1) && s1.out == s.out && s1.thinking.None?
  {
    hide Whole;
  }

  lemma CapturedSilent(s: State, item: Item, key: string)
    requires item.Reasoning?
    ensures SilentReasoning(CaptureSignature(s.(reasoning := key), key, item.signature), item, key) == SilentReasoning(s, item, key)
  {
  }

  lemma LateDone(s: State, item: Item, at: At)
    requires Done(s) && (item.FunctionCall? ==> s.started)
    ensures Silent(s, ItemDone(item, at)) <==> OnItemDone(s, item, at).out == s.out
    ensures Silent(s, ItemDone(item, at)) ==> Done(OnItemDone(s, item, at))
  {
    match item
    case Reasoning(_, _, _) => LateReasoning(s, item, at);
    case Message(_, _) => LateMessage(s, item, at);
    case FunctionCall(id, itemCallId, name, arguments, _) =>
      hide Done, CompleteCall, CallKey;
      var callId := FirstNonEmpty(itemCallId, id);
      CallShows(s, ItemKey(id, callId, EventKey(at)), callId, name, arguments);
    case _ =>
  }

  lemma LateMessage(s: State, item: Item, at: At)
    requires Done(s) && item.Message?
    ensures Silent(s, ItemDone(item, at)) <==> OnItemDone(s, item, at).out == s.out
    ensures Silent(s, ItemDone(item, at)) ==> Done(OnItemDone(s, item, at))
  {
    hide Whole, TextsOn;
    TextsShow(s, ItemKey(item.id, EventKey(at), ""), item.parts);
  }

  // Whole runs

  /** No event misopens the stream and no event after the terminal one is shown. */
  predicate CleanEvent(s: State, e: Event)
  {
    if s.finished then Silent(s, e) else !Misopens(s, e)
  }

  predicate CleanEvents(s: State, events: seq<Event>)
    decreases |events|
  {
    || events == []
    || events[0].Malformed?
    || (CleanEvent(s, events[0]) && CleanEvents(Step(s, events[0]), events[1..]))
  }

  ghost predicate Sound(s: State)
  {
    if s.finished then Done(s) else Mid(s)
  }

  lemma SoundGrammatical(s: State)
    requires Sound(s)
    ensures Grammatical(s.out)
  {
  }

  lemma LateSound(s: State, e: Event)
    requires Done(s)
    ensures if Silent(s, e) then Sound(Step(s, e)) else Read(Step(s, e).out).Broken?
    ensures Silent(s, e) ==> Step(s, e).finished
  {
    hide Silent, Step, Read, Mid;
    LateEvent(s, e);
    if !Silent(s, e) {
      StepGrows(s, e);
      GrownBroken(s.out, Step(s, e).out);
    }
  }

  lemma EarlySound(s: State, e: Event)
    requires Mid(s) && !Misopens(s, e)
    ensures Sound(Step(s, e))
  {
    hide Mid, Done, Misopens, Whole;
    StepGrammar(s, e);
    if e.Completed? {
      CompletedDone(s, e.incomplete, e.response);
    } else if e.Failed? {
      FailDone(s, if e.message == "" then "upstream response failed" else e.message);
    } else {
      MidUnfinished(Step(s, e));
    }
  }

  lemma MidUnfinished(s: State)
    requires Mid(s)
    ensures !s.finished
  {
  }

  lemma StepSound(s: State, e: Event)
    requires Sound(s)
    ensures if CleanEvent(s, e) then Sound(Step(s, e)) else Read(Step(s, e).out).Broken?
    ensures CleanEvent(s, e) && s.finished ==> Step(s, e).finished
  {
    hide Silent, Step, Read, Mid, Done, Misopens;
    if s.finished {
      LateSound(s, e);
    } else if Misopens(s, e) {
      MisopenBreaks(s, e);
    } else {
      EarlySound(s, e);
    }
  }

  lemma FailSound(s: State, message: string)
    requires Sound(s)
    ensures Done(Fail(s, message))
  {
    hide Linked, Read;
    if !s.finished {
      FailDone(s, message);
    }
  }

  lemma {:induction false} DrainSound(s: State, events: seq<Event>)
    requires Sound(s)
    ensures if CleanEvents(s, events) then Sound(Drain(s, events).state) else Read(Drain(s, events).state.out).Broken?
    ensures CleanEvents(s, events) && !Drain(s, events).alive ==> Done(Drain(s, events).state)
    decreases |events|
  {
    hide Linked, Read;
    if events != [] {
      if events[0].Malformed? {
        FailSound(s, INVALID_JSON);
      } else {
        StepSound(s, events[0]);
        if CleanEvent(s, events[0]) {
          DrainSound(Step(s, events[0]), events[1..]);
        } else {
          DrainGrows(Step(s, events[0]), events[1..]);
          GrownBroken(Step(s, events[0]).out, Drain(s, events).state.out);
        }
      }
    }
  }

  /** The condition on a whole run, checked event by event before each is processed. */
  predicate CleanRun(cfg: Config, events: seq<Event>, tail: Option<Event>, ending: Ending)
  {
    var d := Drain(Init(cfg), events);
    CleanEvents(Init(cfg), events)
    && (d.alive && ending.CleanEnd? && tail.Some? && !tail.value.Malformed? ==> CleanEvent(d.state, tail.value))
  }

  lemma CloseSound(s: State, tail: Option<Event>, ending: Ending)
    requires Sound(s)
    ensures if ending.CleanEnd? && tail.Some? && !tail.value.Malformed? && !CleanEvent(s, tail.value)
            then Read(Close(s, tail, ending).out).Broken?
            else Grammatical(Close(s, tail, ending).out)
                 && (Whole(Close(s, tail, ending).out) || (!s.started && Close(s, tail, ending).out == []))
    ensures ending.CleanEnd? && tail != Some(Malformed) && (tail.Some? ==> CleanEvent(s, tail.value))
            ==> Whole(Close(s, tail, ending).out)
  {
    hide Read, Linked, Step, CleanEvent;
    SoundGrammatical(s);
    if !s.finished && !s.started { UnstartedSilent(s); }
    match ending
    case ReadFailure(message) => FailSound(s, message);
    case CleanEnd =>
      FailSound(s, INVALID_JSON);
      if tail.Some? && tail != Some(Malformed) {
        StepSound(s, tail.value);
        var s1 := Step(s, tail.value);
        if CleanEvent(s, tail.value) {
          FailSound(s1, "upstream stream ended before a terminal event");
          FailSound(s1, "upstream stream empty");
        } else {
          CloseGrows(s1, None, ending);
          GrownBroken(s1.out, Close(s1, None, ending).out);
        }
      } else if tail.None? {
        FailSound(s, "upstream stream ended before a terminal event");
        FailSound(s, "upstream stream empty");
      }
  }

  /**
   The output of the pipe is grammatical exactly for clean runs, whatever arrives and
   however the body ends; a clean run that ends cleanly is a whole message, ending in
   exactly one message_stop or error.
   */
  lemma PipeGrammar(cfg: Config, events: seq<Event>, tail: Option<Event>, ending: Ending)
    ensures Grammatical(Pipe(cfg, events, tail, ending).out) <==> CleanRun(cfg, events, tail, ending)
    ensures CleanRun(cfg, events, tail, ending) && ending.CleanEnd? && tail != Some(Malformed)
            ==> Whole(Pipe(cfg, events, tail, ending).out)
    ensures CleanRun(cfg, events, tail, ending)
            ==> Whole(Pipe(cfg, events, tail, ending).out) || Pipe(cfg, events, tail, ending).out == []
  {
    hide Linked, Read;
    InitMid(cfg);
    DrainSound(Init(cfg), events);
    var d := Drain(Init(cfg), events);
    if CleanEvents(Init(cfg), events) {
      if d.alive {
        CloseSound(d.state, tail, ending);
      }
    } else {
      CloseGrows(d.state, tail, ending);
      GrownBroken(d.state.out, Pipe(cfg, events, tail, ending).out);
    }
  }

  /** A stream opened by the completion of a message with text breaks the grammar. */
  lemma MisopenExample()
    ensures var cfg := Config("m", false, "", "r");
            var open := ItemDone(Message("a", [Part(true, "hi")]), At("", "", ""));
            !Grammatical(Pipe(cfg, [open, Completed(false, None)], None, CleanEnd).out)
  {
    var cfg := Config("m", false, "", "r");
    var open := ItemDone(Message("a", [Part(true, "hi")]), At("", "", ""));
    assert Texts(open.item.parts) == ["hi"];
    assert Misopens(Init(cfg), open);
    PipeGrammar(cfg, [open, Completed(false, None)], None, CleanEnd);
  }

  /** Text that arrives after the terminal event is still written. */
  lemma LateTextExample()
    ensures var cfg := Config("m", false, "", "r");
            var late := TextDelta(At("a", "", ""), "hi");
            !Grammatical(Pipe(cfg, [Failed("x"), late], None, CleanEnd).out)
  {
    var cfg := Config("m", false, "", "r");
    var late := TextDelta(At("a", "", ""), "hi");
    var events := [Failed("x"), late];
    assert events[1..][0] == late;
    assert !CleanEvent(Step(Init(cfg), Failed("x")), late);
    PipeGrammar(cfg, events, None, CleanEnd);
  }
}
