/**
 The stream translator as the object it is: fields updated event by event. Each method
 is proved to do to the fields exactly what the function of the same name in
 `AnthropicSpec` does to a state.
 */
module AnthropicTranslator {
  import opened Basics
  import opened AnthropicWire
  import S = AnthropicSpec
  import Batch = AnthropicBatch
  import Grammar = AnthropicGrammar
  import Runs = AnthropicRuns
  import Theorem = AnthropicTheorem
  import Replies = AnthropicReplies

  class Translator {
    const cfg: S.Config
    var model: string
    var msgId: string
    var started: bool
    var finished: bool
    var failed: bool
    var hasToolUse: bool
    var usageIn: int
    var usageOut: int
    var blocks: map<string, S.Block>
    var nextIndex: nat
    var thinking: Option<S.Block>
    var signature: string
    var stopPending: bool
    var reasoning: string
    var completed: set<string>
    var out: seq<Out>

    function Abs(): S.State
      reads this
    {
      S.State(cfg, model, msgId, started, finished, failed, hasToolUse, usageIn, usageOut, blocks, nextIndex,
              thinking, signature, stopPending, reasoning, completed, out)
    }

    constructor (cfg: S.Config)
      ensures Abs() == S.Init(cfg)
    {
      this.cfg := cfg;
      model, msgId := cfg.requestModel, "";
      started, finished, failed, hasToolUse := false, false, false, false;
      usageIn, usageOut := 0, 0;
      blocks, nextIndex := map[], 0;
      thinking, signature, stopPending := None, "", false;
      reasoning, completed := "", {};
      out := [];
    }

    method Write(o: Out)
      modifies this`out
      ensures Abs() == S.Emit(old(Abs()), o)
    {
      out := out + [o];
    }

    method EnsureStart(id: string, eventModel: string)
      modifies this
      ensures Abs() == S.EnsureStart(old(Abs()), id, eventModel)
    {
      if started { return; }
      var shown := id;
      if shown == "" { shown := "msg_" + cfg.randomId; }
      shown := MessageId(shown);
      var name := eventModel;
      if name == "" { name := cfg.requestModel; }
      if name == "" { name := model; }
      if name == "" { name := "grok"; }
      msgId, model, started := shown, name, true;
      Write(MessageStart(shown, name, usageIn));
    }

    method Begin()
      modifies this
      ensures Abs() == S.Begin(old(Abs()))
    {
      EnsureStart(msgId, model);
    }

    method SignThinking(i: nat)
      modifies this
      ensures Abs() == S.SignThinking(old(Abs()), i)
    {
      if signature != "" { Write(BlockDelta(i, SignaturePiece(signature))); }
    }

    method RetireThinking(clear: bool)
      modifies this
      ensures Abs() == S.RetireThinking(old(Abs()), clear)
    {
      if reasoning != "" { completed := completed + {reasoning}; }
      thinking, stopPending := None, false;
      if clear { signature, reasoning := "", ""; }
    }

    method FinalizeThinking(clear: bool)
      modifies this
      ensures Abs() == S.FinalizeThinking(old(Abs()), clear)
    {
      if !cfg.thinkingEnabled { return; }
      if thinking.None? {
        if clear { signature := ""; }
        return;
      }
      var i := thinking.value.index;
      SignThinking(i);
      Write(BlockStop(i));
      RetireThinking(clear);
    }

    method FinishThinkingBeforeContent()
      modifies this
      ensures Abs() == S.FinishThinkingBeforeContent(old(Abs()))
    {
      if thinking.Some? { FinalizeThinking(true); }
    }

    method EnsureThinkingBlock()
      modifies this
      ensures Abs() == S.EnsureThinkingBlock(old(Abs()))
    {
      if !cfg.thinkingEnabled || thinking.Some? { return; }
      Begin();
      var i := nextIndex;
      nextIndex := nextIndex + 1;
      Write(BlockStart(i, ThinkingBody));
      thinking, stopPending := Some(S.Block(i, Thinking, false, false)), false;
    }

    method StartThinkingPart(key: string)
      modifies this
      ensures Abs() == S.StartThinkingPart(old(Abs()), key)
    {
      if !cfg.thinkingEnabled { return; }
      if thinking.Some? && stopPending { FinalizeThinking(false); }
      reasoning := S.ReasoningKey(key);
      EnsureThinkingBlock();
    }

    method WriteThinking(text: string)
      modifies this
      ensures Abs() == S.WriteThinking(old(Abs()), text)
    {
      if !cfg.thinkingEnabled || cfg.thinkingDisplay == "omitted" || text == "" { return; }
      EnsureThinkingBlock();
      if thinking.None? { return; }
      Write(BlockDelta(thinking.value.index, ThinkingPiece(text)));
      thinking := Some(thinking.value.(emitted := true));
    }

    method CaptureSignature(key: string, sig: string)
      modifies this
      ensures Abs() == S.CaptureSignature(old(Abs()), key, sig)
    {
      if !cfg.thinkingEnabled || sig == "" { return; }
      if Trim(key) != "" { reasoning := S.ReasoningKey(key); }
      signature := sig;
    }

    method EnsureTextBlock(key: string)
      modifies this
      ensures Abs() == S.EnsureTextBlock(old(Abs()), key)
    {
      FinishThinkingBeforeContent();
      var k := S.BlockKey(Text, key);
      if k in blocks { return; }
      var i := nextIndex;
      nextIndex := nextIndex + 1;
      Write(BlockStart(i, TextBody));
      blocks := blocks[k := S.Block(i, Text, false, false)];
    }

    method EnsureToolBlock(key: string, callId: string, name: string)
      modifies this
      ensures Abs() == S.EnsureToolBlock(old(Abs()), key, callId, name)
    {
      FinishThinkingBeforeContent();
      var k := S.BlockKey(Tool, FirstNonEmpty(key, callId));
      if k in blocks { return; }
      var id := if callId != "" then callId else if HasPrefix(k, "tool:") then k[5..] else k;
      var i := nextIndex;
      nextIndex := nextIndex + 1;
      Write(BlockStart(i, ToolBody(id, if name == "" then "tool" else name)));
      blocks := blocks[k := S.Block(i, Tool, false, false)];
      hasToolUse := true;
    }

    method DeltaOn(k: string, delta: Delta)
      requires k in blocks
      modifies this
      ensures Abs() == S.DeltaOn(old(Abs()), k, delta)
    {
      var b := blocks[k];
      if b.stopped { return; }
      Write(BlockDelta(b.index, delta));
      blocks := blocks[k := b.(emitted := true)];
    }

    method WriteText(key: string, text: string)
      modifies this
      ensures Abs() == S.WriteText(old(Abs()), key, text)
    {
      if text == "" { return; }
      EnsureTextBlock(key);
      DeltaOn(S.BlockKey(Text, key), TextPiece(text));
    }

    method WriteArguments(key: string, callId: string, name: string, args: string)
      modifies this
      ensures Abs() == S.WriteArguments(old(Abs()), key, callId, name, args)
    {
      if args == "" { return; }
      EnsureToolBlock(key, callId, name);
      DeltaOn(S.BlockKey(Tool, FirstNonEmpty(key, callId)), JsonPiece(args));
    }

    method StopBlock(key: string, kind: Kind)
      modifies this
      ensures Abs() == S.StopBlock(old(Abs()), key, kind)
    {
      var k := S.BlockKey(kind, key);
      if k !in blocks || blocks[k].stopped { return; }
      Write(BlockStop(blocks[k].index));
      blocks := blocks[k := blocks[k].(stopped := true)];
    }

    /** Stops the open blocks in ascending index order. */
    method StopAllBlocks()
      modifies this
      ensures Abs() == S.StopAllBlocks(old(Abs()))
    {
      var open := S.OpenIndices(blocks);
      var i := 0;
      while i < nextIndex
        invariant i <= nextIndex
        invariant Abs() == old(Abs()).(out := old(out) + S.Stops(open, i))
      {
        if i in open { Write(BlockStop(i)); }
        i := i + 1;
      }
      blocks := S.AllStopped(blocks);
    }

    /** Writes each text of a message in turn. */
    method WriteTexts(key: string, texts: seq<string>)
      modifies this
      ensures Abs() == S.TextsOn(old(Abs()), key, texts)
    {
      var i := 0;
      while i < |texts|
        invariant i <= |texts|
        invariant S.TextsOn(old(Abs()), key, texts) == S.TextsOn(Abs(), key, texts[i..])
      {
        WriteText(key, texts[i]);
        assert texts[i..][1..] == texts[i + 1..];
        i := i + 1;
      }
    }

    method ShowReasoning(key: string, summary: string, sig: string)
      requires sig == "" ==> signature == ""
      modifies this
      ensures Abs() == S.ShowReasoning(old(Abs()), key, summary, sig)
    {
      hide S.EnsureThinkingBlock, S.WriteThinking, S.FinalizeThinking;
      reasoning := key;
      if sig != "" { signature := sig; }
      assert Abs() == old(Abs()).(reasoning := key, signature := sig);
      EnsureThinkingBlock();
      WriteThinking(summary);
      FinalizeThinking(true);
    }

    method FinalReasoning(item: Item, fallback: string)
      requires item.Reasoning?
      modifies this
      ensures Abs() == S.FinalReasoning(old(Abs()), item, fallback)
    {
      if !cfg.thinkingEnabled { return; }
      hide S.ShowReasoning, S.ReasoningKey;
      var key := S.ReasoningKey(FirstNonEmpty(item.id, fallback));
      if key in completed { return; }
      var summary := SummaryText(item.summary);
      if cfg.thinkingDisplay == "omitted" { summary := ""; }
      var sig := item.signature;
      if sig == "" { sig := signature; }
      if summary == "" && sig == "" { return; }
      ShowReasoning(key, summary, sig);
    }

    method CompleteCall(key: string, callId: string, name: string, arguments: string)
      modifies this
      ensures Abs() == S.CompleteCall(old(Abs()), key, callId, name, arguments)
    {
      EnsureToolBlock(key, callId, name);
      if !blocks[S.BlockKey(Tool, FirstNonEmpty(key, callId))].emitted {
        WriteArguments(key, callId, name, arguments);
      }
      StopBlock(key, Tool);
    }

    method CompleteMessage(key: string, parts: seq<Part>)
      modifies this
      ensures Abs() == (if S.BlockKey(Text, key) in old(blocks) && old(blocks)[S.BlockKey(Text, key)].emitted
                        then S.StopBlock(old(Abs()), key, Text)
                        else S.StopBlock(S.TextsOn(old(Abs()), key, Texts(parts)), key, Text))
    {
      var k := S.BlockKey(Text, key);
      if !(k in blocks && blocks[k].emitted) {
        WriteTexts(key, Texts(parts));
      }
      StopBlock(key, Text);
    }

    method FinalItem(item: Item, i: nat)
      modifies this
      ensures Abs() == S.FinalItem(old(Abs()), item, i)
    {
      match item
      case Reasoning(_, _, _) => FinalReasoning(item, "final-reasoning-" + S.Decimal(i));
      case Message(id, parts) =>
        var key := S.ItemKey(id, "final-" + S.Decimal(i), "");
        if S.BlockKey(Text, key) !in blocks && S.HasEmittedText(blocks) { return; }
        CompleteMessage(key, parts);
      case FunctionCall(id, itemCallId, name, arguments, _) =>
        var callId := FirstNonEmpty(itemCallId, id);
        CompleteCall(S.ItemKey(id, callId, "final-" + S.Decimal(i)), callId, name,
                     if arguments == "" then "{}" else arguments);
      case _ =>
    }

    method FinalOutput(items: seq<Item>)
      modifies this
      ensures Abs() == S.FinalOutput(old(Abs()), items, 0)
    {
      var i := 0;
      while i < |items|
        invariant i <= |items|
        invariant S.FinalOutput(old(Abs()), items, 0) == S.FinalOutput(Abs(), items, i)
      {
        FinalItem(items[i], i);
        i := i + 1;
      }
    }

    method Finish(stopReason: string, finalIn: int, finalOut: int)
      modifies this
      ensures Abs() == S.Finish(old(Abs()), stopReason, finalIn, finalOut)
    {
      if finished { return; }
      Begin();
      FinalizeThinking(true);
      StopAllBlocks();
      Write(MessageDelta(stopReason, finalIn, finalOut));
      Write(MessageStop);
      finished := true;
    }

    method Fail(message: string)
      modifies this
      ensures Abs() == S.Fail(old(Abs()), message)
    {
      if finished { return; }
      FinalizeThinking(true);
      StopAllBlocks();
      Write(ErrorFrame(message));
      failed, finished := true, true;
    }

    method ItemAdded(item: Item, at: At)
      modifies this
      ensures Abs() == S.OnItemAdded(old(Abs()), item, at)
    {
      match item
      case Reasoning(id, _, sig) =>
        var key := S.ReasoningKey(FirstNonEmpty(id, S.ReasoningEventKey(at)));
        reasoning := key;
        CaptureSignature(key, sig);
      case FunctionCall(id, itemCallId, name, arguments, _) =>
        var callId := FirstNonEmpty(itemCallId, id);
        var key := S.ItemKey(id, callId, S.EventKey(at));
        EnsureToolBlock(key, callId, name);
        WriteArguments(key, callId, name, arguments);
      case _ =>
    }

    method ItemDone(item: Item, at: At)
      modifies this
      ensures Abs() == S.OnItemDone(old(Abs()), item, at)
    {
      hide S.CompleteCall, S.FinalReasoning, S.FinalizeThinking, S.StopBlock, S.TextsOn, S.EnsureStart;
      match item
      case Reasoning(id, _, sig) =>
        var key := S.ReasoningKey(FirstNonEmpty(id, S.ReasoningEventKey(at)));
        reasoning := key;
        CaptureSignature(key, sig);
        if thinking.None? { FinalReasoning(item, key); } else { FinalizeThinking(true); }
      case FunctionCall(id, itemCallId, name, arguments, _) =>
        Begin();
        var callId := FirstNonEmpty(itemCallId, id);
        CompleteCall(S.ItemKey(id, callId, S.EventKey(at)), callId, name, arguments);
      case Message(id, parts) =>
        CompleteMessage(S.ItemKey(id, S.EventKey(at), ""), parts);
      case _ =>
    }

    method BeginCompletion(response: Option<Response>)
      modifies this
      ensures Abs() == S.BeginCompletion(old(Abs()), response)
    {
      hide S.EnsureStart;
      if response.Some? && response.value.id != "" && msgId == "" {
        EnsureStart(response.value.id, cfg.requestModel);
      } else {
        Begin();
      }
    }

    method Completed(incomplete: bool, response: Option<Response>)
      modifies this
      ensures Abs() == S.OnCompleted(old(Abs()), incomplete, response)
    {
      hide S.BeginCompletion, S.FinalOutput, S.Finish, S.StopReason;
      BeginCompletion(response);
      if response.Some? {
        if response.value.usage.Some? {
          usageIn := InputCount(response.value.usage.value);
          usageOut := OutputCount(response.value.usage.value);
        }
      }
      var finalIn, finalOut := usageIn, usageOut;
      if response.Some? {
        FinalOutput(response.value.output);
      }
      Finish(S.StopReason(hasToolUse, incomplete), finalIn, finalOut);
    }

    method OnCreated(id: string, eventModel: string, inputTokens: int)
      modifies this
      ensures Abs() == S.Step(old(Abs()), Created(id, eventModel, inputTokens))
    {
      if inputTokens > 0 { usageIn := inputTokens; }
      EnsureStart(id, if cfg.requestModel != "" then cfg.requestModel else eventModel);
    }

    method OnReasoningDelta(at: At, delta: string)
      modifies this
      ensures Abs() == S.Step(old(Abs()), ReasoningDelta(at, delta))
    {
      hide S.EnsureStart, S.StartThinkingPart, S.WriteThinking;
      Begin();
      if thinking.None? { StartThinkingPart(S.ReasoningEventKey(at)); }
      WriteThinking(delta);
    }

    method OnArgumentsDelta(at: At, itemCallId: string, name: string, delta: string)
      modifies this
      ensures Abs() == S.Step(old(Abs()), ArgumentsDelta(at, itemCallId, name, delta))
    {
      hide S.EnsureStart, S.WriteArguments;
      Begin();
      var callId := FirstNonEmpty(itemCallId, at.itemId);
      WriteArguments(S.ItemKey(at.itemId, callId, S.EventKey(at)), callId, name, delta);
    }

    method OnArgumentsDone(at: At, itemCallId: string, name: string, arguments: string)
      modifies this
      ensures Abs() == S.Step(old(Abs()), ArgumentsDone(at, itemCallId, name, arguments))
    {
      hide S.EnsureStart, S.CompleteCall;
      Begin();
      var callId := FirstNonEmpty(itemCallId, at.itemId);
      CompleteCall(S.ItemKey(at.itemId, callId, S.EventKey(at)), callId, name, arguments);
    }

    method ProcessData(e: Event)
      modifies this
      ensures Abs() == S.Step(old(Abs()), e)
    {
      hide S.EnsureStart, S.WriteText, S.StartThinkingPart, S.OnItemAdded, S.OnItemDone, S.OnCompleted, S.Fail;
      match e
      case Created(id, eventModel, inputTokens) => OnCreated(id, eventModel, inputTokens);
      case TextDelta(at, delta) =>
        Begin();
        WriteText(S.EventKey(at), delta);
      case ReasoningPartAdded(at) =>
        Begin();
        StartThinkingPart(S.ReasoningEventKey(at));
      case ReasoningDelta(at, delta) => OnReasoningDelta(at, delta);
      case ReasoningPartDone => stopPending := true;
      case ItemAdded(item, at) =>
        Begin();
        ItemAdded(item, at);
      case ArgumentsDelta(at, callId, name, delta) => OnArgumentsDelta(at, callId, name, delta);
      case ArgumentsDone(at, callId, name, arguments) => OnArgumentsDone(at, callId, name, arguments);
      case ItemDone(item, at) => ItemDone(item, at);
      case Completed(incomplete, response) => Completed(incomplete, response);
      case Failed(message) => Fail(if message == "" then "upstream response failed" else message);
      case OtherEvent =>
      case Malformed =>
    }

    /** What happens once the body has ended with `tail` still undispatched. */
    method Close(tail: Option<Event>, ending: S.Ending)
      modifies this
      ensures Abs() == S.Close(old(Abs()), tail, ending)
    {
      hide S.Step, S.Fail;
      if ending.ReadFailure? {
        if started && !finished { Fail(ending.message); }
        return;
      }
      if tail.Some? {
        if tail.value.Malformed? {
          if started && !finished { Fail(S.INVALID_JSON); }
          return;
        }
        ProcessData(tail.value);
      }
      if started && !finished {
        Fail("upstream stream ended before a terminal event");
        return;
      }
      if !started && !finished {
        Fail("upstream stream empty");
      }
    }
  }

  /** The main theorems, on the state the pipe ends in. */
  lemma PipePromises(cfg: S.Config, events: seq<Event>, tail: Option<Event>, ending: S.Ending)
    ensures var out := S.Pipe(cfg, events, tail, ending).out;
            && (Grammar.Grammatical(out) <==> Runs.CleanRun(cfg, events, tail, ending))
            && (Runs.CleanRun(cfg, events, tail, ending) && ending.CleanEnd? && tail != Some(Malformed) ==> Grammar.Whole(out))
            && Replies.Told(out, Replies.Seen(events, tail, ending), 0)
            && (forall valid, r, feeds, early ::
                  Theorem.Streams(r, feeds) && events == Theorem.Stream(r, feeds, early) && tail == None && ending == S.CleanEnd ==>
                    (Theorem.DecodeReply(valid, Batch.ReadReply(out)) == Batch.Batch(cfg, valid, r)
                     <==> Theorem.Agreement(cfg, valid, r, feeds, early)))
  {
    hide S.Pipe, Runs.CleanRun, Replies.Told, Theorem.Stream, Theorem.Streams, Theorem.Agreement, Theorem.DecodeReply, Batch.Batch, Batch.ReadReply;
    Runs.PipeGrammar(cfg, events, tail, ending);
    Replies.PipeTells(cfg, events, tail, ending);
    forall valid, r, feeds, early
      | Theorem.Streams(r, feeds) && events == Theorem.Stream(r, feeds, early) && tail == None && ending == S.CleanEnd
      ensures Theorem.DecodeReply(valid, Batch.ReadReply(S.Pipe(cfg, events, tail, ending).out)) == Batch.Batch(cfg, valid, r)
              <==> Theorem.Agreement(cfg, valid, r, feeds, early)
    {
      Theorem.PipeAgreesWithBatch(cfg, valid, r, feeds, early);
    }
  }

  /**
   Runs a translator over an upstream body. What it has written is grammatical exactly
   for clean runs, and whole when the body ends cleanly; it tells the end of the message
   as the first terminal event calls for; fed a response item by item,
   what it has written reads as the batch message exactly when the checks hold.
   */
  method Pipe(cfg: S.Config, events: seq<Event>, tail: Option<Event>, ending: S.Ending) returns (t: Translator)
    ensures fresh(t)
    ensures t.Abs() == S.Pipe(cfg, events, tail, ending)
    ensures Grammar.Grammatical(t.out) <==> Runs.CleanRun(cfg, events, tail, ending)
    ensures Runs.CleanRun(cfg, events, tail, ending) && ending.CleanEnd? && tail != Some(Malformed) ==> Grammar.Whole(t.out)
    ensures Replies.Told(t.out, Replies.Seen(events, tail, ending), 0)
    ensures forall valid, r, feeds, early ::
              Theorem.Streams(r, feeds) && events == Theorem.Stream(r, feeds, early) && tail == None && ending == S.CleanEnd ==>
                (Theorem.DecodeReply(valid, Batch.ReadReply(t.out)) == Batch.Batch(cfg, valid, r)
                 <==> Theorem.Agreement(cfg, valid, r, feeds, early))
  {
    PipePromises(cfg, events, tail, ending);
    t := new Translator(cfg);
    var i := 0;
    while i < |events|
      invariant i <= |events|
      invariant fresh(t)
      invariant S.Drain(S.Init(cfg), events) == S.Drain(t.Abs(), events[i..])
    {
      assert events[i..][0] == events[i] && events[i..][1..] == events[i + 1..];
      if events[i].Malformed? {
        t.Fail(S.INVALID_JSON);
        return;
      }
      t.ProcessData(events[i]);
      i := i + 1;
    }
    t.Close(tail, ending);
  }
}
