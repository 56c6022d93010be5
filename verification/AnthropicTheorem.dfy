/**
 The agreement theorem for the Anthropic bridge, over whole streams: created, the items
 one after another, completed.
 */
module AnthropicTheorem {
  import opened Basics
  import opened AnthropicWire
  import opened AnthropicSpec
  import opened AnthropicBatch
  import opened AnthropicAgreement

  function AllFeeds(feeds: seq<Feed>): seq<Event>
  {
    if feeds == [] then [] else AllFeeds(feeds[..|feeds| - 1]) + FeedEvents(feeds[|feeds| - 1])
  }

  function Stream(r: Response, feeds: seq<Feed>, earlyTokens: int): seq<Event>
  {
    [Created(r.id, r.model, earlyTokens)] + AllFeeds(feeds) + [Completed(r.incomplete, Some(r))]
  }

  /** The feeds stream the response's items, each under its own id. */
  predicate Streams(r: Response, feeds: seq<Feed>)
  {
    && |r.output| == |feeds|
    && (forall i :: 0 <= i < |feeds| ==> r.output[i] == feeds[i].item && Identified(feeds[i]) && Faithful(feeds[i]))
    && (forall i, j :: 0 <= i < j < |feeds| ==> !Clash(feeds[i].item, feeds[j].item))
  }

  function StreamContent(cfg: Config, feeds: seq<Feed>): seq<Content>
  {
    if feeds == [] then []
    else StreamContent(cfg, feeds[..|feeds| - 1]) + StreamView(cfg, feeds[|feeds| - 1])
  }

  predicate Calls(feeds: seq<Feed>)
  {
    exists i :: 0 <= i < |feeds| && feeds[i].item.FunctionCall?
  }

  // The items

  /** After the first items: their content is held, they are kept, the rest are unseen. */
  ghost predicate Halfway(cfg: Config, s0: State, s: State, feeds: seq<Feed>, n: nat)
    requires n <= |feeds|
  {
    && Settled(s)
    && s.cfg == cfg && s.usageIn == s0.usageIn && s.usageOut == s0.usageOut && s.msgId == s0.msgId && s.model == s0.model
    && s.hasToolUse == Calls(feeds[..n])
    && Held(s) == Held(s0).(content := StreamContent(cfg, feeds[..n]))
    && (forall i :: 0 <= i < n ==> Kept(s, feeds[i].item))
    && (forall i :: n <= i < |feeds| ==> Unseen(s, feeds[i].item))
  }

  lemma CallsSnoc(feeds: seq<Feed>, f: Feed)
    ensures Calls(feeds + [f]) <==> Calls(feeds) || f.item.FunctionCall?
  {
    var more := feeds + [f];
    assert more[|feeds|] == f;
    if Calls(feeds) {
      var i :| 0 <= i < |feeds| && feeds[i].item.FunctionCall?;
      assert more[i] == feeds[i];
    }
  }

  lemma NextItem(cfg: Config, s0: State, s: State, r: Response, feeds: seq<Feed>, n: nat)
    requires Streams(r, feeds) && n < |feeds| && Halfway(cfg, s0, s, feeds, n)
    ensures Halfway(cfg, s0, Run(s, FeedEvents(feeds[n])), feeds, n + 1)
  {
    hide Settled, Kept, Unseen, Clash, FeedEvents, StreamView, Run;
    var f := feeds[n];
    FeedTook(cfg, s, f);
    assert feeds[..n + 1] == feeds[..n] + [f];
    assert (feeds[..n] + [f])[..n] == feeds[..n];
    CallsSnoc(feeds[..n], f);
  }

  lemma {:induction false} ItemsRun(cfg: Config, s0: State, r: Response, feeds: seq<Feed>, n: nat)
    requires Streams(r, feeds) && n <= |feeds| && Halfway(cfg, s0, s0, feeds, 0)
    ensures Halfway(cfg, s0, Run(s0, AllFeeds(feeds[..n])), feeds, n)
  {
    hide Halfway, Run, FeedEvents;
    if n > 0 {
      ItemsRun(cfg, s0, r, feeds, n - 1);
      assert feeds[..n][..n - 1] == feeds[..n - 1] && feeds[..n][n - 1] == feeds[n - 1];
      RunAppend(s0, AllFeeds(feeds[..n - 1]), FeedEvents(feeds[n - 1]));
      NextItem(cfg, s0, Run(s0, AllFeeds(feeds[..n - 1])), r, feeds, n - 1);
    } else {
      RunNone(s0, feeds);
    }
  }

  lemma RunNone(s: State, feeds: seq<Feed>)
    ensures Run(s, AllFeeds(feeds[..0])) == s
  {
  }

  // The final output shows nothing again

  lemma FinalMessageQuiet(s: State, item: Item, i: nat)
    requires Settled(s) && item.Message? && Trim(item.id) != "" && Kept(s, item)
    ensures FinalItem(s, item, i) == s
  {
    hide ReadReply, BlockKey, Texts;
    TrimTrim(item.id);
    TextsNonEmpty(item.parts);
  }

  lemma FinalCallQuiet(s: State, item: Item, i: nat)
    requires Settled(s) && item.FunctionCall? && Trim(item.id) != "" && Kept(s, item)
    ensures FinalItem(s, item, i) == s
  {
    hide ReadReply, BlockKey;
    TrimTrim(item.id);
    var callId := FirstNonEmpty(item.callId, item.id);
    assert ItemKey(item.id, callId, "final-" + Decimal(i)) == Trim(item.id);
    assert FirstNonEmpty(Trim(item.id), callId) == Trim(item.id);
    assert EnsureToolBlock(s, Trim(item.id), callId, item.name) == s;
  }

  lemma FinalQuiet(s: State, f: Feed, i: nat)
    requires Settled(s) && Identified(f) && Kept(s, f.item)
    ensures FinalItem(s, f.item, i) == s
  {
    match f.item
    case Message(_, _) => FinalMessageQuiet(s, f.item, i);
    case FunctionCall(_, _, _, _, _) => FinalCallQuiet(s, f.item, i);
    case Reasoning(_, _, _) => FinalReasoningKey(f.item, "final-reasoning-" + Decimal(i));
    case _ =>
  }

  lemma {:induction false} FinalOutputQuiet(s: State, feeds: seq<Feed>, items: seq<Item>, i: nat)
    requires Settled(s) && i <= |items| == |feeds|
    requires forall j :: 0 <= j < |feeds| ==> items[j] == feeds[j].item && Identified(feeds[j]) && Kept(s, feeds[j].item)
    ensures FinalOutput(s, items, i) == s
    decreases |items| - i
  {
    hide Settled, Kept, Identified, FinalItem;
    if i < |items| {
      FinalQuiet(s, feeds[i], i);
      FinalOutputQuiet(s, feeds, items, i + 1);
    }
  }

  // First and last event

  function StreamId(cfg: Config, r: Response): string
  {
    MessageId(if r.id == "" then "msg_" + cfg.randomId else r.id)
  }

  function StreamModel(cfg: Config, r: Response): string
  {
    if cfg.requestModel != "" then cfg.requestModel else if r.model != "" then r.model else "grok"
  }

  lemma NothingHeld()
    ensures ReadReply([]) == Blank
  {
  }

  lemma FirstEvent(cfg: Config, r: Response, feeds: seq<Feed>, earlyTokens: int)
    requires Streams(r, feeds)
    ensures var s0 := Step(Init(cfg), Created(r.id, r.model, earlyTokens));
            && Halfway(cfg, s0, s0, feeds, 0)
            && Held(s0) == Reply(StreamId(cfg, r), StreamModel(cfg, r), [], "", 0, 0)
            && s0.usageIn == (if earlyTokens > 0 then earlyTokens else 0) && s0.usageOut == 0
            && s0.msgId != ""
  {
    hide ReadReply;
    NothingHeld();
    var s := Init(cfg).(usageIn := if earlyTokens > 0 then earlyTokens else 0);
    HeldEmit(s.(msgId := StreamId(cfg, r), model := StreamModel(cfg, r), started := true),
             MessageStart(StreamId(cfg, r), StreamModel(cfg, r), s.usageIn));
    assert feeds[..0] == [];
  }

  lemma NothingOpen(s: State)
    requires Settled(s)
    ensures StopAllBlocks(s.(signature := "")).out == s.out
  {
    assert OpenIndices(s.blocks) == {};
    NoStops(s.nextIndex);
  }

  lemma {:induction false} NoStops(n: nat)
    ensures Stops({}, n) == []
  {
    if n > 0 { NoStops(n - 1); }
  }

  lemma LastEvent(cfg: Config, s0: State, s: State, r: Response, feeds: seq<Feed>)
    requires Streams(r, feeds) && Halfway(cfg, s0, s, feeds, |feeds|) && s.msgId != ""
    ensures Held(Step(s, Completed(r.incomplete, Some(r)))) ==
            Held(s).(stopReason := StopReason(Calls(feeds), r.incomplete),
                     inputTokens := if r.usage.Some? then InputCount(r.usage.value) else s.usageIn,
                     outputTokens := if r.usage.Some? then OutputCount(r.usage.value) else s.usageOut)
  {
    hide ReadReply, FinalOutput, Kept, Unseen, StreamContent, StreamView, Calls, Identified, Faithful, Clash, Finish, Settled;
    assert feeds[..|feeds|] == feeds;
    SettledStarted(s);
    var s1 := NoteUsage(BeginCompletion(s, Some(r)), Some(r));
    assert s1 == s.(usageIn := s1.usageIn, usageOut := s1.usageOut);
    KeptFrame(s, s1, feeds);
    SettledFrame(s, s1);
    FinalOutputQuiet(s1, feeds, r.output, 0);
    FinishReads(s1, StopReason(s1.hasToolUse, r.incomplete), s1.usageIn, s1.usageOut);
  }

  lemma FinishReads(s: State, reason: string, usageIn: int, usageOut: int)
    requires Settled(s)
    ensures Held(Finish(s, reason, usageIn, usageOut)) ==
            Held(s).(stopReason := reason, inputTokens := usageIn, outputTokens := usageOut)
  {
    hide ReadReply;
    NothingOpen(s);
    var s2 := StopAllBlocks(FinalizeThinking(s, true));
    assert s2.out == s.out;
    var o := MessageDelta(reason, usageIn, usageOut);
    HeldEmit(s2, o);
    HeldEmit(Emit(s2, o), MessageStop);
  }

  lemma SettledFrame(s: State, t: State)
    requires Settled(s) && t == s.(usageIn := t.usageIn, usageOut := t.usageOut)
    ensures Settled(t)
  {
  }

  lemma KeptFrame(s: State, t: State, feeds: seq<Feed>)
    requires t == s.(usageIn := t.usageIn, usageOut := t.usageOut)
    requires forall i :: 0 <= i < |feeds| ==> Kept(s, feeds[i].item)
    ensures forall i :: 0 <= i < |feeds| ==> Kept(t, feeds[i].item)
  {
    forall i | 0 <= i < |feeds| ensures Kept(t, feeds[i].item) {
      assert Kept(s, feeds[i].item);
    }
  }

  /**
   The message a client reads from any item-by-item stream, whatever the cutting of the
   deltas: the items' contents in order.
   */
  lemma StreamReads(cfg: Config, r: Response, feeds: seq<Feed>, earlyTokens: int)
    requires Streams(r, feeds)
    ensures ReadReply(Run(Init(cfg), Stream(r, feeds, earlyTokens)).out) ==
            Reply(StreamId(cfg, r), StreamModel(cfg, r), StreamContent(cfg, feeds), StopReason(Calls(feeds), r.incomplete),
                  if r.usage.Some? then InputCount(r.usage.value) else if earlyTokens > 0 then earlyTokens else 0,
                  if r.usage.Some? then OutputCount(r.usage.value) else 0)
  {
    hide ReadReply, Step, Run, Settled, Kept, Unseen, StreamContent, Streams;
    var first := Created(r.id, r.model, earlyTokens);
    var last := Completed(r.incomplete, Some(r));
    RunAppend(Init(cfg), [first] + AllFeeds(feeds), [last]);
    RunAppend(Init(cfg), [first], AllFeeds(feeds));
    RunOne(Init(cfg), first);
    var s0 := Step(Init(cfg), first);
    FirstEvent(cfg, r, feeds, earlyTokens);
    ItemsRun(cfg, s0, r, feeds, |feeds|);
    assert feeds[..|feeds|] == feeds;
    var s := Run(s0, AllFeeds(feeds));
    RunOne(s, last);
    LastEvent(cfg, s0, s, r, feeds);
  }

  // Comparing contents

  function TextCount(contents: seq<Content>): nat
  {
    if contents == [] then 0 else TextCount(contents[1..]) + if contents[0].TextContent? then 1 else 0
  }

  function ToolCount(contents: seq<Content>): nat
  {
    if contents == [] then 0 else ToolCount(contents[1..]) + if contents[0].ToolContent? then 1 else 0
  }

  function ThoughtCount(contents: seq<Content>): nat
  {
    if contents == [] then 0 else ThoughtCount(contents[1..]) + if contents[0].ThinkingContent? then 1 else 0
  }

  lemma {:induction false} CountAppend(a: seq<Content>, b: seq<Content>)
    ensures TextCount(a + b) == TextCount(a) + TextCount(b)
    ensures ToolCount(a + b) == ToolCount(a) + ToolCount(b)
    ensures ThoughtCount(a + b) == ThoughtCount(a) + ThoughtCount(b)
  {
    if a == [] {
      assert a + b == b;
    } else {
      assert (a + b)[0] == a[0] && (a + b)[1..] == a[1..] + b;
      CountAppend(a[1..], b);
    }
  }

  lemma {:induction false} CountAll(a: seq<Content>)
    ensures |a| == TextCount(a) + ToolCount(a) + ThoughtCount(a)
  {
    if a != [] { CountAll(a[1..]); }
  }

  /** Streaming never shows more texts or tools than the batch form, nor fewer thoughts. */
  predicate Ordered(d: seq<Content>, b: seq<Content>)
  {
    TextCount(d) <= TextCount(b) && ToolCount(d) <= ToolCount(b) && ThoughtCount(d) >= ThoughtCount(b)
  }

  lemma {:induction false} TextContentsCount(texts: seq<string>)
    ensures |TextContents(texts)| == |texts| == TextCount(TextContents(texts))
    ensures ToolCount(TextContents(texts)) == 0 && ThoughtCount(TextContents(texts)) == 0
  {
    if texts != [] {
      assert TextContents(texts)[1..] == TextContents(texts[1..]);
      TextContentsCount(texts[1..]);
    }
  }

  lemma CountOne(c: Content)
    ensures TextCount([c]) == (if c.TextContent? then 1 else 0)
    ensures ToolCount([c]) == (if c.ToolContent? then 1 else 0)
    ensures ThoughtCount([c]) == (if c.ThinkingContent? then 1 else 0)
  {
    assert [c][1..] == [];
  }

  /** One item: the views are ordered, and equal exactly when the item agrees. */
  lemma ItemCompare(cfg: Config, valid: string -> bool, f: Feed)
    requires Identified(f) && Faithful(f)
    ensures Ordered(DecodeAll(valid, StreamView(cfg, f)), BatchView(cfg, valid, f.item))
    ensures DecodeAll(valid, StreamView(cfg, f)) == BatchView(cfg, valid, f.item) <==> Agrees(cfg, valid, f)
  {
    hide Trim;
    match f.item
    case Message(_, parts) => MessageCompare(cfg, valid, f);
    case FunctionCall(id, callId, name, arguments, fn) =>
      KeysAgree(id, callId, f.at);
      CountOne(CallContent(cfg, valid, f.item));
      CountOne(Decode(valid, StreamView(cfg, f)[0]));
      assert DecodeAll(valid, StreamView(cfg, f)) == [Decode(valid, StreamView(cfg, f)[0])];
    case ToolCall(_, _, _, _, _) => CountOne(CallContent(cfg, valid, f.item));
    case Reasoning(_, _, _) => ReasoningCompare(cfg, valid, f);
    case OtherItem =>
  }

  lemma MessageCompare(cfg: Config, valid: string -> bool, f: Feed)
    requires f.item.Message?
    ensures Ordered(DecodeAll(valid, StreamView(cfg, f)), BatchView(cfg, valid, f.item))
    ensures DecodeAll(valid, StreamView(cfg, f)) == BatchView(cfg, valid, f.item) <==> Agrees(cfg, valid, f)
  {
    var texts := Texts(f.item.parts);
    TextsNonEmpty(f.item.parts);
    TextContentsCount(texts);
    var d := DecodeAll(valid, StreamView(cfg, f));
    if texts != [] {
      CountOne(TextContent(Concat(texts)));
      assert d == [TextContent(Concat(texts))];
      if |texts| == 1 {
        assert Concat(texts[1..]) == "" && texts[0] + "" == texts[0];
        assert TextContents(texts[1..]) == [];
      }
    }
  }

  lemma ThoughtsCount(texts: seq<string>, early: string, c: Content)
    requires c.ThinkingContent?
    ensures var d := ThoughtContents(texts, early) + [c]; TextCount(d) == 0 && ToolCount(d) == 0 && ThoughtCount(d) == |texts| + 1
    decreases |texts|
  {
    var d := ThoughtContents(texts, early) + [c];
    if texts == [] {
      CountOne(c);
      assert d == [c];
    } else {
      ThoughtsCount(texts[1..], early, c);
      assert d[1..] == ThoughtContents(texts[1..], early) + [c];
    }
  }

  lemma ReasoningCompare(cfg: Config, valid: string -> bool, f: Feed)
    requires f.item.Reasoning?
    ensures Ordered(DecodeAll(valid, StreamView(cfg, f)), BatchView(cfg, valid, f.item))
    ensures DecodeAll(valid, StreamView(cfg, f)) == BatchView(cfg, valid, f.item) <==> Agrees(cfg, valid, f)
  {
    hide SummaryText, ThoughtsOf;
    var v := StreamView(cfg, f);
    var b := BatchView(cfg, valid, f.item);
    assert DecodeAll(valid, v) == v;
    if b != [] { CountOne(b[0]); assert b == [b[0]]; }
    if cfg.thinkingEnabled && ThoughtsOf(cfg, f).open.Some? {
      var th := ThoughtsOf(cfg, f);
      ThoughtsCount(th.shut, Early(f), ThinkingContent(th.open.value, f.item.signature));
      assert |v| == |th.shut| + 1 && v[|th.shut|] == ThinkingContent(th.open.value, f.item.signature);
    } else if v != [] {
      CountOne(v[0]);
      assert v == [v[0]];
    }
  }

  lemma DecodeAppend(valid: string -> bool, a: seq<Content>, b: seq<Content>)
    ensures DecodeAll(valid, a + b) == DecodeAll(valid, a) + DecodeAll(valid, b)
  {
  }

  ghost predicate AllFed(feeds: seq<Feed>)
  {
    forall i :: 0 <= i < |feeds| ==> Identified(feeds[i]) && Faithful(feeds[i])
  }

  function Items(feeds: seq<Feed>): (items: seq<Item>)
    ensures |items| == |feeds| && forall i :: 0 <= i < |feeds| ==> items[i] == feeds[i].item
  {
    seq(|feeds|, i requires 0 <= i < |feeds| => feeds[i].item)
  }

  lemma Split(cfg: Config, valid: string -> bool, feeds: seq<Feed>)
    requires feeds != []
    ensures var front := feeds[..|feeds| - 1]; var f := feeds[|feeds| - 1];
            && DecodeAll(valid, StreamContent(cfg, feeds))
               == DecodeAll(valid, StreamContent(cfg, front)) + DecodeAll(valid, StreamView(cfg, f))
            && BatchContent(cfg, valid, Items(feeds))
               == BatchContent(cfg, valid, Items(front)) + BatchView(cfg, valid, f.item)
  {
    DecodeAppend(valid, StreamContent(cfg, feeds[..|feeds| - 1]), StreamView(cfg, feeds[|feeds| - 1]));
    assert Items(feeds)[..|feeds| - 1] == Items(feeds[..|feeds| - 1]);
  }

  lemma {:induction false} AllOrdered(cfg: Config, valid: string -> bool, feeds: seq<Feed>)
    requires AllFed(feeds)
    ensures Ordered(DecodeAll(valid, StreamContent(cfg, feeds)), BatchContent(cfg, valid, Items(feeds)))
  {
    hide StreamContent, BatchContent, StreamView, BatchView, DecodeAll, Identified, Faithful;
    if feeds != [] {
      var front := feeds[..|feeds| - 1];
      var f := feeds[|feeds| - 1];
      Split(cfg, valid, feeds);
      AllOrdered(cfg, valid, front);
      ItemCompare(cfg, valid, f);
      CountAppend(DecodeAll(valid, StreamContent(cfg, front)), DecodeAll(valid, StreamView(cfg, f)));
      CountAppend(BatchContent(cfg, valid, Items(front)), BatchView(cfg, valid, f.item));
    } else {
      NoContent(cfg, valid);
      assert feeds == [];
    }
  }

  lemma NoContent(cfg: Config, valid: string -> bool)
    ensures DecodeAll(valid, StreamContent(cfg, [])) == [] && BatchContent(cfg, valid, Items([])) == []
  {
  }

  /** Ordered halves of equal wholes are equal. */
  lemma Halves(d1: seq<Content>, d2: seq<Content>, b1: seq<Content>, b2: seq<Content>)
    requires Ordered(d1, b1) && Ordered(d2, b2) && d1 + d2 == b1 + b2
    ensures d1 == b1 && d2 == b2
  {
    CountAppend(d1, d2);
    CountAppend(b1, b2);
    CountAll(d1);
    CountAll(b1);
    assert |d1| == |b1|;
    assert d1 == (d1 + d2)[..|d1|] && b1 == (b1 + b2)[..|b1|];
    assert d2 == (d1 + d2)[|d1|..] && b2 == (b1 + b2)[|b1|..];
  }

  /** The contents agree exactly when every item does. */
  lemma {:induction false} ContentsAgree(cfg: Config, valid: string -> bool, feeds: seq<Feed>)
    requires AllFed(feeds)
    ensures DecodeAll(valid, StreamContent(cfg, feeds)) == BatchContent(cfg, valid, Items(feeds))
            <==> forall i :: 0 <= i < |feeds| ==> Agrees(cfg, valid, feeds[i])
  {
    hide StreamContent, BatchContent, StreamView, BatchView, DecodeAll, Identified, Faithful, Agrees, Ordered;
    if feeds != [] {
      var front := feeds[..|feeds| - 1];
      var f := feeds[|feeds| - 1];
      Split(cfg, valid, feeds);
      ContentsAgree(cfg, valid, front);
      AllOrdered(cfg, valid, front);
      ItemCompare(cfg, valid, f);
      var d1, d2 := DecodeAll(valid, StreamContent(cfg, front)), DecodeAll(valid, StreamView(cfg, f));
      var b1, b2 := BatchContent(cfg, valid, Items(front)), BatchView(cfg, valid, f.item);
      if d1 + d2 == b1 + b2 {
        Halves(d1, d2, b1, b2);
        forall i | 0 <= i < |feeds| ensures Agrees(cfg, valid, feeds[i]) {
          if i < |front| { assert Agrees(cfg, valid, front[i]); }
        }
      }
      if forall i :: 0 <= i < |feeds| ==> Agrees(cfg, valid, feeds[i]) {
        forall i | 0 <= i < |front| ensures Agrees(cfg, valid, front[i]) {
          assert Agrees(cfg, valid, feeds[i]);
        }
        assert d1 == b1 && d2 == b2;
      }
    } else {
      NoContent(cfg, valid);
      assert feeds == [];
    }
  }

  function DecodeReply(valid: string -> bool, r: Reply): Reply
  {
    r.(content := DecodeAll(valid, r.content))
  }

  /** A request model that both forms show alike. */
  predicate ModelAgrees(cfg: Config, r: Response)
  {
    if Trim(cfg.requestModel) == "" && cfg.requestModel != "" then cfg.requestModel == (if r.model != "" then r.model else "grok")
    else Trim(cfg.requestModel) == cfg.requestModel
  }

  /** The checks, made on the request and the finished response, under which both forms give one message. */
  predicate Agreement(cfg: Config, valid: string -> bool, r: Response, feeds: seq<Feed>, earlyTokens: int)
  {
    && (forall i :: 0 <= i < |feeds| ==> Agrees(cfg, valid, feeds[i]))
    && (BatchContent(cfg, valid, r.output) != [] || r.outputText == "")
    && (r.usage.Some? || earlyTokens <= 0)
    && ModelAgrees(cfg, r)
  }

  lemma CallsMatch(cfg: Config, valid: string -> bool, r: Response, feeds: seq<Feed>)
    requires Streams(r, feeds) && forall i :: 0 <= i < |feeds| ==> Agrees(cfg, valid, feeds[i])
    ensures Calls(feeds) == HasCall(r.output)
  {
    hide Identified, Faithful, Clash;
    if HasCall(r.output) {
      var i :| 0 <= i < |r.output| && (r.output[i].FunctionCall? || r.output[i].ToolCall?);
      assert r.output[i] == feeds[i].item;
      assert Agrees(cfg, valid, feeds[i]);
    }
    if Calls(feeds) {
      var i :| 0 <= i < |feeds| && feeds[i].item.FunctionCall?;
      assert r.output[i] == feeds[i].item;
    }
  }

  lemma ModelCompare(cfg: Config, valid: string -> bool, r: Response)
    ensures StreamModel(cfg, r) == Batch(cfg, valid, r).model <==> ModelAgrees(cfg, r)
  {
    hide BatchContent, HasCall;
    assert Trim("") == "";
  }

  /** The fallback text is never what a stream without texts shows. */
  lemma FallbackDiffers(cfg: Config, valid: string -> bool, r: Response, feeds: seq<Feed>)
    requires AllFed(feeds) && BatchContent(cfg, valid, Items(feeds)) == []
    ensures DecodeAll(valid, StreamContent(cfg, feeds)) != [TextContent(r.outputText)]
  {
    AllOrdered(cfg, valid, feeds);
    CountOne(TextContent(r.outputText));
  }

  /**
   Streaming agrees with the whole-body converter: for every response, every feed of its
   items and every cutting of the deltas, the folded stream is the batch message if and
   only if the listed checks hold.
   */
  lemma StreamingAgreesWithBatch(cfg: Config, valid: string -> bool, r: Response, feeds: seq<Feed>, earlyTokens: int)
    requires Streams(r, feeds)
    ensures DecodeReply(valid, ReadReply(Run(Init(cfg), Stream(r, feeds, earlyTokens)).out)) == Batch(cfg, valid, r)
            <==> Agreement(cfg, valid, r, feeds, earlyTokens)
  {
    hide StreamContent, BatchContent, ReadReply, Run, Identified, Faithful, Agrees, Clash, Calls, HasCall, Trim, DecodeAll,
         MessageId, StopReason, FinalOutput;
    StreamReads(cfg, r, feeds, earlyTokens);
    assert Items(feeds) == r.output;
    ContentsAgree(cfg, valid, feeds);
    var d := DecodeAll(valid, StreamContent(cfg, feeds));
    var b := BatchContent(cfg, valid, r.output);
    if b == [] { FallbackDiffers(cfg, valid, r, feeds); }
    if forall i :: 0 <= i < |feeds| ==> Agrees(cfg, valid, feeds[i]) {
      CallsMatch(cfg, valid, r, feeds);
    }
    ModelCompare(cfg, valid, r);
  }

  // Through the pipe

  predicate Decodable(events: seq<Event>)
  {
    forall i :: 0 <= i < |events| ==> !events[i].Malformed?
  }

  lemma {:induction false} DrainIsRun(s: State, events: seq<Event>)
    requires Decodable(events)
    ensures Drain(s, events) == Drained(Run(s, events), true)
    decreases |events|
  {
    hide Step;
    if events != [] {
      assert forall i :: 0 <= i < |events[1..]| ==> events[1..][i] == events[i + 1];
      DrainIsRun(Step(s, events[0]), events[1..]);
    }
  }

  lemma {:induction false} DeltasDecodable(f: Feed, chunks: seq<string>)
    ensures Decodable(Deltas(f, chunks))
  {
    if chunks != [] { DeltasDecodable(f, chunks[1..]); }
  }

  lemma {:induction false} LivesDecodable(f: Feed, live: seq<Live>)
    ensures Decodable(Lives(f, live))
  {
    if live != [] { LivesDecodable(f, live[1..]); }
  }

  lemma {:induction false} FeedsDecodable(feeds: seq<Feed>)
    ensures Decodable(AllFeeds(feeds))
  {
    if feeds != [] {
      var f := feeds[|feeds| - 1];
      FeedsDecodable(feeds[..|feeds| - 1]);
      DeltasDecodable(f, f.chunks);
      LivesDecodable(f, f.live);
    }
  }

  lemma CompletedFinishes(s: State, incomplete: bool, response: Option<Response>)
    ensures Step(s, Completed(incomplete, response)).finished
  {
  }

  /** The pipe hands a whole stream to the translator and adds nothing at its clean end. */
  lemma PipeIsRun(cfg: Config, r: Response, feeds: seq<Feed>, earlyTokens: int)
    ensures Pipe(cfg, Stream(r, feeds, earlyTokens), None, CleanEnd) == Run(Init(cfg), Stream(r, feeds, earlyTokens))
  {
    hide Step;
    var first, last := [Created(r.id, r.model, earlyTokens)] + AllFeeds(feeds), Completed(r.incomplete, Some(r));
    FeedsDecodable(feeds);
    DrainIsRun(Init(cfg), Stream(r, feeds, earlyTokens));
    RunAppend(Init(cfg), first, [last]);
    RunOne(Run(Init(cfg), first), last);
    CompletedFinishes(Run(Init(cfg), first), r.incomplete, Some(r));
  }

  /** The same through the pipe: what the client receives reads as the batch message exactly under those checks. */
  lemma PipeAgreesWithBatch(cfg: Config, valid: string -> bool, r: Response, feeds: seq<Feed>, earlyTokens: int)
    requires Streams(r, feeds)
    ensures DecodeReply(valid, ReadReply(Pipe(cfg, Stream(r, feeds, earlyTokens), None, CleanEnd).out)) == Batch(cfg, valid, r)
            <==> Agreement(cfg, valid, r, feeds, earlyTokens)
  {
    hide Pipe, Run, Stream, Streams, Agreement, ReadReply, DecodeReply, Batch;
    PipeIsRun(cfg, r, feeds, earlyTokens);
    StreamingAgreesWithBatch(cfg, valid, r, feeds, earlyTokens);
  }
}
