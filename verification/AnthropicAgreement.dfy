/**
 The stream agrees with the whole-body converter: folding the events written for an
 item-by-item stream gives the message the reference converter builds, for every way
 of cutting the deltas, exactly when each item satisfies `Agrees`.
 */
module AnthropicAgreement {
  import opened Basics
  import opened AnthropicWire
  import opened AnthropicSpec
  import opened AnthropicBatch

  /** One event of a reasoning item while its summary streams. */
  datatype Live = PartStart | Piece(text: string) | PartEnd

  /**
   How upstream streams one item: whether it announces it (`added`, carrying `early`
   arguments or signature), the pieces of its text or arguments, under the call id and
   name these give, the live events of a reasoning summary, and whether it marks the
   arguments as done before the item itself.
   */
  datatype Feed = Feed(item: Item, at: At, added: bool, early: string, callId: string, name: string,
                       chunks: seq<string>, live: seq<Live>, settled: bool)

  function Deltas(f: Feed, chunks: seq<string>): seq<Event>
  {
    if chunks == [] then []
    else
      [if f.item.Message? then TextDelta(f.at, chunks[0]) else ArgumentsDelta(f.at, f.callId, f.name, chunks[0])]
      + Deltas(f, chunks[1..])
  }

  function LiveEvent(f: Feed, l: Live): Event
  {
    match l
    case PartStart => ReasoningPartAdded(f.at)
    case Piece(text) => ReasoningDelta(f.at, text)
    case PartEnd => ReasoningPartDone
  }

  function Lives(f: Feed, live: seq<Live>): seq<Event>
  {
    if live == [] then [] else [LiveEvent(f, live[0])] + Lives(f, live[1..])
  }

  function Announced(f: Feed): Item
  {
    match f.item
    case FunctionCall(id, callId, name, _, fn) => FunctionCall(id, callId, name, f.early, fn)
    case Reasoning(id, summary, _) => Reasoning(id, summary, f.early)
    case _ => f.item
  }

  function Opening(f: Feed): seq<Event>
  {
    if f.added then [ItemAdded(Announced(f), f.at)] else []
  }

  function Body(f: Feed): seq<Event>
  {
    if f.item.Reasoning? then Lives(f, f.live) else if f.item.Message? || f.item.FunctionCall? then Deltas(f, f.chunks) else []
  }

  function Closing(f: Feed): seq<Event>
  {
    (if f.settled && f.item.FunctionCall? then [ArgumentsDone(f.at, f.callId, f.name, f.item.arguments)] else [])
    + [ItemDone(f.item, f.at)]
  }

  function FeedEvents(f: Feed): seq<Event>
  {
    Opening(f) + Body(f) + Closing(f)
  }

  predicate Identified(f: Feed)
  {
    match f.item
    case Message(id, _) => Trim(id) != "" && f.at.itemId == id
    case FunctionCall(id, _, _, _, _) => Trim(id) != "" && f.at.itemId == id
    case Reasoning(id, _, _) => Trim(id) != "" && f.at.itemId == id
    case _ => true
  }

  /** What the announcement already gave of the arguments or the signature. */
  function Early(f: Feed): string
  {
    if f.added then f.early else ""
  }

  /** The pieces sent for an item are a cutting of what the finished item carries, or absent. */
  predicate Faithful(f: Feed)
  {
    match f.item
    case Message(_, parts) => Concat(f.chunks) == "" || Concat(f.chunks) == Concat(Texts(parts))
    case FunctionCall(_, _, _, arguments, _) => Early(f) + Concat(f.chunks) == "" || Early(f) + Concat(f.chunks) == arguments
    case Reasoning(_, _, signature) => Early(f) == "" || Early(f) == signature
    case _ => true
  }

  /** The call id and name of the first event that shows a call: a piece before any announcement has its own. */
  function Heading(f: Feed): (string, string)
    requires f.item.FunctionCall?
  {
    if !f.added && (Concat(f.chunks) != "" || f.settled) then (f.callId, f.name) else (f.item.callId, f.item.name)
  }

  function CallShown(f: Feed, arguments: string): Content
    requires f.item.FunctionCall?
  {
    var (callId, name) := Heading(f);
    ToolContent(FirstNonEmpty(callId, f.item.id), if name == "" then "tool" else name, arguments)
  }

  /** The thinking blocks a live summary makes: those shut, the one open, and whether its part has ended. */
  datatype Thoughts = Thoughts(shut: seq<string>, open: Option<string>, ended: bool)

  const NoThoughts := Thoughts([], None, false)

  /** A part or a piece opens a block; a part after an ended one shuts the block and opens the next. */
  function Think(omit: bool, th: Thoughts, l: Live): Thoughts
  {
    match l
    case PartStart =>
      if th.open.None? then Thoughts(th.shut, Some(""), false)
      else if th.ended then Thoughts(th.shut + [th.open.value], Some(""), false)
      else th
    case Piece(text) =>
      var now := if th.open.None? then Thoughts(th.shut, Some(""), false) else th;
      now.(open := Some(now.open.value + if omit then "" else text))
    case PartEnd => th.(ended := true)
  }

  function ThinkAll(omit: bool, th: Thoughts, live: seq<Live>): Thoughts
    decreases |live|
  {
    if live == [] then th else ThinkAll(omit, Think(omit, th, live[0]), live[1..])
  }

  function ThoughtsOf(cfg: Config, f: Feed): Thoughts
  {
    ThinkAll(cfg.thinkingDisplay == "omitted", NoThoughts, f.live)
  }

  function ThoughtContents(texts: seq<string>, signature: string): (contents: seq<Content>)
    ensures |contents| == |texts|
  {
    seq(|texts|, i requires 0 <= i < |texts| => ThinkingContent(texts[i], signature))
  }

  /** What a client reads from the stream for one item. */
  function StreamView(cfg: Config, f: Feed): seq<Content>
  {
    match f.item
    case Message(_, parts) => if Concat(Texts(parts)) == "" then [] else [TextContent(Concat(Texts(parts)))]
    case FunctionCall(_, _, _, arguments, _) => [CallShown(f, arguments)]
    case Reasoning(_, summary, signature) =>
      if !cfg.thinkingEnabled then []
      else if ThoughtsOf(cfg, f).open.Some? then
        var th := ThoughtsOf(cfg, f);
        ThoughtContents(th.shut, Early(f)) + [ThinkingContent(th.open.value, signature)]
      else if VisibleSummary(cfg, summary) == "" && signature == "" then []
      else [ThinkingContent(VisibleSummary(cfg, summary), signature)]
    case _ => []
  }

  /** The items on which the two converters agree, read off the item and its feed. */
  predicate Agrees(cfg: Config, valid: string -> bool, f: Feed)
  {
    match f.item
    case Message(_, parts) => |Texts(parts)| <= 1
    case FunctionCall(id, callId, name, arguments, fn) =>
      && FirstNonEmpty(Heading(f).0, id) == FirstNonEmpty(callId, id)
      && (if Heading(f).1 == "" then "tool" else Heading(f).1) == (if name == "" then fn.name else name)
      && (arguments != "" || ReadInput(valid, fn.arguments) == "{}")
    case ToolCall(_, _, _, _, _) => false
    case Reasoning(_, summary, signature) =>
      cfg.thinkingEnabled && ThoughtsOf(cfg, f).open.Some? ==>
        && ThoughtsOf(cfg, f).shut == []
        && ThoughtsOf(cfg, f).open.value == VisibleSummary(cfg, summary)
        && (VisibleSummary(cfg, summary) != "" || signature != "")
    case OtherItem => true
  }

  // Keys

  function TextKey(id: string): string
  {
    BlockKey(Text, Trim(id))
  }

  function ToolKey(id: string): string
  {
    BlockKey(Tool, Trim(id))
  }

  function ThinkKey(id: string): string
  {
    ReasoningKey(Trim(id))
  }

  /** Two items that the translator would take for the same block. */
  predicate Clash(a: Item, b: Item)
  {
    || (a.Message? && b.Message? && TextKey(a.id) == TextKey(b.id))
    || (a.FunctionCall? && b.FunctionCall? && ToolKey(a.id) == ToolKey(b.id))
    || (a.Reasoning? && b.Reasoning? && ThinkKey(a.id) == ThinkKey(b.id))
  }

  lemma TrimTrim(s: string)
    ensures Trim(Trim(s)) == Trim(s)
  {
    TrimTight(s);
    TrimTight(Trim(s));
  }

  lemma KeysAgree(id: string, callId: string, at: At)
    requires Trim(id) != "" && at.itemId == id
    ensures ItemKey(id, callId, EventKey(at)) == Trim(id)
    ensures EventKey(at) == Trim(id)
    ensures FirstNonEmpty(Trim(id), callId) == Trim(id)
    ensures BlockKey(Tool, FirstNonEmpty(Trim(id), callId)) == ToolKey(id)
    ensures FirstNonEmpty(callId, id) != ""
    ensures ReasoningEventKey(at) == ThinkKey(id)
  {
    TrimTrim(id);
  }

  lemma TightAppend(a: string, b: string)
    requires a != "" && b != "" && Tight(b) && !IsSpace(a[0])
    ensures Tight(a + b)
  {
  }

  lemma ReasoningKeyTwice(key: string)
    ensures ReasoningKey(ReasoningKey(key)) == ReasoningKey(key)
    ensures Trim(ReasoningKey(key)) != "" && ReasoningKey(key) != ""
  {
    var k := Trim(key);
    TrimTight(key);
    var r := ReasoningKey(key);
    assert "reasoning:"[0] == 'r' && "reasoning:default"[0] == 'r' && "reasoning:default"[16] == 't';
    if k != "" && !HasPrefix(k, "reasoning:") {
      TightAppend("reasoning:", k);
    }
    assert Tight(r);
    TrimTight(r);
    assert HasPrefix(r, "reasoning:") by {
      if k == "" { assert "reasoning:default"[..10] == "reasoning:"; }
    }
  }

  // Reading the output

  function Held(s: State): Reply
  {
    ReadReply(s.out)
  }

  lemma HeldEmit(s: State, o: Out)
    ensures Held(Emit(s, o)) == Receive(Held(s), o)
  {
    assert (s.out + [o])[..|s.out|] == s.out;
  }

  lemma {:induction false} RunAppend(s: State, a: seq<Event>, b: seq<Event>)
    ensures Run(s, a + b) == Run(Run(s, a), b)
    decreases |a|
  {
    if a == [] {
      assert a + b == b;
    } else {
      assert (a + b)[0] == a[0] && (a + b)[1..] == a[1..] + b;
      RunAppend(Step(s, a[0]), a[1..], b);
    }
  }

  lemma RunOne(s: State, e: Event)
    ensures Run(s, [e]) == Step(s, e)
  {
    assert Run(Step(s, e), [e][1..]) == Step(s, e);
  }

  /** Between items: nothing is open and nothing is pending. */
  ghost predicate Settled(s: State)
  {
    && s.started && !s.finished && s.thinking.None? && s.signature == ""
    && (forall k :: k in s.blocks ==> s.blocks[k].stopped)
    && s.nextIndex == |Held(s).content|
  }

  /** `t` is `s` with the block for `k` shown, holding `c`, the only new content. */
  ghost predicate Shown(s: State, t: State, k: string, b: Block, c: Content)
  {
    && b.index == s.nextIndex
    && t == s.(blocks := s.blocks[k := b], nextIndex := s.nextIndex + 1,
               hasToolUse := s.hasToolUse || c.ToolContent?, out := t.out)
    && Held(t) == Held(s).(content := Held(s).content + [c])
  }

  // Text

  ghost predicate TextSoFar(s: State, t: State, k: string, acc: string)
  {
    if acc == "" then t == s else Shown(s, t, k, Block(s.nextIndex, Text, true, false), TextContent(acc))
  }

  lemma FirstTextShown(s: State, key: string, text: string)
    requires Settled(s) && BlockKey(Text, key) !in s.blocks && text != ""
    ensures TextSoFar(s, WriteText(s, key, text), BlockKey(Text, key), text)
  {
    hide ReadReply, BlockKey;
    var n := s.nextIndex;
    HeldEmit(s, BlockStart(n, TextBody));
    var s1 := EnsureTextBlock(s, key);
    assert Held(s1) == Held(s).(content := Held(s).content + [TextContent("")]);
    HeldEmit(s1, BlockDelta(n, TextPiece(text)));
    assert "" + text == text;
    assert Held(WriteText(s, key, text)).content == Held(s).content + [TextContent(text)];
  }

  lemma WriteTextShown(s: State, t: State, key: string, acc: string, text: string)
    requires Settled(s) && BlockKey(Text, key) !in s.blocks && TextSoFar(s, t, BlockKey(Text, key), acc)
    ensures TextSoFar(s, WriteText(t, key, text), BlockKey(Text, key), acc + text)
  {
    hide ReadReply, BlockKey;
    if text == "" {
      assert acc + text == acc;
    } else if acc == "" {
      FirstTextShown(s, key, text);
      assert acc + text == text;
    } else {
      HeldEmit(t, BlockDelta(s.nextIndex, TextPiece(text)));
      assert Held(WriteText(t, key, text)).content == Held(s).content + [TextContent(acc + text)];
    }
  }

  lemma {:induction false} TextsShown(s: State, t: State, key: string, acc: string, texts: seq<string>)
    requires Settled(s) && BlockKey(Text, key) !in s.blocks && TextSoFar(s, t, BlockKey(Text, key), acc)
    ensures TextSoFar(s, TextsOn(t, key, texts), BlockKey(Text, key), acc + Concat(texts))
    decreases |texts|
  {
    hide TextSoFar, Settled, WriteText, BlockKey;
    if texts == [] {
      assert acc + "" == acc;
    } else {
      WriteTextShown(s, t, key, acc, texts[0]);
      TextsShown(s, WriteText(t, key, texts[0]), key, acc + texts[0], texts[1..]);
      assert acc + texts[0] + Concat(texts[1..]) == acc + (texts[0] + Concat(texts[1..]));
    }
  }

  lemma {:induction false} TextEvents(s: State, f: Feed, chunks: seq<string>)
    requires s.started && f.item.Message? && Identified(f)
    ensures Run(s, Deltas(f, chunks)) == TextsOn(s, Trim(f.item.id), chunks)
    decreases |chunks|
  {
    if chunks != [] {
      var e := TextDelta(f.at, chunks[0]);
      assert Deltas(f, chunks)[0] == e && Deltas(f, chunks)[1..] == Deltas(f, chunks[1..]);
      KeysAgree(f.item.id, "", f.at);
      TextStaysStarted(s, Trim(f.item.id), chunks[0]);
      TextEvents(WriteText(s, Trim(f.item.id), chunks[0]), f, chunks[1..]);
    }
  }

  lemma TextStaysStarted(s: State, key: string, text: string)
    requires s.started
    ensures WriteText(s, key, text).started
  {
    hide BlockKey, FinishThinkingBeforeContent;
    assert FinishThinkingBeforeContent(s).started by { ThinkingStaysStarted(s); }
  }

  lemma ThinkingStaysStarted(s: State)
    requires s.started
    ensures FinishThinkingBeforeContent(s).started
  {
  }

  // What an item leaves behind

  /** After an item: settled, its content appended, its key taken, everything else as before. */
  ghost predicate Took(cfg: Config, s: State, t: State, f: Feed)
  {
    && Settled(t)
    && t.cfg == s.cfg && t.usageIn == s.usageIn && t.usageOut == s.usageOut && t.msgId == s.msgId && t.model == s.model
    && t.hasToolUse == (s.hasToolUse || f.item.FunctionCall?)
    && Held(t) == Held(s).(content := Held(s).content + StreamView(cfg, f))
    && Kept(t, f.item)
    && (forall item :: Kept(s, item) ==> Kept(t, item))
    && (forall item :: Unseen(s, item) && !Clash(f.item, item) ==> Unseen(t, item))
  }

  /** The item has been dealt with: the final output must not show it again. */
  predicate Kept(s: State, item: Item)
  {
    match item
    case Message(id, parts) =>
      Concat(Texts(parts)) == "" || (TextKey(id) in s.blocks && s.blocks[TextKey(id)].emitted && s.blocks[TextKey(id)].kind == Text)
    case FunctionCall(id, _, _, _, _) => ToolKey(id) in s.blocks
    case Reasoning(id, summary, signature) =>
      || !s.cfg.thinkingEnabled || ThinkKey(id) in s.completed
      || (VisibleSummary(s.cfg, summary) == "" && signature == "")
    case _ => true
  }

  predicate Unseen(s: State, item: Item)
  {
    match item
    case Message(id, _) => TextKey(id) !in s.blocks
    case FunctionCall(id, _, _, _, _) => ToolKey(id) !in s.blocks
    case Reasoning(id, _, _) => ThinkKey(id) !in s.completed
    case _ => true
  }

  lemma TextToolApart(a: string, b: string)
    ensures TextKey(a) != ToolKey(b)
  {
    assert TextKey(a)[1] == 'e' && ToolKey(b)[1] == 'o' by {
      assert "text:"[1] == 'e' && "tool:"[1] == 'o';
      assert HasPrefix(TextKey(a), "text:") && HasPrefix(ToolKey(b), "tool:");
    }
  }

  lemma ShownTook(cfg: Config, s: State, t: State, f: Feed, k: string, b: Block)
    requires Settled(s) && Unseen(s, f.item)
    requires b.stopped
    requires |StreamView(cfg, f)| == 1 && Shown(s, t, k, b, StreamView(cfg, f)[0])
    requires (f.item.Message? && k == TextKey(f.item.id) && b.kind == Text && b.emitted)
          || (f.item.FunctionCall? && k == ToolKey(f.item.id))
    ensures Took(cfg, s, t, f)
  {
    assert [StreamView(cfg, f)[0]] == StreamView(cfg, f);
    forall item | Unseen(s, item) && !Clash(f.item, item) ensures Unseen(t, item) {
      if f.item.Message? && item.FunctionCall? { TextToolApart(f.item.id, item.id); }
      if f.item.FunctionCall? && item.Message? { TextToolApart(item.id, f.item.id); }
    }
    forall item | Kept(s, item) ensures Kept(t, item) {
      if f.item.Message? && item.FunctionCall? { TextToolApart(f.item.id, item.id); }
      if f.item.FunctionCall? && item.Message? { TextToolApart(item.id, f.item.id); }
    }
  }

  lemma SameTook(cfg: Config, s: State, t: State, f: Feed)
    requires Settled(s)
    requires t == s.(reasoning := t.reasoning, stopPending := t.stopPending)
    requires StreamView(cfg, f) == [] && !f.item.FunctionCall? && Kept(t, f.item)
    ensures Took(cfg, s, t, f)
  {
    assert Held(s).content + [] == Held(s).content;
    forall item | Kept(s, item) ensures Kept(t, item) {}
    forall item | Unseen(s, item) ensures Unseen(t, item) {}
  }

  lemma {:induction false} TextsNonEmpty(parts: seq<Part>)
    ensures forall i :: 0 <= i < |Texts(parts)| ==> Texts(parts)[i] != ""
    ensures Concat(Texts(parts)) == "" <==> Texts(parts) == []
  {
    if parts != [] {
      TextsNonEmpty(parts[1..]);
      if parts[0].textual && parts[0].text != "" {
        assert Texts(parts)[1..] == Texts(parts[1..]);
      }
    }
  }

  /** The state in which a completed message is stopped. */
  function MessageText(t: State, f: Feed, acc: string): State
    requires f.item.Message?
  {
    if acc == "" then TextsOn(t, Trim(f.item.id), Texts(f.item.parts)) else t
  }

  lemma MessageCompletes(s: State, t: State, f: Feed, acc: string)
    requires f.item.Message? && Identified(f) && Unseen(s, f.item) && TextSoFar(s, t, TextKey(f.item.id), acc)
    ensures Step(t, ItemDone(f.item, f.at)) == StopBlock(MessageText(t, f, acc), Trim(f.item.id), Text)
  {
    hide ReadReply, BlockKey, Texts, Trim, TextsOn, StopBlock;
    KeysAgree(f.item.id, "", f.at);
  }

  lemma TextStops(s: State, t: State, key: string, acc: string)
    requires Settled(s) && BlockKey(Text, key) !in s.blocks && TextSoFar(s, t, BlockKey(Text, key), acc)
    ensures var u := StopBlock(t, key, Text);
            if acc == "" then u == s else Shown(s, u, BlockKey(Text, key), Block(s.nextIndex, Text, true, true), TextContent(acc))
  {
    hide ReadReply, BlockKey, Settled;
    if acc != "" {
      HeldEmit(t, BlockStop(s.nextIndex));
    }
  }

  /** Completing a message: the rest of its text if no delta showed it, then the stop. */
  lemma MessageDone(s: State, t: State, f: Feed, acc: string)
    requires Settled(s) && f.item.Message? && Identified(f) && Unseen(s, f.item)
    requires TextSoFar(s, t, TextKey(f.item.id), acc)
    requires acc == "" || acc == Concat(Texts(f.item.parts))
    ensures var u := Step(t, ItemDone(f.item, f.at)); var all := Concat(Texts(f.item.parts));
            if all == "" then u == s else Shown(s, u, TextKey(f.item.id), Block(s.nextIndex, Text, true, true), TextContent(all))
  {
    hide ReadReply, BlockKey, Texts, Settled, Trim, Step, TextsOn, StopBlock;
    var key := Trim(f.item.id);
    var all := Concat(Texts(f.item.parts));
    MessageCompletes(s, t, f, acc);
    if acc == "" {
      TextsShown(s, t, key, "", Texts(f.item.parts));
      assert "" + all == all;
    }
    TextStops(s, MessageText(t, f, acc), key, all);
  }

  lemma MessageFeed(cfg: Config, s: State, f: Feed)
    requires cfg == s.cfg && Settled(s) && f.item.Message? && Identified(f) && Faithful(f) && Unseen(s, f.item)
    ensures Took(cfg, s, Run(s, FeedEvents(f)), f)
  {
    hide ReadReply, BlockKey, Texts, Trim, Run, Took, Settled, TextsOn, Shown;
    var key := Trim(f.item.id);
    SettledStarted(s);
    FeedRun(s, f);
    MessageOpens(s, f);
    assert Body(f) == Deltas(f, f.chunks);
    TextEvents(s, f, f.chunks);
    TextsShown(s, s, key, "", f.chunks);
    assert "" + Concat(f.chunks) == Concat(f.chunks);
    var t := TextsOn(s, key, f.chunks);
    MessageDone(s, t, f, Concat(f.chunks));
    MessageCloses(t, f);
    var u := Run(s, FeedEvents(f));
    if Concat(Texts(f.item.parts)) == "" {
      SameTook(cfg, s, u, f);
    } else {
      ShownTook(cfg, s, u, f, TextKey(f.item.id), Block(s.nextIndex, Text, true, true));
    }
  }

  lemma MessageOpens(s: State, f: Feed)
    requires s.started && f.item.Message?
    ensures Run(s, Opening(f)) == s
  {
    OpeningRun(s, f);
  }

  lemma MessageCloses(s: State, f: Feed)
    requires f.item.Message?
    ensures Run(s, Closing(f)) == Step(s, ItemDone(f.item, f.at))
  {
    hide OnItemDone;
    ClosingRun(s, f);
  }

  /** A feed runs as its opening, its pieces and its closing. */
  lemma FeedRun(s: State, f: Feed)
    ensures Run(s, FeedEvents(f)) == Run(Run(Run(s, Opening(f)), Body(f)), Closing(f))
  {
    hide Run, Opening, Body, Closing;
    RunAppend(s, Opening(f) + Body(f), Closing(f));
    RunAppend(s, Opening(f), Body(f));
  }

  lemma OpeningRun(s: State, f: Feed)
    ensures Run(s, Opening(f)) == if f.added then Step(s, ItemAdded(Announced(f), f.at)) else s
  {
    hide Step;
    if f.added { RunOne(s, ItemAdded(Announced(f), f.at)); }
  }

  lemma ClosingRun(s: State, f: Feed)
    ensures var s1 := if f.settled && f.item.FunctionCall?
                      then Step(s, ArgumentsDone(f.at, f.callId, f.name, f.item.arguments)) else s;
            Run(s, Closing(f)) == Step(s1, ItemDone(f.item, f.at))
  {
    hide Step;
    var done := ItemDone(f.item, f.at);
    if f.settled && f.item.FunctionCall? {
      var first := ArgumentsDone(f.at, f.callId, f.name, f.item.arguments);
      RunAppend(s, [first], [done]);
      RunOne(s, first);
      RunOne(Step(s, first), done);
    } else {
      assert Closing(f) == [done];
      RunOne(s, done);
    }
  }

  // Tool calls

  ghost predicate ToolSoFar(s: State, t: State, f: Feed, acc: string, stopped: bool)
    requires f.item.FunctionCall?
  {
    Shown(s, t, ToolKey(f.item.id), Block(s.nextIndex, Tool, acc != "", stopped), CallShown(f, acc))
  }

  /** The block opens under the call id and name of the first event that shows it. */
  lemma ToolOpens(s: State, f: Feed)
    requires Settled(s) && f.item.FunctionCall? && Identified(f) && Unseen(s, f.item)
    ensures var (callId, name) := Heading(f);
            ToolSoFar(s, EnsureToolBlock(s, Trim(f.item.id), FirstNonEmpty(callId, f.item.id), name), f, "", false)
  {
    hide ReadReply, BlockKey, Trim;
    var (callId, name) := Heading(f);
    var shown := FirstNonEmpty(callId, f.item.id);
    KeysAgree(f.item.id, callId, f.at);
    KeysAgree(f.item.id, shown, f.at);
    HeldEmit(s, BlockStart(s.nextIndex, ToolBody(shown, if name == "" then "tool" else name)));
  }

  lemma ToolWrites(s: State, t: State, f: Feed, acc: string, stopped: bool, callId: string, name: string, args: string)
    requires Settled(s) && f.item.FunctionCall? && Identified(f) && ToolSoFar(s, t, f, acc, stopped)
    ensures EnsureToolBlock(t, Trim(f.item.id), callId, name) == t
    ensures ToolSoFar(s, WriteArguments(t, Trim(f.item.id), callId, name, args), f,
                      if stopped then acc else acc + args, stopped)
  {
    hide ReadReply, BlockKey, Trim, Heading;
    KeysAgree(f.item.id, callId, f.at);
    if args == "" || stopped {
      assert acc + "" == acc;
    } else {
      HeldEmit(t, BlockDelta(s.nextIndex, JsonPiece(args)));
      var u := WriteArguments(t, Trim(f.item.id), callId, name, args);
      assert Held(u).content == Held(s).content + [CallShown(f, acc + args)];
    }
  }

  lemma ToolStops(s: State, t: State, f: Feed, acc: string, stopped: bool)
    requires Settled(s) && f.item.FunctionCall? && Identified(f) && ToolSoFar(s, t, f, acc, stopped)
    ensures ToolSoFar(s, StopBlock(t, Trim(f.item.id), Tool), f, acc, true)
  {
    hide ReadReply, BlockKey, Trim, Heading;
    KeysAgree(f.item.id, "", f.at);
    TrimTrim(f.item.id);
    if !stopped {
      HeldEmit(t, BlockStop(s.nextIndex));
    }
  }

  /** Completing a call shows its arguments if no delta did, once. */
  lemma ToolCompletes(s: State, t: State, f: Feed, acc: string, stopped: bool, callId: string, name: string)
    requires Settled(s) && f.item.FunctionCall? && Identified(f) && ToolSoFar(s, t, f, acc, stopped)
    requires acc == f.item.arguments || (acc == "" && !stopped)
    ensures ToolSoFar(s, CompleteCall(t, Trim(f.item.id), callId, name, f.item.arguments), f, f.item.arguments, true)
  {
    hide ReadReply, BlockKey, Trim, WriteArguments, StopBlock, EnsureToolBlock, Heading;
    var args := f.item.arguments;
    KeysAgree(f.item.id, callId, f.at);
    ToolWrites(s, t, f, acc, stopped, callId, name, args);
    assert "" + args == args;
    var k := BlockKey(Tool, FirstNonEmpty(Trim(f.item.id), callId));
    var u := if t.blocks[k].emitted then t else WriteArguments(t, Trim(f.item.id), callId, name, args);
    assert ToolSoFar(s, u, f, args, stopped);
    ToolStops(s, u, f, args, stopped);
  }

  /** Completing a call nothing showed yet, under its heading. */
  lemma FreshCompletes(s: State, f: Feed, callId: string, name: string)
    requires Settled(s) && f.item.FunctionCall? && Identified(f) && Unseen(s, f.item)
    requires callId == FirstNonEmpty(Heading(f).0, f.item.id) && name == Heading(f).1
    ensures ToolSoFar(s, CompleteCall(s, Trim(f.item.id), callId, name, f.item.arguments), f, f.item.arguments, true)
  {
    hide ReadReply, BlockKey, Trim, EnsureToolBlock, WriteArguments, StopBlock, Settled, Heading;
    ToolOpens(s, f);
    var s1 := EnsureToolBlock(s, Trim(f.item.id), callId, name);
    ToolWrites(s, s1, f, "", false, callId, name, "");
    ToolCompletes(s, s1, f, "", false, callId, name);
    assert CompleteCall(s, Trim(f.item.id), callId, name, f.item.arguments)
        == CompleteCall(s1, Trim(f.item.id), callId, name, f.item.arguments);
  }

  /** A call that may not have been shown yet: nothing happened, or its block holds what was sent. */
  ghost predicate CallSoFar(s: State, t: State, f: Feed, acc: string)
    requires f.item.FunctionCall?
  {
    if !f.added && acc == "" then t == s else ToolSoFar(s, t, f, acc, false)
  }

  /** The first piece of a call that was never announced opens its block. */
  lemma FirstPiece(s: State, f: Feed, piece: string)
    requires Settled(s) && f.item.FunctionCall? && Identified(f) && Unseen(s, f.item) && piece != ""
    requires Heading(f) == (f.callId, f.name)
    ensures ToolSoFar(s, WriteArguments(s, Trim(f.item.id), FirstNonEmpty(f.callId, f.item.id), f.name, piece), f, piece, false)
  {
    hide ReadReply, BlockKey, Trim, EnsureToolBlock, Settled, Heading;
    var callId := FirstNonEmpty(f.callId, f.item.id);
    ToolOpens(s, f);
    var s1 := EnsureToolBlock(s, Trim(f.item.id), callId, f.name);
    ToolWrites(s, s1, f, "", false, callId, f.name, piece);
    assert "" + piece == piece;
    assert WriteArguments(s, Trim(f.item.id), callId, f.name, piece) == WriteArguments(s1, Trim(f.item.id), callId, f.name, piece);
  }

  lemma OnePiece(s: State, t: State, f: Feed, acc: string, piece: string)
    requires Settled(s) && f.item.FunctionCall? && Identified(f) && Unseen(s, f.item) && CallSoFar(s, t, f, acc)
    requires !f.added && acc + piece != "" ==> Heading(f) == (f.callId, f.name)
    ensures CallSoFar(s, Step(t, ArgumentsDelta(f.at, f.callId, f.name, piece)), f, acc + piece)
  {
    hide ReadReply, BlockKey, Trim, WriteArguments, EnsureToolBlock, Settled, Heading;
    var callId := FirstNonEmpty(f.callId, f.item.id);
    KeysAgree(f.item.id, callId, f.at);
    SettledStarted(s);
    var u := WriteArguments(t, Trim(f.item.id), callId, f.name, piece);
    assert Step(t, ArgumentsDelta(f.at, f.callId, f.name, piece)) == u;
    if !f.added && acc == "" {
      assert acc + piece == piece;
      if piece == "" { NoPiece(t, Trim(f.item.id), callId, f.name); } else { FirstPiece(s, f, piece); }
    } else {
      ToolWrites(s, t, f, acc, false, callId, f.name, piece);
    }
  }

  lemma NoPiece(t: State, key: string, callId: string, name: string)
    ensures WriteArguments(t, key, callId, name, "") == t
  {
  }

  lemma {:induction false} ToolEvents(s: State, t: State, f: Feed, acc: string, chunks: seq<string>)
    requires Settled(s) && f.item.FunctionCall? && Identified(f) && Unseen(s, f.item) && CallSoFar(s, t, f, acc)
    requires !f.added && acc + Concat(chunks) != "" ==> Heading(f) == (f.callId, f.name)
    ensures CallSoFar(s, Run(t, Deltas(f, chunks)), f, acc + Concat(chunks))
    decreases |chunks|
  {
    hide CallSoFar, Step, Settled, Unseen, Identified, Heading;
    if chunks == [] {
      assert acc + "" == acc;
    } else {
      var e := ArgumentsDelta(f.at, f.callId, f.name, chunks[0]);
      assert Deltas(f, chunks)[0] == e && Deltas(f, chunks)[1..] == Deltas(f, chunks[1..]);
      assert acc + chunks[0] + Concat(chunks[1..]) == acc + (chunks[0] + Concat(chunks[1..]));
      OnePiece(s, t, f, acc, chunks[0]);
      ToolEvents(s, Step(t, e), f, acc + chunks[0], chunks[1..]);
    }
  }

  lemma SettledStarted(s: State)
    requires Settled(s)
    ensures s.started && s.thinking.None? && !s.finished
  {
  }

  lemma ToolAnnounced(s: State, f: Feed)
    requires Settled(s) && f.item.FunctionCall? && Identified(f) && Unseen(s, f.item) && f.added
    ensures ToolSoFar(s, Step(s, ItemAdded(Announced(f), f.at)), f, f.early, false)
  {
    hide ReadReply, BlockKey, Trim, WriteArguments, EnsureToolBlock, Settled;
    SettledStarted(s);
    var callId := FirstNonEmpty(f.item.callId, f.item.id);
    KeysAgree(f.item.id, callId, f.at);
    ToolOpens(s, f);
    ToolWrites(s, EnsureToolBlock(s, Trim(f.item.id), callId, f.item.name), f, "", false, callId, f.item.name, f.early);
    assert "" + f.early == f.early;
  }

  /** A completion of the call, shown before or not, leaves it whole. */
  lemma OneCompletion(s: State, t: State, f: Feed, acc: string, stopped: bool, callId: string, name: string)
    requires Settled(s) && f.item.FunctionCall? && Identified(f) && Unseen(s, f.item)
    requires acc == f.item.arguments || (acc == "" && !stopped)
    requires if stopped then ToolSoFar(s, t, f, acc, true) else CallSoFar(s, t, f, acc)
    requires !f.added && acc == "" && !stopped ==> callId == FirstNonEmpty(Heading(f).0, f.item.id) && name == Heading(f).1
    ensures ToolSoFar(s, CompleteCall(t, Trim(f.item.id), callId, name, f.item.arguments), f, f.item.arguments, true)
  {
    hide ToolSoFar, CompleteCall, Heading, Settled, Unseen, Identified;
    if !f.added && acc == "" && !stopped {
      FreshCompletes(s, f, callId, name);
    } else {
      ToolCompletes(s, t, f, acc, stopped, callId, name);
    }
  }

  lemma CallSteps(t: State, f: Feed)
    requires t.started && f.item.FunctionCall? && Identified(f)
    ensures Step(t, ArgumentsDone(f.at, f.callId, f.name, f.item.arguments))
         == CompleteCall(t, Trim(f.item.id), FirstNonEmpty(f.callId, f.item.id), f.name, f.item.arguments)
    ensures Step(t, ItemDone(f.item, f.at))
         == CompleteCall(t, Trim(f.item.id), FirstNonEmpty(f.item.callId, f.item.id), f.item.name, f.item.arguments)
  {
    hide Trim, CompleteCall;
    KeysAgree(f.item.id, FirstNonEmpty(f.callId, f.item.id), f.at);
    KeysAgree(f.item.id, FirstNonEmpty(f.item.callId, f.item.id), f.at);
  }

  lemma StaysStarted(s: State, t: State, f: Feed, acc: string, stopped: bool)
    requires Settled(s) && f.item.FunctionCall? && ToolSoFar(s, t, f, acc, stopped)
    ensures t.started
  {
  }

  lemma ToolFinished(s: State, t: State, f: Feed, acc: string)
    requires Settled(s) && f.item.FunctionCall? && Identified(f) && Unseen(s, f.item) && CallSoFar(s, t, f, acc)
    requires acc == f.item.arguments || acc == ""
    requires acc == Early(f) + Concat(f.chunks)
    ensures ToolSoFar(s, Run(t, Closing(f)), f, f.item.arguments, true)
  {
    hide ToolSoFar, CompleteCall, Settled, Unseen, Identified, Step, Run;
    SettledStarted(s);
    ClosingRun(t, f);
    if f.added || acc != "" { StaysStarted(s, t, f, acc, false); }
    CallSteps(t, f);
    assert !f.added ==> acc == Concat(f.chunks);
    var callId := FirstNonEmpty(f.item.callId, f.item.id);
    if f.settled {
      var u := Step(t, ArgumentsDone(f.at, f.callId, f.name, f.item.arguments));
      OneCompletion(s, t, f, acc, false, FirstNonEmpty(f.callId, f.item.id), f.name);
      StaysStarted(s, u, f, f.item.arguments, true);
      CallSteps(u, f);
      OneCompletion(s, u, f, f.item.arguments, true, callId, f.item.name);
    } else {
      OneCompletion(s, t, f, acc, false, callId, f.item.name);
    }
  }

  lemma CallFeed(cfg: Config, s: State, f: Feed)
    requires cfg == s.cfg && Settled(s) && f.item.FunctionCall? && Identified(f) && Faithful(f) && Unseen(s, f.item)
    ensures Took(cfg, s, Run(s, FeedEvents(f)), f)
  {
    hide ReadReply, BlockKey, Trim, CompleteCall, Step, Took, Run, Settled;
    FeedRun(s, f);
    OpeningRun(s, f);
    var u := Run(s, FeedEvents(f));
    var t := Run(s, Opening(f));
    if f.added { ToolAnnounced(s, f); }
    assert CallSoFar(s, t, f, Early(f));
    assert !f.added ==> Early(f) + Concat(f.chunks) == Concat(f.chunks);
    assert Body(f) == Deltas(f, f.chunks);
    ToolEvents(s, t, f, Early(f), f.chunks);
    ToolFinished(s, Run(t, Body(f)), f, Early(f) + Concat(f.chunks));
    assert ToolSoFar(s, u, f, f.item.arguments, true);
    ShownTook(cfg, s, u, f, ToolKey(f.item.id), Block(s.nextIndex, Tool, f.item.arguments != "", true));
  }

  // Reasoning

  /** `t` is `s` with the blocks of `texts` shown under `key` and shut; the next one is signed `sig`. */
  ghost predicate Shut(s: State, t: State, key: string, early: string, texts: seq<string>, sig: string)
  {
    && t == s.(nextIndex := s.nextIndex + |texts|, out := t.out, reasoning := t.reasoning, stopPending := t.stopPending,
               signature := sig, completed := s.completed + if texts == [] then {} else {key})
    && (texts == [] ==> t.out == s.out)
    && Held(t) == Held(s).(content := Held(s).content + ThoughtContents(texts, early))
  }

  /** `t` is `s` with the blocks of `texts` shut and one more open, holding `acc`. */
  ghost predicate Open(s: State, t: State, key: string, early: string, texts: seq<string>, acc: string, sig: string)
  {
    && t.thinking.Some? && t.thinking.value.index == s.nextIndex + |texts| && t.reasoning == key
    && t == s.(thinking := t.thinking, nextIndex := s.nextIndex + |texts| + 1, out := t.out, reasoning := key,
               stopPending := t.stopPending, signature := sig, completed := s.completed + if texts == [] then {} else {key})
    && Held(t) == Held(s).(content := Held(s).content + ThoughtContents(texts, early) + [ThinkingContent(acc, "")])
  }

  lemma ThinkOpens(s: State, t: State, key: string, early: string, texts: seq<string>, sig: string)
    requires Settled(s) && s.cfg.thinkingEnabled && Shut(s, t, key, early, texts, sig)
    ensures var u := EnsureThinkingBlock(t.(reasoning := key)); Open(s, u, key, early, texts, "", sig) && !u.stopPending
  {
    hide ReadReply, ThoughtContents;
    HeldEmit(t.(reasoning := key), BlockStart(t.nextIndex, ThinkingBody));
  }

  lemma ThinkWrites(s: State, t: State, key: string, early: string, texts: seq<string>, acc: string, sig: string, text: string)
    requires Settled(s) && s.cfg.thinkingEnabled && Open(s, t, key, early, texts, acc, sig)
    ensures Open(s, WriteThinking(t, text), key, early, texts, if s.cfg.thinkingDisplay == "omitted" then acc else acc + text, sig)
    ensures WriteThinking(t, text).stopPending == t.stopPending
  {
    hide ReadReply, ThoughtContents;
    if text == "" || s.cfg.thinkingDisplay == "omitted" {
      assert acc + "" == acc;
    } else {
      HeldEmit(t, BlockDelta(t.thinking.value.index, ThinkingPiece(text)));
      assert Held(WriteThinking(t, text)).content
          == Held(s).content + ThoughtContents(texts, early) + [ThinkingContent(acc + text, "")];
    }
  }

  /** Signing and stopping the open block leaves its text with the signature. */
  lemma ThinkSigned(s: State, t: State, key: string, early: string, texts: seq<string>, acc: string, sig: string)
    requires Settled(s) && s.cfg.thinkingEnabled && Open(s, t, key, early, texts, acc, sig)
    ensures var i := t.thinking.value.index; var u := Emit(SignThinking(t, i), BlockStop(i));
            && u == t.(out := u.out)
            && Held(u) == Held(s).(content := Held(s).content + ThoughtContents(texts, early) + [ThinkingContent(acc, sig)])
  {
    hide ReadReply, ThoughtContents;
    var i := t.thinking.value.index;
    if sig != "" {
      HeldEmit(t, BlockDelta(i, SignaturePiece(sig)));
      assert "" + sig == sig;
    }
    var t1 := SignThinking(t, i);
    assert Held(t1).content == Held(s).content + ThoughtContents(texts, early) + [ThinkingContent(acc, sig)];
    HeldEmit(t1, BlockStop(i));
  }

  lemma ContentsSnoc(texts: seq<string>, text: string, sig: string)
    ensures ThoughtContents(texts + [text], sig) == ThoughtContents(texts, sig) + [ThinkingContent(text, sig)]
  {
  }

  /** A part that follows an ended one shuts the open block. */
  lemma ThinkShuts(s: State, t: State, key: string, early: string, texts: seq<string>, acc: string)
    requires Settled(s) && s.cfg.thinkingEnabled && key != "" && Open(s, t, key, early, texts, acc, early)
    ensures Shut(s, FinalizeThinking(t, false), key, early, texts + [acc], early)
  {
    hide ReadReply, ThoughtContents, SignThinking;
    ThinkSigned(s, t, key, early, texts, acc, early);
    ContentsSnoc(texts, acc, early);
    assert Held(s).content + ThoughtContents(texts, early) + [ThinkingContent(acc, early)]
        == Held(s).content + (ThoughtContents(texts, early) + [ThinkingContent(acc, early)]);
    var i := t.thinking.value.index;
    assert FinalizeThinking(t, false) == RetireThinking(Emit(SignThinking(t, i), BlockStop(i)), false);
  }

  /** The item's blocks are closed under `key` and hold `contents`. */
  ghost predicate Thought(s: State, t: State, key: string, contents: seq<Content>)
  {
    && t == s.(nextIndex := s.nextIndex + |contents|, out := t.out, completed := s.completed + {key},
               reasoning := t.reasoning, stopPending := t.stopPending)
    && Held(t) == Held(s).(content := Held(s).content + contents)
  }

  lemma ThinkCloses(s: State, t: State, key: string, early: string, texts: seq<string>, acc: string, sig: string)
    requires Settled(s) && s.cfg.thinkingEnabled && key != "" && Open(s, t, key, early, texts, acc, sig)
    ensures Thought(s, FinalizeThinking(t, true), key, ThoughtContents(texts, early) + [ThinkingContent(acc, sig)])
  {
    hide ReadReply, ThoughtContents, SignThinking;
    ThinkSigned(s, t, key, early, texts, acc, sig);
    SettledUnsigned(s);
    assert Held(s).content + ThoughtContents(texts, early) + [ThinkingContent(acc, sig)]
        == Held(s).content + (ThoughtContents(texts, early) + [ThinkingContent(acc, sig)]);
    var i := t.thinking.value.index;
    assert FinalizeThinking(t, true) == RetireThinking(Emit(SignThinking(t, i), BlockStop(i)), true);
  }

  lemma SettledUnsigned(s: State)
    requires Settled(s)
    ensures s.signature == ""
  {
  }

  lemma ThoughtTook(cfg: Config, s: State, t: State, f: Feed)
    requires Settled(s) && f.item.Reasoning? && Thought(s, t, ThinkKey(f.item.id), StreamView(cfg, f))
    ensures Took(cfg, s, t, f)
  {
    hide StreamView, ReadReply;
    forall item | Kept(s, item) ensures Kept(t, item) {}
    forall item | Unseen(s, item) && !Clash(f.item, item) ensures Unseen(t, item) {}
  }

  // A live summary

  ghost predicate ThinkSoFar(s: State, t: State, f: Feed, th: Thoughts)
    requires f.item.Reasoning?
  {
    var key := ThinkKey(f.item.id);
    if th.open.None? then th.shut == [] && Shut(s, t, key, Early(f), [], Early(f))
    else Open(s, t, key, Early(f), th.shut, th.open.value, Early(f)) && t.stopPending == th.ended
  }

  lemma ReasoningKeys(f: Feed)
    requires f.item.Reasoning? && Identified(f)
    ensures ReasoningKey(ReasoningEventKey(f.at)) == ThinkKey(f.item.id) != ""
    ensures ReasoningKey(FirstNonEmpty(f.item.id, ReasoningEventKey(f.at))) == ThinkKey(f.item.id)
  {
    hide Trim;
    KeysAgree(f.item.id, "", f.at);
    ReasoningKeyTwice(Trim(f.item.id));
    FinalReasoningKey(f.item, ReasoningEventKey(f.at));
  }

  lemma FinalReasoningKey(item: Item, fallback: string)
    requires item.Reasoning? && Trim(item.id) != ""
    ensures ReasoningKey(FirstNonEmpty(item.id, fallback)) == ThinkKey(item.id)
  {
  }

  /** A part that finds no block opens the first one; one that finds an ended part opens the next. */
  lemma LiveStart(s: State, t: State, f: Feed, th: Thoughts)
    requires Settled(s) && s.cfg.thinkingEnabled && f.item.Reasoning? && Identified(f) && ThinkSoFar(s, t, f, th)
    ensures ThinkSoFar(s, StartThinkingPart(t, ReasoningEventKey(f.at)), f, Think(s.cfg.thinkingDisplay == "omitted", th, PartStart))
  {
    hide ReadReply, Trim, ReasoningKey, ThoughtContents, FinalizeThinking, EnsureThinkingBlock;
    ReasoningKeys(f);
    var key := ThinkKey(f.item.id);
    SettledStarted(s);
    if th.open.None? {
      ThinkOpens(s, t, key, Early(f), [], Early(f));
    } else if th.ended {
      ThinkShuts(s, t, key, Early(f), th.shut, th.open.value);
      ThinkOpens(s, FinalizeThinking(t, false), key, Early(f), th.shut + [th.open.value], Early(f));
    } else {
      BlockStaysOpen(t.(reasoning := key));
    }
  }

  lemma BlockStaysOpen(t: State)
    requires t.thinking.Some?
    ensures EnsureThinkingBlock(t) == t
  {
  }

  lemma LivePiece(s: State, t: State, f: Feed, th: Thoughts, text: string)
    requires Settled(s) && s.cfg.thinkingEnabled && f.item.Reasoning? && Identified(f) && ThinkSoFar(s, t, f, th)
    ensures ThinkSoFar(s, Step(t, ReasoningDelta(f.at, text)), f, Think(s.cfg.thinkingDisplay == "omitted", th, Piece(text)))
  {
    hide Open, Shut, Trim, ReasoningKey, StartThinkingPart, WriteThinking, ThinkKey, Settled, Identified;
    LiveStarted(s, t, f, th);
    var omit := s.cfg.thinkingDisplay == "omitted";
    LiveStart(s, t, f, th);
    var t1 := if t.thinking.None? then StartThinkingPart(t, ReasoningEventKey(f.at)) else t;
    var now := if th.open.None? then Think(omit, th, PartStart) else th;
    assert ThinkSoFar(s, t1, f, now);
    ThinkWrites(s, t1, ThinkKey(f.item.id), Early(f), now.shut, now.open.value, Early(f), text);
    assert now.open.value + "" == now.open.value;
    assert Step(t, ReasoningDelta(f.at, text)) == WriteThinking(t1, text);
  }

  lemma LiveStep(s: State, t: State, f: Feed, th: Thoughts, l: Live)
    requires Settled(s) && s.cfg.thinkingEnabled && f.item.Reasoning? && Identified(f) && ThinkSoFar(s, t, f, th)
    ensures ThinkSoFar(s, Step(t, LiveEvent(f, l)), f, Think(s.cfg.thinkingDisplay == "omitted", th, l))
  {
    hide ThinkSoFar, Think, StartThinkingPart, Settled, Identified;
    match l
    case PartStart =>
      LiveStart(s, t, f, th);
      LiveStarted(s, t, f, th);
    case Piece(text) =>
      hide Step;
      LivePiece(s, t, f, th, text);
    case PartEnd => LiveEnd(s, t, f, th);
  }

  lemma LiveStarted(s: State, t: State, f: Feed, th: Thoughts)
    requires Settled(s) && f.item.Reasoning? && ThinkSoFar(s, t, f, th)
    ensures t.started && t.thinking.Some? == th.open.Some?
  {
    hide ReadReply;
  }

  lemma LiveEnd(s: State, t: State, f: Feed, th: Thoughts)
    requires Settled(s) && f.item.Reasoning? && ThinkSoFar(s, t, f, th)
    ensures ThinkSoFar(s, t.(stopPending := true), f, Think(s.cfg.thinkingDisplay == "omitted", th, PartEnd))
  {
    hide Shut, Open, ThinkKey, Settled;
    var key, e := ThinkKey(f.item.id), Early(f);
    if th.open.None? {
      ShutFlag(s, t, key, e, [], e);
    } else {
      OpenFlag(s, t, key, e, th.shut, th.open.value, e);
    }
  }

  lemma ShutFlag(s: State, t: State, key: string, early: string, texts: seq<string>, sig: string)
    requires Shut(s, t, key, early, texts, sig)
    ensures Shut(s, t.(stopPending := true), key, early, texts, sig)
  {
    hide ReadReply, ThoughtContents;
  }

  lemma OpenFlag(s: State, t: State, key: string, early: string, texts: seq<string>, acc: string, sig: string)
    requires Open(s, t, key, early, texts, acc, sig)
    ensures Open(s, t.(stopPending := true), key, early, texts, acc, sig)
  {
    hide ReadReply, ThoughtContents;
  }

  lemma {:induction false} LiveRun(s: State, t: State, f: Feed, th: Thoughts, live: seq<Live>)
    requires Settled(s) && s.cfg.thinkingEnabled && f.item.Reasoning? && Identified(f) && ThinkSoFar(s, t, f, th)
    ensures ThinkSoFar(s, Run(t, Lives(f, live)), f, ThinkAll(s.cfg.thinkingDisplay == "omitted", th, live))
    decreases |live|
  {
    hide ThinkSoFar, Step, Settled, Identified, LiveEvent, Think;
    if live != [] {
      assert Lives(f, live)[0] == LiveEvent(f, live[0]) && Lives(f, live)[1..] == Lives(f, live[1..]);
      LiveStep(s, t, f, th, live[0]);
      LiveRun(s, Step(t, LiveEvent(f, live[0])), f, Think(s.cfg.thinkingDisplay == "omitted", th, live[0]), live[1..]);
    }
  }

  /** With thinking off, a live summary shows nothing. */
  lemma {:induction false} DisabledRun(s: State, t: State, f: Feed, live: seq<Live>)
    requires Settled(s) && !s.cfg.thinkingEnabled && f.item.Reasoning?
    requires t == s.(reasoning := t.reasoning, stopPending := t.stopPending)
    ensures var u := Run(t, Lives(f, live)); u == s.(reasoning := u.reasoning, stopPending := u.stopPending)
    decreases |live|
  {
    if live != [] {
      SettledStarted(s);
      assert Lives(f, live)[0] == LiveEvent(f, live[0]) && Lives(f, live)[1..] == Lives(f, live[1..]);
      DisabledStep(t, f, live[0]);
      DisabledRun(s, Step(t, LiveEvent(f, live[0])), f, live[1..]);
    }
  }

  lemma DisabledStep(t: State, f: Feed, l: Live)
    requires t.started && !t.cfg.thinkingEnabled
    ensures var u := Step(t, LiveEvent(f, l)); u == t.(stopPending := u.stopPending)
  {
  }

  // A whole reasoning item

  lemma ReasoningAnnounced(s: State, f: Feed)
    requires Settled(s) && f.item.Reasoning? && Identified(f)
    ensures var t := Run(s, Opening(f));
            && t == s.(reasoning := t.reasoning, signature := t.signature)
            && t.signature == (if s.cfg.thinkingEnabled then Early(f) else "")
  {
    hide ReadReply, Trim, Run;
    OpeningRun(s, f);
  }

  /** A reasoning item's completion notes its key and signature. */
  function DoneNote(t: State, f: Feed): State
    requires f.item.Reasoning?
  {
    CaptureSignature(t.(reasoning := ThinkKey(f.item.id)), ThinkKey(f.item.id), f.item.signature)
  }

  lemma ReasoningDone(t: State, f: Feed)
    requires f.item.Reasoning? && Identified(f)
    ensures var u := DoneNote(t, f);
            && Run(t, Closing(f))
               == (if t.thinking.None? then FinalReasoning(u, f.item, ThinkKey(f.item.id)) else FinalizeThinking(u, true))
            && u == t.(reasoning := ThinkKey(f.item.id),
                       signature := if t.cfg.thinkingEnabled && f.item.signature != "" then f.item.signature else t.signature)
            && ThinkKey(f.item.id) != ""
  {
    hide Trim, FinalReasoning, FinalizeThinking, ReasoningKey, Run;
    ReasoningKeys(f);
    DoneKey(f);
    ClosingRun(t, f);
  }

  lemma DoneKey(f: Feed)
    requires f.item.Reasoning? && Identified(f)
    ensures ReasoningKey(ThinkKey(f.item.id)) == ThinkKey(f.item.id) && Trim(ThinkKey(f.item.id)) != ""
  {
    ReasoningKeyTwice(Trim(f.item.id));
  }

  /** A thinking block shown whole. */
  lemma ShownThought(s: State, u: State, item: Item, key: string, shown: string)
    requires Settled(s) && item.Reasoning? && s.cfg.thinkingEnabled && key != ""
    requires u == s.(reasoning := u.reasoning, signature := u.signature, stopPending := u.stopPending)
    requires s.cfg.thinkingDisplay == "omitted" ==> shown == ""
    ensures Thought(s, ShowReasoning(u, key, shown, item.signature), key, [ThinkingContent(shown, item.signature)])
  {
    hide ReadReply, FinalizeThinking;
    var sig := item.signature;
    var u' := u.(reasoning := key, signature := sig);
    assert ThoughtContents([], "") == [] && Held(s).content + [] == Held(s).content;
    assert Shut(s, u', key, "", [], sig);
    ThinkOpens(s, u', key, "", [], sig);
    var w := EnsureThinkingBlock(u');
    ThinkWrites(s, w, key, "", [], "", sig, shown);
    assert "" + shown == shown;
    ThinkCloses(s, WriteThinking(w, shown), key, "", [], shown, sig);
    assert [] + [ThinkingContent(shown, sig)] == [ThinkingContent(shown, sig)];
  }

  /** An item that showed nothing while it streamed shows at its completion. */
  lemma UnopenedReasoning(cfg: Config, s: State, t: State, f: Feed)
    requires cfg == s.cfg && Settled(s) && f.item.Reasoning? && Identified(f) && Faithful(f) && Unseen(s, f.item)
    requires cfg.thinkingEnabled ==> ThoughtsOf(cfg, f).open.None?
    requires t == s.(reasoning := t.reasoning, signature := t.signature, stopPending := t.stopPending)
    requires t.signature == if cfg.thinkingEnabled then Early(f) else ""
    ensures Took(cfg, s, Run(t, Closing(f)), f)
  {
    hide ReadReply, Trim, Took, ShowReasoning, ReasoningKey, SummaryText, Run, DoneNote, ThoughtsOf;
    ReasoningDone(t, f);
    FinalReasoningKey(f.item, ThinkKey(f.item.id));
    SettledUnsigned(s);
    var u := DoneNote(t, f);
    var v := Run(t, Closing(f));
    var key := ThinkKey(f.item.id);
    var shown := VisibleSummary(cfg, f.item.summary);
    if !cfg.thinkingEnabled || (shown == "" && f.item.signature == "") {
      assert v == u;
      SameTook(cfg, s, v, f);
    } else {
      assert v == ShowReasoning(u, key, shown, f.item.signature);
      ShownThought(s, u, f.item, key, shown);
      ThoughtTook(cfg, s, v, f);
    }
  }

  lemma OpenedReasoning(cfg: Config, s: State, t: State, f: Feed)
    requires cfg == s.cfg && Settled(s) && f.item.Reasoning? && Identified(f) && Faithful(f)
    requires cfg.thinkingEnabled && ThoughtsOf(cfg, f).open.Some? && ThinkSoFar(s, t, f, ThoughtsOf(cfg, f))
    ensures Took(cfg, s, Run(t, Closing(f)), f)
  {
    hide ReadReply, Trim, Took, Run, FinalizeThinking, ThoughtsOf, ThoughtContents, ReasoningKey, DoneNote;
    var th := ThoughtsOf(cfg, f);
    ReasoningDone(t, f);
    var u := DoneNote(t, f);
    var key := ThinkKey(f.item.id);
    assert Held(u) == Held(t);
    ThinkCloses(s, u, key, Early(f), th.shut, th.open.value, f.item.signature);
    ThoughtTook(cfg, s, FinalizeThinking(u, true), f);
  }

  lemma ReasoningFeed(cfg: Config, s: State, f: Feed)
    requires cfg == s.cfg && Settled(s) && f.item.Reasoning? && Identified(f) && Faithful(f) && Unseen(s, f.item)
    ensures Took(cfg, s, Run(s, FeedEvents(f)), f)
  {
    hide ReadReply, Trim, Run, Took, Settled, ThinkAll, Lives, ReasoningKey, Open;
    FeedRun(s, f);
    ReasoningAnnounced(s, f);
    SettledUnsigned(s);
    assert Body(f) == Lives(f, f.live);
    var t1 := Run(s, Opening(f));
    var t := Run(t1, Body(f));
    if !cfg.thinkingEnabled {
      DisabledRun(s, t1, f, f.live);
      UnopenedReasoning(cfg, s, t, f);
    } else {
      assert ThoughtContents([], Early(f)) == [] && Held(s).content + [] == Held(s).content;
      LiveRun(s, t1, f, NoThoughts, f.live);
      if ThoughtsOf(cfg, f).open.Some? {
        OpenedReasoning(cfg, s, t, f);
      } else {
        UnopenedReasoning(cfg, s, t, f);
      }
    }
  }

  // Every item

  lemma OtherSteps(s: State, f: Feed)
    requires s.started && (f.item.ToolCall? || f.item.OtherItem?)
    ensures Step(s, ItemAdded(Announced(f), f.at)) == s && Step(s, ItemDone(f.item, f.at)) == s
  {
  }

  lemma OtherFeed(cfg: Config, s: State, f: Feed)
    requires cfg == s.cfg && Settled(s) && (f.item.ToolCall? || f.item.OtherItem?)
    ensures Took(cfg, s, Run(s, FeedEvents(f)), f)
  {
    hide Took, FeedEvents, Step, Settled, Opening, Closing;
    SettledStarted(s);
    FeedRun(s, f);
    OpeningRun(s, f);
    ClosingRun(s, f);
    OtherSteps(s, f);
    SameTook(cfg, s, s, f);
  }

  /** One item of the stream: its content is appended, and nothing else of the reply changes. */
  lemma FeedTook(cfg: Config, s: State, f: Feed)
    requires cfg == s.cfg && Settled(s) && Identified(f) && Faithful(f) && Unseen(s, f.item)
    ensures Took(cfg, s, Run(s, FeedEvents(f)), f)
  {
    hide Took, Settled, Run, Faithful, Identified, Unseen;
    match f.item
    case Message(_, _) => MessageFeed(cfg, s, f);
    case FunctionCall(_, _, _, _, _) => CallFeed(cfg, s, f);
    case Reasoning(_, _, _) => ReasoningFeed(cfg, s, f);
    case _ => OtherFeed(cfg, s, f);
  }
}
