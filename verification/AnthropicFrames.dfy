/**
 What every upstream event writes, frame by frame: which block it begins, continues or
 ends, under which id and name, and what the translator remembers of it.
 */
module AnthropicFrames {
  import opened Basics
  import opened AnthropicWire
  import opened AnthropicSpec

  // Places

  /** The first of three that is not blank, trimmed; one place for everything that names none. */
  function Place(a: string, b: string, c: string): string
  {
    if Trim(a) != "" then Trim(a) else if Trim(b) != "" then Trim(b) else if Trim(c) != "" then Trim(c) else "default"
  }

  function Under(prefix: string, place: string): string
  {
    if prefix <= place then place else prefix + place
  }

  // The two things that come before content

  /** The message is started once, under this id and the first model name there is. */
  ghost predicate Started(s: State, t: State, id: string, model: string)
  {
    if s.started then t == s
    else
      && ClientId(id, s.cfg.randomId, t.msgId)
      && t.model == (if model != "" then model else if s.cfg.requestModel != "" then s.cfg.requestModel
                     else if s.model != "" then s.model else "grok")
      && t == s.(started := true, msgId := t.msgId, model := t.model, out := s.out + [MessageStart(t.msgId, t.model, s.usageIn)])
  }

  /** The open thinking block is signed, if there is a signature, and ended; its reasoning counts as shown. */
  function Shut(s: State): State
  {
    if s.thinking.None? || !s.cfg.thinkingEnabled then s
    else
      var i := s.thinking.value.index;
      s.(thinking := None, stopPending := false, signature := "", reasoning := "",
         completed := if s.reasoning == "" then s.completed else s.completed + {s.reasoning},
         out := s.out + (if s.signature == "" then [] else [BlockDelta(i, SignaturePiece(s.signature))]) + [BlockStop(i)])
  }

  // Blocks

  /** The block at this place is begun unless there is one; whatever thinking is open ends first. */
  function Begun(s: State, k: string, kind: Kind, body: Body): State
  {
    var u := Shut(s);
    if k in u.blocks then u
    else
      u.(nextIndex := u.nextIndex + 1, blocks := u.blocks[k := Block(u.nextIndex, kind, false, false)],
         hasToolUse := u.hasToolUse || kind == Tool, out := u.out + [BlockStart(u.nextIndex, body)])
  }

  /** The block at this place takes a piece unless it has ended. */
  function Taken(s: State, k: string, piece: Delta): State
    requires k in s.blocks
  {
    if s.blocks[k].stopped then s
    else s.(blocks := s.blocks[k := s.blocks[k].(emitted := true)], out := s.out + [BlockDelta(s.blocks[k].index, piece)])
  }

  function Ended(s: State, k: string): State
  {
    if k !in s.blocks || s.blocks[k].stopped then s
    else s.(blocks := s.blocks[k := s.blocks[k].(stopped := true)], out := s.out + [BlockStop(s.blocks[k].index)])
  }

  /** All texts, one piece each. */
  function Told(s: State, k: string, texts: seq<string>): State
    decreases |texts|
  {
    if texts == [] then s
    else if texts[0] == "" then Told(s, k, texts[1..])
    else Told(Taken(Begun(s, k, Text, TextBody), k, TextPiece(texts[0])), k, texts[1..])
  }

  /** A call's block, with a piece of arguments if there is one. */
  function Called(s: State, k: string, callId: string, name: string, piece: string): State
  {
    var u := Begun(s, k, Tool, ToolBody(if callId != "" then callId else if |k| >= 5 then k[5..] else k, if name == "" then "tool" else name));
    if piece == "" then u else Taken(u, k, JsonPiece(piece))
  }

  /** A finished call: its arguments are written only if nothing of them was, and its block ends. */
  function CalledWhole(s: State, k: string, callId: string, name: string, arguments: string): State
  {
    var u := Called(s, k, callId, name, "");
    Ended(if u.blocks[k].emitted then u else Called(u, k, callId, name, arguments), k)
  }

  // The helpers are that

  lemma StartIs(s: State, id: string, model: string)
    ensures Started(s, EnsureStart(s, id, model), id, model)
  {
    ShownId(id, s.cfg.randomId);
    hide MessageId, ClientId;
  }

  lemma ShutIs(s: State)
    ensures FinishThinkingBeforeContent(s) == Shut(s)
    ensures s.thinking.Some? ==> FinalizeThinking(s, true) == Shut(s)
  {
    if s.signature == "" && s.thinking.Some? {
      assert s.out + [] + [BlockStop(s.thinking.value.index)] == s.out + [BlockStop(s.thinking.value.index)];
    }
  }

  lemma PlaceIs(a: string, b: string, c: string)
    ensures ItemKey(a, b, c) == Place(a, b, c) && Place(a, b, c) != "" && Trim(Place(a, b, c)) == Place(a, b, c)
  {
    TrimTight(a);
    TrimTight(b);
    TrimTight(c);
    TrimTight(Trim(a));
    TrimTight(Trim(b));
    TrimTight(Trim(c));
    TrimTight("default");
    hide Trim;
  }

  lemma TextKeyIs(place: string)
    requires place != "" && Trim(place) == place
    ensures BlockKey(Text, place) == Under("text:", place)
    ensures forall callId :: BlockKey(Tool, FirstNonEmpty(place, callId)) == Under("tool:", place)
    ensures BlockKey(Tool, place) == Under("tool:", place)
  {
    hide Trim;
  }

  lemma TextBlockIs(s: State, place: string)
    requires place != "" && Trim(place) == place
    ensures EnsureTextBlock(s, place) == Begun(s, Under("text:", place), Text, TextBody)
  {
    hide Trim;
    TextKeyIs(place);
    ShutIs(s);
    hide FinalizeThinking, FinishThinkingBeforeContent, Shut, BlockKey, Under;
  }

  lemma DeltaIs(s: State, k: string, piece: Delta)
    requires k in s.blocks
    ensures DeltaOn(s, k, piece) == Taken(s, k, piece)
  {
  }

  lemma StopIs(s: State, place: string, kind: Kind)
    requires place != "" && Trim(place) == place
    ensures kind == Text ==> StopBlock(s, place, kind) == Ended(s, Under("text:", place))
    ensures kind == Tool ==> StopBlock(s, place, kind) == Ended(s, Under("tool:", place))
  {
    hide Trim;
    TextKeyIs(place);
    hide BlockKey, Under;
  }

  lemma WriteTextIs(s: State, place: string, text: string)
    requires place != "" && Trim(place) == place
    ensures WriteText(s, place, text) ==
            if text == "" then s else Taken(Begun(s, Under("text:", place), Text, TextBody), Under("text:", place), TextPiece(text))
  {
    TextKeyIs(place);
    TextBlockIs(s, place);
    hide Trim, EnsureTextBlock, BlockKey, Under, DeltaOn, Taken, Shut;
    var u := Begun(s, Under("text:", place), Text, TextBody);
    DeltaIs(u, Under("text:", place), TextPiece(text));
  }

  lemma {:induction false} TextsOnIs(s: State, place: string, texts: seq<string>)
    requires place != "" && Trim(place) == place
    ensures TextsOn(s, place, texts) == Told(s, Under("text:", place), texts)
    decreases |texts|
  {
    hide Trim, WriteText, Under, Taken, Begun;
    if texts != [] {
      WriteTextIs(s, place, texts[0]);
      TextsOnIs(WriteText(s, place, texts[0]), place, texts[1..]);
    }
  }

  lemma ToolBlockIs(s: State, place: string, callId: string, name: string)
    requires place != "" && Trim(place) == place
    ensures EnsureToolBlock(s, place, callId, name) == Called(s, Under("tool:", place), callId, name, "")
  {
    hide Trim;
    TextKeyIs(place);
    ShutIs(s);
    hide FinalizeThinking, FinishThinkingBeforeContent, Shut, BlockKey;
  }

  lemma WriteArgumentsIs(s: State, place: string, callId: string, name: string, piece: string)
    requires place != "" && Trim(place) == place
    ensures WriteArguments(s, place, callId, name, piece) == if piece == "" then s else Called(s, Under("tool:", place), callId, name, piece)
  {
    hide EnsureToolBlock;
    ToolBlockIs(s, place, callId, name);
    TextKeyIs(place);
    hide Begun, BlockKey, Trim;
  }

  lemma CompleteCallIs(s: State, place: string, callId: string, name: string, arguments: string)
    requires place != "" && Trim(place) == place
    ensures CompleteCall(s, place, callId, name, arguments) == CalledWhole(s, Under("tool:", place), callId, name, arguments)
  {
    TextKeyIs(place);
    ToolBlockIs(s, place, callId, name);
    var k := Under("tool:", place);
    var u := Called(s, k, callId, name, "");
    CalledThere(s, k, callId, name);
    hide Trim, EnsureToolBlock, WriteArguments, StopBlock, BlockKey, Under, Called, Ended, Begun;
    WriteArgumentsIs(u, place, callId, name, arguments);
    StopIs(u, place, Tool);
    StopIs(Called(u, k, callId, name, arguments), place, Tool);
  }

  lemma CalledThere(s: State, k: string, callId: string, name: string)
    ensures k in Called(s, k, callId, name, "").blocks
  {
  }

  // Text and calls

  /** The place of an event that names none is its item, its output index or its content index. */
  function Spot(at: At): string
  {
    Place(at.itemId, at.outputIndex, at.contentIndex)
  }

  function Either(a: string, b: string): string
  {
    if Trim(a) != "" then Trim(a) else Trim(b)
  }

  /** The message is under way before anything is written. */
  ghost predicate Underway(s: State, b: State)
  {
    Started(s, b, s.msgId, s.model)
  }

  lemma BeginIs(s: State, b: State)
    requires Underway(s, b)
    ensures b == Begin(s)
  {
    StartIs(s, s.msgId, s.model);
    if !s.started { OneClientId(s.msgId, s.cfg.randomId, b.msgId, Begin(s).msgId); }
    hide ClientId, MessageId;
  }

  lemma OneClientId(id: string, random: string, a: string, b: string)
    requires ClientId(id, random, a) && ClientId(id, random, b)
    ensures a == b
  {
    if "resp_" <= id { assert id == "resp_" + id[5..]; }
  }

  /** The first event gives the message its id, its model and its count of input tokens. */
  lemma CreatedWrites(s: State, id: string, model: string, inputTokens: int)
    ensures Started(if inputTokens > 0 then s.(usageIn := inputTokens) else s, Step(s, Created(id, model, inputTokens)), id,
                    if s.cfg.requestModel != "" then s.cfg.requestModel else model)
  {
    hide EnsureStart, Started;
    StartIs(if inputTokens > 0 then s.(usageIn := inputTokens) else s, id, if s.cfg.requestModel != "" then s.cfg.requestModel else model);
  }

  /** A piece of text goes to the text block of its place. */
  lemma TextWrites(s: State, b: State, at: At, delta: string)
    requires Underway(s, b)
    ensures var k := Under("text:", Spot(at));
            Step(s, TextDelta(at, delta)) == if delta == "" then b else Taken(Begun(b, k, Text, TextBody), k, TextPiece(delta))
  {
    BeginIs(s, b);
    PlaceIs(at.itemId, at.outputIndex, at.contentIndex);
    hide Begin, Underway, Trim, WriteText, Taken, Begun, Under, Place;
    WriteTextIs(b, Spot(at), delta);
  }

  /** Where a call's events belong: to its item, to its call or to their place. */
  function CallSpot(itemId: string, callId: string, at: At): string
  {
    Under("tool:", Place(itemId, callId, Spot(at)))
  }

  lemma CallPlaceIs(itemId: string, callId: string, at: At)
    ensures var place := Place(itemId, callId, Spot(at));
            ItemKey(itemId, callId, EventKey(at)) == place && place != "" && Trim(place) == place
  {
    PlaceIs(at.itemId, at.outputIndex, at.contentIndex);
    PlaceIs(itemId, callId, Spot(at));
  }

  lemma EitherIs(a: string, b: string)
    ensures FirstNonEmpty(a, b) == Either(a, b)
  {
    hide Trim;
  }

  /** A piece of arguments goes to the block of its call. */
  lemma PieceWrites(s: State, b: State, at: At, itemCallId: string, name: string, piece: string)
    requires Underway(s, b)
    ensures var id := Either(itemCallId, at.itemId); var k := CallSpot(at.itemId, id, at);
            Step(s, ArgumentsDelta(at, itemCallId, name, piece)) == if piece == "" then b else Called(b, k, id, name, piece)
  {
    hide Begin, Underway, Trim, WriteArguments, Called, Under, Place, ItemKey, EventKey, Spot, Either, FirstNonEmpty;
    BeginIs(s, b);
    EitherIs(itemCallId, at.itemId);
    var id := Either(itemCallId, at.itemId);
    CallPlaceIs(at.itemId, id, at);
    WriteArgumentsIs(b, Place(at.itemId, id, Spot(at)), id, name, piece);
  }

  /** The whole arguments complete it. */
  lemma ArgumentsWrite(s: State, b: State, at: At, itemCallId: string, name: string, arguments: string)
    requires Underway(s, b)
    ensures var id := Either(itemCallId, at.itemId); var k := CallSpot(at.itemId, id, at);
            Step(s, ArgumentsDone(at, itemCallId, name, arguments)) == CalledWhole(b, k, id, name, arguments)
  {
    hide Begin, Underway, Trim, CompleteCall, CalledWhole, Under, Place, ItemKey, EventKey, Spot, Either, FirstNonEmpty;
    BeginIs(s, b);
    EitherIs(itemCallId, at.itemId);
    var id := Either(itemCallId, at.itemId);
    CallPlaceIs(at.itemId, id, at);
    CompleteCallIs(b, Place(at.itemId, id, Spot(at)), id, name, arguments);
  }

  /** An announced call begins its block, with the arguments it has already. */
  lemma CallAddedWrites(s: State, b: State, at: At, item: Item)
    requires Underway(s, b) && item.FunctionCall?
    ensures var id := Either(item.callId, item.id); var k := CallSpot(item.id, id, at);
            Step(s, ItemAdded(item, at)) == Called(b, k, id, item.name, item.arguments)
  {
    var id := Either(item.callId, item.id);
    var place := Place(item.id, id, Spot(at));
    hide Begin, Underway, Trim, EnsureToolBlock, WriteArguments, Called, Under, Place, ItemKey, EventKey, Spot, Either, FirstNonEmpty;
    CalledTwice(b, Under("tool:", place), id, item.name, item.arguments);
    BeginIs(s, b);
    EitherIs(item.callId, item.id);
    CallPlaceIs(item.id, id, at);
    ToolBlockIs(b, place, id, item.name);
    WriteArgumentsIs(Called(b, Under("tool:", place), id, item.name, ""), place, id, item.name, item.arguments);
  }

  /** A finished call completes it. */
  lemma CallDoneWrites(s: State, b: State, at: At, item: Item)
    requires Underway(s, b) && item.FunctionCall?
    ensures var id := Either(item.callId, item.id); var k := CallSpot(item.id, id, at);
            Step(s, ItemDone(item, at)) == CalledWhole(b, k, id, item.name, item.arguments)
  {
    hide Begin, Underway, Trim, CompleteCall, CalledWhole, Under, Place, ItemKey, EventKey, Spot, Either, FirstNonEmpty;
    BeginIs(s, b);
    EitherIs(item.callId, item.id);
    var id := Either(item.callId, item.id);
    CallPlaceIs(item.id, id, at);
    CompleteCallIs(b, Place(item.id, id, Spot(at)), id, item.name, item.arguments);
  }

  lemma CalledTwice(s: State, k: string, callId: string, name: string, piece: string)
    ensures var u := Called(s, k, callId, name, "");
            if piece == "" then Called(s, k, callId, name, piece) == u else Called(u, k, callId, name, piece) == Called(s, k, callId, name, piece)
  {
  }

  /** A finished message ends its block, and writes its texts first if nothing of it was written. */
  lemma MessageWrites(s: State, at: At, id: string, parts: seq<Part>)
    ensures var k := Under("text:", Place(id, Spot(at), ""));
            Step(s, ItemDone(Message(id, parts), at)) ==
            Ended(if k in s.blocks && s.blocks[k].emitted then s else Told(s, k, Texts(parts)), k)
  {
    PlaceIs(at.itemId, at.outputIndex, at.contentIndex);
    PlaceIs(id, Spot(at), "");
    var place := Place(id, Spot(at), "");
    TextKeyIs(place);
    hide Trim, TextsOn, StopBlock, Told, Ended, Under, Place, ItemKey, Texts, BlockKey;
    TextsOnIs(s, place, Texts(parts));
    StopIs(s, place, Text);
    StopIs(Told(s, Under("text:", place), Texts(parts)), place, Text);
  }

  // Reasoning

  /** The name a reasoning goes by. */
  function Thought(id: string): string
  {
    if Trim(id) == "" then "reasoning:default" else Under("reasoning:", Trim(id))
  }

  /** The reasoning of an event: that of its item, or else of its output index. */
  function ThoughtSpot(at: At): string
  {
    Thought(Either(at.itemId, at.outputIndex))
  }

  lemma ThoughtIs(id: string)
    ensures ReasoningKey(id) == Thought(id)
    ensures Trim(Thought(id)) == Thought(id) && Thought(id) != "" && Thought(Thought(id)) == Thought(id)
  {
    TrimTight(id);
    var k := Trim(id);
    var t := Thought(id);
    assert Tight(t) by {
      assert "reasoning:"[0] == 'r' && "reasoning:default"[0] == 'r';
      if k != "" && !("reasoning:" <= k) { assert t[0] == 'r' && t[|t| - 1] == k[|k| - 1]; }
      if k == "" { assert t[|t| - 1] == 't'; }
    }
    TrimTight(t);
    assert "reasoning:" <= t;
    hide Trim, Tight;
  }

  /** A thinking block is begun unless one is open; without thinking nothing is. */
  function Thinks(b: State): State
  {
    if !b.cfg.thinkingEnabled || b.thinking.Some? then b
    else b.(nextIndex := b.nextIndex + 1, thinking := Some(Block(b.nextIndex, Thinking, false, false)), stopPending := false,
            out := b.out + [BlockStart(b.nextIndex, ThinkingBody)])
  }

  /** The open thinking takes a piece, unless the client is not to see it. */
  function Muses(b: State, text: string): State
  {
    if !b.cfg.thinkingEnabled || b.cfg.thinkingDisplay == "omitted" || text == "" then b
    else
      var u := Thinks(b);
      if u.thinking.None? then u
      else u.(thinking := Some(u.thinking.value.(emitted := true)), out := u.out + [BlockDelta(u.thinking.value.index, ThinkingPiece(text))])
  }

  /** A new part: the part before it, if it is over, is signed and ended, and a block stands open for this one. */
  function Parted(b: State, key: string): State
  {
    if !b.cfg.thinkingEnabled then b
    else
      var u := if b.thinking.Some? && b.stopPending then Shut(b).(signature := b.signature, reasoning := b.reasoning) else b;
      Thinks(u.(reasoning := key))
  }

  /** An encrypted content is kept as the signature to come. */
  function Signed(s: State, key: string, signature: string): State
  {
    s.(reasoning := key, signature := if s.cfg.thinkingEnabled && signature != "" then signature else s.signature)
  }

  /** A finished reasoning that was not shown yet: a block of its own with the summary the client may see and the signature. */
  function Shows(s: State, b: State, key: string, summary: string, signature: string): State
  {
    var shown := if s.cfg.thinkingDisplay == "omitted" then "" else summary;
    var sign := if signature == "" then s.signature else signature;
    if !s.cfg.thinkingEnabled || key in s.completed || (shown == "" && sign == "") then s
    else Shut(Muses(Thinks(b.(reasoning := key, signature := sign)), shown))
  }

  lemma ThinksIs(s: State, b: State)
    requires Underway(s, b)
    ensures s.started ==> EnsureThinkingBlock(s) == Thinks(s)
    ensures s.thinking.None? && s.cfg.thinkingEnabled ==> EnsureThinkingBlock(s) == Thinks(b)
  {
    BeginIs(s, b);
    hide MessageId;
  }

  lemma StartedKeeps(s: State, b: State)
    requires Underway(s, b)
    ensures b.started && b.cfg == s.cfg && b.thinking == s.thinking && b.stopPending == s.stopPending && b.signature == s.signature
    ensures b.reasoning == s.reasoning && b.completed == s.completed && b.blocks == s.blocks && b.nextIndex == s.nextIndex
    ensures Underway(b, b)
  {
  }

  lemma MusesIs(b: State, text: string)
    requires b.started
    ensures WriteThinking(b, text) == Muses(b, text)
  {
    assert Underway(b, b);
    ThinksIs(b, b);
    hide EnsureThinkingBlock, Thinks, Underway;
  }

  lemma PartIs(b: State, key: string)
    requires b.started
    ensures StartThinkingPart(b, key) == Parted(b, Thought(key))
  {
    ThoughtIs(key);
    PartShut(b);
    hide ReasoningKey, Thought, FinalizeThinking, Shut, EnsureThinkingBlock, Thinks;
    if b.cfg.thinkingEnabled {
      var u := if b.thinking.Some? && b.stopPending then Shut(b).(signature := b.signature, reasoning := b.reasoning) else b;
      var v := u.(reasoning := Thought(key));
      assert Underway(v, v);
      ThinksIs(v, v);
    }
  }

  lemma PartShut(b: State)
    ensures b.thinking.Some? && b.cfg.thinkingEnabled ==> FinalizeThinking(b, false) == Shut(b).(signature := b.signature, reasoning := b.reasoning)
    ensures Shut(b).started == b.started
  {
    if b.thinking.Some? && b.signature == "" {
      assert b.out + [] + [BlockStop(b.thinking.value.index)] == b.out + [BlockStop(b.thinking.value.index)];
    }
  }

  lemma SpotIs(at: At)
    ensures ReasoningEventKey(at) == ThoughtSpot(at) && Thought(ThoughtSpot(at)) == ThoughtSpot(at)
  {
    EitherIs(at.itemId, at.outputIndex);
    ThoughtIs(Either(at.itemId, at.outputIndex));
    hide ReasoningKey, Thought, Either, FirstNonEmpty;
  }

  /** A new part of a summary, and a piece of one. */
  lemma PartWrites(s: State, b: State, at: At, delta: string)
    requires Underway(s, b)
    ensures Step(s, ReasoningPartAdded(at)) == Parted(b, ThoughtSpot(at))
    ensures Step(s, ReasoningDelta(at, delta)) == Muses(if b.thinking.None? then Parted(b, ThoughtSpot(at)) else b, delta)
    ensures Step(s, ReasoningPartDone) == s.(stopPending := true)
  {
    BeginIs(s, b);
    StartedKeeps(s, b);
    SpotIs(at);
    PartIs(b, ThoughtSpot(at));
    var u := if b.thinking.None? then Parted(b, ThoughtSpot(at)) else b;
    PartedKeeps(b, ThoughtSpot(at));
    MusesIs(u, delta);
    hide Underway, Begin, StartThinkingPart, WriteThinking, Parted, Muses, ThoughtSpot, Thought, ReasoningEventKey;
  }

  lemma PartedKeeps(b: State, key: string)
    ensures Parted(b, key).started == b.started
  {
  }

  /** The reasoning an item belongs to. */
  function ItemThought(id: string, at: At): string
  {
    Thought(Either(id, ThoughtSpot(at)))
  }

  lemma ItemThoughtIs(id: string, at: At)
    ensures ReasoningKey(FirstNonEmpty(id, ReasoningEventKey(at))) == ItemThought(id, at)
    ensures Thought(ItemThought(id, at)) == ItemThought(id, at) && Trim(ItemThought(id, at)) == ItemThought(id, at) != ""
  {
    SpotIs(at);
    EitherIs(id, ThoughtSpot(at));
    ThoughtIs(Either(id, ThoughtSpot(at)));
    hide ReasoningKey, Thought, Either, FirstNonEmpty, ReasoningEventKey, ThoughtSpot, Trim;
  }

  lemma SignedIs(s: State, key: string, signature: string)
    requires Trim(key) == key != "" && Thought(key) == key
    ensures CaptureSignature(s.(reasoning := key), key, signature) == Signed(s, key, signature)
  {
    ThoughtIs(key);
    hide Thought, ReasoningKey, Trim;
  }

  /** An announced reasoning is noted with its signature. */
  lemma ThoughtAddedWrites(s: State, b: State, at: At, item: Item)
    requires Underway(s, b) && item.Reasoning?
    ensures Step(s, ItemAdded(item, at)) == Signed(b, ItemThought(item.id, at), item.signature)
  {
    hide Begin, Underway, ReasoningKey, FirstNonEmpty, ReasoningEventKey, ItemThought, Signed, Thought, Trim, CaptureSignature;
    BeginIs(s, b);
    ItemThoughtIs(item.id, at);
    SignedIs(b, ItemThought(item.id, at), item.signature);
  }

  lemma ShowsIs(s: State, b: State, key: string, id: string, summary: Summary, signature: string, fallback: string)
    requires Underway(s, b) && s.thinking.None? && ReasoningKey(FirstNonEmpty(id, fallback)) == key
    ensures FinalReasoning(s, Reasoning(id, summary, signature), fallback) == Shows(s, b, key, SummaryText(summary), signature)
  {
    hide ReasoningKey, FirstNonEmpty, SummaryText, ShowReasoning, Shut, Muses, Thinks;
    var shown := if s.cfg.thinkingDisplay == "omitted" then "" else SummaryText(summary);
    var sign := if signature == "" then s.signature else signature;
    if s.cfg.thinkingEnabled && key !in s.completed && (shown != "" || sign != "") { ShowsOne(s, b, key, shown, sign); }
  }

  lemma ShowsOne(s: State, b: State, key: string, shown: string, sign: string)
    requires Underway(s, b) && s.thinking.None? && s.cfg.thinkingEnabled
    ensures ShowReasoning(s, key, shown, sign) == Shut(Muses(Thinks(b.(reasoning := key, signature := sign)), shown))
  {
    var s0, b0 := s.(reasoning := key, signature := sign), b.(reasoning := key, signature := sign);
    assert Underway(s0, b0);
    ThinksIs(s0, b0);
    var u := Thinks(b0);
    assert u.started && u.thinking.Some?;
    MusesIs(u, shown);
    assert Muses(u, shown).thinking.Some?;
    ShutIs(Muses(u, shown));
    hide EnsureThinkingBlock, WriteThinking, FinalizeThinking, Thinks, Muses, Shut, Underway, Begin;
  }

  /** A finished reasoning ends the thinking that is open, or is shown if it was not. */
  lemma ThoughtDoneWrites(s: State, b: State, at: At, item: Item)
    requires item.Reasoning? && Underway(Signed(s, ItemThought(item.id, at), item.signature), b)
    ensures var key := ItemThought(item.id, at); var u := Signed(s, key, item.signature);
            Step(s, ItemDone(item, at)) ==
            if u.thinking.Some? then Shut(u) else Shows(u, b, key, SummaryText(item.summary), item.signature)
  {
    hide Begin, Underway, ReasoningKey, FirstNonEmpty, ReasoningEventKey, ItemThought, Signed, Thought, Trim, CaptureSignature,
      FinalReasoning, Shows, Shut, FinalizeThinking, SummaryText;
    var key := ItemThought(item.id, at);
    var u := Signed(s, key, item.signature);
    ItemThoughtIs(item.id, at);
    SignedIs(s, key, item.signature);
    FallbackIs(item.id, at);
    ShutIs(u);
    if u.thinking.None? { ShowsIs(u, b, key, item.id, item.summary, item.signature, key); }
  }

  lemma FallbackIs(id: string, at: At)
    ensures ReasoningKey(FirstNonEmpty(id, ItemThought(id, at))) == ItemThought(id, at)
  {
    ItemThoughtIs(id, at);
    var key := ItemThought(id, at);
    ThoughtIs(key);
    EitherIs(id, key);
    ThoughtIs(Either(id, key));
    if Trim(id) == "" {
      assert Either(id, key) == key;
    } else {
      assert ItemThought(id, at) == Thought(Trim(id)) && Either(id, key) == Trim(id);
    }
    hide Thought, ReasoningKey, ThoughtSpot;
  }

  // The final output

  predicate IsDigit(c: char)
  {
    '0' <= c <= '9'
  }

  function Value(digits: string): int
  {
    if digits == "" then 0 else 10 * Value(digits[..|digits| - 1]) + (digits[|digits| - 1] as int - '0' as int)
  }

  lemma {:induction false} DecimalTells(n: nat)
    ensures Value(Decimal(n)) == n && Decimal(n) != "" && forall i :: 0 <= i < |Decimal(n)| ==> IsDigit(Decimal(n)[i])
  {
    var d := Decimal(n);
    if n < 10 {
      assert d[..0] == "";
    } else {
      DecimalTells(n / 10);
      assert d[..|d| - 1] == Decimal(n / 10);
    }
  }

  /** Some text was written already. */
  predicate TextShown(s: State)
  {
    exists k :: k in s.blocks && s.blocks[k].kind == Text && s.blocks[k].emitted
  }

  /** The name of the `i`-th output item where it has no id. */
  function Final(prefix: string, i: nat): string
  {
    prefix + Decimal(i)
  }

  /**
   A message of the final output is written unless it, or any text at a place of its own,
   was; a call is completed with its arguments or an empty object; a reasoning is shown
   unless it was.
   */
  function Finished(s: State, item: Item, i: nat): State
  {
    match item
    case Message(id, parts) =>
      var k := Under("text:", Place(id, Final("final-", i), ""));
      if k !in s.blocks && TextShown(s) then s
      else Ended(if k in s.blocks && s.blocks[k].emitted then s else Told(s, k, Texts(parts)), k)
    case FunctionCall(id, callId, name, arguments, _) =>
      CalledWhole(s, Under("tool:", Place(id, Either(callId, id), Final("final-", i))), Either(callId, id), name,
                  if arguments == "" then "{}" else arguments)
    case Reasoning(id, summary, signature) => Shows(s, s, Thought(Either(id, Final("final-reasoning-", i))), SummaryText(summary), signature)
    case _ => s
  }

  lemma FinalWrites(s: State, item: Item, i: nat)
    requires s.started
    ensures FinalItem(s, item, i) == Finished(s, item, i)
  {
    hide FinalItem, Place, Under, Thought, Either, Final, Shows, Told, CalledWhole, Texts, SummaryText;
    match item
    case Message(id, parts) => FinalMessageWrites(s, id, parts, i);
    case FunctionCall(_, _, _, _, _) => FinalCallWrites(s, item, i);
    case Reasoning(_, _, _) => FinalThoughtWrites(s, item, i);
    case _ => FinalRest(s, item, i);
  }

  lemma FinalRest(s: State, item: Item, i: nat)
    requires item.ToolCall? || item.OtherItem?
    ensures FinalItem(s, item, i) == s
  {
  }

  lemma FinalThoughtWrites(s: State, item: Item, i: nat)
    requires s.started && item.Reasoning?
    ensures FinalItem(s, item, i) == Shows(s, s, Thought(Either(item.id, Final("final-reasoning-", i))), SummaryText(item.summary), item.signature)
  {
    hide Trim, Decimal, FinalReasoning, Shows, Thought, ReasoningKey, Either, FirstNonEmpty, SummaryText;
    EitherIs(item.id, Final("final-reasoning-", i));
    ThoughtIs(Either(item.id, Final("final-reasoning-", i)));
    ShowsStarted(s, Thought(Either(item.id, Final("final-reasoning-", i))), item.id, item.summary, item.signature, Final("final-reasoning-", i));
  }

  lemma FinalMessageWrites(s: State, id: string, parts: seq<Part>, i: nat)
    ensures var k := Under("text:", Place(id, Final("final-", i), ""));
            FinalItem(s, Message(id, parts), i) ==
            if k !in s.blocks && TextShown(s) then s
            else Ended(if k in s.blocks && s.blocks[k].emitted then s else Told(s, k, Texts(parts)), k)
  {
    PlaceIs(id, Final("final-", i), "");
    var place := Place(id, Final("final-", i), "");
    TextKeyIs(place);
    hide Trim, TextsOn, StopBlock, Told, Ended, Under, Place, ItemKey, Texts, BlockKey, Decimal;
    TextsOnIs(s, place, Texts(parts));
    StopIs(s, place, Text);
    StopIs(Told(s, Under("text:", place), Texts(parts)), place, Text);
    assert HasEmittedText(s.blocks) <==> TextShown(s);
  }

  lemma FinalCallWrites(s: State, item: Item, i: nat)
    requires item.FunctionCall?
    ensures FinalItem(s, item, i) ==
            CalledWhole(s, Under("tool:", Place(item.id, Either(item.callId, item.id), Final("final-", i))), Either(item.callId, item.id), item.name,
                        if item.arguments == "" then "{}" else item.arguments)
  {
    EitherIs(item.callId, item.id);
    var id := Either(item.callId, item.id);
    PlaceIs(item.id, id, Final("final-", i));
    hide Trim, EnsureToolBlock, WriteArguments, StopBlock, CalledWhole, Under, Place, ItemKey, Either, FirstNonEmpty, Decimal, BlockKey;
    CompleteCallIs(s, Place(item.id, id, Final("final-", i)), id, item.name, if item.arguments == "" then "{}" else item.arguments);
  }

  lemma ShowsStarted(s: State, key: string, id: string, summary: Summary, signature: string, fallback: string)
    requires s.started && ReasoningKey(FirstNonEmpty(id, fallback)) == key
    ensures FinalReasoning(s, Reasoning(id, summary, signature), fallback) == Shows(s, s, key, SummaryText(summary), signature)
  {
    hide ReasoningKey, FirstNonEmpty, SummaryText, ShowReasoning, Shut, Muses, Thinks;
    var shown := if s.cfg.thinkingDisplay == "omitted" then "" else SummaryText(summary);
    var sign := if signature == "" then s.signature else signature;
    if s.cfg.thinkingEnabled && key !in s.completed && (shown != "" || sign != "") { ShowsOn(s, key, shown, sign); }
  }

  lemma ShowsOn(s: State, key: string, shown: string, sign: string)
    requires s.started && s.cfg.thinkingEnabled
    ensures ShowReasoning(s, key, shown, sign) == Shut(Muses(Thinks(s.(reasoning := key, signature := sign)), shown))
  {
    var s0 := s.(reasoning := key, signature := sign);
    assert Underway(s0, s0);
    ThinksIs(s0, s0);
    var u := Thinks(s0);
    assert u.started && u.thinking.Some?;
    MusesIs(u, shown);
    assert Muses(u, shown).thinking.Some?;
    ShutIs(Muses(u, shown));
    hide EnsureThinkingBlock, WriteThinking, FinalizeThinking, Thinks, Muses, Shut, Underway;
  }

  /** The final output is gone through item by item, in order. */
  ghost predicate GoesThrough(items: seq<Item>, i: nat, states: seq<State>)
    requires i <= |items|
  {
    |states| == |items| - i + 1 && forall j :: 0 <= j < |items| - i ==> states[j + 1] == FinalItem(states[j], items[i + j], i + j)
  }

  lemma {:induction false} FinalOutputGoes(s: State, items: seq<Item>, i: nat) returns (states: seq<State>)
    requires i <= |items|
    ensures GoesThrough(items, i, states) && states[0] == s && states[|items| - i] == FinalOutput(s, items, i)
    decreases |items| - i
  {
    hide FinalItem;
    if i == |items| {
      states := [s];
    } else {
      var rest := FinalOutputGoes(FinalItem(s, items[i], i), items, i + 1);
      states := [s] + rest;
      forall j | 0 <= j < |items| - i ensures states[j + 1] == FinalItem(states[j], items[i + j], i + j) {
        if j > 0 { assert states[j + 1] == rest[j] && states[j] == rest[j - 1]; }
      }
    }
  }

  // The end

  /** Thinking ends; a signature without any is forgotten. */
  function Quieted(s: State): State
  {
    if s.thinking.Some? then Shut(s) else if s.cfg.thinkingEnabled then s.(signature := "") else s
  }

  /** One stop for each block that is open, in order of their indices. */
  ghost predicate StopsAll(s: State, stops: seq<Out>)
  {
    && (forall j :: 0 <= j < |stops| ==> stops[j].BlockStop?)
    && (forall i, j :: 0 <= i < j < |stops| ==> stops[i].index < stops[j].index)
    && (forall n: nat :: BlockStop(n) in stops <==> n < s.nextIndex && exists k :: k in s.blocks && !s.blocks[k].stopped && s.blocks[k].index == n)
  }

  lemma {:induction false} StopsTell(open: set<nat>, n: nat)
    ensures var stops := Stops(open, n);
      && (forall j :: 0 <= j < |stops| ==> stops[j].BlockStop? && stops[j].index < n)
      && (forall i, j :: 0 <= i < j < |stops| ==> stops[i].index < stops[j].index)
      && (forall m: nat :: BlockStop(m) in stops <==> m < n && m in open)
  {
    if n > 0 {
      StopsTell(open, n - 1);
      var before := Stops(open, n - 1);
      if n - 1 in open { assert Stops(open, n)[|before|] == BlockStop(n - 1); }
    }
  }

  /** Every block is over. */
  function Over(s: State, stops: seq<Out>): State
  {
    s.(blocks := map k | k in s.blocks :: s.blocks[k].(stopped := true), out := s.out + stops)
  }

  lemma StopAllIs(s: State) returns (stops: seq<Out>)
    ensures StopsAll(s, stops) && StopAllBlocks(s) == Over(s, stops)
  {
    hide Stops;
    stops := Stops(OpenIndices(s.blocks), s.nextIndex);
    StopsTell(OpenIndices(s.blocks), s.nextIndex);
    AllOver(s, stops);
    forall n: nat
      ensures n in OpenIndices(s.blocks) <==> exists k :: k in s.blocks && !s.blocks[k].stopped && s.blocks[k].index == n
    {
    }
    assert StopsAll(s, stops);
  }

  lemma AllOver(s: State, stops: seq<Out>)
    requires stops == Stops(OpenIndices(s.blocks), s.nextIndex)
    ensures StopAllBlocks(s) == Over(s, stops)
  {
    hide Stops, OpenIndices;
    assert AllStopped(s.blocks) == Over(s, stops).blocks;
  }

  lemma QuietIs(s: State)
    ensures FinalizeThinking(s, true) == Quieted(s)
  {
    ShutIs(s);
    hide Shut, FinishThinkingBeforeContent;
    if s.thinking.None? { NoThinking(s); }
  }

  lemma NoThinking(s: State)
    requires s.thinking.None?
    ensures FinalizeThinking(s, true) == if s.cfg.thinkingEnabled then s.(signature := "") else s
  {
  }

  /** A failure ends thinking and every block and says why, once. */
  ghost predicate FailedWith(s: State, message: string, t: State)
  {
    var u := Quieted(s);
    if s.finished then t == s
    else exists stops: seq<Out> ::
      StopsAll(u, stops) && t == Over(u, stops).(out := u.out + stops + [ErrorFrame(message)], failed := true, finished := true)
  }

  lemma FailIs(s: State, message: string)
    ensures FailedWith(s, message, Fail(s, message))
  {
    hide FinalizeThinking, Quieted, StopAllBlocks, StopsAll;
    QuietIs(s);
    var stops := StopAllIs(Quieted(s));
  }

  lemma FailWrites(s: State, message: string)
    ensures FailedWith(s, if message == "" then "upstream response failed" else message, Step(s, Failed(message)))
  {
    hide FailedWith, Fail;
    FailIs(s, if message == "" then "upstream response failed" else message);
  }

  /** The events are handled one after the other until one cannot be decoded, which ends the pipe. */
  lemma {:induction false} DrainWrites(s: State, events: seq<Event>) returns (n: nat)
    ensures n <= |events| && (forall i :: 0 <= i < n ==> !events[i].Malformed?) && (n < |events| ==> events[n].Malformed?)
    ensures var d := Drain(s, events);
            if n == |events| then d == Drained(Run(s, events), true)
            else !d.alive && FailedWith(Run(s, events[..n]), "invalid JSON event", d.state)
    decreases |events|
  {
    hide Step, Fail, FailedWith;
    n := 0;
    if events != [] {
      if events[0].Malformed? {
        FailIs(s, "invalid JSON event");
        assert events[..0] == [];
      } else {
        n := DrainWrites(Step(s, events[0]), events[1..]);
        assert n < |events[1..]| ==> events[..n + 1][1..] == events[1..][..n];
        n := n + 1;
      }
    }
  }

  /** The end of the body: what is left in the buffer, and an error unless the message has ended. */
  lemma CloseWrites(s: State, tail: Option<Event>, ending: Ending)
    ensures var t := Close(s, tail, ending);
            match ending
            case ReadFailure(message) => if s.started then FailedWith(s, message, t) else t == s
            case CleanEnd =>
              if tail == Some(Malformed) then if s.started then FailedWith(s, "invalid JSON event", t) else t == s
              else
                var u := if tail.Some? then Step(s, tail.value) else s;
                FailedWith(u, if u.started then "upstream stream ended before a terminal event" else "upstream stream empty", t)
  {
    hide Step, Fail;
    var u := if tail.Some? then Step(s, tail.value) else s;
    FailIs(s, "invalid JSON event");
    FailIs(u, "upstream stream ended before a terminal event");
    FailIs(u, "upstream stream empty");
    if ending.ReadFailure? { FailIs(s, ending.message); }
    hide StopsAll, Quieted, Over;
  }

  /** A completion goes through the final output and then ends everything, unless the message has ended before. */
  lemma CompletedWrites(s: State, b: State, incomplete: bool, response: Option<Response>) returns (states: seq<State>, stops: seq<Out>)
    requires if response.Some? && response.value.id != "" && s.msgId == "" then Started(s, b, response.value.id, s.cfg.requestModel)
             else Underway(s, b)
    ensures var items := if response.Some? then response.value.output else [];
            var usage := if response.Some? then response.value.usage else None;
            GoesThrough(items, 0, states)
            && states[0] == (if usage.Some? then b.(usageIn := InputCount(usage.value), usageOut := OutputCount(usage.value)) else b)
            && var v := states[|items|]; var u := Quieted(v); var t := Step(s, Completed(incomplete, response));
               if v.finished then t == v
               else
                 && StopsAll(u, stops)
                 && t == Over(u, stops).(
                           out := u.out + stops + [MessageDelta(if v.hasToolUse then "tool_use" else if incomplete then "max_tokens" else "end_turn",
                                                                states[0].usageIn, states[0].usageOut), MessageStop],
                           finished := true)
  {
    hide FinalizeThinking, Quieted, StopAllBlocks, StopsAll, Begin, BeginCompletion, FinalOutput, Finish, Over, Underway, Started;
    CompletionIs(s, b, response);
    var u := NoteUsage(b, response);
    var items := if response.Some? then response.value.output else [];
    states := FinalOutputGoes(u, items, 0);
    var v := states[|items|];
    assert EmitResponse(u, response) == v;
    StartedOutput(u, items, 0);
    QuietIs(v);
    stops := StopAllIs(Quieted(v));
    FinishIs(v, incomplete, u.usageIn, u.usageOut, stops);
  }

  lemma CompletionIs(s: State, b: State, response: Option<Response>)
    requires if response.Some? && response.value.id != "" && s.msgId == "" then Started(s, b, response.value.id, s.cfg.requestModel)
             else Underway(s, b)
    ensures BeginCompletion(s, response) == b && b.started
  {
    hide ClientId, MessageId;
    if response.Some? && response.value.id != "" && s.msgId == "" {
      StartIs(s, response.value.id, s.cfg.requestModel);
      if !s.started { OneClientId(response.value.id, s.cfg.randomId, b.msgId, EnsureStart(s, response.value.id, s.cfg.requestModel).msgId); }
    } else {
      BeginIs(s, b);
      StartedKeeps(s, b);
    }
  }

  lemma FinishIs(v: State, incomplete: bool, usageIn: int, usageOut: int, stops: seq<Out>)
    requires v.started && FinalizeThinking(v, true) == Quieted(v) && StopAllBlocks(Quieted(v)) == Over(Quieted(v), stops)
    ensures Finish(v, StopReason(v.hasToolUse, incomplete), usageIn, usageOut) ==
            if v.finished then v
            else Over(Quieted(v), stops).(
                   out := Quieted(v).out + stops + [MessageDelta(if v.hasToolUse then "tool_use" else if incomplete then "max_tokens" else "end_turn",
                                                                 usageIn, usageOut), MessageStop],
                   finished := true)
  {
    hide FinalizeThinking, Quieted, StopAllBlocks;
    var u := Quieted(v);
    var d := MessageDelta(StopReason(v.hasToolUse, incomplete), usageIn, usageOut);
    assert u.out + stops + [d] + [MessageStop] == u.out + stops + [d, MessageStop];
  }

  lemma {:induction false} StartedOutput(s: State, items: seq<Item>, i: nat)
    requires i <= |items| && s.started
    ensures FinalOutput(s, items, i).started
    decreases |items| - i
  {
    hide FinalItem;
    if i < |items| {
      StartedItem(s, items[i], i);
      StartedOutput(FinalItem(s, items[i], i), items, i + 1);
    }
  }

  lemma StartedItem(s: State, item: Item, i: nat)
    requires s.started
    ensures FinalItem(s, item, i).started
  {
    hide FinalItem, Shows, Told, CalledWhole, Ended, Place, Under, Thought, Either, Final, Texts, SummaryText;
    FinalWrites(s, item, i);
    match item
    case Message(id, parts) =>
      var k := Under("text:", Place(id, Final("final-", i), ""));
      ToldKeeps(s, k, Texts(parts));
      EndedKeeps(s, k);
      EndedKeeps(Told(s, k, Texts(parts)), k);
    case FunctionCall(id, callId, name, arguments, _) =>
      CalledKeeps(s, Under("tool:", Place(id, Either(callId, id), Final("final-", i))), Either(callId, id), name, if arguments == "" then "{}" else arguments);
    case Reasoning(id, summary, signature) => ShowsKeeps(s, Thought(Either(id, Final("final-reasoning-", i))), SummaryText(summary), signature);
    case _ =>
  }

  lemma {:induction false} ToldKeeps(s: State, k: string, texts: seq<string>)
    ensures Told(s, k, texts).started == s.started
    decreases |texts|
  {
    if texts != [] {
      ToldKeeps(if texts[0] == "" then s else Taken(Begun(s, k, Text, TextBody), k, TextPiece(texts[0])), k, texts[1..]);
    }
  }

  lemma EndedKeeps(s: State, k: string)
    ensures Ended(s, k).started == s.started
  {
  }

  lemma CalledKeeps(s: State, k: string, callId: string, name: string, arguments: string)
    ensures CalledWhole(s, k, callId, name, arguments).started == s.started
  {
    hide Called, Ended;
    CalledThere(s, k, callId, name);
    CalledOnce(s, k, callId, name, "");
    var u := Called(s, k, callId, name, "");
    CalledOnce(u, k, callId, name, arguments);
    EndedKeeps(u, k);
    EndedKeeps(Called(u, k, callId, name, arguments), k);
  }

  lemma CalledOnce(s: State, k: string, callId: string, name: string, piece: string)
    ensures Called(s, k, callId, name, piece).started == s.started
  {
    hide Begun, Taken;
    var body := ToolBody(if callId != "" then callId else if |k| >= 5 then k[5..] else k, if name == "" then "tool" else name);
    BegunKeeps(s, k, Tool, body);
    TakenKeeps(Begun(s, k, Tool, body), k, JsonPiece(piece));
  }

  lemma BegunKeeps(s: State, k: string, kind: Kind, body: Body)
    ensures Begun(s, k, kind, body).started == s.started && k in Begun(s, k, kind, body).blocks
  {
  }

  lemma TakenKeeps(s: State, k: string, piece: Delta)
    requires k in s.blocks
    ensures Taken(s, k, piece).started == s.started
  {
  }

  lemma ShutKeeps(s: State)
    ensures Shut(s).started == s.started
  {
  }

  lemma ThinkingKeeps(s: State, text: string)
    ensures Thinks(s).started == s.started && Muses(s, text).started == s.started
  {
  }

  lemma ShowsKeeps(s: State, key: string, summary: string, signature: string)
    ensures Shows(s, s, key, summary, signature).started == s.started
  {
    hide Shut, Thinks, Muses;
    var shown := if s.cfg.thinkingDisplay == "omitted" then "" else summary;
    var b := s.(reasoning := key, signature := if signature == "" then s.signature else signature);
    ThinkingKeeps(b, "");
    ThinkingKeeps(Thinks(b), shown);
    ShutKeeps(Muses(Thinks(b), shown));
  }
}
