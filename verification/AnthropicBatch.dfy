/**
 The whole-body converter: an Anthropic message built from a finished Responses
 object, and what a client reads from a stream of Anthropic events.
 */
module AnthropicBatch {
  import opened Basics
  import opened AnthropicWire
  import opened AnthropicSpec

  datatype Content =
    | TextContent(text: string)
    | ThinkingContent(thinking: string, signature: string)
    | ToolContent(id: string, name: string, input: string)

  datatype Reply = Reply(id: string, model: string, content: seq<Content>, stopReason: string,
                         inputTokens: int, outputTokens: int)

  /** Tool input as a client decodes it: nothing, or nothing valid, is the empty object. */
  function ReadInput(valid: string -> bool, json: string): string
  {
    if json == "" || !valid(json) then "{}" else json
  }

  // The reference converter

  function TextContents(texts: seq<string>): (contents: seq<Content>)
  {
    if texts == [] then [] else [TextContent(texts[0])] + TextContents(texts[1..])
  }

  function CallContent(cfg: Config, valid: string -> bool, item: Item): Content
    requires item.FunctionCall? || item.ToolCall?
  {
    var callId := FirstNonEmpty(item.callId, item.id);
    var args := if item.arguments != "" then item.arguments else item.fn.arguments;
    ToolContent(if callId == "" then "toolu_" + cfg.randomId else callId,
                if item.name != "" then item.name else item.fn.name,
                ReadInput(valid, args))
  }

  function VisibleSummary(cfg: Config, summary: Summary): string
  {
    if cfg.thinkingDisplay == "omitted" then "" else SummaryText(summary)
  }

  /** What one output item contributes to the message. */
  function BatchView(cfg: Config, valid: string -> bool, item: Item): seq<Content>
  {
    match item
    case Message(_, parts) => TextContents(Texts(parts))
    case FunctionCall(_, _, _, _, _) => [CallContent(cfg, valid, item)]
    case ToolCall(_, _, _, _, _) => [CallContent(cfg, valid, item)]
    case Reasoning(_, summary, signature) =>
      if !cfg.thinkingEnabled || (VisibleSummary(cfg, summary) == "" && signature == "") then []
      else [ThinkingContent(VisibleSummary(cfg, summary), signature)]
    case OtherItem => []
  }

  function BatchContent(cfg: Config, valid: string -> bool, items: seq<Item>): seq<Content>
  {
    if items == [] then []
    else BatchContent(cfg, valid, items[..|items| - 1]) + BatchView(cfg, valid, items[|items| - 1])
  }

  predicate HasCall(items: seq<Item>)
  {
    exists i :: 0 <= i < |items| && (items[i].FunctionCall? || items[i].ToolCall?)
  }

  lemma NoCall()
    ensures !HasCall([])
  {
  }

  lemma HasCallSnoc(items: seq<Item>, item: Item)
    ensures HasCall(items + [item]) <==> HasCall(items) || item.FunctionCall? || item.ToolCall?
  {
    var more := items + [item];
    assert more[|items|] == item;
    if HasCall(items) {
      var j :| 0 <= j < |items| && (items[j].FunctionCall? || items[j].ToolCall?);
      assert more[j] == items[j];
    }
    if HasCall(more) && !item.FunctionCall? && !item.ToolCall? {
      var j :| 0 <= j < |more| && (more[j].FunctionCall? || more[j].ToolCall?);
      assert items[j] == more[j];
    }
  }

  function Batch(cfg: Config, valid: string -> bool, r: Response): Reply
  {
    var content := BatchContent(cfg, valid, r.output);
    var model := Trim(cfg.requestModel);
    Reply(MessageId(if r.id == "" then "msg_" + cfg.randomId else r.id),
          if model != "" then model else if r.model != "" then r.model else "grok",
          if content == [] && r.outputText != "" then [TextContent(r.outputText)] else content,
          StopReason(HasCall(r.output), r.incomplete),
          if r.usage.Some? then InputCount(r.usage.value) else 0,
          if r.usage.Some? then OutputCount(r.usage.value) else 0)
  }

  // What the message says, in the response's own terms

  predicate IsCall(item: Item)
  {
    item.FunctionCall? || item.ToolCall?
  }

  /** A count goes by the first of two names it is given under, and is zero under neither. */
  predicate Counted(first: Option<int>, second: Option<int>, n: int)
  {
    && (first.Some? ==> n == first.value)
    && (first.None? && second.Some? ==> n == second.value)
    && (first.None? && second.None? ==> n == 0)
  }

  /** A call is what ends a message for tool use; only then does it matter whether the response is incomplete. */
  ghost predicate Ended(r: Response, reply: Reply)
  {
    && (reply.stopReason == "tool_use" <==> exists i :: 0 <= i < |r.output| && IsCall(r.output[i]))
    && (reply.stopReason == "max_tokens" <==> r.incomplete && forall i :: 0 <= i < |r.output| ==> !IsCall(r.output[i]))
    && reply.stopReason in ["tool_use", "max_tokens", "end_turn"]
    && match r.usage
       case None => reply.inputTokens == 0 && reply.outputTokens == 0
       case Some(u) => Counted(u.inputTokens, u.promptTokens, reply.inputTokens) && Counted(u.outputTokens, u.completionTokens, reply.outputTokens)
  }

  /** The response's id under the client's prefix, and the model asked for before the one that answered. */
  ghost predicate Labelled(cfg: Config, r: Response, reply: Reply)
  {
    && ClientId(r.id, cfg.randomId, reply.id) && reply.model != ""
    && (Trim(cfg.requestModel) != "" ==> reply.model == Trim(cfg.requestModel))
    && (Trim(cfg.requestModel) == "" && r.model != "" ==> reply.model == r.model)
    && (Trim(cfg.requestModel) == "" && r.model == "" ==> reply.model == "grok")
  }

  lemma EndSays(r: Response, reply: Reply)
    requires reply.stopReason == StopReason(HasCall(r.output), r.incomplete)
    requires reply.inputTokens == if r.usage.Some? then InputCount(r.usage.value) else 0
    requires reply.outputTokens == if r.usage.Some? then OutputCount(r.usage.value) else 0
    ensures Ended(r, reply)
  {
    if HasCall(r.output) {
      var i :| 0 <= i < |r.output| && (r.output[i].FunctionCall? || r.output[i].ToolCall?);
      assert IsCall(r.output[i]);
    }
  }

  /** How a message ends and what it is called; the plain output text only steps in where no item stands for anything. */
  lemma BatchSays(cfg: Config, valid: string -> bool, r: Response)
    ensures Ended(r, Batch(cfg, valid, r)) && Labelled(cfg, r, Batch(cfg, valid, r))
    ensures var content := BatchContent(cfg, valid, r.output);
            Batch(cfg, valid, r).content == if content == [] && r.outputText != "" then [TextContent(r.outputText)] else content
  {
    hide Trim, BatchContent, Ended, StopReason, HasCall, InputCount, OutputCount, MessageId, ClientId;
    EndSays(r, Batch(cfg, valid, r));
    ShownId(r.id, cfg.randomId);
  }

  /** The contents a call, a thought or a message stands for. */
  ghost predicate Stands(cfg: Config, valid: string -> bool, item: Item, c: seq<Content>)
  {
    match item
    case OtherItem => c == []
    case Reasoning(_, summary, signature) =>
      if !cfg.thinkingEnabled then c == []
      else
        exists shown: string ::
          && (if cfg.thinkingDisplay == "omitted" then shown == "" else Summarised(summary, shown))
          && c == (if shown == "" && signature == "" then [] else [ThinkingContent(shown, signature)])
    case Message(_, parts) => exists idx: seq<nat> :: ShowsTexts(parts, c, idx)
    case _ =>
      var args := if item.arguments != "" then item.arguments else item.fn.arguments;
      c == [ToolContent(
              if Trim(item.callId) != "" then Trim(item.callId) else if Trim(item.id) != "" then Trim(item.id)
              else "toolu_" + cfg.randomId,
              if item.name != "" then item.name else item.fn.name,
              if args != "" && valid(args) then args else "{}")]
  }

  function ShownPart(parts: seq<Part>): nat -> bool
  {
    (i: nat) => i < |parts| && parts[i].textual && parts[i].text != ""
  }

  /** The texts of a message that are not empty, one block each, in order. */
  ghost predicate ShowsTexts(parts: seq<Part>, c: seq<Content>, idx: seq<nat>)
  {
    && Picks(|parts|, ShownPart(parts), idx) && |c| == |idx|
    && forall k :: 0 <= k < |idx| ==> idx[k] < |parts| && c[k] == TextContent(parts[idx[k]].text)
  }

  function ShownText(texts: seq<string>): nat -> bool
  {
    (i: nat) => i < |texts| && Trim(texts[i]) != ""
  }

  /** The parts of a summary that are not blank, trimmed, in order. */
  ghost predicate ShowsParts(texts: seq<string>, lines: seq<string>, idx: seq<nat>)
  {
    && Picks(|texts|, ShownText(texts), idx) && |lines| == |idx|
    && forall k :: 0 <= k < |idx| ==> idx[k] < |texts| && lines[k] == Trim(texts[idx[k]])
  }

  /** One string as it is, or the parts that are not blank, trimmed, line by line. */
  ghost predicate Summarised(summary: Summary, shown: string)
  {
    match summary
    case Plain(text) => shown == text
    case Parts(texts) =>
      exists lines: seq<string>, idx: seq<nat> :: ShowsParts(texts, lines, idx) && shown == Join(lines, "\n")
  }

  lemma TextsSnoc(parts: seq<Part>, p: Part)
    ensures Texts(parts + [p]) == Texts(parts) + if p.textual && p.text != "" then [p.text] else []
  {
    if parts == [] {
      assert parts + [p] == [p] && [p][1..] == [];
    } else {
      assert (parts + [p])[0] == parts[0] && (parts + [p])[1..] == parts[1..] + [p];
      TextsSnoc(parts[1..], p);
    }
  }

  lemma TextContentsSnoc(texts: seq<string>, t: string)
    ensures TextContents(texts + [t]) == TextContents(texts) + [TextContent(t)]
  {
    if texts == [] {
      assert [t][1..] == [] && texts + [t] == [t];
    } else {
      assert (texts + [t])[0] == texts[0] && (texts + [t])[1..] == texts[1..] + [t];
      TextContentsSnoc(texts[1..], t);
    }
  }

  lemma {:induction false} TextsTell(parts: seq<Part>) returns (idx: seq<nat>)
    ensures ShowsTexts(parts, TextContents(Texts(parts)), idx)
  {
    if parts == [] {
      idx := [];
    } else {
      var front, p := parts[..|parts| - 1], parts[|parts| - 1];
      idx := TextsTell(front);
      assert parts == front + [p];
      TextsSnoc(front, p);
      assert Texts(front) + [] == Texts(front);
      if p.textual && p.text != "" { TextContentsSnoc(Texts(front), p.text); }
      idx := OneMoreText(front, p, TextContents(Texts(front)), idx);
    }
  }

  lemma OneMoreText(front: seq<Part>, p: Part, c: seq<Content>, before: seq<nat>) returns (idx: seq<nat>)
    requires ShowsTexts(front, c, before)
    ensures ShowsTexts(front + [p], if p.textual && p.text != "" then c + [TextContent(p.text)] else c, idx)
  {
    hide Picks;
    var parts := front + [p];
    PicksSame(|front|, ShownPart(front), ShownPart(parts), before);
    PicksMore(|front|, ShownPart(parts), before);
    idx := if ShownPart(parts)(|front|) then before + [|front|] else before;
  }

  lemma TrimmedSnoc(texts: seq<string>, t: string)
    ensures TrimmedTexts(texts + [t]) == TrimmedTexts(texts) + if Trim(t) != "" then [Trim(t)] else []
  {
    hide Trim;
    if texts == [] {
      assert texts + [t] == [t] && [t][1..] == [];
    } else {
      assert (texts + [t])[0] == texts[0] && (texts + [t])[1..] == texts[1..] + [t];
      TrimmedSnoc(texts[1..], t);
    }
  }

  lemma {:induction false} LinesTell(texts: seq<string>) returns (idx: seq<nat>)
    ensures ShowsParts(texts, TrimmedTexts(texts), idx)
  {
    hide Trim;
    if texts == [] {
      idx := [];
    } else {
      var front, t := texts[..|texts| - 1], texts[|texts| - 1];
      idx := LinesTell(front);
      assert texts == front + [t];
      TrimmedSnoc(front, t);
      idx := OneMoreLine(front, t, TrimmedTexts(front), idx);
    }
  }

  lemma OneMoreLine(front: seq<string>, t: string, lines: seq<string>, before: seq<nat>) returns (idx: seq<nat>)
    requires ShowsParts(front, lines, before)
    ensures ShowsParts(front + [t], lines + if Trim(t) != "" then [Trim(t)] else [], idx)
  {
    hide Picks, Trim;
    var texts := front + [t];
    PicksSame(|front|, ShownText(front), ShownText(texts), before);
    PicksMore(|front|, ShownText(texts), before);
    idx := if ShownText(texts)(|front|) then before + [|front|] else before;
  }

  lemma SummaryTells(summary: Summary)
    ensures Summarised(summary, SummaryText(summary))
  {
    if summary.Parts? { var idx := LinesTell(summary.texts); }
  }

  lemma ViewStands(cfg: Config, valid: string -> bool, item: Item)
    ensures Stands(cfg, valid, item, BatchView(cfg, valid, item))
  {
    hide Summarised, ShowsTexts, Trim, Texts, SummaryText;
    match item
    case Message(_, parts) => var idx := TextsTell(parts);
    case Reasoning(_, summary, signature) =>
      SummaryTells(summary);
      if cfg.thinkingEnabled { assert VisibleSummary(cfg, summary) == if cfg.thinkingDisplay == "omitted" then "" else SummaryText(summary); }
    case _ =>
  }

  lemma {:induction false} ContentAt(cfg: Config, valid: string -> bool, items: seq<Item>, i: nat)
    requires i < |items|
    ensures BatchContent(cfg, valid, items) ==
            BatchContent(cfg, valid, items[..i]) + BatchView(cfg, valid, items[i]) + BatchContent(cfg, valid, items[i + 1..])
    decreases |items|
  {
    hide BatchView;
    var front := items[..|items| - 1];
    if i == |front| {
      assert items[i + 1..] == [];
    } else {
      ContentAt(cfg, valid, front, i);
      assert front[..i] == items[..i] && items[i + 1..][..|items| - i - 2] == front[i + 1..];
    }
  }

  /** Each output item stands in the message at its place, after what the items before it stand for. */
  lemma ContentTells(cfg: Config, valid: string -> bool, items: seq<Item>, i: nat)
    requires i < |items|
    ensures exists c: seq<Content> :: Stands(cfg, valid, items[i], c)
              && BatchContent(cfg, valid, items) == BatchContent(cfg, valid, items[..i]) + c + BatchContent(cfg, valid, items[i + 1..])
    ensures BatchContent(cfg, valid, []) == []
  {
    hide BatchView, Stands;
    ViewStands(cfg, valid, items[i]);
    ContentAt(cfg, valid, items, i);
  }

  lemma ContentSnoc(cfg: Config, valid: string -> bool, items: seq<Item>, item: Item)
    ensures BatchContent(cfg, valid, items + [item]) == BatchContent(cfg, valid, items) + BatchView(cfg, valid, item)
  {
    hide BatchView;
    assert (items + [item])[..|items|] == items;
  }

  lemma ViewCases(cfg: Config, valid: string -> bool, item: Item)
    ensures var c := BatchView(cfg, valid, item);
            match item
            case Message(_, parts) => c == TextContents(Texts(parts))
            case Reasoning(_, summary, signature) =>
              c == if !cfg.thinkingEnabled || (VisibleSummary(cfg, summary) == "" && signature == "") then []
                   else [ThinkingContent(VisibleSummary(cfg, summary), signature)]
            case OtherItem => c == []
            case _ => c == [CallContent(cfg, valid, item)]
  {
  }

  /** The converter as written: one pass that appends blocks and notes whether a tool was used. */
  method ResponsesToAnthropic(cfg: Config, valid: string -> bool, r: Response) returns (reply: Reply)
    ensures reply == Batch(cfg, valid, r) && Ended(r, reply) && Labelled(cfg, r, reply)
  {
    hide BatchView, Ended, Labelled, HasCall, CallContent, Texts, SummaryText, StopReason, MessageId, Trim;
    var content: seq<Content> := [];
    var hasTool := false;
    NoCall();
    var i := 0;
    while i < |r.output|
      invariant i <= |r.output|
      invariant content == BatchContent(cfg, valid, r.output[..i])
      invariant hasTool == HasCall(r.output[..i])
    {
      var item := r.output[i];
      assert r.output[..i + 1] == r.output[..i] + [item];
      HasCallSnoc(r.output[..i], item);
      ContentSnoc(cfg, valid, r.output[..i], item);
      ViewCases(cfg, valid, item);
      match item {
        case Message(_, parts) => content := content + TextContents(Texts(parts));
        case FunctionCall(_, _, _, _, _) =>
          hasTool := true;
          content := content + [CallContent(cfg, valid, item)];
        case ToolCall(_, _, _, _, _) =>
          hasTool := true;
          content := content + [CallContent(cfg, valid, item)];
        case Reasoning(_, summary, signature) =>
          if cfg.thinkingEnabled {
            var shown := VisibleSummary(cfg, summary);
            if !(shown == "" && signature == "") {
              content := content + [ThinkingContent(shown, signature)];
            }
          }
        case OtherItem =>
      }
      i := i + 1;
    }
    assert r.output[..|r.output|] == r.output;
    assert content == BatchContent(cfg, valid, r.output) && hasTool == HasCall(r.output);
    if |content| == 0 && r.outputText != "" {
      content := [TextContent(r.outputText)];
    }
    var model := Trim(cfg.requestModel);
    if model == "" { model := r.model; }
    if model == "" { model := "grok"; }
    var input, output := 0, 0;
    if r.usage.Some? {
      input, output := InputCount(r.usage.value), OutputCount(r.usage.value);
    }
    reply := Reply(MessageId(if r.id == "" then "msg_" + cfg.randomId else r.id), model, content,
                   StopReason(hasTool, r.incomplete), input, output);
    BatchSays(cfg, valid, r);
  }

  // The client's side of a stream

  const Blank := Reply("", "", [], "", 0, 0)

  function EmptyContent(body: Body): Content
  {
    match body
    case TextBody => TextContent("")
    case ThinkingBody => ThinkingContent("", "")
    case ToolBody(id, name) => ToolContent(id, name, "")
  }

  function AddDelta(c: Content, d: Delta): Content
  {
    match (c, d)
    case (TextContent(t), TextPiece(p)) => TextContent(t + p)
    case (ToolContent(i, n, j), JsonPiece(p)) => ToolContent(i, n, j + p)
    case (ThinkingContent(t, s), ThinkingPiece(p)) => ThinkingContent(t + p, s)
    case (ThinkingContent(t, s), SignaturePiece(p)) => ThinkingContent(t, s + p)
    case _ => c
  }

  /** What a client holds after one more event: blocks are addressed by their index. */
  function Receive(r: Reply, o: Out): Reply
  {
    match o
    case MessageStart(id, model, _) => r.(id := id, model := model)
    case BlockStart(i, body) => if i == |r.content| then r.(content := r.content + [EmptyContent(body)]) else r
    case BlockDelta(i, d) => if i < |r.content| then r.(content := r.content[i := AddDelta(r.content[i], d)]) else r
    case MessageDelta(reason, input, output) => r.(stopReason := reason, inputTokens := input, outputTokens := output)
    case _ => r
  }

  function ReadReply(trace: seq<Out>): Reply
  {
    if trace == [] then Blank else Receive(ReadReply(trace[..|trace| - 1]), trace[|trace| - 1])
  }

  function Decode(valid: string -> bool, c: Content): Content
  {
    if c.ToolContent? then c.(input := ReadInput(valid, c.input)) else c
  }

  /** The content of a stream with tool inputs decoded. */
  function DecodeAll(valid: string -> bool, contents: seq<Content>): (decoded: seq<Content>)
    ensures |decoded| == |contents|
  {
    seq(|contents|, i requires 0 <= i < |contents| => Decode(valid, contents[i]))
  }
}
