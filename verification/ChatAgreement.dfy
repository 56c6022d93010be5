/**
 The chat stream agrees with the whole-body converter: for argument deltas of different
 calls interleaved in any order, folding the chunks by tool index gives the converter's
 text, calls and finish reason.
 */
module ChatAgreement {
  import opened Basics
  import opened ChatWire
  import opened ChatSpec

  datatype ChatCall = ChatCall(id: string, name: string, arguments: string)

  datatype Completion = Completion(text: string, calls: seq<ChatCall>, finish: string)

  // The reference converter

  function Texts(parts: seq<Part>): string
  {
    if parts == [] then ""
    else Texts(parts[..|parts| - 1]) + if parts[|parts| - 1].textual then parts[|parts| - 1].text else ""
  }

  function BatchText(output: seq<Item>): string
  {
    if output == [] then ""
    else
      var item := output[|output| - 1];
      BatchText(output[..|output| - 1]) + if item.Message? then Texts(item.parts) else ""
  }

  function BatchArguments(c: Call): string
  {
    if CallArguments(c) != "" then CallArguments(c) else if c.parameters != "" then c.parameters else "{}"
  }

  function BatchCallId(c: Call, random: string): string
  {
    if CallId(c) != "" then CallId(c) else "call_" + random
  }

  /** The tool calls of an output; unnamed calls are dropped. */
  function BatchCalls(output: seq<Item>, random: string): seq<ChatCall>
  {
    if output == [] then []
    else
      var item := output[|output| - 1];
      BatchCalls(output[..|output| - 1], random)
      + if item.CallItem? && CallName(item.call) != ""
        then [ChatCall(BatchCallId(item.call, random), CallName(item.call), BatchArguments(item.call))] else []
  }

  function Batch(r: Response, random: string): Completion
  {
    var calls := BatchCalls(r.output, random);
    Completion(if Trim(r.outputText) != "" then Trim(r.outputText) else BatchText(r.output), calls,
               FinishReason(calls != [], r.incomplete))
  }

  /** Appends the texts of one message. */
  method AppendTexts(before: string, content: seq<Part>) returns (text: string)
    ensures text == before + Texts(content)
  {
    text := before;
    assert before + "" == before;
    var j := 0;
    while j < |content|
      invariant j <= |content|
      invariant text == before + Texts(content[..j])
    {
      assert content[..j + 1][..j] == content[..j];
      if content[j].textual && content[j].text != "" {
        text := text + content[j].text;
      }
      j := j + 1;
    }
    assert content[..|content|] == content;
  }

  /** The converter as written: one pass over the output that appends parts and calls. */
  method ResponsesToChat(r: Response, random: string) returns (completion: Completion)
    ensures completion == Batch(r, random)
  {
    hide CallId, CallName, BatchArguments, Trim, Texts;
    var text := Trim(r.outputText);
    var parts := "";
    var calls: seq<ChatCall> := [];
    var i := 0;
    while i < |r.output|
      invariant i <= |r.output|
      invariant parts == BatchText(r.output[..i])
      invariant calls == BatchCalls(r.output[..i], random)
    {
      assert r.output[..i + 1][..i] == r.output[..i] && r.output[..i + 1][i] == r.output[i];
      match r.output[i] {
        case Message(content) => parts := AppendTexts(parts, content);
        case CallItem(c) =>
          if CallName(c) != "" {
            calls := calls + [ChatCall(BatchCallId(c, random), CallName(c), BatchArguments(c))];
          }
        case OtherItem =>
      }
      i := i + 1;
    }
    assert r.output[..|r.output|] == r.output;
    if text == "" {
      text := parts;
    }
    completion := Completion(text, calls, FinishReason(|calls| > 0, r.incomplete));
  }

  // The client's side of the stream

  function Receive(r: Completion, c: Chunk): Completion
  {
    match c
    case ContentChunk(text) => r.(text := r.text + text)
    case ToolStart(i, id, name) => if i == |r.calls| then r.(calls := r.calls + [ChatCall(id, name, "")]) else r
    case ToolArguments(i, arguments) =>
      if i < |r.calls| then r.(calls := r.calls[i := r.calls[i].(arguments := r.calls[i].arguments + arguments)]) else r
    case FinishChunk(reason) => r.(finish := reason)
    case _ => r
  }

  function Fold(trace: seq<Chunk>): Completion
  {
    if trace == [] then Completion("", [], "") else Receive(Fold(trace[..|trace| - 1]), trace[|trace| - 1])
  }

  function Held(s: State): Completion
  {
    Fold(s.out)
  }

  lemma HeldQueue(s: State, c: Chunk)
    ensures Held(Queue(s, c)) == Receive(Held(s), c)
  {
    assert (s.out + [c])[..|s.out|] == s.out;
  }

  /** A client reads no arguments as the empty object. */
  function ReadArguments(c: ChatCall): ChatCall
  {
    if c.arguments == "" then c.(arguments := "{}") else c
  }

  function ReadCalls(calls: seq<ChatCall>): (read: seq<ChatCall>)
    ensures |read| == |calls|
  {
    seq(|calls|, i requires 0 <= i < |calls| => ReadArguments(calls[i]))
  }

  function ReadCompletion(r: Completion): Completion
  {
    r.(calls := ReadCalls(r.calls))
  }

  // What upstream may send for an output: projections of an event list

  function TextOf(events: seq<Event>): string
  {
    if events == [] then ""
    else
      var e := events[|events| - 1];
      TextOf(events[..|events| - 1]) + if e.TextDelta? then e.delta else ""
  }

  function Delta(e: Event): string
    requires e.ArgumentsDelta?
  {
    if e.delta != "" then e.delta else e.arguments
  }

  function ArgumentsOf(events: seq<Event>, k: int): string
  {
    if events == [] then ""
    else
      var e := events[|events| - 1];
      ArgumentsOf(events[..|events| - 1], k) + if e.ArgumentsDelta? && e.index == k then Delta(e) else ""
  }

  predicate Opens(e: Event, k: int)
  {
    (e.ItemAdded? || e.ItemDone?) && e.index == k
  }

  predicate Opened(events: seq<Event>, k: int)
  {
    if events == [] then false
    else Opened(events[..|events| - 1], k) || Opens(events[|events| - 1], k)
  }

  predicate Finished(events: seq<Event>, k: int)
  {
    if events == [] then false
    else Finished(events[..|events| - 1], k) || (events[|events| - 1].ItemDone? && events[|events| - 1].index == k)
  }

  /** A call that has a name or an id; one with neither is ignored by both forms. */
  predicate IsCall(output: seq<Item>, k: int)
  {
    0 <= k < |output| && output[k].CallItem? && (CallId(output[k].call) != "" || CallName(output[k].call) != "")
  }

  /** Every call has an id of its own. */
  ghost predicate Identified(output: seq<Item>)
  {
    && (forall k :: IsCall(output, k) ==> CallId(output[k].call) != "")
    && (forall j, k :: IsCall(output, j) && IsCall(output, k) && CallId(output[j].call) == CallId(output[k].call) ==> j == k)
  }

  /** The item in an announcement or completion stands for output item `k`. */
  predicate SameItem(output: seq<Item>, k: int, item: Item, complete: bool)
  {
    && 0 <= k < |output| && item.CallItem? == output[k].CallItem?
    && (item.CallItem? ==>
          && CallId(item.call) == CallId(output[k].call) && CallName(item.call) == CallName(output[k].call)
          && (complete ==> CallArguments(item.call) == CallArguments(output[k].call)))
  }

  /** The ids of a delta do not name another call of the output. */
  ghost predicate NotAnother(output: seq<Item>, k: int, key: string)
  {
    forall j :: IsCall(output, j) && j != k ==> CallId(output[j].call) != key
  }

  /** One non-terminal event, given what came before; deltas of different calls may interleave freely. */
  ghost predicate EventOk(output: seq<Item>, before: seq<Event>, e: Event)
  {
    match e
    case ItemAdded(item, k) => SameItem(output, k, item, false)
    case ItemDone(item, k) => SameItem(output, k, item, true)
    case ArgumentsDelta(callId, itemId, _, _, k) =>
      && IsCall(output, k) && !Finished(before, k)
      && NotAnother(output, k, FirstNonEmpty(callId, itemId))
    case Completed => false
    case Incomplete => false
    case Failed(_) => false
    case _ => true
  }

  ghost predicate EventsOk(output: seq<Item>, events: seq<Event>)
  {
    events == []
    || (EventsOk(output, events[..|events| - 1])
        && EventOk(output, events[..|events| - 1], events[|events| - 1]))
  }

  /** Every piece of arguments follows an announcement or completion of its call. */
  predicate Announced(events: seq<Event>)
  {
    if events == [] then true
    else
      var before, e := events[..|events| - 1], events[|events| - 1];
      Announced(before) && (e.ArgumentsDelta? && Delta(e) != "" ==> Opened(before, e.index))
  }

  ghost predicate Regular(output: seq<Item>, events: seq<Event>)
  {
    EventsOk(output, events) && Announced(events)
  }

  /** The events carry the whole output: its text, and every call completed. */
  ghost predicate Streams(output: seq<Item>, events: seq<Event>)
  {
    && Identified(output)
    && EventsOk(output, events)
    && TextOf(events) == BatchText(output)
    && (forall k :: IsCall(output, k) ==>
          Finished(events, k)
          && (ArgumentsOf(events, k) == "" || ArgumentsOf(events, k) == CallArguments(output[k].call)))
  }

  // The order of first mention

  /** The calls in the order in which the events first mention them. */
  function Mentions(output: seq<Item>, events: seq<Event>): seq<int>
  {
    if events == [] then []
    else
      var before, e := events[..|events| - 1], events[|events| - 1];
      Mentions(output, before)
      + if (e.ItemAdded? || e.ItemDone?) && IsCall(output, e.index) && !Opened(before, e.index) then [e.index] else []
  }

  /** The place of call `k` in that order. */
  function Place(output: seq<Item>, events: seq<Event>, k: int): nat
  {
    if events == [] then 0
    else
      var before := events[..|events| - 1];
      if Opened(before, k) then Place(output, before, k) else |Mentions(output, before)|
  }

  lemma MentionsMore(output: seq<Item>, events: seq<Event>, e: Event, k: int)
    ensures Mentions(output, events + [e]) ==
            Mentions(output, events)
            + if (e.ItemAdded? || e.ItemDone?) && IsCall(output, e.index) && !Opened(events, e.index) then [e.index] else []
    ensures Place(output, events + [e], k) == if Opened(events, k) then Place(output, events, k) else |Mentions(output, events)|
  {
    assert (events + [e])[..|events|] == events;
  }

  /** The mentioned calls stand in the order at their places, and only they. */
  lemma {:induction false} PlaceAt(output: seq<Item>, events: seq<Event>, k: int)
    requires IsCall(output, k) && Opened(events, k)
    ensures var m := Mentions(output, events); Place(output, events, k) < |m| && m[Place(output, events, k)] == k
  {
    var before := events[..|events| - 1];
    if Opened(before, k) { PlaceAt(output, before, k); }
  }

  lemma {:induction false} MentionAt(output: seq<Item>, events: seq<Event>, i: nat)
    requires i < |Mentions(output, events)|
    ensures var k := Mentions(output, events)[i]; IsCall(output, k) && Opened(events, k) && Place(output, events, k) == i
  {
    var before := events[..|events| - 1];
    if i < |Mentions(output, before)| { MentionAt(output, before, i); }
  }

  /** What the stream has shown for call `k` so far. */
  function ShownArguments(output: seq<Item>, events: seq<Event>, k: int): string
    requires IsCall(output, k)
  {
    if ArgumentsOf(events, k) != "" then ArgumentsOf(events, k)
    else if Finished(events, k) then CallArguments(output[k].call)
    else ""
  }

  /** The state after `events`: the mentioned calls hold their places, in both tables and in the fold. */
  ghost predicate Tracks(output: seq<Item>, events: seq<Event>, s: State)
  {
    && !s.done
    && (s.next > 0 <==> s.sawTools)
    && Held(s).text == TextOf(events) && |Held(s).calls| == s.next == |Mentions(output, events)|
    && (forall k :: IsCall(output, k) && Opened(events, k) ==> CallTracked(output, events, s, k))
    && (forall id :: id in s.byCall ==> exists k :: IsCall(output, k) && Opened(events, k) && CallId(output[k].call) == id)
  }

  ghost predicate CallTracked(output: seq<Item>, events: seq<Event>, s: State, k: int)
    requires IsCall(output, k)
  {
    var i := Place(output, events, k);
    var c := output[k].call;
    && CallId(c) in s.byCall && s.byCall[CallId(c)] == i
    && k in s.byIndex && s.byIndex[k] == i
    && i < |Held(s).calls|
    && Held(s).calls[i] == ChatCall(CallId(c), CallName(c), ShownArguments(output, events, k))
    && (i in s.argued <==> ShownArguments(output, events, k) != "")
  }

  lemma InitTracks(output: seq<Item>)
    ensures Tracks(output, [], Init)
  {
  }

  // Facts about projections

  /** Nothing was sent for a call that was not yet mentioned. */
  lemma {:induction false} UnopenedSilent(output: seq<Item>, events: seq<Event>, k: int)
    requires Regular(output, events) && !Opened(events, k)
    ensures ArgumentsOf(events, k) == "" && !Finished(events, k)
  {
    if events != [] {
      UnopenedSilent(output, events[..|events| - 1], k);
    }
  }

  lemma OpenedMore(events: seq<Event>, e: Event, k: int)
    ensures Opened(events + [e], k) == (Opened(events, k) || Opens(e, k))
    ensures Finished(events + [e], k) == (Finished(events, k) || (e.ItemDone? && e.index == k))
    ensures ArgumentsOf(events + [e], k) == ArgumentsOf(events, k) + (if e.ArgumentsDelta? && e.index == k then Delta(e) else "")
    ensures TextOf(events + [e]) == TextOf(events) + (if e.TextDelta? then e.delta else "")
  {
    assert (events + [e])[..|events|] == events;
  }

  lemma PlacesDiffer(output: seq<Item>, events: seq<Event>, j: int, k: int)
    requires IsCall(output, j) && IsCall(output, k) && j != k && Opened(events, j) && Opened(events, k)
    ensures Place(output, events, j) != Place(output, events, k)
  {
    PlaceAt(output, events, j);
    PlaceAt(output, events, k);
  }

  // Events that touch no call

  lemma {:induction false} SameShown(output: seq<Item>, events: seq<Event>, e: Event, k: int)
    requires IsCall(output, k) && !(e.ArgumentsDelta? && e.index == k && Delta(e) != "") && !(e.ItemDone? && e.index == k)
    ensures ShownArguments(output, events + [e], k) == ShownArguments(output, events, k)
  {
    OpenedMore(events, e, k);
    assert ArgumentsOf(events, k) + "" == ArgumentsOf(events, k);
  }

  /** A state that differs only in text and chunks of no call tracks the longer history. */
  lemma TextTracks(output: seq<Item>, events: seq<Event>, e: Event, s: State, t: State)
    requires Tracks(output, events, s) && !e.ArgumentsDelta? && !e.ItemDone? && !e.ItemAdded?
    requires t == s.(started := t.started, out := t.out)
    requires Held(t) == Held(s).(text := Held(s).text + if e.TextDelta? then e.delta else "")
    ensures Tracks(output, events + [e], t)
  {
    hide Fold;
    OpenedMore(events, e, 0);
    MentionsMore(output, events, e, 0);
    forall k | IsCall(output, k)
      ensures Opened(events + [e], k) == Opened(events, k)
      ensures Opened(events, k) ==> CallTracked(output, events + [e], t, k)
    {
      OpenedMore(events, e, k);
      MentionsMore(output, events, e, k);
      SameShown(output, events, e, k);
    }
    forall id | id in t.byCall ensures exists k :: IsCall(output, k) && Opened(events + [e], k) && CallId(output[k].call) == id {
      var k :| IsCall(output, k) && Opened(events, k) && CallId(output[k].call) == id;
      OpenedMore(events, e, k);
    }
  }

  lemma BeginHeld(s: State)
    ensures Held(Begin(s)) == Held(s)
    ensures Begin(s) == s.(started := true, out := Begin(s).out)
  {
    HeldQueue(s, RoleChunk);
  }

  lemma ContentTracks(output: seq<Item>, events: seq<Event>, s: State, delta: string)
    requires Tracks(output, events, s)
    ensures Tracks(output, events + [TextDelta(delta)], Content(Begin(s), delta))
  {
    hide Fold;
    BeginHeld(s);
    HeldQueue(Begin(s), if delta != "" then ContentChunk(delta) else EmptyChunk);
    assert Held(s).text + "" == Held(s).text;
    TextTracks(output, events, TextDelta(delta), s, Content(Begin(s), delta));
  }

  lemma QuietTracks(output: seq<Item>, events: seq<Event>, e: Event, s: State, t: State)
    requires Tracks(output, events, s) && !e.ArgumentsDelta? && !e.ItemDone? && !e.ItemAdded? && !e.TextDelta?
    requires t == s || t == Begin(s)
    ensures Tracks(output, events + [e], t)
  {
    hide Fold;
    BeginHeld(s);
    assert Held(s).text + "" == Held(s).text;
    TextTracks(output, events, e, s, t);
  }

  /** An item that is not a call and an empty piece change nothing. */
  lemma MentionTracks(output: seq<Item>, events: seq<Event>, e: Event, s: State)
    requires Tracks(output, events, s)
    requires ((e.ItemAdded? || e.ItemDone?) && !IsCall(output, e.index)) || (e.ArgumentsDelta? && Delta(e) == "")
    ensures Tracks(output, events + [e], s)
  {
    hide Fold;
    OpenedMore(events, e, 0);
    MentionsMore(output, events, e, 0);
    assert TextOf(events) + "" == TextOf(events);
    forall k | IsCall(output, k)
      ensures Opened(events + [e], k) == Opened(events, k)
      ensures Opened(events, k) ==> CallTracked(output, events + [e], s, k)
    {
      OpenedMore(events, e, k);
      MentionsMore(output, events, e, k);
      SameShown(output, events, e, k);
    }
    forall id | id in s.byCall ensures exists k :: IsCall(output, k) && Opened(events + [e], k) && CallId(output[k].call) == id {
      var k :| IsCall(output, k) && Opened(events, k) && CallId(output[k].call) == id;
      OpenedMore(events, e, k);
    }
  }

  // Opening a call

  /** The state just after call `k` is announced. */
  ghost predicate JustOpened(output: seq<Item>, s: State, t: State, k: int)
    requires IsCall(output, k)
  {
    var c := output[k].call;
    && t == s.(started := true, next := s.next + 1, byCall := s.byCall[CallId(c) := s.next],
               byIndex := s.byIndex[k := s.next], sawTools := true, out := t.out)
    && Held(t) == Held(s).(calls := Held(s).calls + [ChatCall(CallId(c), CallName(c), "")])
  }

  lemma OpenShows(output: seq<Item>, s: State, k: int)
    requires IsCall(output, k) && |Held(s).calls| == s.next
    ensures JustOpened(output, s, Open(s, CallId(output[k].call), CallName(output[k].call), k), k)
  {
    hide Fold, CallId, CallName;
    BeginHeld(s);
    HeldQueue(Begin(s), ToolStart(s.next, CallId(output[k].call), CallName(output[k].call)));
  }

  /** Arguments may follow the announcement at once. */
  ghost predicate OpenedWith(output: seq<Item>, s: State, t: State, k: int, arguments: string)
    requires IsCall(output, k)
  {
    var c := output[k].call;
    && t == s.(started := true, next := s.next + 1, byCall := s.byCall[CallId(c) := s.next],
               byIndex := s.byIndex[k := s.next], sawTools := true, out := t.out,
               argued := if arguments == "" then s.argued else s.argued + {s.next})
    && Held(t) == Held(s).(calls := Held(s).calls + [ChatCall(CallId(c), CallName(c), arguments)])
  }

  lemma ArgueOpened(output: seq<Item>, s: State, t: State, k: int, arguments: string)
    requires IsCall(output, k) && |Held(s).calls| == s.next && JustOpened(output, s, t, k)
    ensures OpenedWith(output, s, if arguments == "" then t else Argue(t, s.next, arguments), k, arguments)
  {
    hide Fold, CallId, CallName;
    if arguments != "" {
      HeldQueue(t, ToolArguments(s.next, arguments));
      assert "" + arguments == arguments;
      var u := Argue(t, s.next, arguments);
      assert Held(u).calls == Held(s).calls + [ChatCall(CallId(output[k].call), CallName(output[k].call), arguments)];
    }
  }

  lemma FirstOwn(output: seq<Item>, events: seq<Event>, e: Event, s: State, t: State, k: int, arguments: string)
    requires Regular(output, events) && |Held(s).calls| == s.next == |Mentions(output, events)|
    requires IsCall(output, k) && !Opened(events, k) && Opens(e, k)
    requires OpenedWith(output, s, t, k, arguments)
    requires arguments == if e.ItemDone? then CallArguments(output[k].call) else ""
    requires forall i :: i in s.argued ==> i < s.next
    ensures CallTracked(output, events + [e], t, k)
  {
    hide Fold, CallId, CallName, CallArguments;
    UnopenedSilent(output, events, k);
    OpenedMore(events, e, k);
    MentionsMore(output, events, e, k);
    assert "" + "" == "";
    assert ShownArguments(output, events + [e], k) == arguments;
  }

  lemma FirstOther(output: seq<Item>, events: seq<Event>, e: Event, s: State, t: State, k: int, arguments: string, j: int)
    requires Identified(output) && |Held(s).calls| == s.next
    requires IsCall(output, k) && Opens(e, k) && OpenedWith(output, s, t, k, arguments)
    requires IsCall(output, j) && j != k && Opened(events, j) && CallTracked(output, events, s, j)
    ensures CallTracked(output, events + [e], t, j)
  {
    hide Fold, CallId, CallName, CallArguments, ShownArguments;
    MentionsMore(output, events, e, j);
    SameShown(output, events, e, j);
  }

  lemma FirstTracks(output: seq<Item>, events: seq<Event>, e: Event, s: State, t: State, k: int, arguments: string)
    requires Identified(output) && Regular(output, events) && Tracks(output, events, s)
    requires IsCall(output, k) && !Opened(events, k) && Opens(e, k)
    requires OpenedWith(output, s, t, k, arguments)
    requires arguments == if e.ItemDone? then CallArguments(output[k].call) else ""
    requires forall i :: i in s.argued ==> i < s.next
    ensures Tracks(output, events + [e], t)
  {
    hide Fold, CallId, CallName, CallArguments, CallTracked, ShownArguments, Identified, Regular;
    OpenedMore(events, e, k);
    MentionsMore(output, events, e, k);
    assert TextOf(events) + "" == TextOf(events);
    FirstOwn(output, events, e, s, t, k, arguments);
    forall j | IsCall(output, j)
      ensures Opened(events + [e], j) ==> CallTracked(output, events + [e], t, j)
    {
      OpenedMore(events, e, j);
      if j != k && Opened(events, j) { FirstOther(output, events, e, s, t, k, arguments, j); }
    }
    forall id | id in t.byCall ensures exists j :: IsCall(output, j) && Opened(events + [e], j) && CallId(output[j].call) == id {
      if id == CallId(output[k].call) {
        assert Opened(events + [e], k);
      } else {
        var j :| IsCall(output, j) && Opened(events, j) && CallId(output[j].call) == id;
        OpenedMore(events, e, j);
      }
    }
  }

  // Events about a call already opened

  /** `t` appends `arguments` to what the call at place `i` shows, and nothing else. */
  ghost predicate ArguedOn(s: State, t: State, i: nat, arguments: string)
  {
    && t == s.(out := t.out, argued := if arguments == "" then s.argued else s.argued + {i})
    && i < |Held(s).calls|
    && Held(t) == Held(s).(calls := Held(s).calls[i := Held(s).calls[i].(arguments := Held(s).calls[i].arguments + arguments)])
  }

  lemma ArgueShows(s: State, i: nat, arguments: string)
    requires i < |Held(s).calls|
    ensures ArguedOn(s, if arguments == "" then s else Argue(s, i, arguments), i, arguments)
  {
    hide Fold;
    HeldQueue(s, ToolArguments(i, arguments));
    assert Held(s).calls[i].arguments + "" == Held(s).calls[i].arguments;
    assert Held(s).calls[i := Held(s).calls[i]] == Held(s).calls;
  }

  lemma LaterOne(output: seq<Item>, events: seq<Event>, e: Event, s: State, t: State, k: int, arguments: string, j: int)
    requires IsCall(output, k) && IsCall(output, j) && Opened(events, k) && Opened(events, j)
    requires (e.ItemAdded? || e.ItemDone? || e.ArgumentsDelta?) && e.index == k
    requires ArguedOn(s, t, Place(output, events, k), arguments)
    requires ShownArguments(output, events + [e], k) == ShownArguments(output, events, k) + arguments
    requires CallTracked(output, events, s, j)
    ensures CallTracked(output, events + [e], t, j)
  {
    hide Fold, CallId, CallName, CallArguments, ShownArguments;
    MentionsMore(output, events, e, j);
    if j != k {
      PlacesDiffer(output, events, j, k);
      SameShown(output, events, e, j);
    }
  }

  lemma LaterTracks(output: seq<Item>, events: seq<Event>, e: Event, s: State, t: State, k: int, arguments: string)
    requires Tracks(output, events, s) && IsCall(output, k) && Opened(events, k)
    requires (e.ItemAdded? || e.ItemDone? || e.ArgumentsDelta?) && e.index == k
    requires ArguedOn(s, t, Place(output, events, k), arguments)
    requires ShownArguments(output, events + [e], k) == ShownArguments(output, events, k) + arguments
    ensures Tracks(output, events + [e], t)
  {
    hide Fold, CallId, CallName, CallArguments, ShownArguments, CallTracked;
    OpenedMore(events, e, k);
    MentionsMore(output, events, e, k);
    assert TextOf(events) + "" == TextOf(events);
    forall j | IsCall(output, j)
      ensures Opened(events + [e], j) == Opened(events, j)
      ensures Opened(events, j) ==> CallTracked(output, events + [e], t, j)
    {
      OpenedMore(events, e, j);
      if Opened(events, j) { LaterOne(output, events, e, s, t, k, arguments, j); }
    }
    forall id | id in t.byCall ensures exists j :: IsCall(output, j) && Opened(events + [e], j) && CallId(output[j].call) == id {
      var j :| IsCall(output, j) && Opened(events, j) && CallId(output[j].call) == id;
      OpenedMore(events, e, j);
    }
  }

  /** An opened call is resolved to its own index, by its id or by its output index. */
  lemma Resolves(output: seq<Item>, events: seq<Event>, s: State, k: int, callId: string, itemId: string)
    requires Identified(output) && Tracks(output, events, s) && IsCall(output, k)
    requires NotAnother(output, k, FirstNonEmpty(callId, itemId))
    ensures Opened(events, k) ==> Resolve(s, callId, itemId, k) == Some(Place(output, events, k))
    ensures FirstNonEmpty(callId, itemId) != "" && FirstNonEmpty(callId, itemId) in s.byCall ==> Opened(events, k)
  {
    hide Fold, CallId, CallName, FirstNonEmpty;
    var key := FirstNonEmpty(callId, itemId);
    if key != "" && key in s.byCall {
      var j :| IsCall(output, j) && Opened(events, j) && CallId(output[j].call) == key;
      assert j == k;
      assert CallTracked(output, events, s, k);
    }
    if Opened(events, k) {
      assert CallTracked(output, events, s, k);
    }
  }

  /** An unopened call is in neither table. */
  lemma Unresolved(output: seq<Item>, events: seq<Event>, s: State, k: int)
    requires Identified(output) && Tracks(output, events, s) && IsCall(output, k) && !Opened(events, k)
    requires IndexTracked(output, events, s)
    ensures CallId(output[k].call) !in s.byCall && k !in s.byIndex
  {
    hide CallTracked, CallName;
  }

  ghost predicate IndexTracked(output: seq<Item>, events: seq<Event>, s: State)
  {
    && (forall k :: k in s.byIndex ==> IsCall(output, k) && Opened(events, k))
    && (forall i :: i in s.argued ==> i < s.next)
  }

  lemma DeltaTracks(rnd: nat -> string, output: seq<Item>, events: seq<Event>, e: Event, s: State)
    requires Identified(output) && Tracks(output, events, s)
    requires e.ArgumentsDelta? && EventOk(output, events, e) && Opened(events, e.index)
    ensures Tracks(output, events + [e], Step(rnd, s, e))
    ensures Step(rnd, s, e) == s.(out := Step(rnd, s, e).out, argued := Step(rnd, s, e).argued)
    ensures Step(rnd, s, e).argued <= s.argued + {Place(output, events, e.index)}
  {
    hide Fold, CallId, CallName, CallArguments;
    var k := e.index;
    Resolves(output, events, s, k, e.callId, e.itemId);
    assert CallTracked(output, events, s, k);
    ArgueShows(s, Place(output, events, k), Delta(e));
    OpenedMore(events, e, k);
    LaterTracks(output, events, e, s, Step(rnd, s, e), k, Delta(e));
  }

  lemma TracksCall(output: seq<Item>, events: seq<Event>, s: State, k: int)
    requires Tracks(output, events, s) && IsCall(output, k) && Opened(events, k)
    ensures CallTracked(output, events, s, k)
  {
  }

  lemma TracksCount(output: seq<Item>, events: seq<Event>, s: State)
    requires Tracks(output, events, s)
    ensures |Held(s).calls| == s.next
  {
  }

  lemma AddedAgain(rnd: nat -> string, output: seq<Item>, events: seq<Event>, e: Event, s: State)
    requires Identified(output) && Tracks(output, events, s)
    requires e.ItemAdded? && EventOk(output, events, e) && IsCall(output, e.index) && Opened(events, e.index)
    ensures Step(rnd, s, e) == s && Tracks(output, events + [e], s)
  {
    hide Fold, CallId, CallName, CallArguments, Tracks;
    var k := e.index;
    TracksCall(output, events, s, k);
    assert s.byIndex[k := s.byIndex[k]] == s.byIndex;
    ArgueShows(s, Place(output, events, k), "");
    SameShown(output, events, e, k);
    assert ShownArguments(output, events, k) + "" == ShownArguments(output, events, k);
    LaterTracks(output, events, e, s, s, k, "");
  }

  lemma AddedFirst(rnd: nat -> string, output: seq<Item>, events: seq<Event>, e: Event, s: State)
    requires Identified(output) && Regular(output, events) && Tracks(output, events, s) && IndexTracked(output, events, s)
    requires e.ItemAdded? && EventOk(output, events, e) && IsCall(output, e.index) && !Opened(events, e.index)
    ensures Tracks(output, events + [e], Step(rnd, s, e))
    ensures IndexTracked(output, events + [e], Step(rnd, s, e))
  {
    hide Fold, CallId, CallName, CallArguments, Tracks, Regular;
    var k := e.index;
    IndexGrows(output, events, e, s);
    Unresolved(output, events, s, k);
    TracksCount(output, events, s);
    OpenShows(output, s, k);
    var t := Open(s, CallId(output[k].call), CallName(output[k].call), k);
    assert Step(rnd, s, e) == t;
    ArgueOpened(output, s, t, k, "");
    FirstTracks(output, events, e, s, t, k, "");
    OpenedMore(events, e, k);
  }

  lemma AddedTracks(rnd: nat -> string, output: seq<Item>, events: seq<Event>, e: Event, s: State)
    requires Identified(output) && Regular(output, events) && Tracks(output, events, s) && IndexTracked(output, events, s)
    requires e.ItemAdded? && EventOk(output, events, e)
    ensures Tracks(output, events + [e], Step(rnd, s, e))
    ensures IndexTracked(output, events + [e], Step(rnd, s, e))
  {
    hide Fold, ToolAdded, Tracks, Regular, Identified;
    IndexGrows(output, events, e, s);
    if !IsCall(output, e.index) {
      QuietMention(rnd, output, e, s);
      MentionTracks(output, events, e, s);
    } else if Opened(events, e.index) {
      AddedAgain(rnd, output, events, e, s);
    } else {
      AddedFirst(rnd, output, events, e, s);
    }
  }

  /** An item that is no call, or a call with neither id nor name, is passed over. */
  lemma QuietMention(rnd: nat -> string, output: seq<Item>, e: Event, s: State)
    requires (e.ItemAdded? || e.ItemDone?) && !IsCall(output, e.index) && SameItem(output, e.index, e.item, false)
    ensures Step(rnd, s, e) == s
  {
    hide CallId, CallName;
  }

  lemma IndexGrows(output: seq<Item>, events: seq<Event>, e: Event, s: State)
    requires IndexTracked(output, events, s)
    ensures IndexTracked(output, events + [e], s)
  {
    forall k | k in s.byIndex ensures IsCall(output, k) && Opened(events + [e], k) {
      OpenedMore(events, e, k);
    }
  }

  lemma OwnId(output: seq<Item>, k: int, item: Item)
    requires Identified(output) && IsCall(output, k) && SameItem(output, k, item, true)
    ensures NotAnother(output, k, FirstNonEmpty(item.call.callId, ""))
    ensures FirstNonEmpty(item.call.callId, "") != "" ==> FirstNonEmpty(item.call.callId, "") == CallId(output[k].call)
  {
    assert Trim("") == "";
    forall j | IsCall(output, j) && j != k ensures CallId(output[j].call) != FirstNonEmpty(item.call.callId, "") {
      assert CallId(output[j].call) != CallId(output[k].call);
    }
  }

  lemma DoneFirst(rnd: nat -> string, output: seq<Item>, events: seq<Event>, e: Event, s: State)
    requires Identified(output) && Regular(output, events) && Tracks(output, events, s) && IndexTracked(output, events, s)
    requires e.ItemDone? && EventOk(output, events, e) && IsCall(output, e.index) && !Opened(events, e.index)
    ensures Tracks(output, events + [e], Step(rnd, s, e))
    ensures IndexTracked(output, events + [e], Step(rnd, s, e))
  {
    hide Fold, CallId, CallName, CallArguments, FirstNonEmpty, Tracks, Regular;
    var k := e.index;
    var args := CallArguments(output[k].call);
    IndexGrows(output, events, e, s);
    OwnId(output, k, e.item);
    Resolves(output, events, s, k, e.item.call.callId, "");
    Unresolved(output, events, s, k);
    TracksCount(output, events, s);
    OpenShows(output, s, k);
    var t := Open(s, CallId(output[k].call), CallName(output[k].call), k);
    ArgueOpened(output, s, t, k, args);
    assert Step(rnd, s, e) == if args == "" then t else Argue(t, s.next, args);
    FirstTracks(output, events, e, s, Step(rnd, s, e), k, args);
    OpenedMore(events, e, k);
  }

  /** The arguments a completion still has to show for an opened call. */
  lemma DoneShows(output: seq<Item>, events: seq<Event>, e: Event, s: State)
    requires e.ItemDone? && IsCall(output, e.index) && CallTracked(output, events, s, e.index)
    ensures var k := e.index; var i := Place(output, events, k);
            ShownArguments(output, events + [e], k) ==
            ShownArguments(output, events, k) + (if i in s.argued then "" else CallArguments(output[k].call))
  {
    hide Fold, CallId, CallName, CallArguments;
    var k := e.index;
    OpenedMore(events, e, k);
    assert ArgumentsOf(events, k) + "" == ArgumentsOf(events, k);
    assert ShownArguments(output, events, k) + "" == ShownArguments(output, events, k);
    assert "" + CallArguments(output[k].call) == CallArguments(output[k].call);
  }

  lemma DoneAgain(rnd: nat -> string, output: seq<Item>, events: seq<Event>, e: Event, s: State)
    requires Identified(output) && Tracks(output, events, s) && IndexTracked(output, events, s)
    requires e.ItemDone? && EventOk(output, events, e) && IsCall(output, e.index) && Opened(events, e.index)
    ensures Tracks(output, events + [e], Step(rnd, s, e))
    ensures IndexTracked(output, events + [e], Step(rnd, s, e))
  {
    hide Fold, CallId, CallName, CallArguments, FirstNonEmpty, Resolve, Tracks, ShownArguments;
    var k := e.index;
    var i := Place(output, events, k);
    OwnId(output, k, e.item);
    Resolves(output, events, s, k, e.item.call.callId, "");
    TracksCall(output, events, s, k);
    TracksCount(output, events, s);
    IndexGrows(output, events, e, s);
    var added := if i in s.argued then "" else CallArguments(output[k].call);
    ArgueShows(s, i, added);
    DoneShows(output, events, e, s);
    assert Step(rnd, s, e) == if added == "" then s else Argue(s, i, added);
    LaterTracks(output, events, e, s, Step(rnd, s, e), k, added);
  }

  lemma DoneTracks(rnd: nat -> string, output: seq<Item>, events: seq<Event>, e: Event, s: State)
    requires Identified(output) && Regular(output, events) && Tracks(output, events, s) && IndexTracked(output, events, s)
    requires e.ItemDone? && EventOk(output, events, e)
    ensures Tracks(output, events + [e], Step(rnd, s, e))
    ensures IndexTracked(output, events + [e], Step(rnd, s, e))
  {
    hide Fold, ToolDone, Tracks, Regular, Identified;
    IndexGrows(output, events, e, s);
    if !IsCall(output, e.index) {
      QuietMention(rnd, output, e, s);
      MentionTracks(output, events, e, s);
    } else if Opened(events, e.index) {
      DoneAgain(rnd, output, events, e, s);
    } else {
      DoneFirst(rnd, output, events, e, s);
    }
  }

  lemma StepTracks(rnd: nat -> string, output: seq<Item>, events: seq<Event>, e: Event, s: State)
    requires Identified(output) && Regular(output, events) && Tracks(output, events, s) && IndexTracked(output, events, s)
    requires EventOk(output, events, e) && (e.ArgumentsDelta? && Delta(e) != "" ==> Opened(events, e.index))
    ensures Tracks(output, events + [e], Step(rnd, s, e))
    ensures IndexTracked(output, events + [e], Step(rnd, s, e))
  {
    hide Tracks, Fold, ToolAdded, ToolDelta, ToolDone;
    IndexGrows(output, events, e, s);
    match e
    case TextDelta(delta) => ContentTracks(output, events, s, delta);
    case ItemAdded(_, _) => AddedTracks(rnd, output, events, e, s);
    case ItemDone(_, _) => DoneTracks(rnd, output, events, e, s);
    case ArgumentsDelta(_, _, _, _, k) =>
      if Delta(e) == "" {
        EmptyPiece(rnd, s, e);
        MentionTracks(output, events, e, s);
      } else {
        DeltaTracks(rnd, output, events, e, s);
        OpenPlace(output, events, s, k);
      }
    case _ => QuietTracks(output, events, e, s, Step(rnd, s, e));
  }

  lemma EmptyPiece(rnd: nat -> string, s: State, e: Event)
    requires e.ArgumentsDelta? && Delta(e) == ""
    ensures Step(rnd, s, e) == s
  {
  }

  lemma OpenPlace(output: seq<Item>, events: seq<Event>, s: State, k: int)
    requires Tracks(output, events, s) && IsCall(output, k) && Opened(events, k)
    ensures Place(output, events, k) < s.next
  {
  }

  // The run

  lemma {:induction false} RunSnoc(rnd: nat -> string, s: State, events: seq<Event>, e: Event)
    requires !Run(rnd, s, events).done
    ensures Run(rnd, s, events + [e]) == Step(rnd, Run(rnd, s, events), e)
    decreases |events|
  {
    if events == [] {
      assert events + [e] == [e] && [e][1..] == [];
    } else {
      assert (events + [e])[0] == events[0] && (events + [e])[1..] == events[1..] + [e];
      if !s.done {
        RunSnoc(rnd, Step(rnd, s, events[0]), events[1..], e);
      }
    }
  }

  lemma {:induction false} RunTracks(rnd: nat -> string, output: seq<Item>, events: seq<Event>)
    requires Identified(output) && Regular(output, events)
    ensures Tracks(output, events, Run(rnd, Init, events))
    ensures IndexTracked(output, events, Run(rnd, Init, events))
  {
    hide Tracks, IndexTracked, Step;
    if events == [] {
      InitTracks(output);
      InitIndex(output);
    } else {
      var before, e := events[..|events| - 1], events[|events| - 1];
      RunTracks(rnd, output, before);
      TracksRunning(output, before, Run(rnd, Init, before));
      RunSnoc(rnd, Init, before, e);
      assert before + [e] == events;
      StepTracks(rnd, output, before, e, Run(rnd, Init, before));
    }
  }

  lemma InitIndex(output: seq<Item>)
    ensures IndexTracked(output, [], Init)
  {
  }

  lemma TracksRunning(output: seq<Item>, events: seq<Event>, s: State)
    requires Tracks(output, events, s)
    ensures !s.done
  {
  }

  // A piece that comes before any announcement

  ghost predicate Nameless(calls: seq<ChatCall>)
  {
    exists i :: 0 <= i < |calls| && calls[i].name == ""
  }

  /** `t` has the chunks of `s` and perhaps more. */
  predicate Adds(s: State, t: State)
  {
    s.out <= t.out && t.done == s.done
  }

  lemma OpenAdds(s: State, callId: string, name: string, index: int)
    ensures Adds(s, Open(s, callId, name, index))
  {
    var b := Begin(s);
    assert s.out <= b.out;
    assert Open(s, callId, name, index).out == b.out + [ToolStart(b.next, callId, name)];
  }

  lemma NamedAdds(rnd: nat -> string, s: State, callId: string)
    ensures Named(rnd, s, callId).0.out == s.out && Named(rnd, s, callId).0.done == s.done
  {
  }

  lemma AddedAdds(rnd: nat -> string, s: State, c: Call, index: int)
    ensures Adds(s, ToolAdded(rnd, s, c, index))
  {
    hide Open, Named, CallId, CallName;
    NamedAdds(rnd, s, CallId(c));
    OpenAdds(Named(rnd, s, CallId(c)).0, Named(rnd, s, CallId(c)).1, CallName(c), index);
  }

  lemma DeltaAdds(rnd: nat -> string, s: State, callId: string, itemId: string, delta: string, index: int)
    ensures Adds(s, ToolDelta(rnd, s, callId, itemId, delta, index))
  {
    hide Open, Named, Resolve, FirstNonEmpty;
    var (s1, id) := Named(rnd, s, FirstNonEmpty(callId, itemId));
    NamedAdds(rnd, s, FirstNonEmpty(callId, itemId));
    OpenAdds(s1, id, "", index);
  }

  lemma DoneAdds(rnd: nat -> string, s: State, c: Call, index: int)
    ensures Adds(s, ToolDone(rnd, s, c, index))
  {
    hide Open, Named, Resolve, CallId, CallName, CallArguments;
    var (s1, id) := Named(rnd, s, CallId(c));
    NamedAdds(rnd, s, CallId(c));
    OpenAdds(s1, id, CallName(c), index);
  }

  /** Chunks are only added, and only a terminal event ends the stream. */
  lemma StepAdds(rnd: nat -> string, s: State, e: Event)
    requires !e.Completed? && !e.Incomplete? && !e.Failed?
    ensures Adds(s, Step(rnd, s, e))
  {
    hide ToolAdded, ToolDelta, ToolDone;
    assert s.out <= Begin(s).out;
    match e
    case ItemAdded(item, k) => if item.CallItem? { AddedAdds(rnd, s, item.call, k); }
    case ArgumentsDelta(callId, itemId, delta, arguments, k) =>
      DeltaAdds(rnd, s, callId, itemId, if delta != "" then delta else arguments, k);
    case ItemDone(item, k) => if item.CallItem? { DoneAdds(rnd, s, item.call, k); }
    case _ =>
  }

  lemma {:induction false} NamelessStays(before: seq<Chunk>, after: seq<Chunk>)
    requires before <= after && Nameless(Fold(before).calls)
    ensures Nameless(Fold(after).calls)
  {
    if before != after {
      var front, c := after[..|after| - 1], after[|after| - 1];
      NamelessStays(before, front);
      NamelessNext(Fold(front), c);
    }
  }

  lemma NamelessNext(r: Completion, c: Chunk)
    requires Nameless(r.calls)
    ensures Nameless(Receive(r, c).calls)
  {
    var i :| 0 <= i < |r.calls| && r.calls[i].name == "";
    assert i < |Receive(r, c).calls| && Receive(r, c).calls[i].name == "";
  }

  /** Such a piece opens a slot of its own, without a name. */
  lemma EarlyOpens(rnd: nat -> string, output: seq<Item>, events: seq<Event>, e: Event, s: State)
    requires Identified(output) && Tracks(output, events, s) && IndexTracked(output, events, s)
    requires e.ArgumentsDelta? && EventOk(output, events, e) && Delta(e) != "" && !Opened(events, e.index)
    ensures Nameless(Held(Step(rnd, s, e)).calls)
  {
    hide Fold, CallId, CallName, CallArguments, Nameless;
    var k, key := e.index, FirstNonEmpty(e.callId, e.itemId);
    Resolves(output, events, s, k, e.callId, e.itemId);
    assert Resolve(s, e.callId, e.itemId, k).None?;
    var (s1, id) := Named(rnd, s, key);
    EarlySlot(s1, id, k, Delta(e));
    assert Step(rnd, s, e) == Argue(Open(s1, id, "", k), s1.next, Delta(e));
  }

  lemma EarlySlot(s: State, id: string, k: int, piece: string)
    requires |Held(s).calls| == s.next
    ensures Nameless(Held(Argue(Open(s, id, "", k), s.next, piece)).calls)
  {
    hide Fold;
    BeginHeld(s);
    HeldQueue(Begin(s), ToolStart(s.next, id, ""));
    var t := Open(s, id, "", k);
    HeldQueue(t, ToolArguments(s.next, piece));
    assert Held(t).calls == Held(s).calls + [ChatCall(id, "", "")];
    assert Held(Argue(t, s.next, piece)).calls[s.next].name == "";
  }

  lemma {:induction false} EarlyNameless(rnd: nat -> string, output: seq<Item>, events: seq<Event>)
    requires Identified(output) && EventsOk(output, events) && !Announced(events)
    ensures var s := Run(rnd, Init, events); !s.done && Nameless(Held(s).calls)
  {
    hide Nameless, Fold, Step, Identified, Tracks, IndexTracked;
    var before, e := events[..|events| - 1], events[|events| - 1];
    var s := Run(rnd, Init, before);
    assert events == before + [e];
    if Announced(before) {
      RunTracks(rnd, output, before);
      TracksRunning(output, before, s);
      RunSnoc(rnd, Init, before, e);
      StepAdds(rnd, s, e);
      EarlyOpens(rnd, output, before, e, s);
    } else {
      EarlyNameless(rnd, output, before);
      RunSnoc(rnd, Init, before, e);
      StepAdds(rnd, s, e);
      NamelessStays(s.out, Step(rnd, s, e).out);
    }
  }

  lemma {:induction false} BatchNamed(output: seq<Item>, random: string)
    ensures !Nameless(BatchCalls(output, random))
  {
    if output != [] { BatchNamed(output[..|output| - 1], random); }
  }

  lemma ReadNameless(calls: seq<ChatCall>)
    requires Nameless(calls)
    ensures Nameless(ReadCalls(calls))
  {
    var i :| 0 <= i < |calls| && calls[i].name == "";
    assert ReadCalls(calls)[i].name == "";
  }

  // Comparing with the reference converter

  /** What the finished stream holds for the calls of `order`. */
  function StreamCalls(output: seq<Item>, order: seq<int>): (calls: seq<ChatCall>)
    requires forall i :: 0 <= i < |order| ==> IsCall(output, order[i])
    ensures |calls| == |order|
  {
    seq(|order|, i requires 0 <= i < |order| && IsCall(output, order[i]) =>
      ChatCall(CallId(output[order[i]].call), CallName(output[order[i]].call), CallArguments(output[order[i]].call)))
  }

  lemma MentionsCalls(output: seq<Item>, events: seq<Event>)
    ensures var m := Mentions(output, events); forall i :: 0 <= i < |m| ==> IsCall(output, m[i])
  {
    forall i | 0 <= i < |Mentions(output, events)| ensures IsCall(output, Mentions(output, events)[i]) {
      MentionAt(output, events, i);
    }
  }

  /** The folded stream holds every call whole, in the order of first mention, and the whole text. */
  lemma StreamedCalls(rnd: nat -> string, output: seq<Item>, events: seq<Event>)
    requires Streams(output, events) && Announced(events)
    ensures forall i :: 0 <= i < |Mentions(output, events)| ==> IsCall(output, Mentions(output, events)[i])
    ensures var s := Run(rnd, Init, events);
            !s.done && Held(s).text == BatchText(output) && Held(s).calls == StreamCalls(output, Mentions(output, events))
            && (s.sawTools <==> Held(s).calls != [])
  {
    hide Fold, CallId, CallName, CallArguments, Run, Finished, ArgumentsOf;
    RunTracks(rnd, output, events);
    MentionsCalls(output, events);
    var s := Run(rnd, Init, events);
    var m := Mentions(output, events);
    assert forall i :: 0 <= i < |m| ==> IsCall(output, m[i]);
    forall i | 0 <= i < |m| ensures Held(s).calls[i] == StreamCalls(output, m)[i] {
      MentionAt(output, events, i);
      assert CallTracked(output, events, s, m[i]);
    }
  }

  lemma {:induction false} FinishedOpened(events: seq<Event>, k: int)
    requires Finished(events, k)
    ensures Opened(events, k)
  {
    if !(events[|events| - 1].ItemDone? && events[|events| - 1].index == k) {
      FinishedOpened(events[..|events| - 1], k);
    }
  }

  /** The calls of the first `n` output items, in output order. */
  function CallsOf(output: seq<Item>, n: nat): (ks: seq<int>)
    requires n <= |output|
    ensures forall i :: 0 <= i < |ks| ==> IsCall(output, ks[i]) && ks[i] < n
  {
    if n == 0 then [] else CallsOf(output, n - 1) + if IsCall(output, n - 1) then [n - 1] else []
  }

  predicate Distinct(s: seq<int>)
  {
    forall i, j :: 0 <= i < j < |s| ==> s[i] != s[j]
  }

  lemma {:induction false} CallsOfAll(output: seq<Item>, n: nat)
    requires n <= |output|
    ensures Distinct(CallsOf(output, n)) && forall k :: k in CallsOf(output, n) <==> IsCall(output, k) && k < n
  {
    if n > 0 { CallsOfAll(output, n - 1); }
  }

  lemma {:induction false} DistinctCount(s: seq<int>)
    requires Distinct(s)
    ensures |set x | x in s| == |s|
  {
    if s == [] {
      assert (set x | x in s) == {};
    } else {
      var front, last := s[..|s| - 1], s[|s| - 1];
      DistinctCount(front);
      assert (set x | x in s) == (set x | x in front) + {last};
    }
  }

  lemma SameCount(a: seq<int>, b: seq<int>)
    requires Distinct(a) && Distinct(b) && forall x :: x in a <==> x in b
    ensures |a| == |b|
  {
    DistinctCount(a);
    DistinctCount(b);
    assert (set x | x in a) == (set x | x in b);
  }

  /** A stream that finishes every call mentions each of them once. */
  lemma MentionsAll(output: seq<Item>, events: seq<Event>)
    requires Streams(output, events)
    ensures var m := Mentions(output, events);
            Distinct(m) && (forall k :: k in m <==> IsCall(output, k)) && |m| == |CallsOf(output, |output|)|
  {
    hide Finished, ArgumentsOf, EventsOk, Identified;
    var m := Mentions(output, events);
    forall i, j | 0 <= i < j < |m| ensures m[i] != m[j] {
      MentionAt(output, events, i);
      MentionAt(output, events, j);
    }
    forall k ensures k in m <==> IsCall(output, k) {
      if IsCall(output, k) {
        FinishedOpened(events, k);
        PlaceAt(output, events, k);
      }
      if k in m {
        var i :| 0 <= i < |m| && m[i] == k;
        MentionAt(output, events, i);
      }
    }
    CallsOfAll(output, |output|);
    SameCount(m, CallsOf(output, |output|));
  }

  /** The checks on the response and its events under which the two forms give one completion. */
  ghost predicate Agreement(r: Response, events: seq<Event>)
  {
    && (Trim(r.outputText) == "" || Trim(r.outputText) == BatchText(r.output))
    && (forall k :: IsCall(r.output, k) ==> CallAgrees(r.output[k].call))
    && Mentions(r.output, events) == CallsOf(r.output, |r.output|)
    && Announced(events)
  }

  predicate CallAgrees(c: Call)
  {
    CallName(c) != "" && (CallArguments(c) != "" || c.parameters == "" || c.parameters == "{}")
  }

  ghost predicate SameIds(output: seq<Item>, calls: seq<ChatCall>, order: seq<int>)
    requires forall i :: 0 <= i < |order| ==> IsCall(output, order[i])
  {
    |calls| == |order| && forall i :: 0 <= i < |order| ==> IsCall(output, order[i]) && calls[i].id == CallId(output[order[i]].call)
  }

  /** The batch form keeps the named calls in output order; it keeps all and shows what the stream shows if they agree. */
  lemma {:induction false} BatchCallsOrder(output: seq<Item>, n: nat, random: string)
    requires Identified(output) && n <= |output|
    ensures |BatchCalls(output[..n], random)| <= |CallsOf(output, n)|
    ensures |BatchCalls(output[..n], random)| == |CallsOf(output, n)| ==> SameIds(output, BatchCalls(output[..n], random), CallsOf(output, n))
    ensures ReadCalls(StreamCalls(output, CallsOf(output, n))) == BatchCalls(output[..n], random)
            <==> forall k :: IsCall(output, k) && k < n ==> CallAgrees(output[k].call)
  {
    hide CallArguments, CallId, CallName, CallAgrees, ReadArguments, SameIds, StreamCalls, ReadCalls;
    if n > 0 {
      BatchCallsOrder(output, n - 1, random);
      if output[n - 1].CallItem? {
        OneMoreCall(output, n, random);
      } else {
        NoCallMore(output, n, random);
      }
    } else {
      NoCalls(output, random);
    }
  }

  lemma NoCalls(output: seq<Item>, random: string)
    ensures BatchCalls(output[..0], random) == [] && CallsOf(output, 0) == []
    ensures ReadCalls(StreamCalls(output, [])) == [] && SameIds(output, [], [])
  {
    assert output[..0] == [];
  }

  lemma NoCallMore(output: seq<Item>, n: nat, random: string)
    requires 0 < n <= |output| && !output[n - 1].CallItem?
    ensures CallsOf(output, n) == CallsOf(output, n - 1) && BatchCalls(output[..n], random) == BatchCalls(output[..n - 1], random)
    ensures !IsCall(output, n - 1)
  {
    assert output[..n][..n - 1] == output[..n - 1] && output[..n][n - 1] == output[n - 1];
  }

  lemma OneMoreCall(output: seq<Item>, n: nat, random: string)
    requires Identified(output) && 0 < n <= |output| && output[n - 1].CallItem?
    requires |BatchCalls(output[..n - 1], random)| <= |CallsOf(output, n - 1)|
    requires |BatchCalls(output[..n - 1], random)| == |CallsOf(output, n - 1)| ==>
               SameIds(output, BatchCalls(output[..n - 1], random), CallsOf(output, n - 1))
    requires ReadCalls(StreamCalls(output, CallsOf(output, n - 1))) == BatchCalls(output[..n - 1], random)
             <==> forall k :: IsCall(output, k) && k < n - 1 ==> CallAgrees(output[k].call)
    ensures |BatchCalls(output[..n], random)| <= |CallsOf(output, n)|
    ensures |BatchCalls(output[..n], random)| == |CallsOf(output, n)| ==> SameIds(output, BatchCalls(output[..n], random), CallsOf(output, n))
    ensures ReadCalls(StreamCalls(output, CallsOf(output, n))) == BatchCalls(output[..n], random)
            <==> forall k :: IsCall(output, k) && k < n ==> CallAgrees(output[k].call)
  {
    hide CallArguments, CallId, CallName, CallAgrees, ReadArguments, BatchArguments, BatchCallId, SameIds, CallsOf, BatchCalls;
    OneMore(output, n, random);
    var c := output[n - 1].call;
    var ks := CallsOf(output, n - 1);
    var a, b := ReadCalls(StreamCalls(output, ks)), BatchCalls(output[..n - 1], random);
    if IsCall(output, n - 1) {
      var x := ReadArguments(ChatCall(CallId(c), CallName(c), CallArguments(c)));
      assert ReadCalls(StreamCalls(output, ks + [n - 1])) == a + [x];
      if CallName(c) != "" {
        var y := ChatCall(BatchCallId(c, random), CallName(c), BatchArguments(c));
        OneCallAgrees(c, random);
        if |a| == |b| {
          SnocEqual(a, x, b, y);
          OneMoreId(output, b, y, ks, n - 1);
        } else {
          assert |a + [x]| != |b + [y]|;
        }
      } else {
        Unnamed(c);
        assert BatchCalls(output[..n], random) == b && |a + [x]| > |b|;
      }
    } else {
      assert CallsOf(output, n) == ks && BatchCalls(output[..n], random) == b;
    }
  }

  lemma OneMore(output: seq<Item>, n: nat, random: string)
    requires 0 < n <= |output| && output[n - 1].CallItem?
    ensures CallsOf(output, n) == CallsOf(output, n - 1) + if IsCall(output, n - 1) then [n - 1] else []
    ensures var c := output[n - 1].call;
            BatchCalls(output[..n], random) ==
            BatchCalls(output[..n - 1], random)
            + if CallName(c) != "" then [ChatCall(BatchCallId(c, random), CallName(c), BatchArguments(c))] else []
    ensures CallName(output[n - 1].call) != "" ==> IsCall(output, n - 1)
  {
    hide CallId, CallName, BatchArguments, BatchCallId;
    assert output[..n][..n - 1] == output[..n - 1] && output[..n][n - 1] == output[n - 1];
  }

  lemma Unnamed(c: Call)
    requires CallName(c) == ""
    ensures !CallAgrees(c)
  {
  }

  lemma OneMoreId(output: seq<Item>, calls: seq<ChatCall>, y: ChatCall, order: seq<int>, k: int)
    requires (forall i :: 0 <= i < |order| ==> IsCall(output, order[i])) && IsCall(output, k)
    requires SameIds(output, calls, order) && y.id == CallId(output[k].call)
    ensures SameIds(output, calls + [y], order + [k])
  {
    hide CallId;
  }

  /** One named call with an id: both forms show the same exactly when it agrees. */
  lemma OneCallAgrees(c: Call, random: string)
    requires CallId(c) != "" && CallName(c) != ""
    ensures (ReadArguments(ChatCall(CallId(c), CallName(c), CallArguments(c))) == ChatCall(BatchCallId(c, random), CallName(c), BatchArguments(c)))
            <==> CallAgrees(c)
    ensures BatchCallId(c, random) == CallId(c)
  {
    hide CallId, CallName, CallArguments;
  }

  lemma SnocEqual(a: seq<ChatCall>, x: ChatCall, b: seq<ChatCall>, y: ChatCall)
    requires |a| == |b|
    ensures a + [x] == b + [y] <==> a == b && x == y
  {
    if a + [x] == b + [y] {
      assert a == (a + [x])[..|a|] && b == (b + [y])[..|b|];
      assert x == (a + [x])[|a|] && y == (b + [y])[|b|];
    }
  }

  /** The calls agree exactly when each call does and they are first mentioned in output order. */
  lemma CallsCompare(output: seq<Item>, events: seq<Event>, random: string)
    requires Streams(output, events)
    ensures forall i :: 0 <= i < |Mentions(output, events)| ==> IsCall(output, Mentions(output, events)[i])
    ensures ReadCalls(StreamCalls(output, Mentions(output, events))) == BatchCalls(output, random)
            <==> (forall k :: IsCall(output, k) ==> CallAgrees(output[k].call))
                 && Mentions(output, events) == CallsOf(output, |output|)
  {
    hide CallArguments, CallId, CallName, CallAgrees, EventsOk, Finished, ArgumentsOf;
    MentionsCalls(output, events);
    MentionsAll(output, events);
    BatchCallsOrder(output, |output|, random);
    assert output[..|output|] == output;
    var m, ks := Mentions(output, events), CallsOf(output, |output|);
    var a, b := ReadCalls(StreamCalls(output, m)), BatchCalls(output, random);
    if a == b {
      assert forall i :: 0 <= i < |m| ==> a[i].id == CallId(output[m[i]].call) && b[i].id == CallId(output[ks[i]].call);
      assert m == ks;
    }
  }

  /** The terminal event adds the finish reason and nothing else a client holds. */
  lemma LastHeld(rnd: nat -> string, s: State, incomplete: bool)
    requires !s.done
    ensures var last := if incomplete then Incomplete else Completed;
            Held(Step(rnd, s, last)) == Held(s).(finish := FinishReason(s.sawTools, incomplete))
  {
    hide Fold;
    var reason := FinishReason(s.sawTools, incomplete);
    BeginHeld(s);
    HeldQueue(Begin(s), FinishChunk(reason));
    HeldQueue(Queue(Begin(s), FinishChunk(reason)), DoneFrame);
  }

  /**
   Streaming agrees with the whole-body converter: for every output, every cutting of its
   text and arguments, every interleaving of the calls, whether or not their pieces wait
   for an announcement, and every order of first mention, the folded stream is the batch
   completion if and only if the listed checks hold.
   */
  lemma StreamingAgreesWithBatch(rnd: nat -> string, r: Response, events: seq<Event>, random: string)
    requires Streams(r.output, events)
    ensures var last := if r.incomplete then Incomplete else Completed;
            ReadCompletion(Held(Run(rnd, Init, events + [last]))) == Batch(r, random) <==> Agreement(r, events)
  {
    hide Fold, Run, Step, CallArguments, CallId, CallName, EventsOk, Trim, IsCall, Identified, Mentions, Finished, ArgumentsOf, Announced,
         Nameless;
    var last := if r.incomplete then Incomplete else Completed;
    var s := Run(rnd, Init, events);
    if Announced(events) {
      StreamedCalls(rnd, r.output, events);
      RunSnoc(rnd, Init, events, last);
      LastHeld(rnd, s, r.incomplete);
      CallsCompare(r.output, events, random);
    } else {
      EarlyNameless(rnd, r.output, events);
      RunSnoc(rnd, Init, events, last);
      LastHeld(rnd, s, r.incomplete);
      ReadNameless(Held(s).calls);
      BatchNamed(r.output, random);
    }
  }
}
