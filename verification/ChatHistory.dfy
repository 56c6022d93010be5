/**
 Chat messages turned into Responses input: system texts move to the instructions, tool
 calls and results become items of their own, and missing ids are paired in order.
 */
module ChatHistory {
  import opened Basics
  import opened CallIds

  /** A tool call of a message: the names and ids it states, in the order they are read. */
  datatype ChatCall = ChatCall(name: string, innerName: string, id: string, callId: string, innerId: string, arguments: string)

  /** `calls` is the message's call list, if it has one; `legacy` its old-style single call. */
  datatype ChatMessage =
    | System(text: string)
    | Assistant(content: string, calls: Option<seq<ChatCall>>, legacy: Option<ChatCall>)
    | Tool(callId: string, id: string, content: string)
    | Other(role: string, name: string, content: string)

  datatype ChatItem =
    | Turn(role: string, content: string, name: string)
    | CallItem(callId: string, name: string, arguments: string)
    | ResultItem(callId: string, output: string)

  datatype Converted = Converted(ids: Ids, input: seq<ChatItem>, system: seq<string>)

  function StatedId(c: ChatCall): string
  {
    FirstNonEmpty(FirstNonEmpty(c.id, c.callId), c.innerId)
  }

  function CallName(c: ChatCall): string
  {
    FirstNonEmpty(c.name, c.innerName)
  }

  function AddCall(supply: nat -> string, v: Converted, c: ChatCall): Converted
  {
    if CallName(c) == "" then v
    else
      var (ids, callId) := Ensure(supply, v.ids, StatedId(c));
      v.(ids := ids, input := v.input + [CallItem(callId, CallName(c), if c.arguments == "" then "{}" else c.arguments)])
  }

  function AddCalls(supply: nat -> string, v: Converted, calls: seq<ChatCall>): Converted
  {
    if calls == [] then v else AddCall(supply, AddCalls(supply, v, calls[..|calls| - 1]), calls[|calls| - 1])
  }

  function AddLegacy(supply: nat -> string, v: Converted, c: ChatCall): Converted
  {
    if c.name == "" then v
    else
      var (ids, callId) := Ensure(supply, v.ids, "");
      v.(ids := ids, input := v.input + [CallItem(callId, c.name, if Trim(c.arguments) == "" then "{}" else c.arguments)])
  }

  function AddMessage(supply: nat -> string, v: Converted, m: ChatMessage): Converted
  {
    match m
    case System(text) => if Trim(text) == "" then v else v.(system := v.system + [Trim(text)])
    case Assistant(content, calls, legacy) =>
      var v1 := if content != "" then v.(input := v.input + [Turn("assistant", content, "")]) else v;
      if calls.Some? then AddCalls(supply, v1, calls.value)
      else if legacy.Some? then AddLegacy(supply, v1, legacy.value)
      else if content == "" then v1.(input := v1.input + [Turn("assistant", "", "")])
      else v1
    case Tool(callId, id, content) =>
      var (ids, filled) := Take(supply, v.ids, FirstNonEmpty(callId, id));
      v.(ids := ids, input := v.input + [ResultItem(filled, content)])
    case Other(role, name, content) =>
      v.(input := v.input + [Turn(if Trim(role) == "" then "user" else Lower(Trim(role)), content, Trim(name))])
  }

  function Convert(supply: nat -> string, messages: seq<ChatMessage>): Converted
  {
    if messages == [] then Converted(Start, [], [])
    else AddMessage(supply, Convert(supply, messages[..|messages| - 1]), messages[|messages| - 1])
  }

  /** The conversion as it runs. */
  method ChatMessagesToResponsesInput(supply: nat -> string, messages: seq<ChatMessage>) returns (input: seq<ChatItem>, instructions: string)
    ensures input == Convert(supply, messages).input && instructions == Join(Convert(supply, messages).system, "\n\n")
  {
    hide AddLegacy, AddCall;
    var open := new OpenCalls(supply);
    input := [];
    var system: seq<string> := [];
    var i := 0;
    while i < |messages|
      invariant i <= |messages| && fresh(open) && open.supply == supply
      invariant Convert(supply, messages[..i]) == Converted(open.Abs(), input, system)
    {
      assert messages[..i + 1][..i] == messages[..i];
      input, system := ConvertOne(open, messages[i], input, system);
      i := i + 1;
    }
    assert messages[..|messages|] == messages;
    instructions := Join(system, "\n\n");
  }

  method ConvertOne(open: OpenCalls, m: ChatMessage, before: seq<ChatItem>, texts: seq<string>) returns (input: seq<ChatItem>, system: seq<string>)
    modifies open
    ensures Converted(open.Abs(), input, system) == AddMessage(open.supply, old(Converted(open.Abs(), before, texts)), m)
  {
    input, system := before, texts;
    match m
    case System(text) =>
      if Trim(text) != "" { system := system + [Trim(text)]; }
    case Assistant(content, calls, legacy) =>
      if content != "" { input := input + [Turn("assistant", content, "")]; }
      if calls.Some? {
        input := ConvertCalls(open, calls.value, input, system);
      } else if legacy.Some? {
        if legacy.value.name != "" {
          var callId := open.EnsureCallId("");
          input := input + [CallItem(callId, legacy.value.name, if Trim(legacy.value.arguments) == "" then "{}" else legacy.value.arguments)];
        }
      } else if content == "" {
        input := input + [Turn("assistant", "", "")];
      }
    case Tool(callId, id, content) =>
      var filled := open.TakeCallId(FirstNonEmpty(callId, id));
      input := input + [ResultItem(filled, content)];
    case Other(role, name, content) =>
      input := input + [Turn(if Trim(role) == "" then "user" else Lower(Trim(role)), content, Trim(name))];
  }

  method ConvertCalls(open: OpenCalls, calls: seq<ChatCall>, before: seq<ChatItem>, ghost texts: seq<string>) returns (input: seq<ChatItem>)
    modifies open
    ensures Converted(open.Abs(), input, texts) == AddCalls(open.supply, old(Converted(open.Abs(), before, texts)), calls)
  {
    hide CallName, StatedId, Ensure;
    input := before;
    var i := 0;
    while i < |calls|
      invariant i <= |calls|
      invariant Converted(open.Abs(), input, texts) == AddCalls(open.supply, old(Converted(open.Abs(), before, texts)), calls[..i])
    {
      assert calls[..i + 1][..i] == calls[..i];
      var c := calls[i];
      i := i + 1;
      if CallName(c) == "" { continue; }
      var callId := open.EnsureCallId(StatedId(c));
      input := input + [CallItem(callId, CallName(c), if c.arguments == "" then "{}" else c.arguments)];
    }
    assert calls[..|calls|] == calls;
  }

  // Pairing

  /** The calls and outputs of a message, with the ids they state. */
  function CallEvents(calls: seq<ChatCall>): seq<Event>
  {
    if calls == [] then []
    else
      var c := calls[|calls| - 1];
      CallEvents(calls[..|calls| - 1]) + if CallName(c) == "" then [] else [Call(StatedId(c))]
  }

  function MessageEvents(m: ChatMessage): seq<Event>
  {
    match m
    case Assistant(_, Some(calls), _) => CallEvents(calls)
    case Assistant(_, None, Some(c)) => if c.name == "" then [] else [Call("")]
    case Tool(callId, id, _) => [Output(FirstNonEmpty(callId, id))]
    case _ => []
  }

  function HistoryEvents(messages: seq<ChatMessage>): seq<Event>
  {
    if messages == [] then [] else HistoryEvents(messages[..|messages| - 1]) + MessageEvents(messages[|messages| - 1])
  }

  /** The ids carried by the items, in order. */
  function SentIds(input: seq<ChatItem>): seq<Event>
  {
    if input == [] then []
    else
      var m := input[|input| - 1];
      SentIds(input[..|input| - 1]) +
        match m
        case Turn(_, _, _) => []
        case CallItem(callId, _, _) => [Call(callId)]
        case ResultItem(callId, _) => [Output(callId)]
  }

  lemma SentOne(input: seq<ChatItem>, m: ChatItem)
    ensures SentIds(input + [m]) == SentIds(input) +
              match m
              case Turn(_, _, _) => []
              case CallItem(callId, _, _) => [Call(callId)]
              case ResultItem(callId, _) => [Output(callId)]
  {
    assert (input + [m])[..|input|] == input;
  }

  /** `v` has filled in exactly the events of `history`. */
  ghost predicate Fills(supply: nat -> string, v: Converted, history: seq<Event>)
  {
    v.ids == After(supply, Start, history) && SentIds(v.input) == Filled(supply, Start, history)
  }

  lemma OneEvent(supply: nat -> string, v: Converted, history: seq<Event>, e: Event, u: Converted, m: ChatItem)
    requires Fills(supply, v, history) && u.ids == Fill(supply, v.ids, e).0 && u.input == v.input + [m]
    requires SentIds([m]) == [Fill(supply, v.ids, e).1]
    ensures Fills(supply, u, history + [e])
  {
    hide Fill;
    assert (history + [e])[..|history|] == history;
    SentOne(v.input, m);
    SentOne([], m);
    assert [] + [m] == [m];
  }

  lemma {:induction false} CallsFill(supply: nat -> string, v: Converted, history: seq<Event>, calls: seq<ChatCall>)
    requires Fills(supply, v, history)
    ensures Fills(supply, AddCalls(supply, v, calls), history + CallEvents(calls))
  {
    hide Fills, CallName, StatedId, Ensure;
    if calls == [] {
      assert history + [] == history;
    } else {
      var front, c := calls[..|calls| - 1], calls[|calls| - 1];
      CallsFill(supply, v, history, front);
      var before := AddCalls(supply, v, front);
      if CallName(c) == "" {
        assert CallEvents(front) + [] == CallEvents(front);
      } else {
        var u := AddCall(supply, before, c);
        SentOne([], u.input[|u.input| - 1]);
        assert [] + [u.input[|u.input| - 1]] == [u.input[|u.input| - 1]];
        OneEvent(supply, before, history + CallEvents(front), Call(StatedId(c)), u, u.input[|u.input| - 1]);
        assert history + CallEvents(calls) == (history + CallEvents(front)) + [Call(StatedId(c))];
      }
    }
  }

  lemma TurnKeeps(supply: nat -> string, v: Converted, history: seq<Event>, m: ChatItem)
    requires Fills(supply, v, history) && m.Turn?
    ensures Fills(supply, v.(input := v.input + [m]), history)
  {
    SentOne(v.input, m);
    assert SentIds(v.input) + [] == SentIds(v.input);
  }

  lemma MessageFills(supply: nat -> string, v: Converted, history: seq<Event>, m: ChatMessage)
    requires Fills(supply, v, history)
    ensures Fills(supply, AddMessage(supply, v, m), history + MessageEvents(m))
  {
    hide Ensure, Take, Trim, Lower, AddCalls, CallEvents, After, Filled, SentIds;
    assert history + [] == history;
    match m
    case System(text) =>
    case Assistant(content, calls, legacy) =>
      if content != "" { TurnKeeps(supply, v, history, Turn("assistant", content, "")); }
      var v1 := if content != "" then v.(input := v.input + [Turn("assistant", content, "")]) else v;
      if calls.Some? {
        CallsFill(supply, v1, history, calls.value);
      } else if legacy.Some? && legacy.value.name != "" {
        var u := AddLegacy(supply, v1, legacy.value);
        LastSent(u.input[|u.input| - 1]);
        OneEvent(supply, v1, history, Call(""), u, u.input[|u.input| - 1]);
      } else if legacy.None? && content == "" {
        TurnKeeps(supply, v1, history, Turn("assistant", "", ""));
      }
    case Tool(callId, id, content) =>
      var u := AddMessage(supply, v, m);
      LastSent(u.input[|u.input| - 1]);
      StatedTrimmed(callId, id);
      OneEvent(supply, v, history, Output(FirstNonEmpty(callId, id)), u, u.input[|u.input| - 1]);
    case Other(role, name, content) =>
      TurnKeeps(supply, v, history, Turn(if Trim(role) == "" then "user" else Lower(Trim(role)), content, Trim(name)));
  }

  lemma LastSent(m: ChatItem)
    ensures m.CallItem? ==> SentIds([m]) == [Call(m.callId)]
    ensures m.ResultItem? ==> SentIds([m]) == [Output(m.callId)]
  {
    SentOne([], m);
    assert [] + [m] == [m];
  }

  lemma StatedTrimmed(a: string, b: string)
    ensures Trim(FirstNonEmpty(a, b)) == FirstNonEmpty(a, b)
  {
    TrimTight(a);
    TrimTight(b);
    TrimTight(FirstNonEmpty(a, b));
  }

  /** A converted history carries its events with every id filled in. */
  lemma {:induction false} ConvertFills(supply: nat -> string, messages: seq<ChatMessage>)
    ensures Fills(supply, Convert(supply, messages), HistoryEvents(messages))
  {
    hide AddMessage, MessageEvents, Fills;
    if messages == [] {
      assert Fills(supply, Converted(Start, [], []), []) by { NothingFills(supply); }
    } else {
      ConvertFills(supply, messages[..|messages| - 1]);
      MessageFills(supply, Convert(supply, messages[..|messages| - 1]), HistoryEvents(messages[..|messages| - 1]), messages[|messages| - 1]);
    }
  }

  lemma NothingFills(supply: nat -> string)
    ensures Fills(supply, Converted(Start, [], []), [])
  {
  }

  /** In a chat without any ids the k-th tool result answers the k-th call exactly when none comes too early. */
  lemma ChatPairs(supply: nat -> string, messages: seq<ChatMessage>)
    requires Usable(supply) && Distinct(supply) && IdLess(HistoryEvents(messages))
    ensures var sent := SentIds(Convert(supply, messages).input); var calls, outputs := CallsOf(sent), OutputsOf(sent);
            (|outputs| <= |calls| && forall k :: 0 <= k < |outputs| ==> outputs[k] == calls[k]) <==> Balanced(HistoryEvents(messages))
  {
    ConvertFills(supply, messages);
    KthAnswersKth(supply, HistoryEvents(messages));
  }
}
