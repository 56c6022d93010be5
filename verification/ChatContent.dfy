/**
 What a chat keeps when it is turned into Responses input: every text, name, argument and
 tool result arrives, in order, and the system texts become the instructions.
 */
module ChatContent {
  import opened Basics
  import opened CallIds
  import opened ChatHistory

  /** The first of three ids that is not blank, trimmed. */
  predicate States(a: string, b: string, c: string, id: string)
  {
    if Trim(a) != "" then id == Trim(a) else if Trim(b) != "" then id == Trim(b) else Trim(c) != "" ==> id == Trim(c)
  }

  predicate HasName(c: ChatCall)
  {
    Trim(c.name) != "" || Trim(c.innerName) != ""
  }

  function Named(calls: seq<ChatCall>): nat -> bool
  {
    (i: nat) => i < |calls| && HasName(calls[i])
  }

  /** A named call with its name and arguments, under the id it states. */
  predicate Sends(c: ChatCall, m: ChatItem)
  {
    && m.CallItem?
    && m.name == (if Trim(c.name) != "" then Trim(c.name) else Trim(c.innerName))
    && m.arguments == (if c.arguments == "" then "{}" else c.arguments)
    && States(c.id, c.callId, c.innerId, m.callId)
  }

  /** The named calls, in order. */
  ghost predicate SendsAll(calls: seq<ChatCall>, items: seq<ChatItem>, idx: seq<nat>)
  {
    && Picks(|calls|, Named(calls), idx) && |items| == |idx|
    && forall k :: 0 <= k < |idx| ==> idx[k] < |calls| && Sends(calls[idx[k]], items[k])
  }

  /** What an assistant message stands for after its text: its calls, or its old-style call, or a silent turn. */
  ghost predicate Follows(content: string, calls: Option<seq<ChatCall>>, legacy: Option<ChatCall>, items: seq<ChatItem>)
  {
    if calls.Some? then exists idx: seq<nat> :: SendsAll(calls.value, items, idx)
    else if legacy.Some? && legacy.value.name == "" then items == []
    else if legacy.Some? then
      && |items| == 1 && items[0].CallItem? && items[0].name == legacy.value.name
      && items[0].arguments == (if Trim(legacy.value.arguments) == "" then "{}" else legacy.value.arguments)
    else items == if content == "" then [Turn("assistant", "", "")] else []
  }

  /** The items a message stands for. */
  ghost predicate Speaks(m: ChatMessage, items: seq<ChatItem>)
  {
    match m
    case System(_) => items == []
    case Tool(callId, id, content) => |items| == 1 && items[0].ResultItem? && items[0].output == content && States(callId, id, "", items[0].callId)
    case Other(role, name, content) => items == [Turn(if Trim(role) == "" then "user" else Lower(Trim(role)), content, Trim(name))]
    case Assistant(content, calls, legacy) =>
      if content == "" then Follows(content, calls, legacy, items)
      else items != [] && items[0] == Turn("assistant", content, "") && Follows(content, calls, legacy, items[1..])
  }

  function SystemText(messages: seq<ChatMessage>): nat -> bool
  {
    (i: nat) => i < |messages| && messages[i].System? && Trim(messages[i].text) != ""
  }

  /** The system texts that are not blank, trimmed, in order. */
  ghost predicate Instructs(messages: seq<ChatMessage>, texts: seq<string>, idx: seq<nat>)
  {
    && Picks(|messages|, SystemText(messages), idx) && |texts| == |idx|
    && forall k :: 0 <= k < |idx| ==> idx[k] < |messages| && messages[idx[k]].System? && texts[k] == Trim(messages[idx[k]].text)
  }

  // One call, one message

  lemma StatedIs(supply: nat -> string, s: Ids, a: string, b: string, c: string)
    ensures States(a, b, c, Ensure(supply, s, FirstNonEmpty(FirstNonEmpty(a, b), c)).1)
  {
    TrimTight(a);
    TrimTight(b);
    TrimTight(c);
    TrimTight(Trim(a));
    TrimTight(Trim(b));
    TrimTight(Trim(c));
    hide Trim;
  }

  lemma TakenIs(supply: nat -> string, s: Ids, a: string, b: string)
    ensures States(a, b, "", Take(supply, s, FirstNonEmpty(a, b)).1)
  {
    assert Trim("") == "";
    hide Trim, Drop;
  }

  lemma CallSends(supply: nat -> string, v: Converted, c: ChatCall)
    ensures var u := AddCall(supply, v, c);
            if HasName(c) then |u.input| == |v.input| + 1 && u.input[..|v.input|] == v.input && Sends(c, u.input[|v.input|]) else u == v
    ensures AddCall(supply, v, c).system == v.system
  {
    StatedIs(supply, v.ids, c.id, c.callId, c.innerId);
    TrimTight(c.name);
    TrimTight(Trim(c.name));
    hide Trim, Ensure, States;
  }

  lemma NextCall(front: seq<ChatCall>, c: ChatCall, items: seq<ChatItem>, before: seq<nat>, m: ChatItem) returns (idx: seq<nat>)
    requires SendsAll(front, items, before) && (HasName(c) ==> Sends(c, m))
    ensures SendsAll(front + [c], if HasName(c) then items + [m] else items, idx)
  {
    hide Picks, Sends, HasName;
    PicksSame(|front|, Named(front), Named(front + [c]), before);
    PicksMore(|front|, Named(front + [c]), before);
    idx := if HasName(c) then before + [|front|] else before;
  }

  lemma {:induction false} CallsSend(supply: nat -> string, v: Converted, calls: seq<ChatCall>) returns (items: seq<ChatItem>, idx: seq<nat>)
    ensures var u := AddCalls(supply, v, calls); u.input == v.input + items && u.system == v.system && SendsAll(calls, items, idx)
  {
    hide AddCall, Sends, HasName, SendsAll;
    items, idx := [], [];
    if calls == [] {
      NoCalls();
    } else {
      var front, c := calls[..|calls| - 1], calls[|calls| - 1];
      assert calls == front + [c];
      items, idx := CallsSend(supply, v, front);
      var before, after := AddCalls(supply, v, front), AddCalls(supply, v, calls);
      CallSends(supply, before, c);
      var m := if HasName(c) then after.input[|before.input|] else Turn("", "", "");
      idx := NextCall(front, c, items, idx, m);
      if HasName(c) {
        assert after.input == v.input + (items + [m]);
        items := items + [m];
      }
    }
  }

  lemma NoCalls()
    ensures SendsAll([], [], [])
  {
  }

  lemma AssistantSpeaks(supply: nat -> string, v: Converted, m: ChatMessage) returns (items: seq<ChatItem>)
    requires m.Assistant?
    ensures var u := AddMessage(supply, v, m); u.input == v.input + items && Speaks(m, items) && u.system == v.system
  {
    hide Trim, Ensure, AddCalls, SendsAll;
    var first := if m.content != "" then [Turn("assistant", m.content, "")] else [];
    var v1 := v.(input := v.input + first);
    assert v.input + [] == v.input;
    if m.calls.Some? {
      var more, idx := CallsSend(supply, v1, m.calls.value);
      items := first + more;
      if first != [] { assert items[1..] == more; } else { assert items == more; }
    } else if m.legacy.Some? && m.legacy.value.name == "" {
      items := first;
    } else if m.legacy.Some? {
      var u := AddLegacy(supply, v1, m.legacy.value);
      items := first + [u.input[|v1.input|]];
      if first != [] { assert items[1..] == [u.input[|v1.input|]]; }
    } else {
      items := if m.content == "" then [Turn("assistant", "", "")] else first;
    }
  }

  lemma MessageSpeaks(supply: nat -> string, v: Converted, m: ChatMessage) returns (items: seq<ChatItem>)
    ensures var u := AddMessage(supply, v, m);
            && u.input == v.input + items && Speaks(m, items)
            && u.system == v.system + if m.System? && Trim(m.text) != "" then [Trim(m.text)] else []
  {
    hide Trim, Lower, Take, AddCalls, AddLegacy, Follows, States;
    var u := AddMessage(supply, v, m);
    match m
    case System(text) => items := [];
    case Assistant(_, _, _) => items := AssistantSpeaks(supply, v, m);
    case Tool(callId, id, content) =>
      TakenIs(supply, v.ids, callId, id);
      items := [u.input[|v.input|]];
    case Other(role, name, content) => items := [u.input[|v.input|]];
  }

  // The whole chat

  function Flat(parts: seq<seq<ChatItem>>): seq<ChatItem>
  {
    if parts == [] then [] else Flat(parts[..|parts| - 1]) + parts[|parts| - 1]
  }

  lemma FlatNext(parts: seq<seq<ChatItem>>, part: seq<ChatItem>)
    ensures Flat(parts + [part]) == Flat(parts) + part
  {
    assert (parts + [part])[..|parts|] == parts;
  }

  /**
   The converted chat is what its messages stand for, one after the other: turns with role,
   text and name, calls with name and arguments, results with their output; an assistant's
   text comes before its calls. The instructions are the system texts that are not blank.
   */
  lemma {:induction false} ConvertTells(supply: nat -> string, messages: seq<ChatMessage>) returns (parts: seq<seq<ChatItem>>, idx: seq<nat>)
    ensures |parts| == |messages| && Convert(supply, messages).input == Flat(parts)
    ensures forall i :: 0 <= i < |messages| ==> Speaks(messages[i], parts[i])
    ensures Instructs(messages, Convert(supply, messages).system, idx)
  {
    hide AddMessage, Speaks, Instructs, Trim;
    parts, idx := [], [];
    if messages != [] {
      var front, m := messages[..|messages| - 1], messages[|messages| - 1];
      assert messages == front + [m];
      parts, idx := ConvertTells(supply, front);
      var items := MessageSpeaks(supply, Convert(supply, front), m);
      FlatNext(parts, items);
      idx := NextText(front, m, Convert(supply, front).system, idx);
      parts := parts + [items];
    } else {
      idx := [];
      NoTexts();
    }
  }

  lemma NoTexts()
    ensures Instructs([], [], [])
  {
  }

  lemma NextText(front: seq<ChatMessage>, m: ChatMessage, texts: seq<string>, before: seq<nat>) returns (idx: seq<nat>)
    requires Instructs(front, texts, before)
    ensures Instructs(front + [m], texts + if m.System? && Trim(m.text) != "" then [Trim(m.text)] else [], idx)
  {
    hide Picks, Trim;
    PicksSame(|front|, SystemText(front), SystemText(front + [m]), before);
    PicksMore(|front|, SystemText(front + [m]), before);
    idx := if m.System? && Trim(m.text) != "" then before + [|front|] else before;
  }

  // Projections

  /** The outputs sent, in order. */
  function Outputs(input: seq<ChatItem>): seq<string>
  {
    if input == [] then []
    else
      var m := input[|input| - 1];
      Outputs(input[..|input| - 1]) + if m.ResultItem? then [m.output] else []
  }

  /** The contents of the tool messages, in order. */
  function Results(messages: seq<ChatMessage>): seq<string>
  {
    if messages == [] then []
    else
      var m := messages[|messages| - 1];
      Results(messages[..|messages| - 1]) + if m.Tool? then [m.content] else []
  }

  lemma {:induction false} OutputsAppend(a: seq<ChatItem>, b: seq<ChatItem>)
    ensures Outputs(a + b) == Outputs(a) + Outputs(b)
  {
    if b == [] {
      assert a + b == a;
    } else {
      assert (a + b)[..|a + b| - 1] == a + b[..|b| - 1];
      OutputsAppend(a, b[..|b| - 1]);
    }
  }

  lemma {:induction false} NoOutputs(items: seq<ChatItem>)
    requires forall k :: 0 <= k < |items| ==> !items[k].ResultItem?
    ensures Outputs(items) == []
  {
    if items != [] { NoOutputs(items[..|items| - 1]); }
  }

  lemma SpeaksOutputs(m: ChatMessage, items: seq<ChatItem>)
    requires Speaks(m, items)
    ensures Outputs(items) == if m.Tool? then [m.content] else []
  {
    hide Trim, Lower, States, Picks;
    if m.Tool? {
      assert items[..0] == [];
    } else {
      if m.Assistant? && m.content != "" {
        forall k | 0 <= k < |items| ensures !items[k].ResultItem? { if k > 0 { assert items[k] == items[1..][k - 1]; } }
      }
      NoOutputs(items);
    }
  }

  /** Every tool result keeps its output, and none comes from anywhere else. */
  lemma {:induction false} ResultsArrive(supply: nat -> string, messages: seq<ChatMessage>)
    ensures Outputs(Convert(supply, messages).input) == Results(messages)
  {
    hide AddMessage, Speaks;
    if messages != [] {
      var front := messages[..|messages| - 1];
      ResultsArrive(supply, front);
      var items := MessageSpeaks(supply, Convert(supply, front), messages[|messages| - 1]);
      SpeaksOutputs(messages[|messages| - 1], items);
      OutputsAppend(Convert(supply, front).input, items);
    }
  }
}
