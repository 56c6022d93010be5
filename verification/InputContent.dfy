/**
 What a history keeps when it is made acceptable: which texts, arguments, outputs and names
 every item is sent on with, and which tools the history itself makes known.
 */
module InputContent {
  import opened Basics
  import opened CallIds
  import A = ToolAliases
  import opened ToolNames
  import opened Input

  // What one item is sent on as

  /** A stated call id is kept, a stated item id stands in for it. */
  predicate Keeps(callId: string, id: string, sent: string)
  {
    if Trim(callId) != "" then sent == Trim(callId) else Trim(id) != "" ==> sent == Trim(id)
  }

  predicate Known(t: A.Table, kind: A.Kind, space: string, name: string)
  {
    A.Key(A.Identity(kind, space, name)) in t.names
  }

  function NameOf(t: A.Table, kind: A.Kind, space: string, name: string): string
    requires Known(t, kind, space, name)
  {
    t.names[A.Key(A.Identity(kind, space, name))]
  }

  function Kept(parts: seq<Part>): nat -> bool
  {
    (i: nat) => i < |parts| && !parts[i].JunkPart?
  }

  /** The parts that are no junk, in order, a missing text blank. */
  ghost predicate PartsSent(parts: seq<Part>, sent: seq<Part>, idx: seq<nat>)
  {
    && Picks(|parts|, Kept(parts), idx) && |sent| == |idx|
    && forall k :: 0 <= k < |idx| ==>
         idx[k] < |parts| && parts[idx[k]].Part?
         && sent[k] == Part(parts[idx[k]].typ, if parts[idx[k]].text.None? then Some("") else parts[idx[k]].text, parts[idx[k]].other)
  }

  ghost predicate ContentSent(c: Content, sent: Content)
  {
    match c
    case NoContent => sent == TextContent("")
    case TextContent(_) => sent == c
    case PartsContent(parts) => sent.PartsContent? && exists idx: seq<nat> :: PartsSent(parts, sent.parts, idx)
  }

  predicate RoleSent(role: string, sent: string)
  {
    var r := Lower(Trim(role));
    && (r == "" ==> sent == "user")
    && (r == "developer" ==> sent == "system")
    && (r != "" && r != "developer" ==> sent == r)
  }

  function NotBlank(s: string, otherwise: string): string
  {
    if Trim(s) != "" then Trim(s) else otherwise
  }

  function NotEmpty(s: string, otherwise: string): string
  {
    if s != "" then s else otherwise
  }

  /** A call under this name with these arguments and status. */
  predicate Calls(r: Option<Item>, name: string, callId: string, id: string, arguments: string, status: string)
  {
    && r.Some? && r.value == FunctionCall(name, "", if r.value.FunctionCall? then r.value.callId else "", "", arguments, status)
    && Keeps(callId, id, r.value.callId)
  }

  predicate Answers(r: Option<Item>, callId: string, id: string, output: string)
  {
    && r.Some? && r.value == FunctionOutput(if r.value.FunctionOutput? then r.value.callId else "", "", output)
    && Keeps(callId, id, r.value.callId)
  }

  /** The name a plain call goes by: of its namespace's function, or of what the bare name stands for, if that is known. */
  ghost predicate Renamed(before: A.Table, after: A.Table, space: string, name: string, sent: string)
  {
    if space != "" then Known(after, A.FunctionTool, space, name) && sent == NameOf(after, A.FunctionTool, space, name)
    else if Known(before, A.FunctionTool, "", name) then sent == NameOf(before, A.FunctionTool, "", name)
    else if Known(before, A.CustomTool, "", name) then sent == NameOf(before, A.CustomTool, "", name)
    else if Known(before, A.SearchTool, "", name) then sent == NameOf(before, A.SearchTool, "", name)
    else sent == name
  }

  predicate ActionSent(action: ShellAction, command: string, sent: ShellAction)
  {
    sent == ShellAction(NotBlank(action.typ, "exec"), NotEmpty(action.command, command), Trim(action.workdir), action.env)
  }

  ghost predicate ShellSent(src: Source, nativeShell: bool, item: Item, r: Option<Item>)
    requires item.ShellCall?
  {
    exists action :: ActionSent(item.action, item.command, action)
      && if nativeShell then
           && r.Some? && r.value.ShellCall? && Keeps(item.callId, item.id, r.value.callId)
           && r.value == ShellCall(r.value.callId, "", action, "", Trim(item.status))
         else Calls(r, "shell_command", item.callId, item.id, NotEmpty(src.shellJson(action), "{\"command\":\"\"}"), "")
  }

  ghost predicate Sent(src: Source, s: State, item: Item, t: State, r: Option<Item>)
  {
    match item
    case Junk => r == None
    case Message(typ, role, id, status, name, content) =>
      && r.Some? && r.value.Message? && RoleSent(role, r.value.role) && ContentSent(content, r.value.content)
      && r.value == Message(Trim(typ), r.value.role, Trim(id), Trim(status), Trim(name), r.value.content)
    case FunctionCall(name, space, callId, id, arguments, status) =>
      if Trim(name) == "" then r == None
      else
        && r.Some? && r.value.FunctionCall? && Renamed(s.table, t.table, Trim(space), Trim(name), r.value.name)
        && Keeps(callId, id, r.value.callId)
        && r.value == FunctionCall(r.value.name, "", r.value.callId, if Trim(id) == r.value.callId then "" else Trim(id),
                                   NotEmpty(arguments, "{}"), Trim(status))
    case FunctionOutput(callId, id, output) => Answers(r, callId, id, output)
    case ToolSearchCall(callId, id, arguments) =>
      Known(t.table, A.SearchTool, "", "tool_search")
      && Calls(r, NameOf(t.table, A.SearchTool, "", "tool_search"), callId, id, NotEmpty(arguments, "{}"), "")
    case ToolSearchOutput(callId, id, tools) =>
      Answers(r, callId, id, "Tool search completed; " + src.count(|tools|) + " selected tool definitions are now available.")
    case Developer(text, _) => r == Some(Message("message", "system", "", "", "", PartsContent([Part("input_text", Some(text), "")])))
    case Note(text) => r == Some(Message("", "assistant", "", "", "", TextContent(text)))
    case Reasoning(id, status, summary) =>
      r == Some(Reasoning(Trim(id), Trim(status), Some(if summary.Some? then summary.value else "[]")))
    case ShellCall(_, _, _, _, _) => ShellSent(src, s.nativeShell, item, r)
    case ShellOutput(callId, id, output) =>
      if s.nativeShell then
        && r.Some? && r.value.ShellOutput? && Keeps(callId, id, r.value.callId) && r.value == ShellOutput(r.value.callId, "", output)
      else Answers(r, callId, id, output)
    case CustomCall(name, callId, id, arguments) => Calls(r, NotBlank(name, "custom_tool"), callId, id, NotEmpty(arguments, "{}"), "")
    case BuiltinCall(name, callId, id, arguments, status) =>
      Calls(r, NotBlank(name, "mcp_call"), callId, id, NotEmpty(arguments, "{}"), Trim(status))
    case PatchCall(callId, id, arguments, status) =>
      Known(t.table, A.PatchTool, "", "apply_patch")
      && Calls(r, NameOf(t.table, A.PatchTool, "", "apply_patch"), callId, id,
               NotEmpty(arguments, "{\"operation\":{\"type\":\"update_file\",\"path\":\"unknown\",\"diff\":\"\"}}"), Trim(status))
    case PatchOutput(callId, id, status, output) =>
      Answers(r, callId, id, "Apply patch status: " + NotBlank(status, "completed") + if output == "" then "" else "\n" + output)
  }

  lemma StatedIs(supply: nat -> string, s: Ids, callId: string, id: string)
    ensures Keeps(callId, id, Ensure(supply, s, Explicit(callId, id)).1)
    ensures Keeps(callId, id, Take(supply, s, Explicit(callId, id)).1)
  {
    TrimTight(callId);
    TrimTight(id);
    TrimTight(Trim(callId));
    TrimTight(Trim(id));
    hide Trim, Drop;
  }

  lemma RegisteredKnown(hash: string -> string, t: A.Table, i: A.Identity)
    ensures var (u, alias) := Registered(hash, t, i); Known(u, i.kind, i.space, i.name) && alias == NameOf(u, i.kind, i.space, i.name)
  {
    hide A.Key, A.Fresh;
    assert i == A.Identity(i.kind, i.space, i.name);
  }

  lemma NextPart(front: seq<Part>, p: Part, sent: seq<Part>, before: seq<nat>) returns (idx: seq<nat>)
    requires PartsSent(front, sent, before)
    ensures PartsSent(front + [p], sent + (if p.JunkPart? then [] else if p.text.None? then [p.(text := Some(""))] else [p]), idx)
  {
    hide Picks;
    PicksSame(|front|, Kept(front), Kept(front + [p]), before);
    PicksMore(|front|, Kept(front + [p]), before);
    idx := if p.JunkPart? then before else before + [|front|];
  }

  lemma NoParts()
    ensures PartsSent([], [], [])
  {
  }

  lemma {:induction false} PartsTell(parts: seq<Part>) returns (idx: seq<nat>)
    ensures PartsSent(parts, CleanParts(parts), idx)
  {
    hide PartsSent;
    idx := [];
    if parts == [] {
      NoParts();
    } else {
      var front, p := parts[..|parts| - 1], parts[|parts| - 1];
      assert parts == front + [p];
      idx := PartsTell(front);
      idx := NextPart(front, p, CleanParts(front), idx);
    }
  }

  lemma MessageTells(src: Source, s: State, item: Item)
    requires item.Message?
    ensures Sent(src, s, item, CleanItem(src, s, item).0, CleanItem(src, s, item).1)
  {
    hide Trim, Lower, PartsSent, CleanParts;
    if item.content.PartsContent? { var idx := PartsTell(item.content.parts); }
  }

  lemma CallTells(src: Source, s: State, item: Item)
    requires item.FunctionCall?
    ensures Sent(src, s, item, CleanItem(src, s, item).0, CleanItem(src, s, item).1)
  {
    hide Trim, Ensure, A.Key, Registered, Keeps;
    RegisteredKnown(src.hash, s.table, A.Identity(A.FunctionTool, Trim(item.space), Trim(item.name)));
    StatedIs(src.supply, s.ids, item.callId, item.id);
  }

  lemma ShellTells(src: Source, s: State, item: Item)
    requires item.ShellCall?
    ensures ShellSent(src, s.nativeShell, item, CleanItem(src, s, item).1)
  {
    hide Trim, Ensure, Keeps;
    StatedIs(src.supply, s.ids, item.callId, item.id);
    assert ActionSent(item.action, item.command, CleanAction(item.action, item.command));
  }

  lemma NamedTells(src: Source, s: State, item: Item)
    requires item.ToolSearchCall? || item.PatchCall? || item.CustomCall? || item.BuiltinCall?
    ensures Sent(src, s, item, CleanItem(src, s, item).0, CleanItem(src, s, item).1)
  {
    hide Trim, Ensure, A.Key, Registered, Keeps;
    RegisteredKnown(src.hash, s.table, A.Identity(A.SearchTool, "", "tool_search"));
    RegisteredKnown(src.hash, s.table, A.Identity(A.PatchTool, "", "apply_patch"));
    StatedIs(src.supply, s.ids, item.callId, item.id);
  }

  lemma AnswerTells(src: Source, s: State, item: Item)
    requires item.FunctionOutput? || item.ToolSearchOutput? || item.ShellOutput? || item.PatchOutput?
    ensures Sent(src, s, item, CleanItem(src, s, item).0, CleanItem(src, s, item).1)
  {
    hide Trim, Take, LoadAll, Keeps;
    StatedIs(src.supply, s.ids, item.callId, item.id);
  }

  lemma PlainTells(src: Source, s: State, item: Item)
    requires item.Junk? || item.Developer? || item.Note? || item.Reasoning?
    ensures Sent(src, s, item, CleanItem(src, s, item).0, CleanItem(src, s, item).1)
  {
    hide Trim, LoadAll;
  }

  /** Every item is sent on with its own texts, arguments and outputs. */
  lemma ItemTells(src: Source, s: State, item: Item)
    ensures Sent(src, s, item, CleanItem(src, s, item).0, CleanItem(src, s, item).1)
  {
    hide Sent, CleanItem;
    if item.Message? { MessageTells(src, s, item); }
    else if item.FunctionCall? { CallTells(src, s, item); }
    else if item.ShellCall? { ShellSays(src, s, item); }
    else if item.ToolSearchCall? || item.PatchCall? || item.CustomCall? || item.BuiltinCall? { NamedTells(src, s, item); }
    else if item.FunctionOutput? || item.ToolSearchOutput? || item.ShellOutput? || item.PatchOutput? { AnswerTells(src, s, item); }
    else { PlainTells(src, s, item); }
  }

  lemma ShellSays(src: Source, s: State, item: Item)
    requires item.ShellCall?
    ensures Sent(src, s, item, CleanItem(src, s, item).0, CleanItem(src, s, item).1)
  {
    hide CleanItem, ShellSent;
    ShellTells(src, s, item);
  }

  // The whole history

  /** The items sent, without those left out. */
  function Flat(parts: seq<Option<Item>>): seq<Item>
  {
    if parts == [] then []
    else Flat(parts[..|parts| - 1]) + if parts[|parts| - 1].Some? then [parts[|parts| - 1].value] else []
  }

  /**
   The history sent on is what its items are sent on as, in order, each in the state its
   predecessors left; an empty one is a silent user turn.
   */
  lemma {:induction false} HistoryTells(src: Source, s: State, items: seq<Item>) returns (states: seq<State>, parts: seq<Option<Item>>)
    ensures |parts| == |items| && |states| == |items| + 1 && states[0] == s && states[|items|] == CleanAll(src, s, items).0
    ensures forall i :: 0 <= i < |items| ==> Sent(src, states[i], items[i], states[i + 1], parts[i])
    ensures CleanAll(src, s, items).1 == Flat(parts)
    ensures Sanitize(src, s, items) == if Flat(parts) == [] then [Message("", "user", "", "", "", TextContent(""))] else Flat(parts)
  {
    hide CleanItem, Sent;
    if items == [] {
      states, parts := [s], [];
    } else {
      var front := items[..|items| - 1];
      var before := CleanAll(src, s, front).0;
      states, parts := HistoryTells(src, s, front);
      ItemTells(src, before, items[|items| - 1]);
      var next := CleanItem(src, before, items[|items| - 1]);
      FlatNext(parts, next.1);
      states, parts := states + [next.0], parts + [next.1];
    }
  }

  lemma FlatNext(parts: seq<Option<Item>>, part: Option<Item>)
    ensures Flat(parts + [part]) == Flat(parts) + if part.Some? then [part.value] else []
  {
    assert (parts + [part])[..|parts|] == parts;
  }

  // What the history makes known

  /** The tools that come into being before the first bad one. */
  predicate Good(l: Loaded)
  {
    match l
    case Refused => false
    case Spaced(space, names) => Trim(space) != "" && forall j :: 0 <= j < |names| ==> Trim(names[j]) != ""
    case _ => true
  }

  function FunctionIds(space: string, names: seq<string>): (ids: seq<A.Identity>)
    ensures |ids| == |names|
  {
    seq(|names|, j requires 0 <= j < |names| => A.Identity(A.FunctionTool, space, Trim(names[j])))
  }

  /** The identities of a good tool, in order. */
  function Brings(l: Loaded): seq<A.Identity>
  {
    match l
    case Spaced(space, names) => FunctionIds(Trim(space), names)
    case LoadedCustom(name) => [A.Identity(A.CustomTool, "", NotBlank(name, "custom_tool"))]
    case LoadedPatch => [A.Identity(A.PatchTool, "", "apply_patch")]
    case _ => []
  }

  function BringAll(tools: seq<Loaded>): seq<A.Identity>
  {
    if tools == [] then [] else BringAll(tools[..|tools| - 1]) + Brings(tools[|tools| - 1])
  }

  /** The good beginning of a bad namespace. */
  ghost predicate Begins(l: Loaded, ids: seq<A.Identity>)
  {
    if !(l.Spaced? && Trim(l.space) != "") then ids == []
    else
      && |ids| < |l.names| && Trim(l.names[|ids|]) == ""
      && forall j :: 0 <= j < |ids| ==> Trim(l.names[j]) != "" && ids[j] == A.Identity(A.FunctionTool, Trim(l.space), Trim(l.names[j]))
  }

  lemma {:induction false} RegisterTogether(hash: string -> string, t: A.Table, a: seq<A.Identity>, b: seq<A.Identity>)
    ensures A.RegisterAll(hash, t, a + b) == A.RegisterAll(hash, A.RegisterAll(hash, t, a), b)
    decreases |b|
  {
    hide A.Register;
    if b == [] {
      assert a + b == a;
    } else {
      assert (a + b)[..|a + b| - 1] == a + b[..|b| - 1];
      RegisterTogether(hash, t, a, b[..|b| - 1]);
    }
  }

  lemma RegisterOne(hash: string -> string, t: A.Table, i: A.Identity)
    ensures A.RegisterAll(hash, t, [i]) == A.Register(hash, t, i) == Registered(hash, t, i).0 && A.RegisterAll(hash, t, []) == t
  {
    hide A.Register;
    assert [i][..0] == [];
  }

  lemma {:induction false} SpacedLoads(hash: string -> string, t: A.Table, space: string, names: seq<string>) returns (n: nat)
    ensures n <= |names| && (forall j :: 0 <= j < n ==> Trim(names[j]) != "") && (n < |names| ==> Trim(names[n]) == "")
    ensures LoadSpaced(hash, t, space, names) == (A.RegisterAll(hash, t, FunctionIds(space, names[..n])), n == |names|)
  {
    hide A.Register, Trim, Registered;
    n := 0;
    if names == [] {
      RegisterOne(hash, t, A.Identity(A.FunctionTool, "", ""));
      assert FunctionIds(space, names[..0]) == [];
    } else {
      var front := names[..|names| - 1];
      n := SpacedLoads(hash, t, space, front);
      assert front[..n] == names[..n];
      if n == |front| && Trim(names[n]) != "" {
        var i := A.Identity(A.FunctionTool, space, Trim(names[n]));
        RegisterTogether(hash, t, FunctionIds(space, names[..n]), [i]);
        RegisterOne(hash, A.RegisterAll(hash, t, FunctionIds(space, names[..n])), i);
        assert FunctionIds(space, names[..n + 1]) == FunctionIds(space, names[..n]) + [i];
        n := n + 1;
      }
    }
  }

  lemma OneLoads(hash: string -> string, t: A.Table, l: Loaded) returns (ids: seq<A.Identity>)
    ensures LoadOne(hash, t, l) == (A.RegisterAll(hash, t, ids), Good(l)) && if Good(l) then ids == Brings(l) else Begins(l, ids)
  {
    hide A.Register, Trim, Registered, LoadSpaced;
    match l
    case Spaced(space, names) =>
      if Trim(space) == "" {
        ids := [];
        RegisterOne(hash, t, A.Identity(A.PatchTool, "", ""));
      } else {
        var n := SpacedLoads(hash, t, Trim(space), names);
        ids := FunctionIds(Trim(space), names[..n]);
        if n == |names| { assert names[..n] == names; }
      }
    case LoadedCustom(name) =>
      ids := Brings(l);
      RegisterOne(hash, t, ids[0]);
    case LoadedPatch =>
      ids := Brings(l);
      RegisterOne(hash, t, ids[0]);
    case _ =>
      ids := [];
      RegisterOne(hash, t, A.Identity(A.PatchTool, "", ""));
  }

  /** Loading registers what the tools before the first bad one bring, and the good beginning of that one. */
  lemma {:induction false} AllLoad(hash: string -> string, t: A.Table, tools: seq<Loaded>) returns (n: nat, rest: seq<A.Identity>)
    ensures n <= |tools| && (forall i :: 0 <= i < n ==> Good(tools[i])) && (n < |tools| ==> !Good(tools[n]) && Begins(tools[n], rest))
    ensures n == |tools| ==> rest == []
    ensures LoadAll(hash, t, tools) == (A.RegisterAll(hash, t, BringAll(tools[..n]) + rest), n == |tools|)
  {
    hide A.Register, Good, Begins, LoadOne, Brings;
    n, rest := 0, [];
    if tools == [] {
      RegisterOne(hash, t, A.Identity(A.PatchTool, "", ""));
      assert BringAll(tools[..0]) + rest == [];
    } else {
      var front, l := tools[..|tools| - 1], tools[|tools| - 1];
      n, rest := AllLoad(hash, t, front);
      assert front[..n] == tools[..n];
      if n == |front| {
        var ids := OneLoads(hash, LoadAll(hash, t, front).0, l);
        assert BringAll(front) + [] == BringAll(front) && front[..n] == front;
        RegisterTogether(hash, t, BringAll(front), ids);
        if Good(l) {
          n := n + 1;
          assert tools[..n] == tools && BringAll(tools) == BringAll(front) + ids;
          assert BringAll(tools) + [] == BringAll(tools);
        } else {
          rest := ids;
        }
      }
    }
  }

  /** Only a tool search's output and a developer's note make tools known; every other item at most its own name. */
  lemma TablesTell(src: Source, s: State, item: Item)
    ensures var t := CleanItem(src, s, item).0.table;
            match item
            case ToolSearchOutput(_, _, tools) => t == LoadAll(src.hash, s.table, tools).0
            case Developer(_, tools) => t == LoadAll(src.hash, s.table, tools).0
            case ToolSearchCall(_, _, _) => t == A.Register(src.hash, s.table, A.Identity(A.SearchTool, "", "tool_search"))
            case PatchCall(_, _, _, _) => t == A.Register(src.hash, s.table, A.Identity(A.PatchTool, "", "apply_patch"))
            case FunctionCall(name, space, _, _, _, _) =>
              t == if Trim(name) != "" && Trim(space) != "" then A.Register(src.hash, s.table, A.Identity(A.FunctionTool, Trim(space), Trim(name))) else s.table
            case _ => t == s.table
  {
    hide Trim, Ensure, Take, A.Register, LoadAll;
  }
}
