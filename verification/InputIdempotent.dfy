/**
 A request's history is sanitised more than once on its way. A second time invents no id,
 drops nothing and leaves every item alone, unless the tools by then declared rename a
 function; and the ids in the history pair calls with outputs as `CallIds` says.
 */
module InputIdempotent {
  import opened Basics
  import opened CallIds
  import opened Input
  import opened ToolNames
  import A = ToolAliases

  predicate Solid(s: string)
  {
    Tight(s) && s != ""
  }

  // The forms that come out

  predicate CallForm(m: Item)
  {
    m.FunctionCall? && m.space == "" && Solid(m.name) && Solid(m.callId) && Tight(m.id) && m.id != m.callId
    && m.arguments != "" && Tight(m.status)
  }

  predicate ShellForm(m: Item)
  {
    m.ShellCall? && Solid(m.callId) && m.id == "" && m.command == "" && Solid(m.action.typ) && Tight(m.action.workdir) && Tight(m.status)
  }

  predicate Form(native: bool, m: Item)
  {
    match m
    case Message(_, _, _, _, _, _) => CleanMessage(m) == m
    case FunctionCall(_, _, _, _, _, _) => CallForm(m)
    case FunctionOutput(callId, id, _) => Solid(callId) && id == ""
    case Reasoning(id, status, summary) => Tight(id) && Tight(status) && summary.Some?
    case ShellCall(_, _, _, _, _) => native && ShellForm(m)
    case ShellOutput(callId, id, _) => native && Solid(callId) && id == ""
    case _ => false
  }

  /** Names, made-up ids and the open ids are trimmed and not blank. */
  ghost predicate Sound(src: Source, s: State)
  {
    Usable(src.supply) && Digits(src.hash) && GoodTable(s.table, false) && forall id :: id in s.ids.unanswered ==> Solid(id)
  }

  lemma ExplicitTight(callId: string, id: string)
    ensures Tight(Explicit(callId, id)) && Trim(Explicit(callId, id)) == Explicit(callId, id)
  {
    TrimTight(callId);
    TrimTight(id);
    TrimTight(Explicit(callId, id));
  }

  lemma EnsureSolid(src: Source, s: State, explicit: string)
    requires Sound(src, s)
    ensures var (ids, id) := Ensure(src.supply, s.ids, explicit); Solid(id) && Sound(src, s.(ids := ids))
  {
    TrimTight(explicit);
    hide Digits, GoodTable;
  }

  lemma TakeSolid(src: Source, s: State, explicit: string)
    requires Sound(src, s) && Tight(explicit)
    ensures var (ids, id) := Take(src.supply, s.ids, explicit); Solid(id) && Sound(src, s.(ids := ids))
  {
    hide Digits, GoodTable;
    DropFrom(s.ids.unanswered, explicit);
  }

  lemma TableSound(src: Source, s: State, i: A.Identity)
    requires Sound(src, s) && GoodIdentity(i, false)
    ensures var (table, alias) := Registered(src.hash, s.table, i); Solid(alias) && Sound(src, s.(table := table))
  {
    hide Digits, GoodTable, Registered;
    RegisteredGood(src.hash, s.table, i, false);
    var (table, alias) := Registered(src.hash, s.table, i);
    NameSolid(alias);
  }

  lemma NameSolid(a: string)
    requires GoodName(a, false)
    ensures Solid(a)
  {
  }

  // Messages

  lemma {:induction false} PartsStable(parts: seq<Part>)
    ensures CleanParts(CleanParts(parts)) == CleanParts(parts)
  {
    if parts != [] {
      var front, p := parts[..|parts| - 1], parts[|parts| - 1];
      PartsStable(front);
      var q := if p.JunkPart? then [] else if p.text.None? then [p.(text := Some(""))] else [p];
      if q == [] {
        assert CleanParts(front) + q == CleanParts(front);
      } else {
        assert (CleanParts(front) + q)[..|CleanParts(front)|] == CleanParts(front);
      }
    }
  }

  lemma RoleStable(role: string)
    ensures Role(Role(role)) == Role(role)
  {
    LowerTrimStable(role);
    Word("user");
    Word("system");
  }

  lemma Word(s: string)
    requires Tight(s) && forall k :: 0 <= k < |s| ==> LowerChar(s[k]) == s[k]
    ensures Lower(Trim(s)) == s && Trim(s) == s
  {
    TrimTight(s);
    assert Lower(s) == s;
  }

  lemma MessageStable(m: Item)
    requires m.Message?
    ensures CleanMessage(CleanMessage(m)) == CleanMessage(m)
  {
    hide Trim, Role, CleanParts;
    RoleStable(m.role);
    TrimTwice(m.typ);
    TrimTwice(m.id);
    TrimTwice(m.status);
    TrimTwice(m.name);
    if m.content.PartsContent? { PartsStable(m.content.parts); }
  }

  lemma TrimTwice(s: string)
    ensures Trim(Trim(s)) == Trim(s) && Tight(Trim(s))
  {
    TrimTight(s);
    TrimTight(Trim(s));
  }

  lemma PlainMessages(text: string)
    ensures Form(true, DeveloperMessage(text)) && Form(false, DeveloperMessage(text))
    ensures CleanMessage(Message("", "assistant", "", "", "", TextContent(text))) == Message("", "assistant", "", "", "", TextContent(text))
  {
    Word("message");
    Word("system");
    Word("assistant");
    TrimTight("");
    var p := [Part("input_text", Some(text), "")];
    assert p[..0] == [] && CleanParts([]) == [] && [] + p == p;
    assert CleanParts(p) == p;
  }

  // Every item comes out in its form

  lemma CallItemForm(src: Source, s: State, name: string, explicit: string, arguments: string, status: string)
    requires Sound(src, s) && Solid(name) && arguments != "" && Tight(status)
    ensures var (t, m) := CallItem(src, s, name, explicit, arguments, status);
            Sound(src, t) && t.nativeShell == s.nativeShell && m.Some? && Form(s.nativeShell, m.value)
  {
    hide Sound;
    EnsureSolid(src, s, explicit);
  }

  lemma OutputItemForm(src: Source, s: State, callId: string, id: string, output: string)
    requires Sound(src, s)
    ensures var (t, m) := OutputItem(src, s, Explicit(callId, id), output);
            Sound(src, t) && t.nativeShell == s.nativeShell && m.Some? && Form(s.nativeShell, m.value)
  {
    hide Sound, Explicit;
    ExplicitTight(callId, id);
    TakeSolid(src, s, Explicit(callId, id));
  }

  /** The alias of a bare name is trimmed and not blank. */
  lemma LookupSolid(src: Source, s: State, name: string)
    requires Sound(src, s)
    ensures Lookup(s.table, name).Some? ==> Solid(Lookup(s.table, name).value)
  {
    hide A.Key, Digits;
  }

  lemma CleanCallForm(src: Source, s: State, item: Item)
    requires Sound(src, s) && item.FunctionCall?
    ensures var (t, m) := CleanCall(src, s, item);
            Sound(src, t) && t.nativeShell == s.nativeShell && (m.Some? <==> Trim(item.name) != "") && (m.Some? ==> Form(s.nativeShell, m.value))
  {
    hide Sound, Explicit, Lookup, Registered, Ensure, Trim;
    TrimTwice(item.name);
    TrimTwice(item.space);
    TrimTwice(item.status);
    TrimTwice(item.id);
    var name, space := Trim(item.name), Trim(item.space);
    if name != "" {
      LookupSolid(src, s, name);
      if space != "" { TableSound(src, s, A.Identity(A.FunctionTool, space, name)); }
      var s1 := if space != "" then s.(table := Registered(src.hash, s.table, A.Identity(A.FunctionTool, space, name)).0) else s;
      EnsureSolid(src, s1, Explicit(item.callId, item.id));
    }
  }

  lemma CleanShellForm(src: Source, s: State, item: Item)
    requires Sound(src, s) && item.ShellCall?
    ensures var (t, m) := CleanShellCall(src, s, item);
            Sound(src, t) && t.nativeShell == s.nativeShell && m.Some? && Form(s.nativeShell, m.value)
  {
    hide Sound, Explicit;
    if s.nativeShell {
      EnsureSolid(src, s, Explicit(item.callId, item.id));
      TrimTwice(item.action.typ);
      TrimTwice(item.action.workdir);
      TrimTwice(item.status);
    } else {
      var json := src.shellJson(CleanAction(item.action, item.command));
      CallItemForm(src, s, "shell_command", Explicit(item.callId, item.id), if json == "" then SHELL_FALLBACK else json, "");
    }
  }

  lemma CleanShellOutputForm(src: Source, s: State, item: Item)
    requires Sound(src, s) && item.ShellOutput?
    ensures var (t, m) := CleanShellOutput(src, s, item);
            Sound(src, t) && t.nativeShell == s.nativeShell && m.Some? && Form(s.nativeShell, m.value)
  {
    hide Sound, Explicit;
    ExplicitTight(item.callId, item.id);
    if s.nativeShell {
      TakeSolid(src, s, Explicit(item.callId, item.id));
    } else {
      OutputItemForm(src, s, item.callId, item.id, item.output);
    }
  }

  lemma SpecialForm(src: Source, s: State, item: Item)
    requires Sound(src, s) && (item.ToolSearchCall? || item.PatchCall? || item.CustomCall? || item.BuiltinCall?)
    ensures var (t, m) := CleanItem(src, s, item);
            Sound(src, t) && t.nativeShell == s.nativeShell && m.Some? && Form(s.nativeShell, m.value)
  {
    hide Sound, Explicit, Registered, CallItem, Form, Trim;
    match item
    case ToolSearchCall(callId, id, arguments) =>
      var i := A.Identity(A.SearchTool, "", "tool_search");
      TableSound(src, s, i);
      var (table, alias) := Registered(src.hash, s.table, i);
      CallItemForm(src, s.(table := table), alias, Explicit(callId, id), OrBraces(arguments), "");
    case PatchCall(callId, id, arguments, status) =>
      var i := A.Identity(A.PatchTool, "", "apply_patch");
      TableSound(src, s, i);
      TrimTwice(status);
      var (table, alias) := Registered(src.hash, s.table, i);
      CallItemForm(src, s.(table := table), alias, Explicit(callId, id), if arguments == "" then PATCH_FALLBACK else arguments, Trim(status));
    case CustomCall(name, callId, id, arguments) =>
      TrimTwice(name);
      CallItemForm(src, s, if Trim(name) == "" then "custom_tool" else Trim(name), Explicit(callId, id), OrBraces(arguments), "");
    case BuiltinCall(name, callId, id, arguments, status) =>
      TrimTwice(name);
      TrimTwice(status);
      CallItemForm(src, s, if Trim(name) == "" then "mcp_call" else Trim(name), Explicit(callId, id), OrBraces(arguments), Trim(status));
  }

  lemma {:induction false} LoadSpacedSound(src: Source, s: State, space: string, names: seq<string>)
    requires Sound(src, s) && Tight(space) && space != ""
    ensures Sound(src, s.(table := LoadSpaced(src.hash, s.table, space, names).0))
  {
    hide Sound, Registered, Trim;
    if names != [] {
      var front, last := names[..|names| - 1], names[|names| - 1];
      LoadSpacedSound(src, s, space, front);
      TrimTight(last);
      if Trim(last) != "" {
        TableSound(src, s.(table := LoadSpaced(src.hash, s.table, space, front).0), A.Identity(A.FunctionTool, space, Trim(last)));
      }
    }
  }

  lemma LoadOneSound(src: Source, s: State, l: Loaded)
    requires Sound(src, s)
    ensures Sound(src, s.(table := LoadOne(src.hash, s.table, l).0))
  {
    hide Sound, Registered, Trim, LoadSpaced;
    match l
    case Spaced(space, names) =>
      TrimTight(space);
      if Trim(space) != "" { LoadSpacedSound(src, s, Trim(space), names); }
    case LoadedCustom(name) =>
      TrimTight(name);
      TableSound(src, s, A.Identity(A.CustomTool, "", if Trim(name) == "" then "custom_tool" else Trim(name)));
    case LoadedPatch => TableSound(src, s, A.Identity(A.PatchTool, "", "apply_patch"));
    case _ =>
  }

  /** Tools loaded by the history leave the table's names trimmed and not blank. */
  lemma {:induction false} LoadSound(src: Source, s: State, tools: seq<Loaded>)
    requires Sound(src, s)
    ensures Sound(src, s.(table := LoadAll(src.hash, s.table, tools).0))
  {
    hide Sound, LoadOne;
    if tools != [] {
      LoadSound(src, s, tools[..|tools| - 1]);
      LoadOneSound(src, s.(table := LoadAll(src.hash, s.table, tools[..|tools| - 1]).0), tools[|tools| - 1]);
    }
  }

  lemma ItemForm(src: Source, s: State, item: Item)
    requires Sound(src, s)
    ensures var (t, m) := CleanItem(src, s, item);
            Sound(src, t) && t.nativeShell == s.nativeShell && (m.Some? ==> Form(s.nativeShell, m.value))
  {
    hide Sound, Explicit, CleanCall, CleanShellCall, CleanShellOutput, CleanMessage, OutputItem, CallItem, Registered, Trim, PatchMessage,
      LoadAll;
    match item
    case Junk =>
    case Message(_, _, _, _, _, _) => MessageStable(item);
    case FunctionCall(_, _, _, _, _, _) => CleanCallForm(src, s, item);
    case FunctionOutput(callId, id, output) => OutputItemForm(src, s, callId, id, output);
    case ToolSearchOutput(callId, id, tools) =>
      LoadSound(src, s, tools);
      OutputItemForm(src, s.(table := LoadAll(src.hash, s.table, tools).0), callId, id, "Tool search completed; " + src.count(|tools|) + " selected tool definitions are now available.");
    case Developer(text, tools) =>
      LoadSound(src, s, tools);
      PlainMessages(text);
    case Note(text) => PlainMessages(text);
    case Reasoning(id, status, _) => TrimTwice(id); TrimTwice(status);
    case ShellCall(_, _, _, _, _) => CleanShellForm(src, s, item);
    case ShellOutput(_, _, _) => CleanShellOutputForm(src, s, item);
    case PatchOutput(callId, id, status, output) => OutputItemForm(src, s, callId, id, PatchMessage(status, output));
    case _ => SpecialForm(src, s, item);
  }

  ghost predicate AllForms(native: bool, out: seq<Item>)
  {
    forall i :: 0 <= i < |out| ==> Form(native, out[i])
  }

  lemma {:induction false} AllForm(src: Source, s: State, items: seq<Item>)
    requires Sound(src, s)
    ensures var (t, out) := CleanAll(src, s, items); Sound(src, t) && t.nativeShell == s.nativeShell && AllForms(s.nativeShell, out)
  {
    hide Sound, Form, CleanItem;
    if items != [] {
      AllForm(src, s, items[..|items| - 1]);
      ItemForm(src, CleanAll(src, s, items[..|items| - 1]).0, items[|items| - 1]);
    }
  }

  lemma NoopForm(native: bool)
    ensures Form(native, NOOP)
  {
    Word("user");
    TrimTight("");
  }

  // The second time

  /** The name a bare function call has in table `t`. */
  function Renamed(t: A.Table, name: string): string
  {
    if Lookup(t, name).Some? then Lookup(t, name).value else name
  }

  predicate IsShell(m: Item)
  {
    m.ShellCall? || m.ShellOutput?
  }

  /**
   What a second pass makes of an item in its form: another name for a function and,
   where shell calls are not native, a function for a shell call.
   */
  function Again(src: Source, t: A.Table, native: bool, m: Item): Item
  {
    match m
    case FunctionCall(name, space, callId, id, arguments, status) => FunctionCall(Renamed(t, name), space, callId, id, arguments, status)
    case ShellCall(callId, _, action, command, _) =>
      if native then m
      else
        var json := src.shellJson(CleanAction(action, command));
        FunctionCall("shell_command", "", callId, "", if json == "" then SHELL_FALLBACK else json, "")
    case ShellOutput(callId, _, output) => if native then m else FunctionOutput(callId, "", output)
    case _ => m
  }

  /** The forms of a pass without native shell calls are among those of one with them. */
  lemma FormsWiden(native: bool, m: Item)
    requires Form(native, m)
    ensures Form(true, m) && (!native ==> !IsShell(m))
  {
  }

  lemma ExplicitKept(callId: string, id: string)
    requires Solid(callId)
    ensures Explicit(callId, id) == callId && Trim(callId) == callId
  {
    TrimTight(callId);
  }

  lemma CleanedTwice(src: Source, s: State, m: Item)
    requires Form(true, m)
    ensures var (t, n) := CleanItem(src, s, m);
            && n == Some(Again(src, s.table, s.nativeShell, m))
            && t.table == s.table && t.nativeShell == s.nativeShell && t.ids.made == s.ids.made
  {
    hide Trim, CleanMessage, Lookup, Tight, CleanAction;
    match m
    case Message(_, _, _, _, _, _) =>
    case FunctionCall(_, _, _, _, _, _) =>
      ExplicitKept(m.callId, m.id);
      TrimTight(m.name);
      TrimTight(m.id);
      TrimTight(m.status);
      TrimTight("");
      BlankTight();
    case FunctionOutput(callId, id, _) => ExplicitKept(callId, id);
    case Reasoning(id, status, _) => TrimTight(id); TrimTight(status);
    case ShellCall(_, _, _, _, _) => ShellAgain(src, s, m);
    case ShellOutput(callId, id, _) => ExplicitKept(callId, id);
  }

  lemma ShellAgain(src: Source, s: State, m: Item)
    requires ShellForm(m)
    ensures var (t, n) := CleanShellCall(src, s, m);
            && n == Some(Again(src, s.table, s.nativeShell, m))
            && t.table == s.table && t.nativeShell == s.nativeShell && t.ids.made == s.ids.made
  {
    hide Trim, Tight;
    ExplicitKept(m.callId, m.id);
    TrimTight(m.action.typ);
    TrimTight(m.action.workdir);
    TrimTight(m.status);
  }

  lemma BlankTight()
    ensures Tight("")
  {
  }

  function AgainAll(src: Source, t: A.Table, native: bool, out: seq<Item>): (r: seq<Item>)
    ensures |r| == |out| && forall i :: 0 <= i < |out| ==> r[i] == Again(src, t, native, out[i])
  {
    seq(|out|, i requires 0 <= i < |out| => Again(src, t, native, out[i]))
  }

  /** A second pass makes up no id and drops nothing, whatever tools and shell it is told of. */
  lemma {:induction false} CleanedAgain(src: Source, s: State, out: seq<Item>)
    requires AllForms(true, out)
    ensures var (t, again) := CleanAll(src, s, out);
            again == AgainAll(src, s.table, s.nativeShell, out)
            && t.table == s.table && t.nativeShell == s.nativeShell && t.ids.made == s.ids.made
  {
    hide Form, CleanItem, Again;
    if out != [] {
      var front, m := out[..|out| - 1], out[|out| - 1];
      assert forall i :: 0 <= i < |front| ==> front[i] == out[i];
      CleanedAgain(src, s, front);
      CleanedTwice(src, CleanAll(src, s, front).0, m);
      assert AgainAll(src, s.table, s.nativeShell, out)
          == AgainAll(src, s.table, s.nativeShell, front) + [Again(src, s.table, s.nativeShell, m)];
    }
  }

  /** The tools declared by the second pass rename no function of the history. */
  predicate NamesKept(t: A.Table, out: seq<Item>)
  {
    forall i :: 0 <= i < |out| && out[i].FunctionCall? ==> Renamed(t, out[i].name) == out[i].name
  }

  /** No shell item meets a second pass that does not know of a native shell. */
  predicate ShellsKept(native: bool, out: seq<Item>)
  {
    native || forall i :: 0 <= i < |out| ==> !IsShell(out[i])
  }

  lemma SameAgain(src: Source, t: A.Table, native: bool, m: Item)
    ensures Again(src, t, native, m) == m <==>
            (m.FunctionCall? ==> Renamed(t, m.name) == m.name) && (native || !IsShell(m))
  {
  }

  /** Passing a history on unchanged is passing on each of its items unchanged. */
  lemma AgainSame(src: Source, t: A.Table, native: bool, out: seq<Item>)
    ensures AgainAll(src, t, native, out) == out <==> NamesKept(t, out) && ShellsKept(native, out)
  {
    hide Again, Renamed, IsShell;
    var again := AgainAll(src, t, native, out);
    forall i | 0 <= i < |out|
      ensures again[i] == out[i] <==>
              (out[i].FunctionCall? ==> Renamed(t, out[i].name) == out[i].name) && (native || !IsShell(out[i]))
    {
      SameAgain(src, t, native, out[i]);
    }
    if forall i :: 0 <= i < |out| ==> again[i] == out[i] {
      assert again == out;
    }
  }

  /**
   Sanitising a sanitised history, whatever tools and shell either pass is told of, makes
   up no id and keeps every item in its place. It gives the same history back exactly when
   the second pass renames no function and does not turn native shell items into functions,
   which it only can if the first pass knew of a native shell and it does not.
   */
  lemma SanitizedTwice(src: Source, s: State, s2: State, items: seq<Item>)
    requires Sound(src, s)
    ensures var out := Sanitize(src, s, items); var again := Sanitize(src, s2, out);
            && out != [] && |again| == |out| && CleanAll(src, s2, out).0.ids.made == s2.ids.made
            && (again == out <==> NamesKept(s2.table, out) && (s.nativeShell ==> ShellsKept(s2.nativeShell, out)))
  {
    hide Sound, Form, CleanAll, Lookup, IsShell, NamesKept, AgainAll;
    var out := Sanitize(src, s, items);
    AllForm(src, s, items);
    NoopForm(s.nativeShell);
    assert AllForms(s.nativeShell, out);
    forall i | 0 <= i < |out| ensures Form(true, out[i]) && (!s.nativeShell ==> !IsShell(out[i])) {
      FormsWiden(s.nativeShell, out[i]);
    }
    CleanedAgain(src, s2, out);
    AgainSame(src, s2.table, s2.nativeShell, out);
  }

  /** A second pass without declared tools changes shell items at most. */
  lemma SanitizedTwiceFresh(src: Source, s: State, items: seq<Item>, native: bool)
    requires Sound(src, s)
    ensures var out := Sanitize(src, s, items);
            Sanitize(src, State(Start, A.Empty, native), out) == out <==> (s.nativeShell ==> ShellsKept(native, out))
  {
    hide Sound, Sanitize, ShellsKept;
    SanitizedTwice(src, s, State(Start, A.Empty, native), items);
  }

  // Pairing in a history

  /** The call or output an item stands for. */
  function EventOf(item: Item): Option<Event>
  {
    match item
    case FunctionCall(name, _, callId, id, _, _) => if Trim(name) == "" then None else Some(Call(Explicit(callId, id)))
    case ToolSearchCall(callId, id, _) => Some(Call(Explicit(callId, id)))
    case ShellCall(callId, id, _, _, _) => Some(Call(Explicit(callId, id)))
    case CustomCall(_, callId, id, _) => Some(Call(Explicit(callId, id)))
    case BuiltinCall(_, callId, id, _, _) => Some(Call(Explicit(callId, id)))
    case PatchCall(callId, id, _, _) => Some(Call(Explicit(callId, id)))
    case FunctionOutput(callId, id, _) => Some(Output(Explicit(callId, id)))
    case ToolSearchOutput(callId, id, _) => Some(Output(Explicit(callId, id)))
    case ShellOutput(callId, id, _) => Some(Output(Explicit(callId, id)))
    case PatchOutput(callId, id, _, _) => Some(Output(Explicit(callId, id)))
    case _ => None
  }

  function EventsOf(items: seq<Item>): seq<Event>
  {
    if items == [] then []
    else
      var e := EventOf(items[|items| - 1]);
      EventsOf(items[..|items| - 1]) + if e.Some? then [e.value] else []
  }

  /** The id an emitted item carries. */
  function SentOf(m: Item): Option<Event>
  {
    match m
    case FunctionCall(_, _, callId, _, _, _) => Some(Call(callId))
    case ShellCall(callId, _, _, _, _) => Some(Call(callId))
    case FunctionOutput(callId, _, _) => Some(Output(callId))
    case ShellOutput(callId, _, _) => Some(Output(callId))
    case _ => None
  }

  function SentAll(out: seq<Item>): seq<Event>
  {
    if out == [] then []
    else
      var e := SentOf(out[|out| - 1]);
      SentAll(out[..|out| - 1]) + if e.Some? then [e.value] else []
  }

  /** `m` carries the id that event `e` gets while the ids are `ids`, which move on accordingly. */
  ghost predicate Carries(src: Source, ids: Ids, e: Event, t: State, m: Option<Item>)
  {
    m.Some? && t.ids == Fill(src.supply, ids, e).0 && SentOf(m.value) == Some(Fill(src.supply, ids, e).1)
  }

  lemma CallItemCarries(src: Source, s: State, name: string, explicit: string, arguments: string, status: string)
    ensures var (t, m) := CallItem(src, s, name, explicit, arguments, status); Carries(src, s.ids, Call(explicit), t, m)
  {
    hide Ensure;
  }

  lemma OutputItemCarries(src: Source, s: State, callId: string, id: string, output: string)
    ensures var (t, m) := OutputItem(src, s, Explicit(callId, id), output); Carries(src, s.ids, Output(Explicit(callId, id)), t, m)
  {
    hide Take;
    ExplicitTight(callId, id);
  }

  lemma ShellCarries(src: Source, s: State, item: Item)
    requires item.ShellCall? || item.ShellOutput?
    ensures var (t, m) := CleanItem(src, s, item); Carries(src, s.ids, EventOf(item).value, t, m)
  {
    hide Trim, Explicit, Ensure, Take, CleanAction;
    ExplicitTight(item.callId, item.id);
  }

  lemma FunctionCarries(src: Source, s: State, item: Item)
    requires item.FunctionCall? && Trim(item.name) != ""
    ensures var (t, m) := CleanItem(src, s, item); Carries(src, s.ids, EventOf(item).value, t, m)
  {
    hide Trim, Explicit, Ensure, Lookup, Registered;
  }

  /** One item moves the ids as its event does, and carries the id filled in. */
  lemma ItemFills(src: Source, s: State, item: Item)
    ensures var (t, m) := CleanItem(src, s, item); var e := EventOf(item);
            if e.None? then t.ids == s.ids && (m.Some? ==> SentOf(m.value).None?) else Carries(src, s.ids, e.value, t, m)
  {
    hide Trim, Explicit, CallItem, OutputItem, Registered, CleanMessage, PatchMessage, CleanShellCall, CleanShellOutput, Carries, LoadAll;
    match item
    case FunctionCall(name, _, _, _, _, _) => if Trim(name) != "" { FunctionCarries(src, s, item); }
    case FunctionOutput(callId, id, output) => OutputItemCarries(src, s, callId, id, output);
    case ToolSearchCall(callId, id, arguments) =>
      var (table, alias) := Registered(src.hash, s.table, A.Identity(A.SearchTool, "", "tool_search"));
      CallItemCarries(src, s.(table := table), alias, Explicit(callId, id), OrBraces(arguments), "");
    case ToolSearchOutput(callId, id, tools) =>
      OutputItemCarries(src, s.(table := LoadAll(src.hash, s.table, tools).0), callId, id, "Tool search completed; " + src.count(|tools|) + " selected tool definitions are now available.");
    case ShellCall(_, _, _, _, _) => ShellCarries(src, s, item);
    case ShellOutput(_, _, _) => ShellCarries(src, s, item);
    case CustomCall(name, callId, id, arguments) =>
      CallItemCarries(src, s, if Trim(name) == "" then "custom_tool" else Trim(name), Explicit(callId, id), OrBraces(arguments), "");
    case BuiltinCall(name, callId, id, arguments, status) =>
      CallItemCarries(src, s, if Trim(name) == "" then "mcp_call" else Trim(name), Explicit(callId, id), OrBraces(arguments), Trim(status));
    case PatchCall(callId, id, arguments, status) =>
      var (table, alias) := Registered(src.hash, s.table, A.Identity(A.PatchTool, "", "apply_patch"));
      CallItemCarries(src, s.(table := table), alias, Explicit(callId, id), if arguments == "" then PATCH_FALLBACK else arguments, Trim(status));
    case PatchOutput(callId, id, status, output) => OutputItemCarries(src, s, callId, id, PatchMessage(status, output));
    case _ =>
  }

  /** The ids of a sanitised history are those of its events, filled in. */
  lemma {:induction false} HistoryFills(src: Source, s: State, items: seq<Item>)
    ensures var (t, out) := CleanAll(src, s, items);
            t.ids == After(src.supply, s.ids, EventsOf(items)) && SentAll(out) == Filled(src.supply, s.ids, EventsOf(items))
  {
    hide CleanItem, Fill, EventOf, SentOf;
    if items != [] {
      var front, item := items[..|items| - 1], items[|items| - 1];
      HistoryFills(src, s, front);
      var (before, out) := CleanAll(src, s, front);
      ItemFills(src, before, item);
      var (_, m) := CleanItem(src, before, item);
      if m.Some? { assert (out + [m.value])[..|out|] == out; }
      var e := EventOf(item);
      if e.Some? {
        assert (EventsOf(front) + [e.value])[..|EventsOf(front)|] == EventsOf(front);
      } else {
        assert EventsOf(front) + [] == EventsOf(front);
        assert SentAll(out) + [] == SentAll(out);
      }
    }
  }

  /** At any point of a history the open ids are the calls sent and not answered. */
  lemma HistoryPairs(src: Source, table: A.Table, native: bool, items: seq<Item>)
    requires Usable(src.supply)
    ensures var (t, out) := CleanAll(src, State(Start, table, native), items); t.ids.unanswered == Unanswered(SentAll(out))
  {
    HistoryFills(src, State(Start, table, native), items);
    OpenIsUnanswered(src.supply, EventsOf(items));
  }
}
