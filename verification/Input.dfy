/**
 Making a request's history acceptable: every item of any client dialect becomes one of a
 few kinds, ids are filled in, and doing it again changes nothing.
 */
module Input {
  import opened Basics
  import opened CallIds
  import A = ToolAliases
  import opened ToolNames

  /** Message content: absent, text, or a list of parts whose text may be missing; other parts are junk. */
  datatype Part = JunkPart | Part(typ: string, text: Option<string>, other: string)

  datatype Content = NoContent | TextContent(text: string) | PartsContent(parts: seq<Part>)

  datatype ShellAction = ShellAction(typ: string, command: string, workdir: string, env: string)

  /**
   One history item. Calls and outputs carry `callId` and `id` as stated; where a dialect
   has several spellings of a field, the field holds the one that is read.
   */
  datatype Item =
    | Junk
    | Message(typ: string, role: string, id: string, status: string, name: string, content: Content)
    | FunctionCall(name: string, space: string, callId: string, id: string, arguments: string, status: string)
    | FunctionOutput(callId: string, id: string, output: string)
    | ToolSearchCall(callId: string, id: string, arguments: string)
    | ToolSearchOutput(callId: string, id: string, tools: seq<Loaded>)
    | Developer(text: string, tools: seq<Loaded>)
    | Note(text: string)
    | Reasoning(id: string, status: string, summary: Option<string>)
    | ShellCall(callId: string, id: string, action: ShellAction, command: string, status: string)
    | ShellOutput(callId: string, id: string, output: string)
    | CustomCall(name: string, callId: string, id: string, arguments: string)
    | BuiltinCall(name: string, callId: string, id: string, arguments: string, status: string)
    | PatchCall(callId: string, id: string, arguments: string, status: string)
    | PatchOutput(callId: string, id: string, status: string, output: string)

  /**
   A tool the history makes available: one that is refused, one that needs no alias, the
   functions of a namespace (a blank name for a child that is no function), a custom tool
   or apply_patch.
   */
  datatype Loaded = Refused | Passed | Spaced(space: string, names: seq<string>) | LoadedCustom(name: string) | LoadedPatch

  /** Open call ids, the alias table, and whether shell calls stay shell calls. */
  datatype State = State(ids: Ids, table: A.Table, nativeShell: bool)

  /** What the pass draws on: made-up ids, key hashes, how a shell command is encoded (empty if it
   cannot be) and how a count is written. */
  datatype Source = Source(supply: nat -> string, hash: string -> string, shellJson: ShellAction -> string, count: nat -> string)

  const NOOP := Message("", "user", "", "", "", TextContent(""))

  const SHELL_FALLBACK := "{\"command\":\"\"}"
  const PATCH_FALLBACK := "{\"operation\":{\"type\":\"update_file\",\"path\":\"unknown\",\"diff\":\"\"}}"

  function Explicit(callId: string, id: string): string
  {
    FirstNonEmpty(callId, id)
  }

  // Messages

  function CleanParts(parts: seq<Part>): (r: seq<Part>)
  {
    if parts == [] then []
    else
      var p := parts[|parts| - 1];
      CleanParts(parts[..|parts| - 1]) +
        (if p.JunkPart? then [] else if p.text.None? then [p.(text := Some(""))] else [p])
  }

  function CleanContent(c: Content): Content
  {
    match c
    case NoContent => TextContent("")
    case TextContent(_) => c
    case PartsContent(parts) => PartsContent(CleanParts(parts))
  }

  function Role(role: string): string
  {
    var r := Lower(Trim(role));
    if r == "" then "user" else if r == "developer" then "system" else r
  }

  function CleanMessage(m: Item): (r: Item)
    requires m.Message?
    ensures r.Message?
  {
    Message(Trim(m.typ), Role(m.role), Trim(m.id), Trim(m.status), Trim(m.name), CleanContent(m.content))
  }

  function DeveloperMessage(text: string): Item
  {
    Message("message", "system", "", "", "", PartsContent([Part("input_text", Some(text), "")]))
  }

  // Names

  /** The alias of a bare name, as function, custom tool or tool search, in this order. */
  function Lookup(t: A.Table, name: string): Option<string>
  {
    var f := A.Key(A.Identity(A.FunctionTool, "", name));
    var c := A.Key(A.Identity(A.CustomTool, "", name));
    var s := A.Key(A.Identity(A.SearchTool, "", name));
    if f in t.names then Some(t.names[f])
    else if c in t.names then Some(t.names[c])
    else if s in t.names then Some(t.names[s])
    else None
  }

  // Tools loaded by the history

  /** The functions of a namespace up to the first bad one, and whether there was none. */
  function LoadSpaced(hash: string -> string, t: A.Table, space: string, names: seq<string>): (A.Table, bool)
  {
    if names == [] then (t, true)
    else
      var (before, whole) := LoadSpaced(hash, t, space, names[..|names| - 1]);
      var name := Trim(names[|names| - 1]);
      if !whole || name == "" then (before, false)
      else (Registered(hash, before, A.Identity(A.FunctionTool, space, name)).0, true)
  }

  function LoadOne(hash: string -> string, t: A.Table, l: Loaded): (A.Table, bool)
  {
    match l
    case Refused => (t, false)
    case Passed => (t, true)
    case Spaced(space, names) => if Trim(space) == "" then (t, false) else LoadSpaced(hash, t, Trim(space), names)
    case LoadedCustom(name) =>
      (Registered(hash, t, A.Identity(A.CustomTool, "", if Trim(name) == "" then "custom_tool" else Trim(name))).0, true)
    case LoadedPatch => (Registered(hash, t, A.Identity(A.PatchTool, "", "apply_patch")).0, true)
  }

  /** Loading stops at the first refused tool; what was registered before stays. */
  function LoadAll(hash: string -> string, t: A.Table, tools: seq<Loaded>): (A.Table, bool)
  {
    if tools == [] then (t, true)
    else
      var (before, whole) := LoadAll(hash, t, tools[..|tools| - 1]);
      if whole then LoadOne(hash, before, tools[|tools| - 1]) else (before, false)
  }

  // One item

  function CallItem(src: Source, s: State, name: string, explicit: string, arguments: string, status: string): (State, Option<Item>)
  {
    var (ids, callId) := Ensure(src.supply, s.ids, explicit);
    (s.(ids := ids), Some(FunctionCall(name, "", callId, "", arguments, status)))
  }

  function OutputItem(src: Source, s: State, explicit: string, output: string): (State, Option<Item>)
  {
    var (ids, callId) := Take(src.supply, s.ids, explicit);
    (s.(ids := ids), Some(FunctionOutput(callId, "", output)))
  }

  function OrBraces(arguments: string): string
  {
    if arguments == "" then "{}" else arguments
  }

  /** A function call: named after its alias, its own id kept beside the call id when it differs. */
  function CleanCall(src: Source, s: State, item: Item): (State, Option<Item>)
    requires item.FunctionCall?
  {
    var name := Trim(item.name);
    if name == "" then (s, None)
    else
      var space := Trim(item.space);
      var (table, named) :=
        if space != "" then Registered(src.hash, s.table, A.Identity(A.FunctionTool, space, name))
        else (s.table, if Lookup(s.table, name).Some? then Lookup(s.table, name).value else name);
      var (ids, callId) := Ensure(src.supply, s.ids, Explicit(item.callId, item.id));
      (s.(table := table, ids := ids),
       Some(FunctionCall(named, "", callId, if Trim(item.id) != callId then Trim(item.id) else "", OrBraces(item.arguments), Trim(item.status))))
  }

  function CleanAction(action: ShellAction, command: string): ShellAction
  {
    ShellAction(if Trim(action.typ) == "" then "exec" else Trim(action.typ),
                if action.command == "" then command else action.command, Trim(action.workdir), action.env)
  }

  function CleanShellCall(src: Source, s: State, item: Item): (State, Option<Item>)
    requires item.ShellCall?
  {
    if s.nativeShell then
      var (ids, callId) := Ensure(src.supply, s.ids, Explicit(item.callId, item.id));
      (s.(ids := ids), Some(ShellCall(callId, "", CleanAction(item.action, item.command), "", Trim(item.status))))
    else
      var json := src.shellJson(CleanAction(item.action, item.command));
      CallItem(src, s, "shell_command", Explicit(item.callId, item.id), if json == "" then SHELL_FALLBACK else json, "")
  }

  function CleanShellOutput(src: Source, s: State, item: Item): (State, Option<Item>)
    requires item.ShellOutput?
  {
    if s.nativeShell then
      var (ids, callId) := Take(src.supply, s.ids, Explicit(item.callId, item.id));
      (s.(ids := ids), Some(ShellOutput(callId, "", item.output)))
    else OutputItem(src, s, Explicit(item.callId, item.id), item.output)
  }

  function PatchMessage(status: string, output: string): string
  {
    "Apply patch status: " + (if Trim(status) == "" then "completed" else Trim(status)) + if output == "" then "" else "\n" + output
  }

  function CleanItem(src: Source, s: State, item: Item): (State, Option<Item>)
  {
    match item
    case Junk => (s, None)
    case Message(_, _, _, _, _, _) => (s, Some(CleanMessage(item)))
    case FunctionCall(_, _, _, _, _, _) => CleanCall(src, s, item)
    case FunctionOutput(callId, id, output) => OutputItem(src, s, Explicit(callId, id), output)
    case ToolSearchCall(callId, id, arguments) =>
      var (table, alias) := Registered(src.hash, s.table, A.Identity(A.SearchTool, "", "tool_search"));
      CallItem(src, s.(table := table), alias, Explicit(callId, id), OrBraces(arguments), "")
    case ToolSearchOutput(callId, id, tools) =>
      OutputItem(src, s.(table := LoadAll(src.hash, s.table, tools).0), Explicit(callId, id),
                 "Tool search completed; " + src.count(|tools|) + " selected tool definitions are now available.")
    case Developer(text, tools) => (s.(table := LoadAll(src.hash, s.table, tools).0), Some(DeveloperMessage(text)))
    case Note(text) => (s, Some(Message("", "assistant", "", "", "", TextContent(text))))
    case Reasoning(id, status, summary) => (s, Some(Reasoning(Trim(id), Trim(status), if summary.Some? then summary else Some("[]"))))
    case ShellCall(_, _, _, _, _) => CleanShellCall(src, s, item)
    case ShellOutput(_, _, _) => CleanShellOutput(src, s, item)
    case CustomCall(name, callId, id, arguments) =>
      CallItem(src, s, if Trim(name) == "" then "custom_tool" else Trim(name), Explicit(callId, id), OrBraces(arguments), "")
    case BuiltinCall(name, callId, id, arguments, status) => 
      CallItem(src, s, if Trim(name) == "" then "mcp_call" else Trim(name), Explicit(callId, id), OrBraces(arguments), Trim(status))
    case PatchCall(callId, id, arguments, status) =>
      var (table, alias) := Registered(src.hash, s.table, A.Identity(A.PatchTool, "", "apply_patch"));
      CallItem(src, s.(table := table), alias, Explicit(callId, id), if arguments == "" then PATCH_FALLBACK else arguments, Trim(status))
    case PatchOutput(callId, id, status, output) => OutputItem(src, s, Explicit(callId, id), PatchMessage(status, output))
  }

  // The whole history

  function CleanAll(src: Source, s: State, items: seq<Item>): (State, seq<Item>)
  {
    if items == [] then (s, [])
    else
      var (before, out) := CleanAll(src, s, items[..|items| - 1]);
      var (next, item) := CleanItem(src, before, items[|items| - 1]);
      (next, if item.Some? then out + [item.value] else out)
  }

  /** Never an empty list: a silent user turn stands in. */
  function Sanitize(src: Source, s: State, items: seq<Item>): seq<Item>
  {
    var out := CleanAll(src, s, items).1;
    if out == [] then [NOOP] else out
  }

  /** The history as it runs: one loop over the items. */
  method SanitizeInput(src: Source, s: State, items: seq<Item>) returns (out: seq<Item>, after: State)
    ensures out == Sanitize(src, s, items) && after == CleanAll(src, s, items).0
  {
    hide CleanItem;
    out, after := [], s;
    var i := 0;
    while i < |items|
      invariant i <= |items| && CleanAll(src, s, items[..i]) == (after, out)
    {
      assert items[..i + 1][..i] == items[..i];
      var (next, item) := CleanItem(src, after, items[i]);
      after := next;
      if item.Some? { out := out + [item.value]; }
      i := i + 1;
    }
    assert items[..|items|] == items;
    if |out| == 0 { out := [NOOP]; }
  }
}
