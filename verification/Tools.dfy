/**
 Adapting a client's tool list to what the backend accepts: expand namespaces, turn foreign
 types into functions, reject what cannot be honoured, keep one tool per name and at most
 `max` of them, and let the bare search tools win over functions called like them.
 */
module Tools {
  import opened Basics
  import A = ToolAliases
  import opened ToolNames

  /** A parameter schema; only whether it declares an `operation` property matters. */
  datatype Schema = Schema(hasOperation: bool, text: string)

  /**
   One declared tool. Absent texts are empty; `rejected` stands for a constraint of the
   tool's type that the backend cannot honour; `extras` holds the remaining plain fields.
   */
  datatype Tool = Tool(
    typ: string, name: string, description: string, parameters: Option<Schema>, strict: Option<string>,
    environment: Option<string>, deferred: bool, access: Option<bool>, rejected: bool,
    extras: map<string, string>, execution: string, children: seq<Tool>)

  function Bare(typ: string): Tool
  {
    Tool(typ, "", "", None, None, None, false, None, false, map[], "", [])
  }

  function Function(name: string, description: string, parameters: Schema, strict: Option<string>): Tool
  {
    Bare("function").(name := name, description := description, parameters := Some(parameters), strict := strict)
  }

  function TypeOf(t: Tool): string
  {
    Lower(Trim(t.typ))
  }

  predicate IsSearch(s: string)
  {
    s == "web_search" || s == "x_search"
  }

  predicate IsWebSearch(s: string)
  {
    s in {"web_search", "web_search_preview", "web_search_preview_2025_03_11", "web_search_2025_08_26", "websearch"}
  }

  predicate IsBuiltin(s: string)
  {
    s in {"x_search", "collections_search", "file_search", "code_execution", "code_interpreter"}
  }

  const MCP_KEYS := {"server_label", "server_url", "server_description", "headers", "require_approval", "allowed_tools", "authorization"}
  const PASSED_KEYS := {"server_label", "server_url", "server_description", "vector_store_ids", "max_num_results", "container"}
  const SEARCH_LIMIT: nat := 16384
  const SURFACE_LIMIT: nat := 240
  const EMPTY_SCHEMA := Schema(false, "object")
  const PATCH_SCHEMA := Schema(true, "patch operation")
  const SHELL_SCHEMA := Schema(false, "shell command")
  const FREEFORM_SCHEMA := Schema(false, "freeform input")
  const OPEN_SCHEMA := Schema(false, "open object")
  const CUSTOM_HINT := "\nProvide the custom tool input in the input string field."
  const SURFACES_HINT := "\nDeferred tool surfaces available to search:\n- "
  // Stand-ins for the built-in descriptions, which like these begin and end in a visible character.
  const SEARCH_TEXT := "Find tools."
  const PATCH_TEXT := "Patch one file."

  /** What the loop carries: alias table, shell flags, the client's search tool, surfaces and tools so far. */
  datatype State = State(
    table: A.Table, legacyShell: bool, nativeShell: bool, search: Option<Tool>, surfaces: seq<string>,
    out: seq<Tool>, backend: Option<bool>, disabled: bool)

  datatype Normalized = Failed | Tools(tools: seq<Tool>, backend: Option<bool>, disabled: bool)

  // Emitting

  function NameKey(t: Tool): string
  {
    TypeOf(t) + "\0" + Trim(t.name)
  }

  predicate Seen(out: seq<Tool>, key: string)
  {
    exists i :: 0 <= i < |out| && NameKey(out[i]) == key
  }

  /** Appends unless the list is full or holds a tool of that type and name. */
  function Append(out: seq<Tool>, max: nat, t: Tool): (r: seq<Tool>)
    ensures out <= r
  {
    if (max > 0 && |out| >= max) || Seen(out, NameKey(t)) then out else out + [t]
  }

  function Emit(st: State, max: nat, t: Tool): State
  {
    st.(out := Append(st.out, max, t))
  }

  function Or(s: string, otherwise: string): string
  {
    if Trim(s) != "" then Trim(s) else otherwise
  }

  predicate Contains(s: string, part: string)
  {
    part <= s || (s != "" && Contains(s[1..], part))
  }

  // Single conversions

  function AsFunction(t: Tool): Tool
  {
    Function(Trim(t.name), Trim(t.description), if t.parameters.Some? then t.parameters.value else EMPTY_SCHEMA, t.strict)
  }

  function PatchFunction(alias: string): Tool
  {
    Function(alias, PATCH_TEXT, PATCH_SCHEMA, Some("true"))
  }

  function CustomText(t: Tool, name: string): string
  {
    var d := Or(t.description, "Custom tool " + name);
    if Contains(d, "input string") then d else d + CUSTOM_HINT
  }

  function CleanMcp(t: Tool): Tool
  {
    Bare(t.typ).(name := t.name, description := t.description, extras := map k | k in t.extras && k in MCP_KEYS :: t.extras[k])
  }

  function PassedKeys(typ: string): set<string>
  {
    PASSED_KEYS + if typ == "file_search" then {"filters"} else {}
  }

  function CleanBuiltin(t: Tool): Tool
  {
    Bare(TypeOf(t)).(name := Trim(t.name), description := Trim(t.description), parameters := t.parameters,
                     extras := map k | k in t.extras && k in PassedKeys(TypeOf(t)) :: t.extras[k])
  }

  function Surface(name: string, description: string): string
  {
    if Trim(name) == "" then ""
    else if Trim(description) == "" then Trim(name)
    else Trim(name) + ": " + if |Trim(description)| > SURFACE_LIMIT then Trim(description)[..SURFACE_LIMIT] else Trim(description)
  }

  function AddSurface(st: State, name: string, description: string): State
  {
    var s := Surface(name, description);
    if s == "" || s in st.surfaces then st else st.(surfaces := st.surfaces + [s])
  }

  /** The function that stands for the client's tool search. */
  function SearchText(tool: Tool, surfaces: seq<string>): string
  {
    var d := Or(tool.description, SEARCH_TEXT) + if surfaces != [] then SURFACES_HINT + Join(surfaces, "\n- ") else "";
    if |d| > SEARCH_LIMIT then d[..SEARCH_LIMIT] else d
  }

  predicate IsFunctionChild(t: Tool)
  {
    (TypeOf(t) == "function" || TypeOf(t) == "") && Trim(t.name) != ""
  }

  /** The functions of a namespace; without a client search a deferred one is an error. */
  function Children(hash: string -> string, max: nat, st: State, space: string, children: seq<Tool>): Option<State>
  {
    if children == [] then Some(st)
    else
      var before := Children(hash, max, st, space, children[..|children| - 1]);
      var c := children[|children| - 1];
      if before.None? || !IsFunctionChild(c) then before
      else if c.deferred then (if before.value.search.Some? then before else None)
      else
        var (table, alias) := Registered(hash, before.value.table, A.Identity(A.FunctionTool, space, Trim(c.name)));
        Some(Emit(before.value.(table := table), max, AsFunction(c).(name := alias)))
  }

  predicate HasDeferred(children: seq<Tool>)
  {
    exists i :: 0 <= i < |children| && TypeOf(children[i]) == "function" && children[i].deferred
  }

  function Namespace(hash: string -> string, max: nat, st: State, t: Tool): Option<State>
  {
    var space := Trim(t.name);
    if space == "" then None
    else
      Children(hash, max, if st.search.Some? && HasDeferred(t.children) then AddSurface(st, space, Trim(t.description)) else st,
               space, t.children)
  }

  function WebSearch(max: nat, st: State, t: Tool): Option<State>
  {
    if t.access == Some(false) then Some(st.(backend := Some(false), disabled := true))
    else if t.rejected then None
    else Some(Emit(st.(backend := if t.access.Some? then t.access else st.backend), max, Bare("web_search")))
  }

  function LocalShell(max: nat, st: State, t: Tool): Option<State>
  {
    if st.nativeShell || st.legacyShell || t != Bare(t.typ).(description := t.description) then None
    else Some(Emit(st.(legacyShell := true), max, Bare("shell").(environment := Some("local"))))
  }

  function Shell(max: nat, st: State, t: Tool): Option<State>
  {
    if st.legacyShell then None
    else if t.environment.None? then
      Some(Emit(st, max, Function("shell_command", Or(t.description, "Run a shell command."), SHELL_SCHEMA, None)))
    else Some(Emit(st.(nativeShell := true), max, Bare("shell").(environment := t.environment, name := Trim(t.name))))
  }

  function Patch(hash: string -> string, max: nat, st: State, t: Tool): Option<State>
  {
    if t != Bare(t.typ) then None
    else
      var (table, alias) := Registered(hash, st.table, A.Identity(A.PatchTool, "", "apply_patch"));
      Some(Emit(st.(table := table), max, PatchFunction(alias)))
  }

  function Custom(hash: string -> string, max: nat, st: State, t: Tool): Option<State>
  {
    if t.rejected then None
    else
      var name := Or(t.name, "custom_tool");
      var (table, alias) := Registered(hash, st.table, A.Identity(A.CustomTool, "", name));
      var parameters := if t.parameters.Some? then t.parameters.value else FREEFORM_SCHEMA;
      Some(Emit(st.(table := table), max, Function(alias, CustomText(t, name), parameters, None)))
  }

  function Mcp(max: nat, st: State, t: Tool): Option<State>
  {
    if t.deferred && st.search.None? then None
    else if t.deferred then
      var server := Or(if "server_label" in t.extras then t.extras["server_label"] else "", Trim(t.name));
      if server == "" then None else Some(AddSurface(st, server, Trim(t.description)))
    else Some(Emit(st, max, CleanMcp(t)))
  }

  function Plain(hash: string -> string, max: nat, st: State, t: Tool): Option<State>
  {
    if Trim(t.name) == "" then Some(st)
    else if t.deferred then
      (if st.search.None? then None else Some(AddSurface(st, Trim(t.name), Trim(t.description))))
    else if IsPatchName(Trim(t.name)) then
      var (table, alias) := Registered(hash, st.table, A.Identity(A.PatchTool, "", "apply_patch"));
      var f := AsFunction(t).(name := alias);
      Some(Emit(st.(table := table), max, if f.parameters.value.hasOperation then f else PatchFunction(alias)))
    else Some(Emit(st, max, AsFunction(t)))
  }

  /** One tool of the list; none for a request that must be refused. */
  function One(hash: string -> string, max: nat, st: State, t: Tool): Option<State>
  {
    var typ := TypeOf(t);
    if typ == "namespace" then Namespace(hash, max, st, t)
    else if typ == "tool_search" then Some(st)
    else if IsWebSearch(typ) then WebSearch(max, st, t)
    else if typ == "local_shell" then LocalShell(max, st, t)
    else if typ == "shell" then Shell(max, st, t)
    else if typ == "apply_patch" then Patch(hash, max, st, t)
    else if typ == "custom" then Custom(hash, max, st, t)
    else if typ == "mcp" then Mcp(max, st, t)
    else if typ == "function" || typ == "" then Plain(hash, max, st, t)
    else if IsBuiltin(typ) && !t.deferred then Some(Emit(st, max, CleanBuiltin(t)))
    else None
  }

  // The whole list

  datatype Declared = Refused | Search(tool: Option<Tool>)

  /** The client's tool search, if there is exactly one and it runs on the client. */
  function FindSearch(tools: seq<Tool>): Declared
  {
    if tools == [] then Search(None)
    else
      var before := FindSearch(tools[..|tools| - 1]);
      var t := tools[|tools| - 1];
      if before.Refused? || TypeOf(t) != "tool_search" then before
      else if Lower(Trim(t.execution)) != "client" || before.tool.Some? then Refused
      else Search(Some(t))
  }

  function Start(search: Option<Tool>): State
  {
    State(A.Empty, false, false, search, [], [], None, false)
  }

  function Walk(hash: string -> string, max: nat, st: State, tools: seq<Tool>): Option<State>
  {
    if tools == [] then Some(st)
    else
      var before := Walk(hash, max, st, tools[..|tools| - 1]);
      if before.None? then None else One(hash, max, before.value, tools[|tools| - 1])
  }

  /** Emits the search function, after all deferred surfaces are known. */
  function AddSearch(hash: string -> string, max: nat, st: State): Option<State>
  {
    if st.search.None? then Some(st)
    else if st.search.value.rejected then None
    else
      var tool := st.search.value;
      var (table, alias) := Registered(hash, st.table, A.Identity(A.SearchTool, "", "tool_search"));
      var parameters := if tool.parameters.Some? then tool.parameters.value else OPEN_SCHEMA;
      Some(Emit(st.(table := table), max, Function(alias, SearchText(tool, st.surfaces), parameters, None)))
  }

  predicate IsSearchTool(t: Tool)
  {
    IsSearch(TypeOf(t)) || ((TypeOf(t) == "function" || TypeOf(t) == "") && IsSearch(Lower(Trim(t.name))))
  }

  function StripSearch(tools: seq<Tool>): (r: seq<Tool>)
    ensures forall t :: t in r <==> t in tools && !IsSearchTool(t)
  {
    if tools == [] then []
    else StripSearch(tools[..|tools| - 1]) + if IsSearchTool(tools[|tools| - 1]) then [] else [tools[|tools| - 1]]
  }

  // Collapsing

  /** The search tool of this name itself, or a function called like it. */
  predicate Wants(t: Tool, name: string)
  {
    TypeOf(t) == name || ((TypeOf(t) == "function" || TypeOf(t) == "") && Lower(Trim(t.name)) == name)
  }

  predicate Needs(tools: seq<Tool>, name: string)
  {
    exists i :: 0 <= i < |tools| && Wants(tools[i], name)
  }

  predicate SameFunction(t: Tool, u: Tool)
  {
    && (TypeOf(t) == "function" || TypeOf(t) == "") && (TypeOf(u) == "function" || TypeOf(u) == "")
    && Lower(Trim(t.name)) != "" && Lower(Trim(t.name)) == Lower(Trim(u.name))
  }

  /** What is left beside the bare search tools: no search tool, no function twice. */
  function Others(tools: seq<Tool>): (r: seq<Tool>)
    ensures |r| <= |tools|
  {
    if tools == [] then []
    else
      var before := Others(tools[..|tools| - 1]);
      var t := tools[|tools| - 1];
      if IsSearchTool(t) || (exists i :: 0 <= i < |before| && SameFunction(before[i], t)) then before else before + [t]
  }

  function Collapse(tools: seq<Tool>): seq<Tool>
  {
    if !Needs(tools, "web_search") && !Needs(tools, "x_search") then tools
    else
      (if Needs(tools, "web_search") then [Bare("web_search")] else [])
      + (if Needs(tools, "x_search") then [Bare("x_search")] else [])
      + Others(tools)
  }

  function Normalize(hash: string -> string, max: nat, tools: seq<Tool>): Normalized
  {
    var declared := FindSearch(tools);
    if declared.Refused? then Failed
    else
      var walked := Walk(hash, max, Start(declared.tool), tools);
      if walked.None? then Failed
      else
        var st := AddSearch(hash, max, walked.value);
        if st.None? then Failed
        else
          var kept := if st.value.disabled then StripSearch(st.value.out) else st.value.out;
          var collapsed := Collapse(kept);
          Tools(if max > 0 && |collapsed| > max then collapsed[..max] else collapsed,
                if st.value.disabled then Some(false) else st.value.backend, st.value.disabled)
  }
}
