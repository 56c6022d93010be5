/**
 What the adapted list holds, read off the client's own list: which lists are refused, what
 each declared tool contributes under which name with which text and schema, which of the
 contributions are kept, and when search is switched off.
 */
module ToolsContent {
  import opened Basics
  import opened ToolNames
  import opened Tools
  import A = ToolAliases

  predicate Is(t: Tool, typ: string)
  {
    Lower(Trim(t.typ)) == typ
  }

  predicate IsWeb(t: Tool)
  {
    || Is(t, "web_search") || Is(t, "web_search_preview") || Is(t, "web_search_preview_2025_03_11")
    || Is(t, "web_search_2025_08_26") || Is(t, "websearch")
  }

  predicate IsFunction(t: Tool)
  {
    Is(t, "function") || Is(t, "")
  }

  /** The types the backend knows itself. */
  predicate IsBackend(t: Tool)
  {
    Is(t, "x_search") || Is(t, "collections_search") || Is(t, "file_search") || Is(t, "code_execution") || Is(t, "code_interpreter")
  }

  /** A tool of the given type with nothing else to it. */
  function Only(typ: string, description: string): Tool
  {
    Tool(typ, "", description, None, None, None, false, None, false, map[], "", [])
  }

  // Which lists are refused

  predicate LocalShells(tools: seq<Tool>, n: nat)
  {
    exists j :: 0 <= j < n && j < |tools| && Is(tools[j], "local_shell")
  }

  predicate NativeShells(tools: seq<Tool>, n: nat)
  {
    exists j :: 0 <= j < n && j < |tools| && Is(tools[j], "shell") && tools[j].environment.Some?
  }

  /** A deferred server needs a label or a name to be announced under. */
  predicate Labelled(t: Tool)
  {
    ("server_label" in t.extras && Trim(t.extras["server_label"]) != "") || Trim(t.name) != ""
  }

  /** A tool that can be honoured, given whether a shell came before it and whether the client runs a tool search. */
  predicate Honoured(t: Tool, localBefore: bool, nativeBefore: bool, searched: bool)
  {
    if Is(t, "namespace") then
      && Trim(t.name) != ""
      && (searched || forall j :: 0 <= j < |t.children| ==> !(IsFunction(t.children[j]) && Trim(t.children[j].name) != "" && t.children[j].deferred))
    else if Is(t, "tool_search") then true
    else if IsWeb(t) then t.access == Some(false) || !t.rejected
    else if Is(t, "local_shell") then !localBefore && !nativeBefore && t == Only(t.typ, t.description)
    else if Is(t, "shell") then !localBefore
    else if Is(t, "apply_patch") then t == Only(t.typ, "")
    else if Is(t, "custom") then !t.rejected
    else if Is(t, "mcp") then t.deferred ==> searched && Labelled(t)
    else if IsFunction(t) then t.deferred && Trim(t.name) != "" ==> searched
    else IsBackend(t) && !t.deferred
  }

  predicate Acceptable(tools: seq<Tool>, i: nat, searched: bool)
    requires i < |tools|
  {
    Honoured(tools[i], LocalShells(tools, i), NativeShells(tools, i), searched)
  }

  ghost predicate AllAcceptable(tools: seq<Tool>, n: nat, searched: bool)
    requires n <= |tools|
  {
    forall i :: 0 <= i < n ==> Acceptable(tools, i, searched)
  }

  lemma {:induction false} ChildrenAccepted(hash: string -> string, max: nat, st: State, space: string, children: seq<Tool>)
    ensures Children(hash, max, st, space, children).Some? <==>
            st.search.Some? || forall j :: 0 <= j < |children| ==> !(IsFunction(children[j]) && Trim(children[j].name) != "" && children[j].deferred)
    ensures Children(hash, max, st, space, children).Some? ==> Flags(st, Children(hash, max, st, space, children).value)
  {
    hide Trim, Lower, Registered, AsFunction;
    if children != [] {
      var front := children[..|children| - 1];
      ChildrenAccepted(hash, max, st, space, front);
      assert forall j :: 0 <= j < |front| ==> front[j] == children[j];
    }
  }

  /** Nothing changed but what is emitted, named and announced. */
  predicate Flags(st: State, after: State)
  {
    && after.legacyShell == st.legacyShell && after.nativeShell == st.nativeShell && after.search == st.search
    && after.backend == st.backend && after.disabled == st.disabled
  }

  /** The walk knows exactly which shells came before. */
  predicate Knows(st: State, tools: seq<Tool>, n: nat, search: Option<Tool>)
  {
    (st.legacyShell <==> LocalShells(tools, n)) && (st.nativeShell <==> NativeShells(tools, n)) && st.search == search
  }

  lemma NamespaceAccepted(hash: string -> string, max: nat, st: State, t: Tool)
    ensures var r := Namespace(hash, max, st, t);
            && (r.Some? <==> Trim(t.name) != "" && (st.search.Some? || forall j :: 0 <= j < |t.children| ==>
                  !(IsFunction(t.children[j]) && Trim(t.children[j].name) != "" && t.children[j].deferred)))
            && (r.Some? ==> Flags(st, r.value))
  {
    hide Trim, Lower, Children, Surface;
    var space := Trim(t.name);
    ChildrenAccepted(hash, max, if st.search.Some? && HasDeferred(t.children) then AddSurface(st, space, Trim(t.description)) else st, space, t.children);
  }

  lemma McpAccepted(max: nat, st: State, t: Tool)
    ensures var r := Mcp(max, st, t);
            (r.Some? <==> (t.deferred ==> st.search.Some? && Labelled(t))) && (r.Some? ==> Flags(st, r.value))
  {
    assert Trim("") == "";
    hide Trim, Surface, CleanMcp, Append;
  }

  lemma ShellAccepted(max: nat, st: State, t: Tool)
    ensures var r := LocalShell(max, st, t);
            && (r.Some? <==> !st.legacyShell && !st.nativeShell && t == Only(t.typ, t.description))
            && (r.Some? ==> r.value.legacyShell && r.value.nativeShell == st.nativeShell && r.value.search == st.search)
    ensures var r := Shell(max, st, t);
            && (r.Some? <==> !st.legacyShell)
            && (r.Some? ==> r.value.legacyShell == st.legacyShell && r.value.search == st.search
                            && (r.value.nativeShell <==> st.nativeShell || t.environment.Some?))
  {
    hide Trim, Append;
  }

  lemma NamedAccepted(hash: string -> string, max: nat, st: State, t: Tool)
    ensures var r := Patch(hash, max, st, t); (r.Some? <==> t == Only(t.typ, "")) && (r.Some? ==> Flags(st, r.value))
    ensures var r := Custom(hash, max, st, t); (r.Some? <==> !t.rejected) && (r.Some? ==> Flags(st, r.value))
    ensures var r := Plain(hash, max, st, t);
            (r.Some? <==> (t.deferred && Trim(t.name) != "" ==> st.search.Some?)) && (r.Some? ==> Flags(st, r.value))
  {
    hide Trim, Append, Registered, CustomText, Surface, Or;
  }

  lemma WebAccepted(max: nat, st: State, t: Tool)
    ensures var r := WebSearch(max, st, t);
            && (r.Some? <==> t.access == Some(false) || !t.rejected)
            && (r.Some? ==> r.value.legacyShell == st.legacyShell && r.value.nativeShell == st.nativeShell && r.value.search == st.search)
  {
    hide Append;
  }

  lemma OneHonoured(hash: string -> string, max: nat, st: State, t: Tool)
    ensures var r := One(hash, max, st, t);
            && (r.Some? <==> Honoured(t, st.legacyShell, st.nativeShell, st.search.Some?))
            && (r.Some? ==> && r.value.search == st.search
                            && (r.value.legacyShell <==> st.legacyShell || Is(t, "local_shell"))
                            && (r.value.nativeShell <==> st.nativeShell || (Is(t, "shell") && t.environment.Some?)))
  {
    hide One, Is, IsWeb, IsFunction, IsBackend, Namespace, Mcp, LocalShell, Shell, Patch, Custom, Plain, WebSearch,
      CleanBuiltin, Append, Labelled, Only, Trim;
    OneCases(hash, max, st, t);
    OneType(t);
    if Is(t, "namespace") { NamespaceAccepted(hash, max, st, t); }
    else if Is(t, "tool_search") { }
    else if IsWeb(t) { WebAccepted(max, st, t); }
    else if Is(t, "local_shell") || Is(t, "shell") { ShellAccepted(max, st, t); }
    else if Is(t, "mcp") && !Is(t, "apply_patch") && !Is(t, "custom") { McpAccepted(max, st, t); }
    else { NamedAccepted(hash, max, st, t); }
  }

  lemma OneType(t: Tool)
    ensures Is(t, "local_shell") || Is(t, "shell") ==>
              !Is(t, "namespace") && !Is(t, "tool_search") && !IsWeb(t) && !Is(t, "mcp") && !IsFunction(t) && !(Is(t, "local_shell") && Is(t, "shell"))
  {
    hide Trim, Lower;
  }

  lemma OneAccepted(hash: string -> string, max: nat, st: State, tools: seq<Tool>, i: nat, search: Option<Tool>)
    requires i < |tools| && Knows(st, tools, i, search)
    ensures One(hash, max, st, tools[i]).Some? <==> Acceptable(tools, i, search.Some?)
    ensures One(hash, max, st, tools[i]).Some? ==> Knows(One(hash, max, st, tools[i]).value, tools, i + 1, search)
  {
    hide One, Honoured, Is, LocalShells, NativeShells;
    OneHonoured(hash, max, st, tools[i]);
    ShellsNext(tools, i);
  }

  lemma OneCases(hash: string -> string, max: nat, st: State, t: Tool)
    ensures One(hash, max, st, t) ==
            if Is(t, "namespace") then Namespace(hash, max, st, t)
            else if Is(t, "tool_search") then Some(st)
            else if IsWeb(t) then WebSearch(max, st, t)
            else if Is(t, "local_shell") then LocalShell(max, st, t)
            else if Is(t, "shell") then Shell(max, st, t)
            else if Is(t, "apply_patch") then Patch(hash, max, st, t)
            else if Is(t, "custom") then Custom(hash, max, st, t)
            else if Is(t, "mcp") then Mcp(max, st, t)
            else if IsFunction(t) then Plain(hash, max, st, t)
            else if IsBackend(t) && !t.deferred then Some(Emit(st, max, CleanBuiltin(t))) else None
  {
    hide Trim, Lower, Namespace, Mcp, LocalShell, Shell, Patch, Custom, Plain, WebSearch, CleanBuiltin, Emit;
  }

  lemma ShellsNext(tools: seq<Tool>, i: nat)
    requires i < |tools|
    ensures LocalShells(tools, i + 1) <==> LocalShells(tools, i) || Is(tools[i], "local_shell")
    ensures NativeShells(tools, i + 1) <==> NativeShells(tools, i) || (Is(tools[i], "shell") && tools[i].environment.Some?)
  {
    hide Is;
  }

  lemma {:induction false} WalkAccepted(hash: string -> string, max: nat, search: Option<Tool>, tools: seq<Tool>, n: nat)
    requires n <= |tools|
    ensures var r := Walk(hash, max, Start(search), tools[..n]);
            && (r.Some? <==> AllAcceptable(tools, n, search.Some?))
            && (r.Some? ==> Knows(r.value, tools, n, search))
  {
    hide One, Acceptable, Is;
    if n > 0 {
      WalkAccepted(hash, max, search, tools, n - 1);
      assert tools[..n][..n - 1] == tools[..n - 1];
      var r := Walk(hash, max, Start(search), tools[..n - 1]);
      if r.Some? { OneAccepted(hash, max, r.value, tools, n - 1, search); }
    }
  }

  /** The tool searches of a list: every one runs on the client. */
  predicate ClientSearches(tools: seq<Tool>)
  {
    forall i :: 0 <= i < |tools| && Is(tools[i], "tool_search") ==> Lower(Trim(tools[i].execution)) == "client"
  }

  predicate OneSearch(tools: seq<Tool>)
  {
    forall i, j :: 0 <= i < j < |tools| ==> !(Is(tools[i], "tool_search") && Is(tools[j], "tool_search"))
  }

  lemma {:induction false} SearchFound(tools: seq<Tool>)
    ensures FindSearch(tools).Search? <==> ClientSearches(tools) && OneSearch(tools)
    ensures FindSearch(tools).Search? ==>
              var found := FindSearch(tools).tool;
              && (found.None? <==> forall i :: 0 <= i < |tools| ==> !Is(tools[i], "tool_search"))
              && (forall i :: 0 <= i < |tools| && Is(tools[i], "tool_search") ==> found == Some(tools[i]))
              && (found.Some? ==> found.value in tools && Is(found.value, "tool_search"))
  {
    hide Trim, Lower;
    if tools != [] {
      var front, t := tools[..|tools| - 1], tools[|tools| - 1];
      SearchFound(front);
      assert forall i :: 0 <= i < |front| ==> front[i] == tools[i];
      if Is(t, "tool_search") && FindSearch(front).Search? && FindSearch(front).tool.Some? {
        var i :| 0 <= i < |front| && front[i] == FindSearch(front).tool.value;
        assert Is(tools[i], "tool_search");
      }
    }
  }

  /**
   A list is accepted exactly if it declares at most one tool search, which runs on the
   client and carries no constraint of its own, and every tool in it can be honoured.
   */
  lemma AcceptedExact(hash: string -> string, max: nat, tools: seq<Tool>)
    ensures Normalize(hash, max, tools).Tools? <==>
            && ClientSearches(tools) && OneSearch(tools)
            && (forall i :: 0 <= i < |tools| && Is(tools[i], "tool_search") ==> !tools[i].rejected)
            && AllAcceptable(tools, |tools|, exists i :: 0 <= i < |tools| && Is(tools[i], "tool_search"))
  {
    hide Acceptable, ClientSearches, OneSearch, Walk, FindSearch, Registered, SearchText, StripSearch, Collapse, Is;
    SearchFound(tools);
    var declared := FindSearch(tools);
    if declared.Search? {
      assert tools[..|tools|] == tools;
      WalkAccepted(hash, max, declared.tool, tools, |tools|);
    }
  }

  // When search is switched off

  /** A web search that says whether it may reach out. */
  predicate Answers(t: Tool)
  {
    IsWeb(t) && t.access.Some?
  }

  /** The last answer among the first `n` tools. */
  ghost predicate LastAnswer(tools: seq<Tool>, n: nat, answer: Option<bool>)
    requires n <= |tools|
  {
    if forall i :: 0 <= i < n ==> !Answers(tools[i]) then answer == None
    else exists i :: 0 <= i < n && Answers(tools[i]) && answer == tools[i].access && forall j :: i < j < n ==> !Answers(tools[j])
  }

  predicate Forbids(t: Tool)
  {
    IsWeb(t) && t.access == Some(false)
  }

  lemma OneAnswers(hash: string -> string, max: nat, st: State, t: Tool)
    requires One(hash, max, st, t).Some?
    ensures var r := One(hash, max, st, t).value;
            && (r.disabled <==> st.disabled || Forbids(t))
            && r.backend == (if Answers(t) then t.access else st.backend)
  {
    hide One, Is, IsWeb, IsFunction, IsBackend, Namespace, Mcp, LocalShell, Shell, Patch, Custom, Plain, WebSearch,
      CleanBuiltin, Append, Only, Trim;
    OneCases(hash, max, st, t);
    WebType(t);
    NamespaceAccepted(hash, max, st, t);
    McpAccepted(max, st, t);
    NamedAccepted(hash, max, st, t);
    ShellAnswers(max, st, t);
    WebAnswers(max, st, t);
  }

  lemma WebType(t: Tool)
    ensures IsWeb(t) ==> !Is(t, "namespace") && !Is(t, "tool_search")
  {
    hide Trim, Lower;
  }

  lemma ShellAnswers(max: nat, st: State, t: Tool)
    ensures var r := LocalShell(max, st, t); r.Some? ==> r.value.backend == st.backend && r.value.disabled == st.disabled
    ensures var r := Shell(max, st, t); r.Some? ==> r.value.backend == st.backend && r.value.disabled == st.disabled
  {
    hide Append, Trim;
  }

  lemma WebAnswers(max: nat, st: State, t: Tool)
    ensures var r := WebSearch(max, st, t);
            r.Some? ==> && (r.value.disabled <==> st.disabled || t.access == Some(false))
                        && r.value.backend == (if t.access.Some? then t.access else st.backend)
  {
    hide Append;
  }

  lemma {:induction false} WalkAnswers(hash: string -> string, max: nat, search: Option<Tool>, tools: seq<Tool>, n: nat)
    requires n <= |tools| && Walk(hash, max, Start(search), tools[..n]).Some?
    ensures var st := Walk(hash, max, Start(search), tools[..n]).value;
            && (st.disabled <==> exists i :: 0 <= i < n && Forbids(tools[i]))
            && LastAnswer(tools, n, st.backend)
  {
    hide One, Is, Answers, Forbids;
    if n > 0 {
      assert tools[..n][..n - 1] == tools[..n - 1];
      WalkAnswers(hash, max, search, tools, n - 1);
      OneAnswers(hash, max, Walk(hash, max, Start(search), tools[..n - 1]).value, tools[n - 1]);
    }
  }

  /** A tool of this type, or a function called like it. */
  predicate Calls(t: Tool, name: string)
  {
    Is(t, name) || (IsFunction(t) && Lower(Trim(t.name)) == name)
  }

  predicate Searches(t: Tool)
  {
    Calls(t, "web_search") || Calls(t, "x_search")
  }

  lemma SearchToolIs(t: Tool)
    ensures IsSearchTool(t) <==> Searches(t)
  {
    hide Trim, Lower;
  }

  /**
   Search is switched off exactly if some web search of the list forbids external access.
   Then the backend is told so and no search tool is left, not even a function called like
   one; otherwise the backend is told what the last web search says about it, if any does.
   */
  lemma SearchSwitch(hash: string -> string, max: nat, tools: seq<Tool>)
    requires Normalize(hash, max, tools).Tools?
    ensures var r := Normalize(hash, max, tools);
            && (r.disabled <==> exists i :: 0 <= i < |tools| && Forbids(tools[i]))
            && (r.disabled ==> r.backend == Some(false) && forall k :: 0 <= k < |r.tools| ==> !Searches(r.tools[k]))
            && (!r.disabled ==> LastAnswer(tools, |tools|, r.backend))
  {
    hide Walk, FindSearch, Registered, SearchText, Collapse, Searches, IsSearchTool, Forbids, LastAnswer;
    var declared := FindSearch(tools);
    assert tools[..|tools|] == tools;
    WalkAnswers(hash, max, declared.tool, tools, |tools|);
    var st := AddSearch(hash, max, Walk(hash, max, Start(declared.tool), tools).value).value;
    var stripped := StripSearch(st.out);
    if st.disabled {
      NothingWanted(stripped);
      forall k | 0 <= k < |stripped| ensures !Searches(stripped[k]) {
        assert stripped[k] in stripped;
        SearchToolIs(stripped[k]);
      }
    }
  }

  lemma NothingWanted(tools: seq<Tool>)
    requires forall t :: t in tools ==> !IsSearchTool(t)
    ensures Collapse(tools) == tools
  {
    hide Trim, Lower;
    forall i | 0 <= i < |tools| ensures !Wants(tools[i], "web_search") && !Wants(tools[i], "x_search") {
      assert tools[i] in tools;
    }
  }

  // What each tool contributes

  predicate Known(table: A.Table, i: A.Identity)
  {
    A.Key(i) in table.names
  }

  function NameOf(table: A.Table, i: A.Identity): string
    requires Known(table, i)
  {
    table.names[A.Key(i)]
  }

  /** A function under this name, with the tool's own text, schema and strictness. */
  predicate FunctionOf(t: Tool, name: string, u: Tool)
  {
    u == Only("function", Trim(t.description)).(
           name := name, strict := t.strict, parameters := Some(if t.parameters.Some? then t.parameters.value else Schema(false, "object")))
  }

  predicate PatchOf(table: A.Table, u: Tool)
  {
    var i := A.Identity(A.PatchTool, "", "apply_patch");
    Known(table, i)
    && u == Only("function", "Patch one file.").(
              name := NameOf(table, i), strict := Some("true"), parameters := Some(Schema(true, "patch operation")))
  }

  predicate Child(space: string, c: Tool)
  {
    IsFunction(c) && Trim(c.name) != "" && !c.deferred
  }

  function Wanted(space: string, children: seq<Tool>): nat -> bool
  {
    (i: nat) => i < |children| && Child(space, children[i])
  }

  /** The functions of a namespace that are not deferred, in order, each under the name of its own identity. */
  ghost predicate ChildrenOffered(table: A.Table, space: string, children: seq<Tool>, offer: seq<Tool>, idx: seq<nat>)
  {
    && Picks(|children|, Wanted(space, children), idx) && |offer| == |idx|
    && forall k :: 0 <= k < |idx| ==> idx[k] < |children| && ChildOffered(table, space, children[idx[k]], offer[k])
  }

  predicate ChildOffered(table: A.Table, space: string, c: Tool, u: Tool)
  {
    var i := A.Identity(A.FunctionTool, space, Trim(c.name));
    Known(table, i) && FunctionOf(c, NameOf(table, i), u)
  }

  predicate StandsAt(s: string, k: nat, part: string)
  {
    k + |part| <= |s| && s[k..k + |part|] == part
  }

  predicate Mentions(s: string, part: string)
  {
    exists k: nat :: k <= |s| && StandsAt(s, k, part)
  }

  lemma {:induction false} FoundAt(s: string, part: string) returns (k: nat)
    requires Contains(s, part)
    ensures StandsAt(s, k, part)
  {
    k := 0;
    if !(part <= s) {
      var j := FoundAt(s[1..], part);
      k := j + 1;
      assert s[k..k + |part|] == s[1..][j..j + |part|];
    }
  }

  lemma {:induction false} FoundFrom(s: string, k: nat, part: string)
    requires StandsAt(s, k, part) && part != ""
    ensures Contains(s, part)
  {
    if k > 0 {
      assert s[1..][k - 1..k - 1 + |part|] == s[k..k + |part|];
      FoundFrom(s[1..], k - 1, part);
    }
  }

  lemma ContainsAt(s: string, part: string)
    requires part != ""
    ensures Contains(s, part) <==> Mentions(s, part)
  {
    if Contains(s, part) { var k := FoundAt(s, part); }
    forall k: nat | k <= |s| && StandsAt(s, k, part) ensures Contains(s, part) { FoundFrom(s, k, part); }
  }

  /** The text of a custom tool, which must speak of the input string. */
  predicate CustomSays(t: Tool, name: string, d: string)
  {
    var own := if Trim(t.description) != "" then Trim(t.description) else "Custom tool " + name;
    d == if Mentions(own, "input string") then own
         else own + "\nProvide the custom tool input in the input string field."
  }

  ghost predicate CustomOffered(table: A.Table, t: Tool, u: Tool)
  {
    var name := if Trim(t.name) != "" then Trim(t.name) else "custom_tool";
    var i := A.Identity(A.CustomTool, "", name);
    && Known(table, i) && CustomSays(t, name, u.description)
    && u == Only("function", u.description).(
              name := NameOf(table, i),
              parameters := Some(if t.parameters.Some? then t.parameters.value else Schema(false, "freeform input")))
  }

  /** The fields among these keys, as they are. */
  ghost predicate Passed(from: map<string, string>, to: map<string, string>, keys: set<string>)
  {
    forall k :: (k in to <==> k in from && k in keys) && (k in to ==> to[k] == from[k])
  }

  /** What a tool that is neither function nor namespace is sent on as; nothing if it is only announced or switched off. */
  ghost predicate PlainOffered(table: A.Table, t: Tool, offer: seq<Tool>)
  {
    if Is(t, "tool_search") then offer == []
    else if IsWeb(t) then offer == if t.access == Some(false) then [] else [Only("web_search", "")]
    else if Is(t, "local_shell") then offer == [Only("shell", "").(environment := Some("local"))]
    else if Is(t, "shell") then
      if t.environment.Some? then offer == [Only("shell", "").(name := Trim(t.name), environment := t.environment)]
      else offer == [Only("function", if Trim(t.description) != "" then Trim(t.description) else "Run a shell command.").(
                       name := "shell_command", parameters := Some(Schema(false, "shell command")))]
    else if Is(t, "apply_patch") then |offer| == 1 && PatchOf(table, offer[0])
    else if Is(t, "custom") then |offer| == 1 && CustomOffered(table, t, offer[0])
    else if Is(t, "mcp") then
      if t.deferred then offer == []
      else
        && |offer| == 1 && offer[0] == Only(t.typ, t.description).(name := t.name, extras := offer[0].extras)
        && Passed(t.extras, offer[0].extras,
                  {"server_label", "server_url", "server_description", "headers", "require_approval", "allowed_tools", "authorization"})
    else
      && |offer| == 1
      && offer[0] == Only(Lower(Trim(t.typ)), Trim(t.description)).(name := Trim(t.name), parameters := t.parameters, extras := offer[0].extras)
      && Passed(t.extras, offer[0].extras,
                {"server_label", "server_url", "server_description", "vector_store_ids", "max_num_results", "container"}
                + if Is(t, "file_search") then {"filters"} else {})
  }

  /** A function keeps its own name unless it is called apply_patch; then it needs a schema with an operation to keep its text. */
  ghost predicate FunctionOffered(table: A.Table, t: Tool, offer: seq<Tool>)
  {
    if Trim(t.name) == "" || t.deferred then offer == []
    else if Lower(Trim(t.name)) != "apply_patch" then |offer| == 1 && FunctionOf(t, Trim(t.name), offer[0])
    else
      var i := A.Identity(A.PatchTool, "", "apply_patch");
      && |offer| == 1 && Known(table, i)
      && if t.parameters.Some? && t.parameters.value.hasOperation then FunctionOf(t, NameOf(table, i), offer[0]) else PatchOf(table, offer[0])
  }

  ghost predicate Offered(table: A.Table, t: Tool, offer: seq<Tool>)
  {
    if Is(t, "namespace") then exists idx: seq<nat> :: ChildrenOffered(table, Trim(t.name), t.children, offer, idx)
    else if IsFunction(t) then FunctionOffered(table, t, offer)
    else PlainOffered(table, t, offer)
  }

  // Names given out stay

  ghost predicate Extends(t: A.Table, u: A.Table)
  {
    forall k :: k in t.names ==> k in u.names && u.names[k] == t.names[k]
  }

  lemma OfferedStays(t: A.Table, u: A.Table, tool: Tool, offer: seq<Tool>)
    requires Extends(t, u) && Offered(t, tool, offer)
    ensures Offered(u, tool, offer)
  {
    hide Trim, Lower, Is, A.Key, FunctionOf, CustomSays, Passed;
    if Is(tool, "namespace") {
      var idx: seq<nat> :| ChildrenOffered(t, Trim(tool.name), tool.children, offer, idx);
      ChildrenStay(t, u, Trim(tool.name), tool.children, offer, idx);
    }
  }

  lemma ChildrenStay(t: A.Table, u: A.Table, space: string, children: seq<Tool>, offer: seq<Tool>, idx: seq<nat>)
    requires Extends(t, u) && ChildrenOffered(t, space, children, offer, idx)
    ensures ChildrenOffered(u, space, children, offer, idx)
  {
    hide Trim, A.Key, FunctionOf, Picks;
  }

  lemma RegisteredExtends(hash: string -> string, t: A.Table, i: A.Identity)
    ensures var (u, alias) := Registered(hash, t, i); Extends(t, u) && Known(u, i) && alias == NameOf(u, i)
  {
    hide A.Key, A.Fresh;
  }

  // The walk emits what is offered

  function EmitAll(out: seq<Tool>, max: nat, all: seq<Tool>): seq<Tool>
  {
    if all == [] then out else Append(EmitAll(out, max, all[..|all| - 1]), max, all[|all| - 1])
  }

  lemma {:induction false} EmitTogether(out: seq<Tool>, max: nat, a: seq<Tool>, b: seq<Tool>)
    ensures EmitAll(out, max, a + b) == EmitAll(EmitAll(out, max, a), max, b)
    decreases |b|
  {
    hide Append;
    if b == [] {
      assert a + b == a;
    } else {
      assert (a + b)[..|a + b| - 1] == a + b[..|b| - 1];
      EmitTogether(out, max, a, b[..|b| - 1]);
    }
  }

  lemma EmitOne(out: seq<Tool>, max: nat, t: Tool)
    ensures EmitAll(out, max, [t]) == Append(out, max, t)
  {
    hide Append;
    assert [t][..0] == [];
  }

  /** A step emits an offer and only adds names. */
  ghost predicate Emits(st: State, max: nat, after: State, offer: seq<Tool>)
  {
    after.out == EmitAll(st.out, max, offer) && Extends(st.table, after.table)
  }

  lemma EmitsOne(st: State, max: nat, after: State, u: Tool)
    requires after.out == Append(st.out, max, u) && Extends(st.table, after.table)
    ensures Emits(st, max, after, [u])
  {
    EmitOne(st.out, max, u);
  }

  lemma EmitsNone(st: State, max: nat, after: State)
    requires after.out == st.out && Extends(st.table, after.table)
    ensures Emits(st, max, after, [])
  {
  }

  // Kind by kind

  lemma AsFunctionIs(t: Tool, name: string)
    ensures FunctionOf(t, name, AsFunction(t).(name := name))
    ensures FunctionOf(t, Trim(t.name), AsFunction(t))
  {
    hide Trim;
  }

  lemma {:induction false} ChildrenEmit(hash: string -> string, max: nat, st: State, space: string, children: seq<Tool>)
    returns (offer: seq<Tool>, idx: seq<nat>)
    requires Children(hash, max, st, space, children).Some?
    ensures var after := Children(hash, max, st, space, children).value;
            Emits(st, max, after, offer) && ChildrenOffered(after.table, space, children, offer, idx)
  {
    hide Trim, Lower, AsFunction, Registered, Append, A.Key, FunctionOf, Extends;
    offer, idx := [], [];
    if children == [] {
      ExtendsSelf(st.table);
    } else {
      var front, c := children[..|children| - 1], children[|children| - 1];
      assert children == front + [c];
      offer, idx := ChildrenEmit(hash, max, st, space, front);
      var before := Children(hash, max, st, space, front).value;
      var after := Children(hash, max, st, space, children).value;
      if Child(space, c) {
        var i := A.Identity(A.FunctionTool, space, Trim(c.name));
        var (table, alias) := Registered(hash, before.table, i);
        RegisteredExtends(hash, before.table, i);
        ChildrenStay(before.table, table, space, front, offer, idx);
        AsFunctionIs(c, alias);
        EmitOne(before.out, max, AsFunction(c).(name := alias));
        EmitTogether(st.out, max, offer, [AsFunction(c).(name := alias)]);
        ExtendsOn(st.table, before.table, table);
        idx := OneMoreChild(table, space, front, c, offer, idx, AsFunction(c).(name := alias));
        offer := offer + [AsFunction(c).(name := alias)];
      } else {
        idx := NoMoreChild(before.table, space, front, c, offer, idx);
      }
    }
  }

  lemma ExtendsSelf(t: A.Table)
    ensures Extends(t, t)
  {
  }

  lemma ExtendsOn(t: A.Table, u: A.Table, v: A.Table)
    requires Extends(t, u) && Extends(u, v)
    ensures Extends(t, v)
  {
  }

  lemma OneMoreChild(table: A.Table, space: string, front: seq<Tool>, c: Tool, offer: seq<Tool>, before: seq<nat>, u: Tool) returns (idx: seq<nat>)
    requires ChildrenOffered(table, space, front, offer, before) && Child(space, c) && ChildOffered(table, space, c, u)
    ensures ChildrenOffered(table, space, front + [c], offer + [u], idx)
  {
    hide Picks, Child, ChildOffered;
    PicksSame(|front|, Wanted(space, front), Wanted(space, front + [c]), before);
    PicksMore(|front|, Wanted(space, front + [c]), before);
    idx := before + [|front|];
  }

  lemma NoMoreChild(table: A.Table, space: string, front: seq<Tool>, c: Tool, offer: seq<Tool>, before: seq<nat>) returns (idx: seq<nat>)
    requires ChildrenOffered(table, space, front, offer, before) && !Child(space, c)
    ensures ChildrenOffered(table, space, front + [c], offer, idx)
  {
    hide Picks, Child, ChildOffered;
    PicksSame(|front|, Wanted(space, front), Wanted(space, front + [c]), before);
    PicksMore(|front|, Wanted(space, front + [c]), before);
    idx := before;
  }

  lemma NamespaceEmits(hash: string -> string, max: nat, st: State, t: Tool) returns (offer: seq<Tool>)
    requires Namespace(hash, max, st, t).Some?
    ensures var after := Namespace(hash, max, st, t).value;
            Emits(st, max, after, offer) && exists idx: seq<nat> :: ChildrenOffered(after.table, Trim(t.name), t.children, offer, idx)
  {
    hide Trim, Children, Surface, ChildrenOffered, Extends, EmitAll, HasDeferred;
    var space := Trim(t.name);
    var idx;
    offer, idx := ChildrenEmit(hash, max, if st.search.Some? && HasDeferred(t.children) then AddSurface(st, space, Trim(t.description)) else st,
                               space, t.children);
  }

  lemma WebEmits(max: nat, st: State, t: Tool) returns (offer: seq<Tool>)
    requires WebSearch(max, st, t).Some?
    ensures Emits(st, max, WebSearch(max, st, t).value, offer)
    ensures offer == if t.access == Some(false) then [] else [Only("web_search", "")]
  {
    hide Append;
    offer := if t.access == Some(false) then [] else [Only("web_search", "")];
    if t.access != Some(false) { EmitsOne(st, max, WebSearch(max, st, t).value, offer[0]); }
  }

  lemma ShellEmits(max: nat, st: State, t: Tool)
    ensures LocalShell(max, st, t).Some? ==> Emits(st, max, LocalShell(max, st, t).value, [Only("shell", "").(environment := Some("local"))])
    ensures Shell(max, st, t).Some? ==>
              Emits(st, max, Shell(max, st, t).value,
                    [if t.environment.Some? then Only("shell", "").(name := Trim(t.name), environment := t.environment)
                     else Only("function", if Trim(t.description) != "" then Trim(t.description) else "Run a shell command.").(
                            name := "shell_command", parameters := Some(Schema(false, "shell command")))])
  {
    hide Append, Trim;
    if LocalShell(max, st, t).Some? { EmitsOne(st, max, LocalShell(max, st, t).value, Only("shell", "").(environment := Some("local"))); }
    if Shell(max, st, t).Some? {
      EmitsOne(st, max, Shell(max, st, t).value,
               if t.environment.Some? then Only("shell", "").(name := Trim(t.name), environment := t.environment)
               else Only("function", if Trim(t.description) != "" then Trim(t.description) else "Run a shell command.").(
                      name := "shell_command", parameters := Some(Schema(false, "shell command"))));
    }
  }

  lemma PatchEmits(hash: string -> string, max: nat, st: State, t: Tool) returns (offer: seq<Tool>)
    requires Patch(hash, max, st, t).Some?
    ensures var after := Patch(hash, max, st, t).value; Emits(st, max, after, offer) && |offer| == 1 && PatchOf(after.table, offer[0])
  {
    hide Append, A.Key, Registered, Extends;
    var i := A.Identity(A.PatchTool, "", "apply_patch");
    var (table, alias) := Registered(hash, st.table, i);
    RegisteredExtends(hash, st.table, i);
    offer := [PatchFunction(alias)];
    EmitsOne(st, max, Patch(hash, max, st, t).value, offer[0]);
  }

  lemma CustomEmits(hash: string -> string, max: nat, st: State, t: Tool) returns (offer: seq<Tool>)
    requires Custom(hash, max, st, t).Some?
    ensures var after := Custom(hash, max, st, t).value; Emits(st, max, after, offer) && |offer| == 1 && CustomOffered(after.table, t, offer[0])
  {
    hide Append, A.Key, Registered, Extends, Trim, CustomText, CustomSays;
    var name := Or(t.name, "custom_tool");
    var i := A.Identity(A.CustomTool, "", name);
    var (table, alias) := Registered(hash, st.table, i);
    RegisteredExtends(hash, st.table, i);
    CustomTold(t, name);
    offer := [Function(alias, CustomText(t, name), if t.parameters.Some? then t.parameters.value else FREEFORM_SCHEMA, None)];
    EmitsOne(st, max, Custom(hash, max, st, t).value, offer[0]);
  }

  lemma CustomTold(t: Tool, name: string)
    ensures CustomSays(t, name, CustomText(t, name))
  {
    hide Trim, Contains, Mentions;
    var own := if Trim(t.description) != "" then Trim(t.description) else "Custom tool " + name;
    assert own == Or(t.description, "Custom tool " + name);
    ContainsAt(own, "input string");
    assert CustomText(t, name) == if Contains(own, "input string") then own else own + CUSTOM_HINT;
  }

  lemma McpEmits(max: nat, st: State, t: Tool) returns (offer: seq<Tool>)
    requires Mcp(max, st, t).Some?
    ensures Emits(st, max, Mcp(max, st, t).value, offer)
    ensures if t.deferred then offer == [] else
              && |offer| == 1 && offer[0] == Only(t.typ, t.description).(name := t.name, extras := offer[0].extras)
              && Passed(t.extras, offer[0].extras,
                        {"server_label", "server_url", "server_description", "headers", "require_approval", "allowed_tools", "authorization"})
  {
    hide Append, Trim, Surface;
    offer := if t.deferred then [] else [CleanMcp(t)];
    if t.deferred { EmitsNone(st, max, Mcp(max, st, t).value); } else { EmitsOne(st, max, Mcp(max, st, t).value, CleanMcp(t)); }
  }

  lemma BuiltinIs(t: Tool)
    ensures var u := CleanBuiltin(t);
      && u == Only(Lower(Trim(t.typ)), Trim(t.description)).(name := Trim(t.name), parameters := t.parameters, extras := u.extras)
      && Passed(t.extras, u.extras,
                {"server_label", "server_url", "server_description", "vector_store_ids", "max_num_results", "container"}
                + if Is(t, "file_search") then {"filters"} else {})
  {
    hide Trim, Lower;
  }

  lemma PlainEmits(hash: string -> string, max: nat, st: State, t: Tool) returns (offer: seq<Tool>)
    requires Plain(hash, max, st, t).Some?
    ensures var after := Plain(hash, max, st, t).value; Emits(st, max, after, offer) && FunctionOffered(after.table, t, offer)
  {
    hide Append, A.Key, Registered, Extends, Trim, Lower, Surface, FunctionOf, AsFunction;
    var after := Plain(hash, max, st, t).value;
    ExtendsSelf(st.table);
    offer := [];
    if Trim(t.name) == "" || t.deferred {
      EmitsNone(st, max, after);
    } else if IsPatchName(Trim(t.name)) {
      var i := A.Identity(A.PatchTool, "", "apply_patch");
      var (table, alias) := Registered(hash, st.table, i);
      RegisteredExtends(hash, st.table, i);
      AsFunctionIs(t, alias);
      OperationOf(t);
      offer := [if t.parameters.Some? && t.parameters.value.hasOperation then AsFunction(t).(name := alias) else PatchFunction(alias)];
      EmitsOne(st, max, after, offer[0]);
    } else {
      AsFunctionIs(t, Trim(t.name));
      offer := [AsFunction(t)];
      EmitsOne(st, max, after, offer[0]);
    }
  }

  lemma OperationOf(t: Tool)
    ensures AsFunction(t).parameters.Some?
    ensures AsFunction(t).parameters.value.hasOperation <==> t.parameters.Some? && t.parameters.value.hasOperation
  {
    hide Trim;
  }

  lemma OneEmits(hash: string -> string, max: nat, st: State, t: Tool) returns (offer: seq<Tool>)
    requires One(hash, max, st, t).Some?
    ensures var after := One(hash, max, st, t).value; Emits(st, max, after, offer) && Offered(after.table, t, offer)
  {
    hide One, Is, IsWeb, IsFunction, IsBackend, Namespace, Mcp, LocalShell, Shell, Patch, Custom, Plain, WebSearch, CleanBuiltin, Emit,
      Only, Trim, Lower, Emits, PatchOf, CustomOffered, FunctionOffered, ChildrenOffered, Passed;
    OneCases(hash, max, st, t);
    KindsDiffer(t);
    var after := One(hash, max, st, t).value;
    if Is(t, "namespace") { offer := NamespaceEmits(hash, max, st, t); }
    else if Is(t, "tool_search") { offer := []; NoneEmits(st, max); }
    else if IsWeb(t) { offer := WebEmits(max, st, t); }
    else if Is(t, "local_shell") || Is(t, "shell") { ShellEmits(max, st, t); offer := ShellOffer(t); }
    else if Is(t, "apply_patch") { offer := PatchEmits(hash, max, st, t); }
    else if Is(t, "custom") { offer := CustomEmits(hash, max, st, t); }
    else if Is(t, "mcp") { offer := McpEmits(max, st, t); }
    else if IsFunction(t) { offer := PlainEmits(hash, max, st, t); }
    else {
      offer := [CleanBuiltin(t)];
      BuiltinIs(t);
      BuiltinEmits(st, max, t);
    }
  }

  function ShellOffer(t: Tool): seq<Tool>
  {
    if Is(t, "local_shell") then [Only("shell", "").(environment := Some("local"))]
    else [if t.environment.Some? then Only("shell", "").(name := Trim(t.name), environment := t.environment)
          else Only("function", if Trim(t.description) != "" then Trim(t.description) else "Run a shell command.").(
                 name := "shell_command", parameters := Some(Schema(false, "shell command")))]
  }

  lemma NoneEmits(st: State, max: nat)
    ensures Emits(st, max, st, [])
  {
  }

  lemma BuiltinEmits(st: State, max: nat, t: Tool)
    ensures Emits(st, max, Emit(st, max, CleanBuiltin(t)), [CleanBuiltin(t)])
  {
    hide CleanBuiltin, Append;
    EmitsOne(st, max, Emit(st, max, CleanBuiltin(t)), CleanBuiltin(t));
  }

  lemma KindsDiffer(t: Tool)
    ensures IsFunction(t) ==>
              && !Is(t, "namespace") && !Is(t, "tool_search") && !IsWeb(t) && !Is(t, "local_shell") && !Is(t, "shell")
              && !Is(t, "apply_patch") && !Is(t, "custom") && !Is(t, "mcp")
    ensures Is(t, "namespace") ==> !IsFunction(t) && !Is(t, "tool_search")
  {
    hide Trim, Lower;
  }

  function Flat(offers: seq<seq<Tool>>): seq<Tool>
  {
    if offers == [] then [] else Flat(offers[..|offers| - 1]) + offers[|offers| - 1]
  }

  lemma FlatNext(offers: seq<seq<Tool>>, offer: seq<Tool>)
    ensures Flat(offers + [offer]) == Flat(offers) + offer
  {
    assert (offers + [offer])[..|offers|] == offers;
  }

  ghost predicate AllOffered(table: A.Table, tools: seq<Tool>, offers: seq<seq<Tool>>)
  {
    |offers| <= |tools| && forall i :: 0 <= i < |offers| ==> Offered(table, tools[i], offers[i])
  }

  lemma {:induction false} WalkEmits(hash: string -> string, max: nat, search: Option<Tool>, tools: seq<Tool>, n: nat) returns (offers: seq<seq<Tool>>)
    requires n <= |tools| && Walk(hash, max, Start(search), tools[..n]).Some?
    ensures var st := Walk(hash, max, Start(search), tools[..n]).value;
            |offers| == n && st.out == EmitAll([], max, Flat(offers)) && AllOffered(st.table, tools, offers)
  {
    hide One, Offered, EmitAll, Extends;
    offers := [];
    if n == 0 {
      assert EmitAll([], max, []) == [] by { EmitNothing(max); }
    } else {
      assert tools[..n][..n - 1] == tools[..n - 1];
      var before := Walk(hash, max, Start(search), tools[..n - 1]).value;
      offers := WalkEmits(hash, max, search, tools, n - 1);
      var offer := OneEmits(hash, max, before, tools[n - 1]);
      var after := One(hash, max, before, tools[n - 1]).value;
      FlatNext(offers, offer);
      EmitTogether([], max, Flat(offers), offer);
      forall i | 0 <= i < n - 1 ensures Offered(after.table, tools[i], offers[i]) {
        OfferedStays(before.table, after.table, tools[i], offers[i]);
      }
      offers := offers + [offer];
    }
  }

  lemma EmitNothing(max: nat)
    ensures EmitAll([], max, []) == []
  {
  }

  // The search function

  /** What a deferred tool is announced as: its label, with the beginning of its description. */
  function Line(title: string, description: string): string
  {
    Trim(title) + if Trim(description) == "" then "" else
      ": " + if |Trim(description)| > 240 then Trim(description)[..240] else Trim(description)
  }

  /** What the client's search can find of a tool. */
  function Announced(t: Tool): Option<string>
  {
    if Is(t, "namespace") then
      if exists j :: 0 <= j < |t.children| && Is(t.children[j], "function") && t.children[j].deferred then Some(Line(t.name, t.description)) else None
    else if Is(t, "mcp") && t.deferred then
      Some(Line(if "server_label" in t.extras && Trim(t.extras["server_label"]) != "" then t.extras["server_label"] else t.name, t.description))
    else if IsFunction(t) && Trim(t.name) != "" && t.deferred then Some(Line(t.name, t.description))
    else None
  }

  function NewLine(tools: seq<Tool>): nat -> bool
  {
    (i: nat) => i < |tools| && Announced(tools[i]).Some? && forall j :: 0 <= j < i ==> Announced(tools[j]) != Announced(tools[i])
  }

  /** Every line once, in the order of the tools announced. */
  ghost predicate Lines(tools: seq<Tool>, n: nat, lines: seq<string>, idx: seq<nat>)
    requires n <= |tools|
  {
    && Picks(n, NewLine(tools), idx) && |lines| == |idx|
    && forall k :: 0 <= k < |idx| ==> idx[k] < |tools| && Announced(tools[idx[k]]) == Some(lines[k])
  }

  lemma SurfaceIs(title: string, description: string)
    requires Trim(title) != ""
    ensures Surface(title, description) == Line(title, description)
    ensures Surface(Trim(title), Trim(description)) == Line(title, description)
  {
    TrimTight(title);
    TrimTight(Trim(title));
    TrimTight(description);
    TrimTight(Trim(description));
    hide Trim;
  }

  /** A line joins the surfaces unless it is among them. */
  predicate Joins(st: State, after: State, line: Option<string>)
  {
    after.surfaces == if line.None? || line.value in st.surfaces then st.surfaces else st.surfaces + [line.value]
  }

  lemma AddsLine(st: State, title: string, description: string)
    requires Trim(title) != ""
    ensures Joins(st, AddSurface(st, Trim(title), Trim(description)), Some(Line(title, description)))
  {
    hide Line, Trim, Surface;
    SurfaceIs(title, description);
    assert Line(title, description) != "" by { LineShows(title, description); }
  }

  lemma LineShows(title: string, description: string)
    requires Trim(title) != ""
    ensures Line(title, description) != ""
  {
    hide Trim;
  }

  lemma {:induction false} ChildrenQuiet(hash: string -> string, max: nat, st: State, space: string, children: seq<Tool>)
    requires Children(hash, max, st, space, children).Some?
    ensures Children(hash, max, st, space, children).value.surfaces == st.surfaces
  {
    hide Trim, Lower, Registered, AsFunction, Append;
    if children != [] { ChildrenQuiet(hash, max, st, space, children[..|children| - 1]); }
  }

  lemma NamespaceJoins(hash: string -> string, max: nat, st: State, t: Tool)
    requires Is(t, "namespace") && st.search.Some? && Namespace(hash, max, st, t).Some?
    ensures Joins(st, Namespace(hash, max, st, t).value, Announced(t))
  {
    hide Trim, Lower, Children, AddSurface, Line;
    var space := Trim(t.name);
    AddsLine(st, t.name, t.description);
    var st1 := if HasDeferred(t.children) then AddSurface(st, space, Trim(t.description)) else st;
    ChildrenQuiet(hash, max, st1, space, t.children);
    assert HasDeferred(t.children) <==> exists j :: 0 <= j < |t.children| && Is(t.children[j], "function") && t.children[j].deferred;
  }

  lemma McpJoins(max: nat, st: State, t: Tool)
    requires Is(t, "mcp") && !Is(t, "namespace") && Mcp(max, st, t).Some?
    ensures Joins(st, Mcp(max, st, t).value, Announced(t))
  {
    assert Trim("") == "";
    hide Trim, Is, AddSurface, Line, CleanMcp, Append, IsFunction;
    if t.deferred {
      var title := if "server_label" in t.extras && Trim(t.extras["server_label"]) != "" then t.extras["server_label"] else t.name;
      assert Or(if "server_label" in t.extras then t.extras["server_label"] else "", Trim(t.name)) == Trim(title);
      AddsLine(st, title, t.description);
    } else {
      McpNoFunction(t);
    }
  }

  lemma McpNoFunction(t: Tool)
    requires Is(t, "mcp")
    ensures !IsFunction(t)
  {
    hide Trim, Lower;
  }

  lemma PlainJoins(hash: string -> string, max: nat, st: State, t: Tool)
    requires IsFunction(t) && !Is(t, "namespace") && !Is(t, "mcp") && Plain(hash, max, st, t).Some?
    ensures Joins(st, Plain(hash, max, st, t).value, Announced(t))
  {
    hide Trim, Is, IsFunction, AddSurface, Line, AsFunction, Registered, Append, IsPatchName;
    if Trim(t.name) != "" && t.deferred { AddsLine(st, t.name, t.description); }
  }

  lemma RestJoins(hash: string -> string, max: nat, st: State, t: Tool)
    ensures WebSearch(max, st, t).Some? ==> WebSearch(max, st, t).value.surfaces == st.surfaces
    ensures LocalShell(max, st, t).Some? ==> LocalShell(max, st, t).value.surfaces == st.surfaces
    ensures Shell(max, st, t).Some? ==> Shell(max, st, t).value.surfaces == st.surfaces
    ensures Patch(hash, max, st, t).Some? ==> Patch(hash, max, st, t).value.surfaces == st.surfaces
    ensures Custom(hash, max, st, t).Some? ==> Custom(hash, max, st, t).value.surfaces == st.surfaces
  {
    hide Trim, Append, Registered, CustomText, Or;
  }

  lemma OneJoins(hash: string -> string, max: nat, st: State, t: Tool)
    requires st.search.Some? && One(hash, max, st, t).Some?
    ensures Joins(st, One(hash, max, st, t).value, Announced(t))
  {
    hide One, Is, IsWeb, IsFunction, IsBackend, Namespace, Mcp, LocalShell, Shell, Patch, Custom, Plain, WebSearch, CleanBuiltin, Append,
      Line, Trim, Only;
    OneCases(hash, max, st, t);
    KindsDiffer(t);
    OneType(t);
    WebType(t);
    McpApart(t);
    if Is(t, "namespace") { NamespaceJoins(hash, max, st, t); }
    else if Is(t, "mcp") { McpJoins(max, st, t); }
    else if IsFunction(t) { PlainJoins(hash, max, st, t); }
    else { RestJoins(hash, max, st, t); }
  }

  lemma McpApart(t: Tool)
    ensures Is(t, "mcp") ==> !Is(t, "tool_search") && !IsWeb(t) && !Is(t, "apply_patch") && !Is(t, "custom") && !IsFunction(t)
  {
    hide Trim, Lower;
  }

  lemma {:induction false} WalkLines(hash: string -> string, max: nat, search: Option<Tool>, tools: seq<Tool>, n: nat) returns (idx: seq<nat>)
    requires n <= |tools| && search.Some? && Walk(hash, max, Start(search), tools[..n]).Some?
    ensures var st := Walk(hash, max, Start(search), tools[..n]).value; st.search == search && Lines(tools, n, st.surfaces, idx)
  {
    hide One, Announced, Joins;
    idx := [];
    if n > 0 {
      assert tools[..n][..n - 1] == tools[..n - 1];
      var before := Walk(hash, max, Start(search), tools[..n - 1]).value;
      idx := WalkLines(hash, max, search, tools, n - 1);
      OneHonoured(hash, max, before, tools[n - 1]);
      OneJoins(hash, max, before, tools[n - 1]);
      idx := NextLine(tools, n - 1, before, One(hash, max, before, tools[n - 1]).value, idx);
    }
  }

  lemma NextLine(tools: seq<Tool>, n: nat, before: State, after: State, idx: seq<nat>) returns (more: seq<nat>)
    requires n < |tools| && Lines(tools, n, before.surfaces, idx) && Joins(before, after, Announced(tools[n]))
    ensures Lines(tools, n + 1, after.surfaces, more)
  {
    hide Announced;
    PicksMore(n, NewLine(tools), idx);
    more := if NewLine(tools)(n) then idx + [n] else idx;
    var line := Announced(tools[n]);
    if line.Some? {
      LineKnown(tools, n, before.surfaces, idx, line.value);
    }
  }

  /** A line is on the list exactly if one of the tools so far was announced so. */
  lemma {:induction false} LineKnown(tools: seq<Tool>, n: nat, lines: seq<string>, idx: seq<nat>, line: string)
    requires n <= |tools| && Lines(tools, n, lines, idx)
    ensures line in lines <==> exists j :: 0 <= j < n && Announced(tools[j]) == Some(line)
  {
    hide Announced;
    if line in lines {
      var k :| 0 <= k < |lines| && lines[k] == line;
      assert idx[k] in idx;
    }
    if exists j :: 0 <= j < n && Announced(tools[j]) == Some(line) {
      var j := FirstLine(tools, n, line);
      assert NewLine(tools)(j);
      assert j in idx;
      var k :| 0 <= k < |idx| && idx[k] == j;
      assert lines[k] == line;
    }
  }

  lemma {:induction false} FirstLine(tools: seq<Tool>, n: nat, line: string) returns (j: nat)
    requires n <= |tools| && exists j :: 0 <= j < n && Announced(tools[j]) == Some(line)
    ensures j < n && Announced(tools[j]) == Some(line) && forall i :: 0 <= i < j ==> Announced(tools[i]) != Some(line)
  {
    hide Announced;
    if exists j :: 0 <= j < n - 1 && Announced(tools[j]) == Some(line) { j := FirstLine(tools, n - 1, line); } else { j := n - 1; }
  }

  /** The text of the search function: the client's own, then the lines, cut at its limit. */
  predicate SearchSays(t: Tool, lines: seq<string>, d: string)
  {
    var own := if Trim(t.description) != "" then Trim(t.description) else "Find tools.";
    var full := own + if lines == [] then "" else "\nDeferred tool surfaces available to search:\n- " + Join(lines, "\n- ");
    d == if |full| > 16 * 1024 then full[..16 * 1024] else full
  }

  /** The function that stands for the client's tool search, if there is one. */
  ghost predicate SearchOffered(table: A.Table, tools: seq<Tool>, offer: seq<Tool>)
  {
    if forall i :: 0 <= i < |tools| ==> !Is(tools[i], "tool_search") then offer == []
    else
      var i := A.Identity(A.SearchTool, "", "tool_search");
      && |offer| == 1 && Known(table, i)
      && exists t, lines, idx ::
           && t in tools && Is(t, "tool_search") && Lines(tools, |tools|, lines, idx) && SearchSays(t, lines, offer[0].description)
           && offer[0] == Only("function", offer[0].description).(
                            name := NameOf(table, i), parameters := Some(if t.parameters.Some? then t.parameters.value else Schema(false, "open object")))
  }

  lemma SearchEmits(hash: string -> string, max: nat, st: State, tools: seq<Tool>, idx: seq<nat>) returns (offer: seq<Tool>)
    requires st.search.Some? && AddSearch(hash, max, st).Some? && st.search.value in tools && Is(st.search.value, "tool_search")
    requires Lines(tools, |tools|, st.surfaces, idx)
    ensures var after := AddSearch(hash, max, st).value; Emits(st, max, after, offer) && SearchOffered(after.table, tools, offer)
  {
    hide Append, A.Key, Registered, Extends, Trim, Lower, Lines, SearchSays, SearchText, Is;
    var t := st.search.value;
    var i := A.Identity(A.SearchTool, "", "tool_search");
    var (table, alias) := Registered(hash, st.table, i);
    RegisteredExtends(hash, st.table, i);
    SearchTold(t, st.surfaces);
    offer := [Function(alias, SearchText(t, st.surfaces), if t.parameters.Some? then t.parameters.value else OPEN_SCHEMA, None)];
    EmitsOne(st, max, AddSearch(hash, max, st).value, offer[0]);
    var k :| 0 <= k < |tools| && tools[k] == t;
    assert Is(tools[k], "tool_search");
  }

  lemma SearchTold(t: Tool, lines: seq<string>)
    ensures SearchSays(t, lines, SearchText(t, lines))
  {
    hide Trim, Join;
  }

  // What is kept of it

  predicate SameKey(t: Tool, u: Tool)
  {
    Lower(Trim(t.typ)) + "\0" + Trim(t.name) == Lower(Trim(u.typ)) + "\0" + Trim(u.name)
  }

  function FirstOfKey(all: seq<Tool>): nat -> bool
  {
    (i: nat) => i < |all| && forall j :: 0 <= j < i ==> !SameKey(all[j], all[i])
  }

  /** The tools at these places, in order, as many of the first as fit. */
  ghost predicate Taken(all: seq<Tool>, max: nat, idx: seq<nat>, out: seq<Tool>)
  {
    && |out| == (if max > 0 && |idx| > max then max else |idx|)
    && forall k :: 0 <= k < |out| ==> idx[k] < |all| && out[k] == all[idx[k]]
  }

  lemma {:induction false} EmitTakes(max: nat, all: seq<Tool>) returns (idx: seq<nat>)
    ensures Picks(|all|, FirstOfKey(all), idx) && Taken(all, max, idx, EmitAll([], max, all))
  {
    hide SameKey;
    idx := [];
    if all != [] {
      var front, t := all[..|all| - 1], all[|all| - 1];
      assert all == front + [t];
      idx := EmitTakes(max, front);
      PicksSame(|front|, FirstOfKey(front), FirstOfKey(all), idx);
      PicksMore(|front|, FirstOfKey(all), idx);
      AppendTakes(max, front, t, idx, EmitAll([], max, front));
      if FirstOfKey(all)(|front|) { idx := idx + [|front|]; }
    }
  }

  lemma AppendTakes(max: nat, front: seq<Tool>, t: Tool, idx: seq<nat>, out: seq<Tool>)
    requires Picks(|front|, FirstOfKey(front), idx) && Taken(front, max, idx, out)
    ensures Taken(front + [t], max, if FirstOfKey(front + [t])(|front|) then idx + [|front|] else idx, Append(out, max, t))
  {
    hide SameKey, NameKey, Picks;
    if |idx| < max || max == 0 { SeenFirst(front, t, idx, out); }
  }

  /** While there is room a key is on the list exactly if an earlier tool has it. */
  lemma SeenFirst(front: seq<Tool>, t: Tool, idx: seq<nat>, out: seq<Tool>)
    requires Picks(|front|, FirstOfKey(front), idx) && |out| == |idx|
    requires forall k :: 0 <= k < |out| ==> idx[k] < |front| && out[k] == front[idx[k]]
    ensures Seen(out, NameKey(t)) <==> !FirstOfKey(front + [t])(|front|)
  {
    KeyIs(t);
    hide SameKey, NameKey, Trim, Lower;
    if Seen(out, NameKey(t)) {
      var k :| 0 <= k < |out| && NameKey(out[k]) == NameKey(t);
      assert SameKey((front + [t])[idx[k]], t);
    }
    if !FirstOfKey(front + [t])(|front|) {
      var j :| 0 <= j < |front| && SameKey(front[j], t);
      var i := FirstKey(front, j);
      assert i in idx;
      var k :| 0 <= k < |idx| && idx[k] == i;
      assert SameKey(out[k], t) by { KeyIs(front[i]); KeyIs(front[j]); }
      assert NameKey(out[k]) == NameKey(t);
    }
  }

  lemma KeyIs(t: Tool)
    ensures forall u :: SameKey(u, t) <==> NameKey(u) == NameKey(t)
  {
    hide Trim, Lower;
  }

  lemma {:induction false} FirstKey(all: seq<Tool>, j: nat) returns (i: nat)
    requires j < |all|
    ensures i <= j && FirstOfKey(all)(i) && NameKey(all[i]) == NameKey(all[j])
    decreases j
  {
    hide SameKey, NameKey;
    i := j;
    if !FirstOfKey(all)(j) {
      var h :| 0 <= h < j && SameKey(all[h], all[j]);
      KeyIs(all[j]);
      i := FirstKey(all, h);
    }
  }

  // What is left beside the search tools

  /** Functions of the same name, up to case. */
  predicate Twins(t: Tool, u: Tool)
  {
    IsFunction(t) && IsFunction(u) && Lower(Trim(t.name)) != "" && Lower(Trim(t.name)) == Lower(Trim(u.name))
  }

  function Apart(out: seq<Tool>): nat -> bool
  {
    (i: nat) => i < |out| && !Searches(out[i]) && forall j :: 0 <= j < i ==> !Twins(out[j], out[i])
  }

  function NoSearch(out: seq<Tool>): nat -> bool
  {
    (i: nat) => i < |out| && !Searches(out[i])
  }

  /** The tools at these places, in order. */
  ghost predicate Chosen(out: seq<Tool>, wanted: nat -> bool, rest: seq<Tool>, idx: seq<nat>)
  {
    Picks(|out|, wanted, idx) && |rest| == |idx| && forall k :: 0 <= k < |idx| ==> idx[k] < |out| && rest[k] == out[idx[k]]
  }

  /** The bare search tools that the list asks for, itself or by a function called so. */
  function Heads(out: seq<Tool>): seq<Tool>
  {
    (if exists k :: 0 <= k < |out| && Calls(out[k], "web_search") then [Only("web_search", "")] else [])
    + if exists k :: 0 <= k < |out| && Calls(out[k], "x_search") then [Only("x_search", "")] else []
  }

  /** What stripping or collapsing makes of the tools kept. */
  ghost predicate Left(out: seq<Tool>, disabled: bool, r: seq<Tool>)
  {
    if disabled then exists idx: seq<nat> :: Chosen(out, NoSearch(out), r, idx)
    else if forall k :: 0 <= k < |out| ==> !Searches(out[k]) then r == out
    else exists rest: seq<Tool>, idx: seq<nat> :: Chosen(out, Apart(out), rest, idx) && r == Heads(out) + rest
  }

  lemma TwinsAre(t: Tool, u: Tool)
    ensures SameFunction(t, u) <==> Twins(t, u)
    ensures Twins(t, u) ==> Searches(t) == Searches(u)
  {
    hide Trim, Lower;
    assert "function"[0] == 'f' && "web_search"[0] == 'w' && "x_search"[0] == 'x';
  }

  lemma ChosenNext(out: seq<Tool>, t: Tool, before: nat -> bool, wanted: nat -> bool, rest: seq<Tool>, idx: seq<nat>)
    requires Chosen(out, before, rest, idx) && forall i: nat :: i < |out| ==> before(i) == wanted(i)
    ensures Chosen(out + [t], wanted, if wanted(|out|) then rest + [t] else rest, if wanted(|out|) then idx + [|out|] else idx)
  {
    hide Picks;
    PicksSame(|out|, before, wanted, idx);
    PicksMore(|out|, wanted, idx);
  }

  lemma {:induction false} StripChooses(tools: seq<Tool>) returns (idx: seq<nat>)
    ensures Chosen(tools, NoSearch(tools), StripSearch(tools), idx)
  {
    hide Searches, IsSearchTool, Chosen;
    idx := [];
    if tools == [] {
      assert Chosen(tools, NoSearch(tools), [], []) by { NoneChosen(NoSearch(tools), tools); }
    } else {
      var front, t := tools[..|tools| - 1], tools[|tools| - 1];
      assert tools == front + [t];
      idx := StripChooses(front);
      SearchToolIs(t);
      ChosenNext(front, t, NoSearch(front), NoSearch(tools), StripSearch(front), idx);
      assert StripSearch(front) + [] == StripSearch(front);
      if !Searches(t) { idx := idx + [|front|]; }
    }
  }

  lemma NoneChosen(wanted: nat -> bool, tools: seq<Tool>)
    requires tools == []
    ensures Chosen(tools, wanted, [], [])
  {
  }

  lemma {:induction false} OthersChoose(tools: seq<Tool>) returns (idx: seq<nat>)
    ensures Chosen(tools, Apart(tools), Others(tools), idx)
  {
    hide Searches, IsSearchTool, Chosen, SameFunction, Twins;
    idx := [];
    if tools == [] {
      NoneChosen(Apart(tools), tools);
    } else {
      var front, t := tools[..|tools| - 1], tools[|tools| - 1];
      assert tools == front + [t];
      idx := OthersChoose(front);
      SearchToolIs(t);
      TwinKept(front, t, idx);
      ChosenNext(front, t, Apart(front), Apart(tools), Others(front), idx);
      if Apart(tools)(|front|) { idx := idx + [|front|]; }
    }
  }

  /** For a tool that does not search, a twin among the kept is a twin among all. */
  lemma TwinKept(front: seq<Tool>, t: Tool, idx: seq<nat>)
    requires Chosen(front, Apart(front), Others(front), idx)
    ensures !Searches(t) ==>
              ((exists i :: 0 <= i < |Others(front)| && SameFunction(Others(front)[i], t)) <==> exists j :: 0 <= j < |front| && Twins(front[j], t))
  {
    hide Searches, SameFunction, Twins, Others;
    var o := Others(front);
    if i :| 0 <= i < |o| && SameFunction(o[i], t) {
      TwinsAre(o[i], t);
      assert Twins(front[idx[i]], t);
    }
    if !Searches(t) && exists j :: 0 <= j < |front| && Twins(front[j], t) {
      var j :| 0 <= j < |front| && Twins(front[j], t);
      TwinsAre(front[j], t);
      var i := FirstTwin(front, j);
      assert i in idx;
      var k :| 0 <= k < |idx| && idx[k] == i;
      TwinsJoin(front[i], front[j], t);
      TwinsAre(o[k], t);
    }
  }

  lemma TwinsJoin(a: Tool, b: Tool, c: Tool)
    requires a == b || Twins(a, b)
    requires Twins(b, c)
    ensures Twins(a, c)
  {
  }

  lemma {:induction false} FirstTwin(all: seq<Tool>, j: nat) returns (i: nat)
    requires j < |all| && !Searches(all[j])
    ensures i <= j && Apart(all)(i) && (all[i] == all[j] || Twins(all[i], all[j]))
    decreases j
  {
    hide Searches, Twins;
    i := j;
    if !Apart(all)(j) {
      var h :| 0 <= h < j && Twins(all[h], all[j]);
      TwinsAre(all[h], all[j]);
      i := FirstTwin(all, h);
      TwinsJoin(all[i], all[h], all[j]);
    }
  }

  lemma NeedsAre(tools: seq<Tool>, name: string)
    ensures Needs(tools, name) <==> exists k :: 0 <= k < |tools| && Calls(tools[k], name)
  {
    hide Trim, Lower;
    if Needs(tools, name) {
      var k :| 0 <= k < |tools| && Wants(tools[k], name);
      assert Calls(tools[k], name);
    }
    if exists k :: 0 <= k < |tools| && Calls(tools[k], name) {
      var k :| 0 <= k < |tools| && Calls(tools[k], name);
      assert Wants(tools[k], name);
    }
  }

  lemma CollapseLeaves(out: seq<Tool>, disabled: bool)
    ensures Left(out, disabled, Collapse(if disabled then StripSearch(out) else out))
  {
    hide IsSearchTool, Chosen, Others, Calls, Needs;
    if disabled {
      var idx := StripChooses(out);
      NothingWanted(StripSearch(out));
    } else {
      NeedsAre(out, "web_search");
      NeedsAre(out, "x_search");
      if Needs(out, "web_search") || Needs(out, "x_search") {
        var idx := OthersChoose(out);
        assert Collapse(out) == Heads(out) + Others(out);
      }
    }
  }

  /**
   The adapted list, read off the client's: `offers` holds what each declared tool is sent
   on as and last the search function, `kept` the first tool of each type and name among
   them, as many as fit, and the result is what stripping or collapsing leaves of those.
   */
  lemma NormalizeTells(hash: string -> string, max: nat, tools: seq<Tool>)
    returns (table: A.Table, offers: seq<seq<Tool>>, kept: seq<Tool>, idx: seq<nat>, left: seq<Tool>)
    requires Normalize(hash, max, tools).Tools?
    ensures |offers| == |tools| + 1
    ensures forall i :: 0 <= i < |tools| ==> Offered(table, tools[i], offers[i])
    ensures SearchOffered(table, tools, offers[|tools|])
    ensures Picks(|Flat(offers)|, FirstOfKey(Flat(offers)), idx) && Taken(Flat(offers), max, idx, kept)
    ensures Left(kept, exists i :: 0 <= i < |tools| && Forbids(tools[i]), left)
    ensures Normalize(hash, max, tools).tools == if max > 0 && |left| > max then left[..max] else left
  {
    hide Walk, FindSearch, AddSearch, Collapse, StripSearch, Offered, SearchOffered, Taken, Left, EmitAll, Extends, Lines, Forbids, Is, Picks;
    var declared := FindSearch(tools);
    assert tools[..|tools|] == tools;
    var walked := Walk(hash, max, Start(declared.tool), tools).value;
    var st := AddSearch(hash, max, walked).value;
    var front := WalkEmits(hash, max, declared.tool, tools, |tools|);
    SearchFound(tools);
    var last: seq<Tool> := [];
    WalkKeepsSearch(hash, max, declared.tool, tools);
    if declared.tool.Some? {
      var lines := WalkLines(hash, max, declared.tool, tools, |tools|);
      last := SearchEmits(hash, max, walked, tools, lines);
    } else {
      NoSearchOffered(hash, max, walked, tools);
    }
    FlatNext(front, last);
    EmitTogether([], max, Flat(front), last);
    offers := front + [last];
    table := st.table;
    forall i | 0 <= i < |tools| ensures Offered(table, tools[i], offers[i]) {
      OfferedStays(walked.table, table, tools[i], front[i]);
    }
    kept := st.out;
    idx := EmitTakes(max, Flat(offers));
    left := Collapse(if st.disabled then StripSearch(st.out) else st.out);
    CollapseLeaves(st.out, st.disabled);
    WalkAnswers(hash, max, declared.tool, tools, |tools|);
    SearchKeepsSwitch(hash, max, walked);
  }

  lemma WalkKeepsSearch(hash: string -> string, max: nat, search: Option<Tool>, tools: seq<Tool>)
    requires Walk(hash, max, Start(search), tools).Some?
    ensures Walk(hash, max, Start(search), tools).value.search == search
  {
    hide Walk, Honoured;
    assert tools[..|tools|] == tools;
    WalkAccepted(hash, max, search, tools, |tools|);
  }

  lemma NoSearchOffered(hash: string -> string, max: nat, st: State, tools: seq<Tool>)
    requires st.search.None? && forall i :: 0 <= i < |tools| ==> !Is(tools[i], "tool_search")
    ensures AddSearch(hash, max, st) == Some(st) && Emits(st, max, st, []) && SearchOffered(st.table, tools, [])
  {
    hide Is;
    NoneEmits(st, max);
  }

  lemma SearchKeepsSwitch(hash: string -> string, max: nat, st: State)
    requires AddSearch(hash, max, st).Some?
    ensures AddSearch(hash, max, st).value.disabled == st.disabled
  {
    hide Registered, SearchText, Append;
  }
}
