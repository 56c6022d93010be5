/**
 Requests are adapted two or three times on their way. What adapting the tools guarantees:
 a bounded list with one tool per name and search tools bare, which a second adaptation
 leaves alone exactly when no emitted function is called apply_patch or has an untrimmed
 description.
 */
module ToolsIdempotent {
  import opened Basics
  import opened Tools
  import A = ToolAliases
  import opened ToolNames

  // Text

  lemma Literal(s: string)
    requires Tight(s) && forall k :: 0 <= k < |s| ==> LowerChar(s[k]) == s[k]
    ensures TypeOf(Bare(s)) == s && Trim(s) == s
  {
    TrimTight(s);
    assert Lower(s) == s;
  }

  lemma Literals()
    ensures TypeOf(Bare("function")) == "function" && TypeOf(Bare("web_search")) == "web_search"
    ensures TypeOf(Bare("x_search")) == "x_search" && TypeOf(Bare("shell")) == "shell" && Trim("") == ""
  {
    Literal("function");
    Literal("web_search");
    Literal("x_search");
    Literal("shell");
    TrimTight("");
  }

  // The forms that are emitted

  predicate FunctionForm(t: Tool)
  {
    t.parameters.Some? && t == Function(t.name, t.description, t.parameters.value, t.strict) && Tight(t.name) && t.name != ""
  }

  predicate ShellForm(t: Tool)
  {
    t.environment.Some? && t == Bare("shell").(environment := t.environment, name := t.name) && Tight(t.name)
  }

  predicate Form(t: Tool)
  {
    || FunctionForm(t) || t == Bare("web_search") || ShellForm(t)
    || (TypeOf(t) == "mcp" && CleanMcp(t) == t) || (IsBuiltin(TypeOf(t)) && CleanBuiltin(t) == t)
  }

  /** A function that a second pass emits as it is. */
  predicate Settled(t: Tool)
  {
    FunctionForm(t) ==> !IsPatchName(t.name) && Tight(t.description)
  }

  predicate AllSettled(out: seq<Tool>)
  {
    forall i :: 0 <= i < |out| ==> Settled(out[i])
  }

  ghost predicate DistinctKeys(out: seq<Tool>)
  {
    forall i, j :: 0 <= i < j < |out| ==> NameKey(out[i]) != NameKey(out[j])
  }

  ghost predicate Tidy(max: nat, out: seq<Tool>)
  {
    (forall i :: 0 <= i < |out| ==> Form(out[i])) && DistinctKeys(out) && (max > 0 ==> |out| <= max)
  }

  // One tool

  /** What the loop keeps; `strict` while no custom tool is called apply_patch. */
  ghost predicate Kept(st: State, max: nat, strict: bool)
  {
    Tidy(max, st.out) && GoodTable(st.table, strict) && PatchOwned(st.table) && (strict ==> AllSettled(st.out))
  }

  lemma AppendTidy(out: seq<Tool>, max: nat, t: Tool)
    requires Tidy(max, out) && Form(t)
    ensures Tidy(max, Append(out, max, t))
  {
    hide NameKey, Form;
  }

  lemma AppendSettled(out: seq<Tool>, max: nat, t: Tool)
    requires AllSettled(out) && Settled(t)
    ensures AllSettled(Append(out, max, t))
  {
    hide Settled, Seen;
  }

  lemma EmitKept(st: State, max: nat, t: Tool, strict: bool)
    requires Kept(st, max, strict) && Form(t) && (strict ==> Settled(t))
    ensures Kept(Emit(st, max, t), max, strict)
  {
    hide Tidy, Form, Settled, Append, AllSettled, GoodTable, PatchOwned;
    AppendTidy(st.out, max, t);
    if strict { AppendSettled(st.out, max, t); }
  }

  lemma FunctionForms(name: string, description: string, parameters: Schema, strictness: Option<string>, strict: bool)
    requires GoodName(name, strict)
    ensures var t := Function(name, description, parameters, strictness);
            Form(t) && (strict && Tight(description) ==> Settled(t))
  {
  }

  lemma AsFunctionForms(t: Tool, alias: string, strict: bool)
    requires GoodName(alias, strict)
    ensures var f := AsFunction(t).(name := alias); Form(f) && (strict ==> Settled(f))
  {
    TrimTight(t.description);
    FunctionForms(alias, Trim(t.description), if t.parameters.Some? then t.parameters.value else EMPTY_SCHEMA, t.strict, strict);
  }

  lemma PatchTextTight()
    ensures Tight(PATCH_TEXT)
  {
    assert PATCH_TEXT[0] == 'P' && PATCH_TEXT[|PATCH_TEXT| - 1] == '.';
  }

  lemma PatchForms(alias: string, strict: bool)
    requires GoodName(alias, strict)
    ensures Form(PatchFunction(alias)) && (strict ==> Settled(PatchFunction(alias)))
  {
    PatchTextTight();
    FunctionForms(alias, PATCH_TEXT, PATCH_SCHEMA, Some("true"), strict);
  }

  lemma {:induction false} ChildrenKept(hash: string -> string, max: nat, st: State, space: string, children: seq<Tool>, strict: bool)
    requires Digits(hash) && Kept(st, max, strict) && Tight(space) && space != ""
    ensures var r := Children(hash, max, st, space, children); r.Some? ==> Kept(r.value, max, strict)
  {
    hide Kept, Digits, Registered, Emit, Form, Settled, AsFunction, GoodTable, PatchOwned, GoodName;
    if children != [] {
      ChildrenKept(hash, max, st, space, children[..|children| - 1], strict);
      var before := Children(hash, max, st, space, children[..|children| - 1]);
      var c := children[|children| - 1];
      if before.Some? && IsFunctionChild(c) && !c.deferred {
        ChildKept(hash, max, before.value, space, c, strict);
      }
    }
  }

  lemma ChildKept(hash: string -> string, max: nat, st: State, space: string, c: Tool, strict: bool)
    requires Digits(hash) && Kept(st, max, strict) && Tight(space) && space != "" && IsFunctionChild(c)
    ensures var (table, alias) := Registered(hash, st.table, A.Identity(A.FunctionTool, space, Trim(c.name)));
            Kept(Emit(st.(table := table), max, AsFunction(c).(name := alias)), max, strict)
  {
    hide Digits, Registered, Emit, Form, Settled, AsFunction, GoodTable, PatchOwned, GoodName, Tidy, AllSettled;
    TrimTight(c.name);
    var i := A.Identity(A.FunctionTool, space, Trim(c.name));
    var (table, alias) := Registered(hash, st.table, i);
    RegisteredGood(hash, st.table, i, strict);
    RegisteredOwned(hash, st.table, i);
    AsFunctionForms(c, alias, strict);
    EmitKept(st.(table := table), max, AsFunction(c).(name := alias), strict);
  }

  lemma NamespaceKept(hash: string -> string, max: nat, st: State, t: Tool, strict: bool)
    requires Digits(hash) && Kept(st, max, strict)
    ensures var r := Namespace(hash, max, st, t); r.Some? ==> Kept(r.value, max, strict)
  {
    hide Digits, Children, HasDeferred, Surface, Tidy, AllSettled, GoodTable, PatchOwned;
    var space := Trim(t.name);
    TrimTight(t.name);
    if space != "" {
      var st1 := if st.search.Some? && HasDeferred(t.children) then AddSurface(st, space, Trim(t.description)) else st;
      ChildrenKept(hash, max, st1, space, t.children, strict);
    }
  }

  lemma OrTight(s: string, otherwise: string)
    requires Tight(otherwise) && otherwise != ""
    ensures Tight(Or(s, otherwise)) && Or(s, otherwise) != ""
  {
    TrimTight(s);
  }

  lemma CustomTextTight(t: Tool, name: string)
    requires Tight(name) && name != ""
    ensures Tight(CustomText(t, name))
  {
    var otherwise := "Custom tool " + name;
    assert otherwise[0] == 'C' && otherwise[|otherwise| - 1] == name[|name| - 1];
    OrTight(t.description, otherwise);
    var d := Or(t.description, otherwise);
    assert (d + CUSTOM_HINT)[0] == d[0] && (d + CUSTOM_HINT)[|d| + |CUSTOM_HINT| - 1] == '.';
  }

  lemma CustomKept(hash: string -> string, max: nat, st: State, t: Tool, strict: bool)
    requires Digits(hash) && Kept(st, max, strict) && (strict ==> !IsPatchName(Or(t.name, "custom_tool")))
    ensures var r := Custom(hash, max, st, t); r.Some? ==> Kept(r.value, max, strict)
  {
    hide Digits, Emit, Form, Settled, GoodTable, PatchOwned, Tidy, AllSettled, Registered, CustomText;
    if !t.rejected {
      var name := Or(t.name, "custom_tool");
      OrTight(t.name, "custom_tool");
      CustomTextTight(t, name);
      var i := A.Identity(A.CustomTool, "", name);
      var (table, alias) := Registered(hash, st.table, i);
      RegisteredGood(hash, st.table, i, strict);
      RegisteredOwned(hash, st.table, i);
      var parameters := if t.parameters.Some? then t.parameters.value else FREEFORM_SCHEMA;
      FunctionForms(alias, CustomText(t, name), parameters, None, strict);
      EmitKept(st.(table := table), max, Function(alias, CustomText(t, name), parameters, None), strict);
    }
  }

  lemma PatchKept(hash: string -> string, max: nat, st: State, strict: bool, t: Tool, asIs: bool)
    requires Digits(hash) && Kept(st, max, strict)
    ensures var (table, alias) := Registered(hash, st.table, A.Identity(A.PatchTool, "", "apply_patch"));
            Kept(Emit(st.(table := table), max, if asIs then AsFunction(t).(name := alias) else PatchFunction(alias)), max, strict)
  {
    hide Digits, Emit, Form, Settled, GoodTable, PatchOwned, GoodName, Tidy, AllSettled, Registered, AsFunction;
    var i := A.Identity(A.PatchTool, "", "apply_patch");
    var (table, alias) := Registered(hash, st.table, i);
    RegisteredGood(hash, st.table, i, strict);
    RegisteredOwned(hash, st.table, i);
    PatchForms(alias, strict);
    AsFunctionForms(t, alias, strict);
    EmitKept(st.(table := table), max, if asIs then AsFunction(t).(name := alias) else PatchFunction(alias), strict);
  }

  lemma PlainKept(hash: string -> string, max: nat, st: State, t: Tool, strict: bool)
    requires Digits(hash) && Kept(st, max, strict)
    ensures var r := Plain(hash, max, st, t); r.Some? ==> Kept(r.value, max, strict)
  {
    hide Digits, Emit, Form, Settled, GoodTable, PatchOwned, Tidy, AllSettled, Registered, Surface;
    TrimTight(t.name);
    if Trim(t.name) == "" || t.deferred {
    } else if IsPatchName(Trim(t.name)) {
      PatchKept(hash, max, st, strict, t, AsFunction(t).parameters.value.hasOperation);
    } else {
      AsFunctionForms(t, Trim(t.name), strict);
      EmitKept(st, max, AsFunction(t), strict);
    }
  }

  lemma NoFunction(t: Tool)
    requires TypeOf(t) != "function"
    ensures Settled(t)
  {
    Literals();
    assert FunctionForm(t) ==> t.typ == "function";
  }

  lemma ShellForms(t: Tool)
    requires t.environment.Some?
    ensures var s := Bare("shell").(environment := t.environment, name := Trim(t.name)); Form(s) && Settled(s)
  {
    TrimTight(t.name);
  }

  lemma McpForms(t: Tool)
    requires TypeOf(t) == "mcp"
    ensures Form(CleanMcp(t)) && Settled(CleanMcp(t))
  {
    assert TypeOf(CleanMcp(t)) == TypeOf(t);
    NoFunction(CleanMcp(t));
  }

  lemma BuiltinForms(t: Tool)
    requires IsBuiltin(TypeOf(t))
    ensures Form(CleanBuiltin(t)) && Settled(CleanBuiltin(t))
  {
    LowerTrimStable(t.typ);
    LowerTrimStable(t.name);
    LowerTrimStable(t.description);
    assert TypeOf(CleanBuiltin(t)) == TypeOf(t);
    assert CleanBuiltin(CleanBuiltin(t)) == CleanBuiltin(t);
    NoFunction(CleanBuiltin(t));
  }

  lemma OneKept(hash: string -> string, max: nat, st: State, t: Tool, strict: bool)
    requires Digits(hash) && Kept(st, max, strict)
    requires strict && TypeOf(t) == "custom" ==> !IsPatchName(Or(t.name, "custom_tool"))
    ensures var r := One(hash, max, st, t); r.Some? ==> Kept(r.value, max, strict)
  {
    hide Digits, Emit, Form, Settled, GoodTable, PatchOwned, GoodName, Tidy, AllSettled, Registered, Namespace, Custom, Plain, TypeOf, Surface,
      CleanMcp, CleanBuiltin, Trim, Or, IsPatchName;
    var typ := TypeOf(t);
    if typ == "namespace" {
      NamespaceKept(hash, max, st, t, strict);
    } else if typ == "tool_search" {
    } else if IsWebSearch(typ) {
      BareForms();
      EmitKept(st.(backend := if t.access.Some? then t.access else st.backend), max, Bare("web_search"), strict);
    } else if typ == "local_shell" {
      LocalForms();
      EmitKept(st.(legacyShell := true), max, Bare("shell").(environment := Some("local")), strict);
    } else if typ == "shell" {
      ShellKept(max, st, t, strict);
    } else if typ == "apply_patch" {
      PatchKept(hash, max, st, strict, t, false);
    } else if typ == "custom" {
      CustomKept(hash, max, st, t, strict);
    } else if typ == "mcp" {
      McpForms(t);
      EmitKept(st, max, CleanMcp(t), strict);
    } else if typ == "function" || typ == "" {
      PlainKept(hash, max, st, t, strict);
    } else if IsBuiltin(typ) {
      BuiltinForms(t);
      EmitKept(st, max, CleanBuiltin(t), strict);
    }
  }

  lemma BareForms()
    ensures Form(Bare("web_search")) && Settled(Bare("web_search"))
  {
  }

  lemma LocalForms()
    ensures var s := Bare("shell").(environment := Some("local")); Form(s) && Settled(s)
  {
  }

  lemma ShellKept(max: nat, st: State, t: Tool, strict: bool)
    requires Kept(st, max, strict)
    ensures var r := Shell(max, st, t); r.Some? ==> Kept(r.value, max, strict)
  {
    hide Emit, Form, Settled, GoodTable, PatchOwned, Tidy, AllSettled;
    if t.environment.None? {
      var d := Or(t.description, "Run a shell command.");
      OrTight(t.description, "Run a shell command.");
      ShellCommandName(strict);
      FunctionForms("shell_command", d, SHELL_SCHEMA, None, strict);
      EmitKept(st, max, Function("shell_command", d, SHELL_SCHEMA, None), strict);
    } else {
      ShellForms(t);
      EmitKept(st.(nativeShell := true), max, Bare("shell").(environment := t.environment, name := Trim(t.name)), strict);
    }
  }

  lemma ShellCommandName(strict: bool)
    ensures GoodName("shell_command", strict)
  {
    assert Lower("shell_command")[0] == 's';
  }

  // The whole list

  /** No custom tool is called apply_patch, which would come out as a function of that name. */
  predicate NoCustomPatch(tools: seq<Tool>)
  {
    forall i :: 0 <= i < |tools| && TypeOf(tools[i]) == "custom" ==> !IsPatchName(Or(tools[i].name, "custom_tool"))
  }

  lemma {:induction false} WalkKept(hash: string -> string, max: nat, st: State, tools: seq<Tool>, strict: bool)
    requires Digits(hash) && Kept(st, max, strict) && (strict ==> NoCustomPatch(tools))
    ensures var r := Walk(hash, max, st, tools);
            r.Some? ==> Kept(r.value, max, strict) && r.value.search == st.search
  {
    hide Digits, Kept, One, TypeOf, IsPatchName, Or;
    if tools != [] {
      var front := tools[..|tools| - 1];
      WalkKept(hash, max, st, front, strict);
      var before := Walk(hash, max, st, front);
      if before.Some? {
        OneKept(hash, max, before.value, tools[|tools| - 1], strict);
        SearchStays(hash, max, before.value, tools[|tools| - 1]);
      }
    }
  }

  // Nothing emitted is taken back, and the declared search stays

  lemma {:induction false} ChildrenSearch(hash: string -> string, max: nat, st: State, space: string, children: seq<Tool>)
    ensures var r := Children(hash, max, st, space, children); r.Some? ==> r.value.search == st.search && st.out <= r.value.out
  {
    if children != [] { ChildrenSearch(hash, max, st, space, children[..|children| - 1]); }
  }

  lemma SearchStays(hash: string -> string, max: nat, st: State, t: Tool)
    ensures var r := One(hash, max, st, t); r.Some? ==> r.value.search == st.search && st.out <= r.value.out
  {
    hide TypeOf, Namespace, Plain, Custom, Mcp, Patch, Emit, WebSearch, LocalShell, Shell, IsWebSearch, IsBuiltin, CleanBuiltin;
    NamespaceSearch(hash, max, st, t);
    AliasedSearch(hash, max, st, t);
    McpSearch(max, st, t);
    EmitSearch(st, max, CleanBuiltin(t));
    WebSearchStays(max, st, t);
    ShellSearch(max, st, t);
  }

  lemma EmitSearch(st: State, max: nat, t: Tool)
    ensures Emit(st, max, t).search == st.search && st.out <= Emit(st, max, t).out
  {
  }

  lemma WebSearchStays(max: nat, st: State, t: Tool)
    ensures var r := WebSearch(max, st, t); r.Some? ==> r.value.search == st.search && st.out <= r.value.out
  {
    hide Append;
  }

  lemma ShellSearch(max: nat, st: State, t: Tool)
    ensures var r := LocalShell(max, st, t); r.Some? ==> r.value.search == st.search && st.out <= r.value.out
    ensures var r := Shell(max, st, t); r.Some? ==> r.value.search == st.search && st.out <= r.value.out
  {
    hide Append, Trim, Or;
  }

  lemma McpSearch(max: nat, st: State, t: Tool)
    ensures var r := Mcp(max, st, t); r.Some? ==> r.value.search == st.search && st.out <= r.value.out
  {
    hide Append, Trim, Or, Surface, CleanMcp;
  }

  lemma AliasedSearch(hash: string -> string, max: nat, st: State, t: Tool)
    ensures var r := Custom(hash, max, st, t); r.Some? ==> r.value.search == st.search && st.out <= r.value.out
    ensures var r := Patch(hash, max, st, t); r.Some? ==> r.value.search == st.search && st.out <= r.value.out
    ensures var r := Plain(hash, max, st, t); r.Some? ==> r.value.search == st.search && st.out <= r.value.out
  {
    hide Append, Trim, Or, Surface, Registered, CustomText, AsFunction, PatchFunction, IsPatchName;
  }

  lemma NamespaceSearch(hash: string -> string, max: nat, st: State, t: Tool)
    ensures var r := Namespace(hash, max, st, t); r.Some? ==> r.value.search == st.search && st.out <= r.value.out
  {
    hide Children, Surface, HasDeferred, Trim;
    ChildrenSearch(hash, max, st, Trim(t.name), t.children);
    ChildrenSearch(hash, max, AddSurface(st, Trim(t.name), Trim(t.description)), Trim(t.name), t.children);
  }

  /** The text of the search function, if there is one, is trimmed. */
  predicate SearchTidy(st: State)
  {
    st.search.Some? ==> Tight(SearchText(st.search.value, st.surfaces))
  }

  lemma AddSearchKept(hash: string -> string, max: nat, st: State, strict: bool)
    requires Digits(hash) && Kept(st, max, strict) && (strict ==> SearchTidy(st))
    ensures var r := AddSearch(hash, max, st); r.Some? ==> Kept(r.value, max, strict)
  {
    hide Digits, Emit, Form, Settled, GoodTable, PatchOwned, Tidy, AllSettled, Registered, SearchText;
    if st.search.Some? && !st.search.value.rejected {
      var tool := st.search.value;
      var i := A.Identity(A.SearchTool, "", "tool_search");
      var (table, alias) := Registered(hash, st.table, i);
      RegisteredGood(hash, st.table, i, strict);
      RegisteredOwned(hash, st.table, i);
      var parameters := if tool.parameters.Some? then tool.parameters.value else OPEN_SCHEMA;
      FunctionForms(alias, SearchText(tool, st.surfaces), parameters, None, strict);
      EmitKept(st.(table := table), max, Function(alias, SearchText(tool, st.surfaces), parameters, None), strict);
    }
  }

  // Stripping and collapsing

  lemma {:induction false} StripKeeps(tools: seq<Tool>)
    requires DistinctKeys(tools)
    ensures DistinctKeys(StripSearch(tools)) && |StripSearch(tools)| <= |tools|
  {
    hide NameKey, IsSearchTool;
    if tools != [] {
      var front, t := tools[..|tools| - 1], tools[|tools| - 1];
      assert forall i :: 0 <= i < |front| ==> front[i] == tools[i];
      StripKeeps(front);
      StripOther(front, t);
    }
  }

  lemma StripOther(front: seq<Tool>, t: Tool)
    requires forall k :: 0 <= k < |front| ==> NameKey(front[k]) != NameKey(t)
    ensures forall i :: 0 <= i < |StripSearch(front)| ==> NameKey(StripSearch(front)[i]) != NameKey(t)
  {
    hide NameKey, IsSearchTool, StripSearch;
    forall i | 0 <= i < |StripSearch(front)| ensures NameKey(StripSearch(front)[i]) != NameKey(t) {
      assert StripSearch(front)[i] in front;
      var k :| 0 <= k < |front| && front[k] == StripSearch(front)[i];
    }
  }

  lemma StripTidy(max: nat, tools: seq<Tool>)
    requires Tidy(max, tools)
    ensures Tidy(max, StripSearch(tools)) && (AllSettled(tools) ==> AllSettled(StripSearch(tools)))
  {
    hide Form, Settled, NameKey, IsSearchTool;
    StripKeeps(tools);
    forall i | 0 <= i < |StripSearch(tools)|
      ensures Form(StripSearch(tools)[i]) && (AllSettled(tools) ==> Settled(StripSearch(tools)[i]))
    {
      assert StripSearch(tools)[i] in tools;
    }
  }

  lemma {:induction false} OthersFrom(tools: seq<Tool>)
    ensures forall t :: t in Others(tools) ==> t in tools && !IsSearchTool(t)
    ensures forall i, j :: 0 <= i < j < |Others(tools)| ==> !SameFunction(Others(tools)[i], Others(tools)[j])
    ensures DistinctKeys(tools) ==> DistinctKeys(Others(tools))
  {
    hide NameKey, IsSearchTool, SameFunction;
    if tools != [] {
      var front, t := tools[..|tools| - 1], tools[|tools| - 1];
      OthersFrom(front);
      if DistinctKeys(tools) {
        forall i | 0 <= i < |Others(front)| ensures NameKey(Others(front)[i]) != NameKey(t) {
          var u := Others(front)[i];
          assert u in front;
          var k :| 0 <= k < |front| && front[k] == u;
          assert tools[k] == u;
        }
      }
    }
  }

  lemma OthersOne(front: seq<Tool>, t: Tool)
    requires Others(front) == front && !IsSearchTool(t) && forall i :: 0 <= i < |front| ==> !SameFunction(front[i], t)
    ensures Others(front + [t]) == front + [t]
  {
    hide IsSearchTool, SameFunction;
    assert (front + [t])[..|front|] == front;
  }

  /** A list without search tools and doubled functions is left as it is. */
  lemma {:induction false} OthersSame(tools: seq<Tool>)
    requires forall i :: 0 <= i < |tools| ==> !IsSearchTool(tools[i])
    requires forall i, j :: 0 <= i < j < |tools| ==> !SameFunction(tools[i], tools[j])
    ensures Others(tools) == tools
  {
    hide IsSearchTool, SameFunction;
    if tools != [] {
      var front, t := tools[..|tools| - 1], tools[|tools| - 1];
      hide Others;
      assert forall i :: 0 <= i < |front| ==> front[i] == tools[i];
      OthersSame(front);
      OthersOne(front, t);
      assert tools == front + [t];
    }
  }

  lemma NeedsSearchTool(tools: seq<Tool>, name: string)
    requires IsSearch(name) && forall t :: t in tools ==> !IsSearchTool(t)
    ensures !Needs(tools, name)
  {
    forall i | 0 <= i < |tools| ensures !Wants(tools[i], name) {
      assert tools[i] in tools;
    }
  }

  lemma NeedsAppend(front: seq<Tool>, t: Tool, name: string)
    ensures Needs(front + [t], name) <==> Needs(front, name) || Wants(t, name)
  {
    hide Wants;
    var all := front + [t];
    assert all[|front|] == t && forall i :: 0 <= i < |front| ==> all[i] == front[i];
  }

  function Bit(b: bool): nat
  {
    if b then 1 else 0
  }

  /** Each bare search tool put in front replaces at least one tool taken out. */
  lemma {:induction false} NeverGrows(tools: seq<Tool>)
    ensures |Others(tools)| + Bit(Needs(tools, "web_search")) + Bit(Needs(tools, "x_search")) <= |tools|
  {
    hide Needs, Wants, SameFunction;
    if tools == [] {
      assert !Needs(tools, "web_search") && !Needs(tools, "x_search") by { NeedsSearchTool(tools, "web_search"); NeedsSearchTool(tools, "x_search"); }
    } else {
      var front, t := tools[..|tools| - 1], tools[|tools| - 1];
      NeverGrows(front);
      assert tools == front + [t];
      NeedsAppend(front, t, "web_search");
      NeedsAppend(front, t, "x_search");
      WantsOne(t);
    }
  }

  lemma WantsOne(t: Tool)
    ensures Wants(t, "web_search") || Wants(t, "x_search") <==> IsSearchTool(t)
    ensures !(Wants(t, "web_search") && Wants(t, "x_search"))
  {
    assert "web_search"[0] != "x_search"[0] && "web_search"[0] != "function"[0] && "x_search"[0] != "function"[0];
  }

  lemma CollapseShrinks(tools: seq<Tool>)
    ensures |Collapse(tools)| <= |tools|
  {
    NeverGrows(tools);
  }

  function Heads(tools: seq<Tool>): seq<Tool>
  {
    (if Needs(tools, "web_search") then [Bare("web_search")] else []) + (if Needs(tools, "x_search") then [Bare("x_search")] else [])
  }

  lemma BareKeys()
    ensures NameKey(Bare("web_search")) != NameKey(Bare("x_search"))
    ensures IsSearchTool(Bare("web_search")) && IsSearchTool(Bare("x_search"))
    ensures forall t: Tool :: NameKey(t) == NameKey(Bare("web_search")) || NameKey(t) == NameKey(Bare("x_search")) ==> IsSearchTool(t)
  {
    Literals();
    assert NameKey(Bare("web_search")) == "web_search\0" && NameKey(Bare("x_search")) == "x_search\0";
    assert "web_search\0"[0] != "x_search\0"[0];
    forall t: Tool | NameKey(t) == "web_search\0" || NameKey(t) == "x_search\0" ensures IsSearchTool(t) { KeySplit(t); }
  }

  lemma KeySplit(t: Tool)
    requires NameKey(t) == "web_search\0" || NameKey(t) == "x_search\0"
    ensures IsSearch(TypeOf(t))
  {
    hide TypeOf;
    var s := if NameKey(t) == "web_search\0" then "web_search" else "x_search";
    var rest := NameKey(t)[|TypeOf(t)| + 1..];
    assert NameKey(t) == s + "\0";
    assert NameKey(t) == TypeOf(t) + "\0" + rest;
    PlainBefore(s, TypeOf(t), rest);
  }

  /** What stands before the first NUL is determined. */
  lemma PlainBefore(s: string, typ: string, rest: string)
    requires typ + "\0" + rest == s + "\0" && '\0' !in s
    ensures typ == s
  {
    var k := s + "\0";
    assert (typ + "\0" + rest)[|typ|] == '\0';
    assert k[|typ|] == '\0' && k[|s|] == '\0';
    assert k[..|s|] == s && (typ + "\0" + rest)[..|typ|] == typ;
  }

  /** Collapsing keeps the forms, the keys distinct and the settled functions settled. */
  lemma CollapseTidy(max: nat, tools: seq<Tool>)
    requires Tidy(max, tools)
    ensures Tidy(max, Collapse(tools)) && (AllSettled(tools) ==> AllSettled(Collapse(tools)))
  {
    hide Form, Settled, NameKey, IsSearchTool, Needs, SameFunction, Others;
    CollapseShrinks(tools);
    OthersFrom(tools);
    BareKeys();
    HeadForms();
    var c := Collapse(tools);
    if Needs(tools, "web_search") || Needs(tools, "x_search") {
      assert c == Heads(tools) + Others(tools);
      HeadsDistinct(tools);
      forall i, j | 0 <= i < j < |c| ensures NameKey(c[i]) != NameKey(c[j]) {
        if i < |Heads(tools)| <= j {
          assert c[j] in Others(tools);
        }
      }
      forall i | 0 <= i < |c| ensures Form(c[i]) && (AllSettled(tools) ==> Settled(c[i])) {
        if i >= |Heads(tools)| {
          assert c[i] in Others(tools);
          assert c[i] in tools;
        }
      }
    }
  }

  lemma HeadForms()
    ensures Form(Bare("web_search")) && Form(Bare("x_search")) && Settled(Bare("web_search")) && Settled(Bare("x_search"))
  {
    Literals();
    assert CleanBuiltin(Bare("x_search")) == Bare("x_search");
  }

  lemma HeadsDistinct(tools: seq<Tool>)
    ensures forall i, j :: 0 <= i < j < |Heads(tools)| ==> NameKey(Heads(tools)[i]) != NameKey(Heads(tools)[j])
    ensures forall i :: 0 <= i < |Heads(tools)| ==> Heads(tools)[i] == Bare("web_search") || Heads(tools)[i] == Bare("x_search")
  {
    hide NameKey, Needs;
    BareKeys();
  }

  lemma NeedsHead(front: seq<Tool>, rest: seq<Tool>, name: string)
    ensures Needs(front + rest, name) <==> Needs(front, name) || Needs(rest, name)
  {
    hide Wants;
    var all := front + rest;
    assert forall i :: 0 <= i < |front| ==> all[i] == front[i];
    assert forall i :: 0 <= i < |rest| ==> all[|front| + i] == rest[i];
    if Needs(rest, name) {
      var i :| 0 <= i < |rest| && Wants(rest[i], name);
      assert Wants(all[|front| + i], name);
    }
  }

  lemma HeadsNeed(tools: seq<Tool>, name: string)
    requires IsSearch(name)
    ensures Needs(Heads(tools), name) <==> Needs(tools, name)
  {
    hide Needs;
    Literals();
    WantsBare();
    var one := if Needs(tools, "web_search") then [Bare("web_search")] else [];
    var two := if Needs(tools, "x_search") then [Bare("x_search")] else [];
    NeedsHead(one, two, name);
    NeedsSingle(Bare("web_search"), name);
    NeedsSingle(Bare("x_search"), name);
    NeedsNone(name);
  }

  lemma WantsBare()
    ensures forall n :: IsSearch(n) ==> (Wants(Bare("web_search"), n) <==> n == "web_search") && (Wants(Bare("x_search"), n) <==> n == "x_search")
  {
    Literals();
    assert "web_search"[0] != "x_search"[0];
  }

  lemma NeedsSingle(t: Tool, name: string)
    ensures Needs([t], name) <==> Wants(t, name)
  {
    assert [t][0] == t;
  }

  lemma NeedsNone(name: string)
    ensures !Needs([], name)
  {
  }

  lemma {:induction false} OthersSkip(front: seq<Tool>, rest: seq<Tool>)
    requires forall t :: t in front ==> IsSearchTool(t)
    ensures Others(front + rest) == Others(rest)
  {
    hide IsSearchTool, SameFunction;
    var all := front + rest;
    if rest == [] {
      assert all == front;
      OthersNone(front);
    } else {
      OthersSkip(front, rest[..|rest| - 1]);
      assert all[..|all| - 1] == front + rest[..|rest| - 1];
    }
  }

  lemma {:induction false} OthersNone(front: seq<Tool>)
    requires forall t :: t in front ==> IsSearchTool(t)
    ensures Others(front) == []
  {
    hide IsSearchTool, SameFunction;
    if front != [] { OthersNone(front[..|front| - 1]); }
  }

  /** Collapsing twice is collapsing once. */
  lemma CollapseTwice(tools: seq<Tool>)
    ensures Collapse(Collapse(tools)) == Collapse(tools)
  {
    hide Needs, Others, IsSearchTool, SameFunction;
    if Needs(tools, "web_search") || Needs(tools, "x_search") {
      var heads, rest := Heads(tools), Others(tools);
      var c := Collapse(tools);
      assert c == heads + rest;
      OthersFrom(tools);
      BareKeys();
      HeadsDistinct(tools);
      NeedsHead(heads, rest, "web_search");
      NeedsHead(heads, rest, "x_search");
      HeadsNeed(tools, "web_search");
      HeadsNeed(tools, "x_search");
      NeedsSearchTool(rest, "web_search");
      NeedsSearchTool(rest, "x_search");
      OthersSkip(heads, rest);
      OthersSame(rest);
    }
  }

  // The second pass

  /** The loop's state after re-reading tools it once emitted. */
  predicate Reread(st: State, out: seq<Tool>)
  {
    st.out == out && !st.disabled && !st.legacyShell && st.search.None?
  }

  lemma NotSeen(out: seq<Tool>, t: Tool, max: nat)
    requires Tidy(max, out + [t])
    ensures Append(out, max, t) == out + [t]
  {
    hide NameKey, Form;
    var all := out + [t];
    assert all[|out|] == t && forall i :: 0 <= i < |out| ==> all[i] == out[i];
  }

  /** A settled emitted tool is emitted again as it is. */
  lemma OneAgain(hash: string -> string, max: nat, st: State, t: Tool)
    requires Reread(st, st.out) && Form(t) && Settled(t)
    ensures var r := One(hash, max, st, t); r.Some? && r.value.out == Append(st.out, max, t) && Reread(r.value, r.value.out)
  {
    hide One, Append, CleanBuiltin, CleanMcp, Settled, FunctionForm, ShellForm, Reread;
    if FunctionForm(t) {
      OneFunctionAgain(hash, max, st, t);
    } else if ShellForm(t) {
      OneShellAgain(hash, max, st, t);
    } else if t == Bare("web_search") {
      OneWebAgain(hash, max, st, t);
    } else {
      OneBuiltinAgain(hash, max, st, t);
    }
  }

  lemma OneFunctionAgain(hash: string -> string, max: nat, st: State, t: Tool)
    requires Reread(st, st.out) && FunctionForm(t) && Settled(t)
    ensures var r := One(hash, max, st, t); r.Some? && r.value.out == Append(st.out, max, t) && Reread(r.value, r.value.out)
  {
    FunctionAgain(t);
    hide Append, Settled, FunctionForm, TypeOf, AsFunction, IsPatchName, IsWebSearch, Trim;
  }

  lemma OneShellAgain(hash: string -> string, max: nat, st: State, t: Tool)
    requires Reread(st, st.out) && ShellForm(t)
    ensures var r := One(hash, max, st, t); r.Some? && r.value.out == Append(st.out, max, t) && Reread(r.value, r.value.out)
  {
    hide Append, TypeOf, IsWebSearch, Trim, Tight;
    ShellAgain(t);
  }

  lemma OneWebAgain(hash: string -> string, max: nat, st: State, t: Tool)
    requires Reread(st, st.out) && t == Bare("web_search")
    ensures var r := One(hash, max, st, t); r.Some? && r.value.out == Append(st.out, max, t) && Reread(r.value, r.value.out)
  {
    hide Append, TypeOf, Trim;
    Literals();
    KindsApart("web_search");
  }

  lemma OneBuiltinAgain(hash: string -> string, max: nat, st: State, t: Tool)
    requires Reread(st, st.out)
    requires (TypeOf(t) == "mcp" && CleanMcp(t) == t) || (IsBuiltin(TypeOf(t)) && CleanBuiltin(t) == t)
    ensures var r := One(hash, max, st, t); r.Some? && r.value.out == Append(st.out, max, t) && Reread(r.value, r.value.out)
  {
    KindsApart(TypeOf(t));
    CleanPlain(t);
    hide Append, CleanBuiltin, CleanMcp, TypeOf, IsBuiltin, IsWebSearch;
  }

  /** A function is read as a plain function under its own name. */
  lemma FunctionAgain(t: Tool)
    requires FunctionForm(t) && Settled(t)
    ensures TypeOf(t) == "function" && Trim(t.name) == t.name && t.name != "" && !t.deferred && !IsPatchName(t.name) && AsFunction(t) == t
    ensures !IsWebSearch("function")
  {
    Literals();
    TrimTight(t.name);
    TrimTight(t.description);
    assert "function"[0] !in {'w'};
  }

  lemma ShellAgain(t: Tool)
    requires ShellForm(t)
    ensures TypeOf(t) == "shell" && Trim(t.name) == t.name && !IsWebSearch("shell")
  {
    Literals();
    TrimTight(t.name);
  }

  /** The types are told apart by their first letters. */
  lemma KindsApart(typ: string)
    ensures IsWebSearch(typ) ==> typ !in {"namespace", "tool_search"}
    ensures IsBuiltin(typ) || typ == "mcp" ==>
              !IsWebSearch(typ) && typ !in {"namespace", "tool_search", "local_shell", "shell", "apply_patch", "custom", "function", ""}
    ensures IsBuiltin(typ) ==> typ != "mcp"
  {
  }

  lemma CleanPlain(t: Tool)
    requires CleanMcp(t) == t || CleanBuiltin(t) == t
    ensures !t.deferred
  {
  }

  lemma {:induction false} WalkAgain(hash: string -> string, max: nat, out: seq<Tool>)
    requires Tidy(max, out) && AllSettled(out)
    ensures var r := Walk(hash, max, Start(None), out); r.Some? && Reread(r.value, out)
  {
    hide One, Form, Settled, NameKey, Append;
    if out != [] {
      var front, t := out[..|out| - 1], out[|out| - 1];
      assert out == front + [t];
      assert forall i :: 0 <= i < |front| ==> front[i] == out[i];
      WalkAgain(hash, max, front);
      OneAgain(hash, max, Walk(hash, max, Start(None), front).value, t);
      NotSeen(front, t, max);
    }
  }

  lemma {:induction false} NoSearchDeclared(out: seq<Tool>)
    requires forall i :: 0 <= i < |out| ==> Form(out[i])
    ensures FindSearch(out) == Search(None) && NoCustomPatch(out)
  {
    hide Form, TypeOf, IsPatchName, Or;
    if out != [] {
      var front, t := out[..|out| - 1], out[|out| - 1];
      forall i | 0 <= i < |front| ensures Form(front[i]) { assert front[i] == out[i]; }
      NoSearchDeclared(front);
      FormType(t);
      assert forall i :: 0 <= i < |front| ==> front[i] == out[i];
    }
  }

  lemma FormType(t: Tool)
    requires Form(t)
    ensures TypeOf(t) != "tool_search" && TypeOf(t) != "custom"
  {
    Literals();
    KindsApart(TypeOf(t));
    if FunctionForm(t) { assert t.typ == "function"; }
  }

  /** A settled tidy list, collapsed already, is its own normal form. */
  lemma NormalAgain(hash: string -> string, max: nat, out: seq<Tool>)
    requires Tidy(max, out) && AllSettled(out) && Collapse(out) == out
    ensures Normalize(hash, max, out).Tools? && Normalize(hash, max, out).tools == out
  {
    hide Tidy, AllSettled, Collapse, Walk;
    TidyForms(max, out);
    NoSearchDeclared(out);
    WalkAgain(hash, max, out);
  }

  lemma TidyForms(max: nat, out: seq<Tool>)
    requires Tidy(max, out)
    ensures (forall i :: 0 <= i < |out| ==> Form(out[i])) && (max > 0 ==> |out| <= max)
  {
  }

  // The results

  lemma StartKept(max: nat, search: Option<Tool>, strict: bool)
    ensures Kept(Start(search), max, strict)
  {
  }

  /**
   What comes out: at most `max` tools in the accepted forms, one per type and name,
   collapsed. If no custom tool is called apply_patch and the search function's text is
   trimmed, every function is settled.
   */
  lemma NormalizeTidy(hash: string -> string, max: nat, tools: seq<Tool>, strict: bool)
    requires Digits(hash) && (strict ==> NoCustomPatch(tools) && TextTidy(hash, max, tools))
    ensures var r := Normalize(hash, max, tools);
            r.Tools? ==> Tidy(max, r.tools) && Collapse(r.tools) == r.tools && (strict ==> AllSettled(r.tools))
  {
    hide Digits, Tidy, AllSettled, Collapse, Walk, AddSearch, StripSearch, GoodTable, PatchOwned, NoCustomPatch, SearchTidy;
    var declared := FindSearch(tools);
    if declared.Search? {
      StartKept(max, declared.tool, strict);
      WalkKept(hash, max, Start(declared.tool), tools, strict);
      var walked := Walk(hash, max, Start(declared.tool), tools);
      if walked.Some? {
        AddSearchKept(hash, max, walked.value, strict);
        var st := AddSearch(hash, max, walked.value);
        if st.Some? {
          StripTidy(max, st.value.out);
          var kept := if st.value.disabled then StripSearch(st.value.out) else st.value.out;
          CollapseTidy(max, kept);
          CollapseTwice(kept);
          TidyForms(max, Collapse(kept));
        }
      }
    }
  }

  /** The search function's text as it will be emitted is trimmed. */
  predicate TextTidy(hash: string -> string, max: nat, tools: seq<Tool>)
  {
    var declared := FindSearch(tools);
    declared.Search? ==>
      var walked := Walk(hash, max, Start(declared.tool), tools);
      walked.Some? ==> SearchTidy(walked.value)
  }

  /** Adapting the adapted tools succeeds and returns the same list exactly when every function in it is settled. */
  lemma IdempotentIffSettled(hash: string -> string, max: nat, tools: seq<Tool>)
    requires Digits(hash) && Normalize(hash, max, tools).Tools?
    ensures var out := Normalize(hash, max, tools).tools; var again := Normalize(hash, max, out);
            again.Tools? && again.tools == out <==> AllSettled(out)
  {
    hide Digits, Tidy, AllSettled, Collapse, Normalize;
    var out := Normalize(hash, max, tools).tools;
    NormalizeTidy(hash, max, tools, false);
    if AllSettled(out) {
      NormalAgain(hash, max, out);
    } else {
      TidyForms(max, out);
      NoSearchDeclared(out);
      NormalizeTidy(hash, max, out, true) by { NoSearchTidy(hash, max, out); }
    }
  }

  lemma NoSearchTidy(hash: string -> string, max: nat, out: seq<Tool>)
    requires FindSearch(out) == Search(None)
    ensures TextTidy(hash, max, out)
  {
    WalkSearch(hash, max, Start(None), out);
  }

  lemma {:induction false} WalkSearch(hash: string -> string, max: nat, st: State, tools: seq<Tool>)
    ensures var r := Walk(hash, max, st, tools); r.Some? ==> r.value.search == st.search
  {
    hide One;
    if tools != [] {
      var before := Walk(hash, max, st, tools[..|tools| - 1]);
      WalkSearch(hash, max, st, tools[..|tools| - 1]);
      if before.Some? { SearchStays(hash, max, before.value, tools[|tools| - 1]); }
    }
  }

  /** What a client can see to: no custom apply_patch and a tidy search text make adapting idempotent. */
  lemma Idempotent(hash: string -> string, max: nat, tools: seq<Tool>)
    requires Digits(hash) && Normalize(hash, max, tools).Tools?
    requires NoCustomPatch(tools) && TextTidy(hash, max, tools)
    ensures var out := Normalize(hash, max, tools).tools; var again := Normalize(hash, max, out);
            again.Tools? && again.tools == out
  {
    hide Digits, Tidy, AllSettled, Collapse, Normalize;
    NormalizeTidy(hash, max, tools, true);
    IdempotentIffSettled(hash, max, tools);
  }

  /** In the result each search name belongs to at most one tool, the bare one. */
  lemma SearchOnce(hash: string -> string, max: nat, tools: seq<Tool>, i: nat, j: nat, name: string)
    requires Digits(hash) && Normalize(hash, max, tools).Tools? && IsSearch(name)
    ensures var out := Normalize(hash, max, tools).tools;
            i < |out| && j < |out| && Wants(out[i], name) && Wants(out[j], name) ==> i == j && out[i] == Bare(name)
  {
    hide Digits, Normalize, Wants, Needs, Others, IsSearchTool, NameKey;
    var out := Normalize(hash, max, tools).tools;
    NormalizeTidy(hash, max, tools, false);
    if i < |out| && j < |out| && Wants(out[i], name) && Wants(out[j], name) {
      NeedsIt(out, i, name);
      assert out == Heads(out) + Others(out);
      OthersFrom(out);
      HeadsDistinct(out);
      WantsOne(out[i]);
      WantsOne(out[j]);
      WantsBare();
      forall k | |Heads(out)| <= k < |out| ensures !IsSearchTool(out[k]) { assert out[k] in Others(out); }
      TidyDistinct(max, out, i, j);
    }
  }

  lemma NeedsIt(tools: seq<Tool>, i: nat, name: string)
    requires i < |tools| && Wants(tools[i], name)
    ensures Needs(tools, name)
  {
  }

  lemma TidyDistinct(max: nat, out: seq<Tool>, i: nat, j: nat)
    requires Tidy(max, out) && i < |out| && j < |out|
    ensures NameKey(out[i]) == NameKey(out[j]) ==> i == j
  {
  }

  /**
   The condition is needed: a custom tool called apply_patch comes out as a function of
   that name, which the next pass takes for the client's own apply_patch and renames.
   */
  lemma CustomPatchExample(hash: string -> string)
    requires Digits(hash)
    ensures var tools := [Bare("custom").(name := "apply_patch")];
            var r := Normalize(hash, 0, tools);
            && !NoCustomPatch(tools) && r.Tools?
            && (var again := Normalize(hash, 0, r.tools); !(again.Tools? && again.tools == r.tools))
  {
    var t := Bare("custom").(name := "apply_patch");
    var tools := [t];
    Literal("custom");
    Literal("apply_patch");
    var i := A.Identity(A.CustomTool, "", "apply_patch");
    var f := Function("apply_patch", CustomText(t, "apply_patch"), FREEFORM_SCHEMA, None);
    OnlyCustom(hash, t);
    assert Lower("apply_patch") == "apply_patch";
    hide Normalize, CustomText, Digits;
    assert !Settled(f) && FunctionForm(f);
    assert [f][0] == f;
    IdempotentIffSettled(hash, 0, tools);
    assert tools[0] == t;
  }

  lemma OnlyCustom(hash: string -> string, t: Tool)
    requires t == Bare("custom").(name := "apply_patch")
    ensures Normalize(hash, 0, [t]) == Tools([Function("apply_patch", CustomText(t, "apply_patch"), FREEFORM_SCHEMA, None)], None, false)
    ensures TypeOf(t) == "custom" && Or(t.name, "custom_tool") == "apply_patch"
  {
    hide CustomText, Contains, One, Collapse, Trim, Lower;
    Literal("custom");
    Literal("apply_patch");
    var f := Function("apply_patch", CustomText(t, "apply_patch"), FREEFORM_SCHEMA, None);
    assert [t][..0] == [];
    FirstCustom(hash, t);
    assert Walk(hash, 0, Start(None), []) == Some(Start(None));
    assert FindSearch([t]) == Search(None);
    PatchAlone(f);
  }

  lemma PatchAlone(f: Tool)
    requires FunctionForm(f) && f.name == "apply_patch"
    ensures Collapse([f]) == [f]
  {
    hide Collapse;
    assert Lower("apply_patch")[0] == 'a' && "web_search"[0] == 'w' && "x_search"[0] == 'x';
    FunctionAlone(f);
  }

  lemma FirstCustom(hash: string -> string, t: Tool)
    requires t == Bare("custom").(name := "apply_patch") && TypeOf(t) == "custom" && Or(t.name, "custom_tool") == "apply_patch"
    ensures var r := One(hash, 0, Start(None), t); var f := Function("apply_patch", CustomText(t, "apply_patch"), FREEFORM_SCHEMA, None);
            r.Some? && r.value.out == [f] && !r.value.disabled && r.value.search.None? && r.value.backend.None?
  {
    hide CustomText, A.Key, TypeOf, Or;
    assert [] + [Function("apply_patch", CustomText(t, "apply_patch"), FREEFORM_SCHEMA, None)]
        == [Function("apply_patch", CustomText(t, "apply_patch"), FREEFORM_SCHEMA, None)];
  }

  lemma FunctionAlone(f: Tool)
    requires FunctionForm(f) && !IsSearch(Lower(f.name))
    ensures Collapse([f]) == [f]
  {
    Literals();
    TrimTight(f.name);
    assert !IsSearch("function") by { assert "function"[0] == 'f' && "web_search"[0] == 'w' && "x_search"[0] == 'x'; }
    assert TypeOf(f) == "function";
    NeedsSingle(f, "web_search");
    NeedsSingle(f, "x_search");
  }

  // A search text that is cut at a space

  /** A description whose 240th character is a space, which is where surfaces are cut. */
  function LongText(): string
  {
    seq(SURFACE_LIMIT - 1, _ => 'a') + " b"
  }

  function SearchTool(): Tool
  {
    Bare("tool_search").(execution := "client")
  }

  function DeferredTool(): Tool
  {
    Bare("function").(name := "f", description := LongText(), deferred := true)
  }

  lemma SurfaceCut()
    ensures Trim(LongText()) == LongText() && Surface("f", Trim(LongText())) == "f: " + LongText()[..SURFACE_LIMIT]
    ensures LongText()[SURFACE_LIMIT - 1] == ' ' && |LongText()| == SURFACE_LIMIT + 1
  {
    var d := LongText();
    assert d[0] == 'a' && d[|d| - 1] == 'b';
    TrimTight(d);
    Literal("f");
  }

  /** The text of the search function ends in that space. */
  lemma SearchTextUntidy(t: Tool, surface: string)
    requires Trim(t.description) == "" && surface == "f: " + LongText()[..SURFACE_LIMIT]
    ensures !Tight(SearchText(t, [surface]))
  {
    SurfaceCut();
    var d := SEARCH_TEXT + SURFACES_HINT + surface;
    assert SearchText(t, [surface]) == d;
    assert d[|d| - 1] == surface[|surface| - 1] == ' ';
  }

  lemma FindsSearch()
    ensures FindSearch([SearchTool(), DeferredTool()]) == Search(Some(SearchTool()))
  {
    hide LongText, Trim, Lower;
    var s, f := SearchTool(), DeferredTool();
    Literal("tool_search");
    Literal("client");
    Literal("function");
    assert [s, f][..1] == [s] && [s][..0] == [];
    assert FindSearch([]) == Search(None);
    assert FindSearch([s]) == Search(Some(s));
  }

  lemma ReadsSearch(hash: string -> string)
    ensures var tools := [SearchTool(), DeferredTool()]; var r := Walk(hash, 0, Start(Some(SearchTool())), tools);
            && FindSearch(tools) == Search(Some(SearchTool()))
            && r == Some(Start(Some(SearchTool())).(surfaces := ["f: " + LongText()[..SURFACE_LIMIT]]))
  {
    hide LongText, Trim, Lower;
    var s, f := SearchTool(), DeferredTool();
    var tools := [s, f];
    FindsSearch();
    Literal("tool_search");
    Literal("function");
    Literal("f");
    SurfaceCut();
    hide FindSearch;
    assert tools[..1] == [s] && [s][..0] == [];
    var st := Start(Some(s));
    assert Walk(hash, 0, st, []) == Some(st);
    assert Walk(hash, 0, st, [s]) == Some(st);
    assert "function"[0] !in {'w', 'n', 't'};
    assert Plain(hash, 0, st, f) == Some(AddSurface(st, "f", Trim(LongText())));
    assert [] + ["f: " + LongText()[..SURFACE_LIMIT]] == ["f: " + LongText()[..SURFACE_LIMIT]];
  }

  /** What the search function becomes when it is the only tool. */
  lemma OnlySearch(hash: string -> string, st: State)
    requires Digits(hash) && st.search == Some(SearchTool()) && st.out == [] && !st.disabled && st.table == A.Empty
    ensures var r := AddSearch(hash, 0, st); var g := Function(A.SEARCH, SearchText(SearchTool(), st.surfaces), OPEN_SCHEMA, None);
            r.Some? && r.value.out == [g] && !r.value.disabled && Collapse([g]) == [g] && FunctionForm(g)
  {
    hide SearchText, Collapse, Registered, Digits, Trim;
    var g := Function(A.SEARCH, SearchText(SearchTool(), st.surfaces), OPEN_SCHEMA, None);
    FirstName(hash);
    assert [] + [g] == [g];
    assert FunctionForm(g);
    assert Lower(A.SEARCH)[0] == 'g' && "web_search"[0] == 'w' && "x_search"[0] == 'x';
    FunctionAlone(g);
  }

  lemma FirstName(hash: string -> string)
    ensures Registered(hash, A.Empty, A.Identity(A.SearchTool, "", "tool_search")).1 == A.SEARCH
  {
    hide A.Key;
  }

  /**
   The other condition is needed too: a deferred tool's description is cut to length
   without trimming, so the search function's text can end in a space, which the next
   pass trims.
   */
  lemma SearchTextExample(hash: string -> string)
    requires Digits(hash)
    ensures var r := Normalize(hash, 0, [SearchTool(), DeferredTool()]);
            && r.Tools?
            && (var again := Normalize(hash, 0, r.tools); !(again.Tools? && again.tools == r.tools))
  {
    var tools := [SearchTool(), DeferredTool()];
    hide LongText, Trim, FindSearch, Walk, AddSearch, Collapse, Digits, SearchText, SearchTool, DeferredTool;
    ReadsSearch(hash);
    var surfaces := ["f: " + LongText()[..SURFACE_LIMIT]];
    var st := Start(Some(SearchTool())).(surfaces := surfaces);
    OnlySearch(hash, st);
    BlankDescription();
    SearchTextUntidy(SearchTool(), surfaces[0]);
    var g := Function(A.SEARCH, SearchText(SearchTool(), surfaces), OPEN_SCHEMA, None);
    assert Normalize(hash, 0, tools).tools == [g];
    assert [g][0] == g && !Settled(g);
    IdempotentIffSettled(hash, 0, tools);
  }

  lemma BlankDescription()
    ensures Trim(SearchTool().description) == ""
  {
  }
}
