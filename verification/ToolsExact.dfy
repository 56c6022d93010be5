/**
 Idempotence read off the client's own list: where neither the cap on the number of tools
 nor a doubled name drops a tool, normalising is idempotent exactly if no custom tool is
 called apply_patch and the search function's text is trimmed.
 */
module ToolsExact {
  import opened Basics
  import opened ToolNames
  import opened Tools
  import opened ToolsIdempotent
  import A = ToolAliases

  /** A function of the list reads apply_patch. */
  predicate PatchIn(out: seq<Tool>)
  {
    exists i :: 0 <= i < |out| && FunctionForm(out[i]) && IsPatchName(out[i].name)
  }

  lemma PatchUnsettled(out: seq<Tool>)
    requires PatchIn(out)
    ensures !AllSettled(out)
  {
    var i :| 0 <= i < |out| && FunctionForm(out[i]) && IsPatchName(out[i].name);
    assert !Settled(out[i]);
  }

  lemma PatchStays(before: seq<Tool>, after: seq<Tool>)
    requires before <= after && PatchIn(before)
    ensures PatchIn(after)
  {
    var i :| 0 <= i < |before| && FunctionForm(before[i]) && IsPatchName(before[i].name);
    assert after[i] == before[i];
  }

  // A custom apply_patch is emitted

  /** An emitted tool with the type and name of a function is a function of that name. */
  lemma KeyFunction(u: Tool, f: Tool)
    requires Form(u) && FunctionForm(f) && NameKey(u) == NameKey(f)
    ensures FunctionForm(u) && u.name == f.name
  {
    hide Form;
    Literals();
    TrimTight(f.name);
    FunctionKey(TypeOf(u), Trim(u.name), Trim(f.name));
    FormKind(u);
    FunctionName(u);
  }

  lemma FunctionName(u: Tool)
    requires FunctionForm(u)
    ensures Trim(u.name) == u.name
  {
    TrimTight(u.name);
  }

  lemma FunctionKey(typ: string, x: string, y: string)
    requires typ + "\0" + x == "function" + "\0" + y
    ensures typ == "function" ==> x == y
    ensures typ != "function" ==> |typ| >= 2 && typ[0] == 'f' && typ[1] == 'u'
  {
    var k, l := typ + "\0" + x, "function" + "\0" + y;
    assert k[|typ|] == '\0' && l[0] == 'f' && l[1] == 'u';
    assert k[|typ| + 1..] == x && l[9..] == y;
    assert forall i :: 0 <= i < |typ| ==> k[i] == typ[i];
  }

  /** No emitted tool but a function has a type that begins like function. */
  lemma FormKind(u: Tool)
    requires Form(u)
    ensures TypeOf(u) == "function" ==> FunctionForm(u)
    ensures TypeOf(u) != "function" && |TypeOf(u)| >= 2 ==> TypeOf(u)[0] != 'f' || TypeOf(u)[1] != 'u'
  {
    hide CleanMcp, CleanBuiltin;
    Literals();
    KindsApart("function");
    FunctionType(u);
    ShellType(u);
  }

  lemma FunctionType(u: Tool)
    ensures FunctionForm(u) ==> TypeOf(u) == TypeOf(Bare("function"))
  {
    hide Trim, Lower, Tight;
  }

  lemma ShellType(u: Tool)
    ensures ShellForm(u) ==> TypeOf(u) == TypeOf(Bare("shell"))
  {
    hide Trim, Lower, Tight;
  }

  lemma CustomShows(hash: string -> string, max: nat, st: State, t: Tool)
    requires Digits(hash) && Kept(st, max, false) && IsPatchName(Or(t.name, "custom_tool"))
    requires Custom(hash, max, st, t).Some? && (max == 0 || |Custom(hash, max, st, t).value.out| < max)
    ensures PatchIn(Custom(hash, max, st, t).value.out)
  {
    hide Digits, Form, Registered, CustomText, NameKey, IsPatchName, PatchOwned;
    var name := Or(t.name, "custom_tool");
    OrTight(t.name, "custom_tool");
    var i := CustomIdentity(name);
    RegisteredOwned(hash, st.table, i);
    var (table, alias) := Registered(hash, st.table, i);
    var f := Function(name, CustomText(t, name), if t.parameters.Some? then t.parameters.value else FREEFORM_SCHEMA, None);
    AliasedSearch(hash, max, st, t);
    var out := Append(st.out, max, f);
    assert out == Custom(hash, max, st, t).value.out;
    if Seen(st.out, NameKey(f)) {
      var k :| 0 <= k < |st.out| && NameKey(st.out[k]) == NameKey(f);
      KeyFunction(st.out[k], f);
      assert out[k] == st.out[k];
    } else {
      assert out[|st.out|] == f;
    }
  }

  lemma CustomOne(hash: string -> string, max: nat, st: State, t: Tool)
    requires TypeOf(t) == "custom"
    ensures One(hash, max, st, t) == Custom(hash, max, st, t)
  {
    assert !IsWebSearch("custom");
  }

  lemma {:induction false} WalkShows(hash: string -> string, max: nat, st: State, tools: seq<Tool>)
    requires Digits(hash) && Kept(st, max, false) && Walk(hash, max, st, tools).Some?
    requires max == 0 || |Walk(hash, max, st, tools).value.out| < max
    ensures st.out <= Walk(hash, max, st, tools).value.out
    ensures !NoCustomPatch(tools) ==> PatchIn(Walk(hash, max, st, tools).value.out)
  {
    hide Digits, Kept, One, TypeOf, IsPatchName, Or, PatchIn, Custom;
    if tools != [] {
      var front, t := tools[..|tools| - 1], tools[|tools| - 1];
      var before := Walk(hash, max, st, front).value;
      WalkKept(hash, max, st, front, false);
      SearchStays(hash, max, before, t);
      WalkShows(hash, max, st, front);
      if !NoCustomPatch(tools) {
        if !NoCustomPatch(front) {
          PatchStays(before.out, Walk(hash, max, st, tools).value.out);
        } else {
          LastCustom(tools);
          CustomOne(hash, max, before, t);
          CustomShows(hash, max, before, t);
        }
      }
    }
  }

  lemma LastCustom(tools: seq<Tool>)
    requires tools != [] && !NoCustomPatch(tools) && NoCustomPatch(tools[..|tools| - 1])
    ensures var t := tools[|tools| - 1]; TypeOf(t) == "custom" && IsPatchName(Or(t.name, "custom_tool"))
  {
    hide TypeOf, IsPatchName, Or;
    var front := tools[..|tools| - 1];
    assert forall i :: 0 <= i < |front| ==> front[i] == tools[i];
  }

  // It survives stripping and collapsing

  lemma PatchNoSearch(t: Tool)
    requires FunctionForm(t) && IsPatchName(t.name)
    ensures !IsSearchTool(t) && TypeOf(t) == "function" && Lower(Trim(t.name)) == "apply_patch"
  {
    Literals();
    TrimTight(t.name);
    assert "apply_patch"[0] == 'a' && "web_search"[0] == 'w' && "x_search"[0] == 'x' && "function"[0] == 'f';
  }

  lemma StripPatch(tools: seq<Tool>)
    requires PatchIn(tools)
    ensures PatchIn(StripSearch(tools))
  {
    hide IsSearchTool, FunctionForm, IsPatchName;
    var i :| 0 <= i < |tools| && FunctionForm(tools[i]) && IsPatchName(tools[i].name);
    PatchNoSearch(tools[i]);
    assert tools[i] in StripSearch(tools);
    var j :| 0 <= j < |StripSearch(tools)| && StripSearch(tools)[j] == tools[i];
  }

  /** A dropped double of a patch function leaves its first. */
  lemma {:induction false} OthersPatch(tools: seq<Tool>)
    requires (forall i :: 0 <= i < |tools| ==> Form(tools[i])) && PatchIn(tools)
    ensures PatchIn(Others(tools))
  {
    hide Form, FunctionForm, IsPatchName, IsSearchTool, SameFunction;
    var front, t := tools[..|tools| - 1], tools[|tools| - 1];
    assert forall i :: 0 <= i < |front| ==> front[i] == tools[i];
    if PatchIn(front) {
      OthersPatch(front);
      PatchStays(Others(front), Others(tools));
    } else {
      assert FunctionForm(t) && IsPatchName(t.name);
      PatchNoSearch(t);
      OthersFrom(front);
      if exists i :: 0 <= i < |Others(front)| && SameFunction(Others(front)[i], t) {
        var i :| 0 <= i < |Others(front)| && SameFunction(Others(front)[i], t);
        var u := Others(front)[i];
        assert u in front;
        SamePatch(u, t);
      } else {
        assert Others(tools)[|Others(front)|] == t;
      }
    }
  }

  lemma SamePatch(u: Tool, t: Tool)
    requires Form(u) && FunctionForm(t) && IsPatchName(t.name) && SameFunction(u, t)
    ensures FunctionForm(u) && IsPatchName(u.name)
  {
    Literals();
    PatchNoSearch(t);
    KindsApart(TypeOf(u));
    TrimTight(u.name);
  }

  lemma CollapsePatch(tools: seq<Tool>)
    requires (forall i :: 0 <= i < |tools| ==> Form(tools[i])) && PatchIn(tools)
    ensures PatchIn(Collapse(tools))
  {
    hide Form, FunctionForm, IsPatchName, Others, Needs;
    OthersPatch(tools);
    var o := Others(tools);
    var i :| 0 <= i < |o| && FunctionForm(o[i]) && IsPatchName(o[i].name);
    var c := Collapse(tools);
    if c != tools {
      var n := |c| - |o|;
      assert c[n + i] == o[i];
    }
  }

  // An untrimmed search text is emitted

  function SearchAlias(hash: string -> string, st: State): string
  {
    Registered(hash, st.table, SearchIdentity).1
  }

  function SearchFunction(hash: string -> string, st: State): Tool
    requires st.search.Some?
  {
    var tool := st.search.value;
    Function(SearchAlias(hash, st), SearchText(tool, st.surfaces), if tool.parameters.Some? then tool.parameters.value else OPEN_SCHEMA, None)
  }

  /** A function emitted before has the name of the search function, up to case. */
  predicate Shadowed(hash: string -> string, st: State)
  {
    exists i :: 0 <= i < |st.out| && TypeOf(st.out[i]) == "function" && Lower(Trim(st.out[i].name)) == Lower(Trim(SearchAlias(hash, st)))
  }

  lemma SearchNamed(hash: string -> string, max: nat, st: State)
    requires Digits(hash) && Kept(st, max, false) && st.search.Some?
    ensures FunctionForm(SearchFunction(hash, st)) && !IsSearchTool(SearchFunction(hash, st))
  {
    hide Digits, Form, Registered, SearchText, GoodTable, PatchOwned, Tidy;
    Literals();
    RegisteredGood(hash, st.table, SearchIdentity, false);
    RegisteredOwned(hash, st.table, SearchIdentity);
    var alias := SearchAlias(hash, st);
    TrimTight(alias);
    assert Lower(alias)[0] == 'g' && "web_search"[0] == 'w' && "x_search"[0] == 'x' && "function"[0] == 'f';
  }

  lemma SearchAppended(hash: string -> string, max: nat, st: State)
    requires Digits(hash) && Kept(st, max, false) && st.search.Some? && AddSearch(hash, max, st).Some?
    requires (max == 0 || |st.out| < max) && !Shadowed(hash, st)
    ensures AddSearch(hash, max, st).value.out == st.out + [SearchFunction(hash, st)]
  {
    hide Digits, Form, Registered, SearchText, GoodTable, PatchOwned, IsSearchTool;
    var f := SearchFunction(hash, st);
    SearchNamed(hash, max, st);
    if Seen(st.out, NameKey(f)) {
      var k :| 0 <= k < |st.out| && NameKey(st.out[k]) == NameKey(f);
      KeyFunction(st.out[k], f);
      FunctionType(st.out[k]);
      Literals();
    }
  }

  /** The last tool of a list survives stripping and collapsing if it is no search tool and no double. */
  lemma LastSurvives(front: seq<Tool>, f: Tool, disabled: bool)
    requires !IsSearchTool(f) && forall i :: 0 <= i < |front| ==> !SameFunction(front[i], f)
    ensures var out := front + [f]; f in Collapse(if disabled then StripSearch(out) else out)
  {
    hide IsSearchTool, SameFunction, Needs;
    var out := front + [f];
    assert out[..|front|] == front && out[|front|] == f;
    if disabled {
      assert StripSearch(out) == StripSearch(front) + [f];
      forall i | 0 <= i < |StripSearch(front)| ensures !SameFunction(StripSearch(front)[i], f) { assert StripSearch(front)[i] in front; }
      LastOther(StripSearch(front), f);
      assert f in StripSearch(out);
    } else {
      LastOther(front, f);
      assert f in out;
    }
  }

  lemma LastOther(front: seq<Tool>, f: Tool)
    requires !IsSearchTool(f) && forall i :: 0 <= i < |front| ==> !SameFunction(front[i], f)
    ensures f in Others(front + [f])
  {
    hide IsSearchTool, SameFunction;
    NotAmong(front, f);
    OthersNext(front, f);
  }

  lemma NotAmong(front: seq<Tool>, f: Tool)
    requires forall i :: 0 <= i < |front| ==> !SameFunction(front[i], f)
    ensures forall i :: 0 <= i < |Others(front)| ==> !SameFunction(Others(front)[i], f)
  {
    hide IsSearchTool, SameFunction, Others;
    OthersFrom(front);
    forall i | 0 <= i < |Others(front)| ensures !SameFunction(Others(front)[i], f) {
      assert Others(front)[i] in front;
      var k :| 0 <= k < |front| && front[k] == Others(front)[i];
    }
  }

  lemma OthersNext(front: seq<Tool>, f: Tool)
    requires !IsSearchTool(f) && forall i :: 0 <= i < |Others(front)| ==> !SameFunction(Others(front)[i], f)
    ensures Others(front + [f]) == Others(front) + [f]
  {
    hide IsSearchTool, SameFunction;
    assert (front + [f])[..|front|] == front;
  }

  lemma NotDoubled(hash: string -> string, max: nat, st: State)
    requires Kept(st, max, false) && st.search.Some? && !Shadowed(hash, st) && FunctionForm(SearchFunction(hash, st))
    ensures forall i :: 0 <= i < |st.out| ==> !SameFunction(st.out[i], SearchFunction(hash, st))
  {
    hide Registered, SearchText, GoodTable, PatchOwned, DistinctKeys;
    forall i | 0 <= i < |st.out| ensures !SameFunction(st.out[i], SearchFunction(hash, st)) {
      FormNamed(st.out[i]);
    }
  }

  lemma FormNamed(t: Tool)
    requires Form(t)
    ensures TypeOf(t) != ""
  {
    Literals();
    KindsApart(TypeOf(t));
  }

  // The exact condition

  /** Neither the cap nor a doubled name keeps a tool of the list from being emitted. */
  predicate Roomy(hash: string -> string, max: nat, tools: seq<Tool>)
  {
    var walked := Walked(hash, max, tools);
    walked.Some? ==> (max == 0 || |walked.value.out| < max) && !Shadowed(hash, walked.value)
  }

  function Walked(hash: string -> string, max: nat, tools: seq<Tool>): Option<State>
  {
    var declared := FindSearch(tools);
    if declared.Refused? then None else Walk(hash, max, Start(declared.tool), tools)
  }

  /** What the walk and the search function leave, before stripping and collapsing. */
  lemma Stages(hash: string -> string, max: nat, tools: seq<Tool>)
    requires Digits(hash) && Normalize(hash, max, tools).Tools?
    ensures FindSearch(tools).Search? && Walked(hash, max, tools).Some?
    ensures var walked := Walked(hash, max, tools).value; var st := AddSearch(hash, max, walked);
            && Kept(walked, max, false) && walked.search == FindSearch(tools).tool
            && st.Some? && Kept(st.value, max, false) && walked.out <= st.value.out
            && Normalize(hash, max, tools).tools == Collapse(if st.value.disabled then StripSearch(st.value.out) else st.value.out)
  {
    hide Digits, Kept, Walk, Collapse, StripSearch, Registered, SearchText;
    var declared := FindSearch(tools);
    StartKept(max, declared.tool, false);
    WalkKept(hash, max, Start(declared.tool), tools, false);
    var walked := Walk(hash, max, Start(declared.tool), tools).value;
    AddSearchKept(hash, max, walked, false);
    var st := AddSearch(hash, max, walked).value;
    Uncut(max, st);
  }

  lemma Uncut(max: nat, st: State)
    requires Kept(st, max, false)
    ensures max > 0 ==> |Collapse(if st.disabled then StripSearch(st.out) else st.out)| <= max
  {
    hide Form, Collapse, DistinctKeys, GoodTable, PatchOwned;
    StripTidy(max, st.out);
    CollapseTidy(max, if st.disabled then StripSearch(st.out) else st.out);
  }

  lemma PatchResult(hash: string -> string, max: nat, tools: seq<Tool>)
    requires Digits(hash) && Normalize(hash, max, tools).Tools? && Roomy(hash, max, tools) && !NoCustomPatch(tools)
    ensures PatchIn(Normalize(hash, max, tools).tools)
  {
    hide Digits, NoCustomPatch, Walk, AddSearch, StripSearch, Collapse, PatchIn, Normalize, Shadowed, Kept;
    Stages(hash, max, tools);
    var tool := FindSearch(tools).tool;
    StartKept(max, tool, false);
    WalkShows(hash, max, Start(tool), tools);
    var walked := Walk(hash, max, Start(tool), tools).value;
    var st := AddSearch(hash, max, walked).value;
    PatchStays(walked.out, st.out);
    KeptForms(st, max);
    if st.disabled {
      StripPatch(st.out);
      StripForms(st.out);
      CollapsePatch(StripSearch(st.out));
    } else {
      CollapsePatch(st.out);
    }
  }

  lemma KeptForms(st: State, max: nat)
    requires Kept(st, max, false)
    ensures forall i :: 0 <= i < |st.out| ==> Form(st.out[i])
  {
    hide Form;
  }

  lemma StripForms(out: seq<Tool>)
    requires forall i :: 0 <= i < |out| ==> Form(out[i])
    ensures forall i :: 0 <= i < |StripSearch(out)| ==> Form(StripSearch(out)[i])
  {
    hide Form, IsSearchTool;
    forall i | 0 <= i < |StripSearch(out)| ensures Form(StripSearch(out)[i]) { assert StripSearch(out)[i] in out; }
  }

  lemma TextResult(hash: string -> string, max: nat, tools: seq<Tool>)
    requires Digits(hash) && Normalize(hash, max, tools).Tools? && Roomy(hash, max, tools) && !TextTidy(hash, max, tools)
    ensures !AllSettled(Normalize(hash, max, tools).tools)
  {
    hide Digits, Walk, AddSearch, StripSearch, Collapse, Normalize, Shadowed, Kept, SearchText, FunctionForm, IsSearchTool, SameFunction;
    Stages(hash, max, tools);
    var st := Walk(hash, max, Start(FindSearch(tools).tool), tools).value;
    SearchNamed(hash, max, st);
    SearchAppended(hash, max, st);
    NotDoubled(hash, max, st);
    var f := SearchFunction(hash, st);
    LastSurvives(st.out, f, AddSearch(hash, max, st).value.disabled);
    var out := Normalize(hash, max, tools).tools;
    var i :| 0 <= i < |out| && out[i] == f;
    assert !Settled(out[i]);
  }

  /**
   Normalising the normalised tools succeeds with the same list exactly if no custom tool
   of the client's list is called apply_patch and the search function's text is trimmed.
   */
  lemma IdempotentExact(hash: string -> string, max: nat, tools: seq<Tool>)
    requires Digits(hash) && Normalize(hash, max, tools).Tools? && Roomy(hash, max, tools)
    ensures var out := Normalize(hash, max, tools).tools; var again := Normalize(hash, max, out);
            again.Tools? && again.tools == out <==> NoCustomPatch(tools) && TextTidy(hash, max, tools)
  {
    hide Digits, Normalize, Roomy, NoCustomPatch, TextTidy, AllSettled;
    IdempotentIffSettled(hash, max, tools);
    if !NoCustomPatch(tools) {
      PatchResult(hash, max, tools);
      PatchUnsettled(Normalize(hash, max, tools).tools);
    } else if !TextTidy(hash, max, tools) {
      TextResult(hash, max, tools);
    } else {
      Idempotent(hash, max, tools);
    }
  }
}
