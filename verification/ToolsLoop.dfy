/**
 The tool adaptation as it runs: loops over the declared tools with accumulators, proved to
 compute what `Tools` says.
 */
module ToolsLoop {
  import opened Basics
  import opened Tools

  /** Collapses in two passes: which bare search tools are needed, then everything else once. */
  method CollapseTools(tools: seq<Tool>) returns (out: seq<Tool>)
    ensures out == Collapse(tools)
  {
    hide TypeOf, Trim, Lower;
    var needWeb, needX := false, false;
    var i := 0;
    while i < |tools|
      invariant i <= |tools|
      invariant needWeb <==> exists k :: 0 <= k < i && Wants(tools[k], "web_search")
      invariant needX <==> exists k :: 0 <= k < i && Wants(tools[k], "x_search")
    {
      if Wants(tools[i], "web_search") { needWeb := true; }
      if Wants(tools[i], "x_search") { needX := true; }
      i := i + 1;
    }
    if !needWeb && !needX { return tools; }
    var heads: seq<Tool> := [];
    if needWeb { heads := heads + [Bare("web_search")]; }
    if needX { heads := heads + [Bare("x_search")]; }
    var rest := RestOf(tools);
    out := heads + rest;
  }

  method RestOf(tools: seq<Tool>) returns (rest: seq<Tool>)
    ensures rest == Others(tools)
  {
    hide TypeOf, Trim, Lower, IsSearchTool;
    rest := [];
    var seen: set<string> := {};
    var i := 0;
    while i < |tools|
      invariant i <= |tools| && rest == Others(tools[..i])
      invariant forall n :: n in seen <==> exists k :: 0 <= k < |rest| && Calls(rest[k], n)
    {
      assert tools[..i + 1][..i] == tools[..i];
      var t := tools[i];
      i := i + 1;
      if IsSearchTool(t) { continue; }
      if TypeOf(t) == "function" || TypeOf(t) == "" {
        var name := Lower(Trim(t.name));
        if name != "" {
          SameIffCalled(rest, t, name);
          if name in seen { continue; }
          seen := seen + {name};
        }
      }
      assert (rest + [t])[|rest|] == t && forall k :: 0 <= k < |rest| ==> (rest + [t])[k] == rest[k];
      rest := rest + [t];
    }
    assert tools[..|tools|] == tools;
  }

  /** A function of this lower-case name. */
  predicate Calls(t: Tool, name: string)
  {
    (TypeOf(t) == "function" || TypeOf(t) == "") && Lower(Trim(t.name)) == name && name != ""
  }

  lemma SameIffCalled(rest: seq<Tool>, t: Tool, name: string)
    requires Calls(t, name)
    ensures (exists k :: 0 <= k < |rest| && SameFunction(rest[k], t)) <==> exists k :: 0 <= k < |rest| && Calls(rest[k], name)
  {
    hide TypeOf, Trim, Lower;
    assert forall k :: 0 <= k < |rest| ==> (SameFunction(rest[k], t) <==> Calls(rest[k], name));
  }

  method StripTools(tools: seq<Tool>) returns (out: seq<Tool>)
    ensures out == StripSearch(tools)
  {
    hide IsSearchTool;
    out := [];
    var i := 0;
    while i < |tools|
      invariant i <= |tools| && out == StripSearch(tools[..i])
    {
      assert tools[..i + 1][..i] == tools[..i];
      if !IsSearchTool(tools[i]) { out := out + [tools[i]]; }
      i := i + 1;
    }
    assert tools[..|tools|] == tools;
  }

  /** The scan for the client's tool search, ahead of everything else. */
  method FindClientSearch(tools: seq<Tool>) returns (declared: Declared)
    ensures declared == FindSearch(tools)
  {
    hide TypeOf, Trim, Lower;
    var found: Option<Tool> := None;
    var i := 0;
    while i < |tools|
      invariant i <= |tools| && FindSearch(tools[..i]) == Search(found)
    {
      assert tools[..i + 1][..i] == tools[..i];
      var t := tools[i];
      if TypeOf(t) == "tool_search" {
        if Lower(Trim(t.execution)) != "client" || found.Some? {
          RefusedStays(tools, i + 1);
          return Refused;
        }
        found := Some(t);
      }
      i := i + 1;
    }
    assert tools[..|tools|] == tools;
    return Search(found);
  }

  lemma {:induction false} RefusedStays(tools: seq<Tool>, i: nat)
    requires i <= |tools| && FindSearch(tools[..i]).Refused?
    ensures FindSearch(tools).Refused?
    decreases |tools| - i
  {
    hide TypeOf, Trim, Lower;
    if i == |tools| {
      assert tools[..i] == tools;
    } else {
      assert tools[..i + 1][..i] == tools[..i];
      RefusedStays(tools, i + 1);
    }
  }

  lemma {:induction false} WalkFails(hash: string -> string, max: nat, st: State, tools: seq<Tool>, i: nat)
    requires i <= |tools| && Walk(hash, max, st, tools[..i]).None?
    ensures Walk(hash, max, st, tools).None?
    decreases |tools| - i
  {
    hide One;
    if i == |tools| {
      assert tools[..i] == tools;
    } else {
      assert tools[..i + 1][..i] == tools[..i];
      WalkFails(hash, max, st, tools, i + 1);
    }
  }

  /** One adaptation of a client's tool list. */
  method NormalizeTools(hash: string -> string, max: nat, tools: seq<Tool>) returns (r: Normalized)
    ensures r == Normalize(hash, max, tools)
  {
    hide One, FindSearch, Collapse, StripSearch, AddSearch;
    var declared := FindClientSearch(tools);
    if declared.Refused? { return Failed; }
    var st := Start(declared.tool);
    var i := 0;
    while i < |tools|
      invariant i <= |tools| && Walk(hash, max, Start(declared.tool), tools[..i]) == Some(st)
    {
      assert tools[..i + 1][..i] == tools[..i];
      var next := One(hash, max, st, tools[i]);
      i := i + 1;
      if next.None? {
        WalkFails(hash, max, Start(declared.tool), tools, i);
        return Failed;
      }
      st := next.value;
    }
    assert tools[..|tools|] == tools;
    var searched := AddSearch(hash, max, st);
    if searched.None? { return Failed; }
    st := searched.value;
    var out := st.out;
    var backend := st.backend;
    if st.disabled {
      out := StripTools(out);
      backend := Some(false);
    }
    out := CollapseTools(out);
    if max > 0 && |out| > max { out := out[..max]; }
    r := Tools(out, backend, st.disabled);
  }
}
