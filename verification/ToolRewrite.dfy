/**
 Restoring client tool calls in a response: upstream knows every tool under its alias, and
 the rewriter walks the whole body to bring back kind, namespace and name.
 */
module ToolRewrite {
  import opened Basics
  import opened ToolAliases

  /** The fields of a response object the rewriter looks at; an absent text is empty. */
  datatype Head = Head(
    typ: string, name: string, space: string, callId: string, id: string,
    arguments: Option<string>, input: Option<string>, execution: string, operation: Option<string>,
    action: Action, maxOutput: bool)

  /** The action of a shell call with its own type, if it states one. */
  datatype Action = NoAction | Action(typ: Option<string>)

  datatype Value =
    | Text(text: string)
    | List(items: seq<Value>)
    | Object(head: Head, fields: seq<Value>)

  /** The alias table, the calls remembered by id, whether the client knows local_shell, and how arguments are decoded. */
  datatype Restorer = Restorer(
    table: Table, streams: map<string, Identity>, legacyShell: bool,
    decodeInput: string -> string, decodeSearch: string -> string, decodePatch: string -> Option<string>)

  predicate IsCall(typ: string)
  {
    Lower(Trim(typ)) == "function_call" || Lower(Trim(typ)) == "tool_call"
  }

  function Resolve(r: Restorer, h: Head): Option<Identity>
  {
    if Trim(h.name) in r.table.aliases then Some(r.table.aliases[Trim(h.name)])
    else if h.callId in r.streams then Some(r.streams[h.callId])
    else if h.id in r.streams then Some(r.streams[h.id])
    else None
  }

  function Arguments(h: Head): string
  {
    if h.arguments.Some? then h.arguments.value else ""
  }

  function RestoreCall(r: Restorer, h: Head): Head
  {
    var found := Resolve(r, h);
    if found.None? then h
    else
      var i := found.value;
      match i.kind
      case FunctionTool => h.(name := i.name, space := i.space)
      case CustomTool =>
        h.(typ := "custom_tool_call", name := i.name, space := i.space, arguments := None,
           input := if h.input.Some? then h.input else Some(r.decodeInput(Arguments(h))))
      case SearchTool =>
        h.(typ := "tool_search_call", execution := "client", name := "", space := "",
           arguments := if h.arguments.Some? then Some(r.decodeSearch(h.arguments.value)) else None)
      case PatchTool =>
        var operation := r.decodePatch(Arguments(h));
        if operation.None? then h.(name := "apply_patch")
        else h.(typ := "apply_patch_call", operation := operation, name := "", space := "", arguments := None)
  }

  predicate IsShellCall(typ: string)
  {
    Lower(Trim(typ)) == "shell_call"
  }

  /** A shell call as the local_shell call the client knows. */
  function RestoreShell(h: Head): Head
  {
    h.(typ := "local_shell_call", maxOutput := false,
       action := if h.action == Action(None) then Action(Some("exec")) else h.action)
  }

  /** The last step on every object: a name that is an alias gives way to the client's. */
  function RestoreName(t: Table, h: Head): Head
  {
    if Trim(h.name) == "" || Trim(h.name) !in t.aliases then h
    else
      var i := t.aliases[Trim(h.name)];
      if i.kind == FunctionTool || i.kind == CustomTool
      then h.(name := i.name, space := if i.space != "" then i.space else h.space)
      else h.(name := "")
  }

  function RestoreHead(r: Restorer, h: Head): Head
  {
    RestoreName(r.table,
                if IsCall(h.typ) then RestoreCall(r, h)
                else if IsShellCall(h.typ) && r.legacyShell then RestoreShell(h)
                else h)
  }

  function Rewrite(r: Restorer, v: Value): Value
    decreases v
  {
    match v
    case Text(_) => v
    case List(items) => List(RewriteAll(r, items))
    case Object(head, fields) => Object(RestoreHead(r, head), RewriteAll(r, fields))
  }

  function RewriteAll(r: Restorer, vs: seq<Value>): seq<Value>
    decreases vs
  {
    if vs == [] then [] else [Rewrite(r, vs[0])] + RewriteAll(r, vs[1..])
  }

  // What upstream sends and what the client should see

  datatype Call = Call(identity: Identity, callId: string, id: string, arguments: string)

  /** A body with calls in it, before the choice of names. */
  datatype Tree =
    | Words(text: string)
    | Many(items: seq<Tree>)
    | Plain(head: Head, fields: seq<Tree>)
    | Made(call: Call, fields: seq<Tree>)

  /** The call under its alias, as a function call. */
  function SentHead(t: Table, c: Call): Head
    requires Key(c.identity) in t.names
  {
    Head("function_call", t.names[Key(c.identity)], "", c.callId, c.id, Some(c.arguments), None, "", None, NoAction, false)
  }

  /** The call in the client's own terms. */
  function ShownHead(r: Restorer, c: Call): Head
  {
    var i := c.identity;
    match i.kind
    case FunctionTool => Head("function_call", i.name, i.space, c.callId, c.id, Some(c.arguments), None, "", None, NoAction, false)
    case CustomTool => Head("custom_tool_call", i.name, i.space, c.callId, c.id, None, Some(r.decodeInput(c.arguments)), "", None, NoAction, false)
    case SearchTool => Head("tool_search_call", "", "", c.callId, c.id, Some(r.decodeSearch(c.arguments)), None, "client", None, NoAction, false)
    case PatchTool =>
      if r.decodePatch(c.arguments).None? then Head("function_call", "apply_patch", "", c.callId, c.id, Some(c.arguments), None, "", None, NoAction, false)
      else Head("apply_patch_call", "", "", c.callId, c.id, None, None, "", r.decodePatch(c.arguments), NoAction, false)
  }

  /** The name a restored call shows is not, as an alias, another tool's. */
  predicate Settled(t: Table, name: string, space: string)
  {
    Trim(name) == "" || Trim(name) !in t.aliases ||
    (var j := t.aliases[Trim(name)];
     (j.kind == FunctionTool || j.kind == CustomTool) && j.name == name && (j.space == "" || j.space == space))
  }

  predicate CallSettled(r: Restorer, c: Call)
  {
    var h := ShownHead(r, c);
    Settled(r.table, h.name, h.space)
  }

  /** A registered tool with an ordinary name, in a table whose namespaces have no NUL. */
  ghost predicate Known(t: Table, i: Identity)
  {
    && Inverse(t) && Key(i) in t.names && Tight(t.names[Key(i)])
    && !HasNul(i.space) && forall alias :: alias in t.aliases ==> !HasNul(t.aliases[alias].space)
  }

  lemma AliasLeadsBack(t: Table, i: Identity)
    requires Known(t, i)
    ensures var alias := t.names[Key(i)]; Trim(alias) == alias && alias in t.aliases && t.aliases[alias] == i
  {
    hide Key, HasNul, Tight, Trim;
    var alias := t.names[Key(i)];
    TrimTight(alias);
    KeyInjective(t.aliases[alias], i);
  }

  lemma FunctionCallIsCall()
    ensures IsCall("function_call")
  {
    var s := "function_call";
    TrimTight(s);
    assert Lower(s) == s;
  }

  lemma NameSettles(t: Table, h: Head)
    ensures RestoreName(t, h) == h <==> Settled(t, h.name, h.space)
  {
    TrimTight("");
  }

  /** A call made under its alias comes back as the client's exactly when its own name is settled. */
  lemma CallRestored(r: Restorer, c: Call)
    requires Known(r.table, c.identity)
    ensures RestoreHead(r, SentHead(r.table, c)) == ShownHead(r, c) <==> CallSettled(r, c)
  {
    hide Known, Key, Trim, Settled, RestoreName, IsCall;
    KnownNamed(r.table, c.identity);
    AliasLeadsBack(r.table, c.identity);
    FunctionCallIsCall();
    NameSettles(r.table, ShownHead(r, c));
    assert RestoreCall(r, SentHead(r.table, c)) == ShownHead(r, c);
  }

  lemma KnownNamed(t: Table, i: Identity)
    requires Known(t, i)
    ensures Key(i) in t.names
  {
  }

  predicate Named(t: Table, tree: Tree)
    decreases tree
  {
    match tree
    case Words(_) => true
    case Many(items) => forall k :: 0 <= k < |items| ==> Named(t, items[k])
    case Plain(_, fields) => forall k :: 0 <= k < |fields| ==> Named(t, fields[k])
    case Made(c, fields) => Key(c.identity) in t.names && forall k :: 0 <= k < |fields| ==> Named(t, fields[k])
  }

  function Sent(t: Table, tree: Tree): Value
    requires Named(t, tree)
    decreases tree
  {
    match tree
    case Words(text) => Text(text)
    case Many(items) => List(seq(|items|, k requires 0 <= k < |items| => Sent(t, items[k])))
    case Plain(head, fields) => Object(head, seq(|fields|, k requires 0 <= k < |fields| => Sent(t, fields[k])))
    case Made(c, fields) => Object(SentHead(t, c), seq(|fields|, k requires 0 <= k < |fields| => Sent(t, fields[k])))
  }

  /** An object that stands for no tool of the client's is shown as it is, but for local shell calls. */
  function OwnHead(r: Restorer, h: Head): Head
  {
    if IsShellCall(h.typ) && r.legacyShell then RestoreShell(h) else h
  }

  function Shown(r: Restorer, tree: Tree): Value
    decreases tree
  {
    match tree
    case Words(text) => Text(text)
    case Many(items) => List(seq(|items|, k requires 0 <= k < |items| => Shown(r, items[k])))
    case Plain(head, fields) => Object(OwnHead(r, head), seq(|fields|, k requires 0 <= k < |fields| => Shown(r, fields[k])))
    case Made(c, fields) => Object(ShownHead(r, c), seq(|fields|, k requires 0 <= k < |fields| => Shown(r, fields[k])))
  }

  predicate Unrelated(r: Restorer, h: Head)
  {
    Trim(h.name) !in r.table.aliases && (IsCall(h.typ) ==> h.callId !in r.streams && h.id !in r.streams)
  }

  /** Every call made for a client's tool is of a known one; no other object carries an alias or the id of such a call. */
  ghost predicate Ordinary(r: Restorer, tree: Tree)
    decreases tree
  {
    match tree
    case Words(_) => true
    case Many(items) => forall k :: 0 <= k < |items| ==> Ordinary(r, items[k])
    case Plain(head, fields) =>
      Unrelated(r, head) && forall k :: 0 <= k < |fields| ==> Ordinary(r, fields[k])
    case Made(c, fields) => Known(r.table, c.identity) && forall k :: 0 <= k < |fields| ==> Ordinary(r, fields[k])
  }

  predicate AllSettled(r: Restorer, tree: Tree)
    decreases tree
  {
    match tree
    case Words(_) => true
    case Many(items) => forall k :: 0 <= k < |items| ==> AllSettled(r, items[k])
    case Plain(_, fields) => forall k :: 0 <= k < |fields| ==> AllSettled(r, fields[k])
    case Made(c, fields) => CallSettled(r, c) && forall k :: 0 <= k < |fields| ==> AllSettled(r, fields[k])
  }

  lemma {:induction false} RewriteEach(r: Restorer, vs: seq<Value>)
    ensures |RewriteAll(r, vs)| == |vs| && forall k :: 0 <= k < |vs| ==> RewriteAll(r, vs)[k] == Rewrite(r, vs[k])
  {
    hide Rewrite;
    if vs != [] { RewriteEach(r, vs[1..]); }
  }

  /** Anywhere in a nested body, the client's calls are restored exactly when each one's own name is settled. */
  lemma {:induction false} BodyRestored(r: Restorer, tree: Tree)
    requires Ordinary(r, tree) && Named(r.table, tree)
    ensures Rewrite(r, Sent(r.table, tree)) == Shown(r, tree) <==> AllSettled(r, tree)
    decreases tree
  {
    hide RestoreHead, CallSettled, ShownHead, SentHead, OwnHead, Unrelated, Known, RewriteAll;
    match tree
    case Words(_) =>
    case Many(items) => FieldsRestored(r, items);
    case Plain(head, fields) =>
      FieldsRestored(r, fields);
      PlainKept(r, head);
    case Made(c, fields) =>
      FieldsRestored(r, fields);
      CallRestored(r, c);
  }

  lemma PlainKept(r: Restorer, h: Head)
    requires Unrelated(r, h)
    ensures RestoreHead(r, h) == OwnHead(r, h)
  {
    assert IsCall(h.typ) ==> !IsShellCall(h.typ);
  }

  lemma {:induction false} FieldsRestored(r: Restorer, items: seq<Tree>)
    requires forall k :: 0 <= k < |items| ==> Ordinary(r, items[k]) && Named(r.table, items[k])
    ensures RewriteAll(r, seq(|items|, k requires 0 <= k < |items| => Sent(r.table, items[k])))
            == seq(|items|, k requires 0 <= k < |items| => Shown(r, items[k]))
            <==> forall k :: 0 <= k < |items| ==> AllSettled(r, items[k])
    decreases items, 0
  {
    hide Rewrite, Sent, Shown, Ordinary, Named, AllSettled;
    var up := seq(|items|, k requires 0 <= k < |items| => Sent(r.table, items[k]));
    var down := seq(|items|, k requires 0 <= k < |items| => Shown(r, items[k]));
    RewriteEach(r, up);
    forall k | 0 <= k < |items| ensures RewriteAll(r, up)[k] == down[k] <==> AllSettled(r, items[k]) {
      BodyRestored(r, items[k]);
    }
    if forall k :: 0 <= k < |items| ==> AllSettled(r, items[k]) {
      assert RewriteAll(r, up) == down;
    } else {
      var k :| 0 <= k < |items| && !AllSettled(r, items[k]);
      assert RewriteAll(r, up)[k] != down[k];
    }
  }

  // What every object of a body comes back as

  /** The tool an object stands for: by its alias, else by a remembered call id, else by a remembered item id. */
  predicate StandsFor(r: Restorer, h: Head, i: Identity)
  {
    && (Lower(Trim(h.typ)) == "function_call" || Lower(Trim(h.typ)) == "tool_call")
    && (if Trim(h.name) in r.table.aliases then r.table.aliases[Trim(h.name)] == i
        else if h.callId in r.streams then r.streams[h.callId] == i
        else h.id in r.streams && r.streams[h.id] == i)
  }

  /** The name and namespace shown for an object that would be called `name` in `space`: an alias is never shown. */
  predicate NameTold(t: Table, name: string, space: string, g: Head)
  {
    if Trim(name) == "" || Trim(name) !in t.aliases then g.name == name && g.space == space
    else
      var j := t.aliases[Trim(name)];
      && g.name == (if j.kind == SearchTool || j.kind == PatchTool then "" else j.name)
      && g.space == (if j.kind == SearchTool || j.kind == PatchTool || j.space == "" then space else j.space)
  }

  /** A call made for tool `i`, as shown to the client. */
  predicate CallTold(r: Restorer, h: Head, i: Identity, g: Head)
  {
    var arguments := if h.arguments == None then "" else h.arguments.value;
    match i.kind
    case FunctionTool => g == h.(name := g.name, space := g.space) && NameTold(r.table, i.name, i.space, g)
    case CustomTool =>
      && g == h.(typ := "custom_tool_call", name := g.name, space := g.space, arguments := None, input := g.input)
      && g.input == (if h.input == None then Some(r.decodeInput(arguments)) else h.input)
      && NameTold(r.table, i.name, i.space, g)
    case SearchTool =>
      && g == h.(typ := "tool_search_call", name := "", space := "", execution := "client", arguments := g.arguments)
      && (g.arguments == None <==> h.arguments == None)
      && (h.arguments != None ==> g.arguments == Some(r.decodeSearch(arguments)))
    case PatchTool =>
      if r.decodePatch(arguments) == None
      then g == h.(name := g.name, space := g.space) && NameTold(r.table, "apply_patch", h.space, g)
      else g == h.(typ := "apply_patch_call", name := "", space := "", arguments := None, operation := r.decodePatch(arguments))
  }

  /** What any object of a body comes back as. */
  ghost predicate HeadTold(r: Restorer, h: Head, g: Head)
  {
    if exists i :: StandsFor(r, h, i) then forall i :: StandsFor(r, h, i) ==> CallTold(r, h, i, g)
    else if r.legacyShell && Lower(Trim(h.typ)) == "shell_call" then
      && g == h.(typ := "local_shell_call", maxOutput := false, action := g.action, name := g.name, space := g.space)
      && (h.action.Action? && h.action.typ == None ==> g.action == Action(Some("exec")))
      && (h.action.NoAction? || h.action.typ != None ==> g.action == h.action)
      && NameTold(r.table, h.name, h.space, g)
    else g == h.(name := g.name, space := g.space) && NameTold(r.table, h.name, h.space, g)
  }

  /** The same body, place by place, with every object as `HeadTold` says. */
  ghost predicate Restored(r: Restorer, v: Value, w: Value)
    decreases v
  {
    match v
    case Text(_) => w == v
    case List(items) => w.List? && |w.items| == |items| && forall k :: 0 <= k < |items| ==> Restored(r, items[k], w.items[k])
    case Object(head, fields) =>
      && w.Object? && HeadTold(r, head, w.head)
      && |w.fields| == |fields| && forall k :: 0 <= k < |fields| ==> Restored(r, fields[k], w.fields[k])
  }

  /** Whatever the body: nothing is lost or moved, and every object at any depth is shown as its tool, if it has one. */
  lemma {:induction false} RewriteTells(r: Restorer, v: Value)
    ensures Restored(r, v, Rewrite(r, v))
    decreases v
  {
    hide RestoreHead, HeadTold, RewriteAll;
    match v
    case Text(_) =>
    case List(items) =>
      RewriteEach(r, items);
      forall k | 0 <= k < |items| ensures Restored(r, items[k], Rewrite(r, v).items[k]) { RewriteTells(r, items[k]); }
    case Object(head, fields) =>
      HeadTells(r, head);
      RewriteEach(r, fields);
      forall k | 0 <= k < |fields| ensures Restored(r, fields[k], Rewrite(r, v).fields[k]) { RewriteTells(r, fields[k]); }
  }

  lemma HeadTells(r: Restorer, h: Head)
    ensures HeadTold(r, h, RestoreHead(r, h))
  {
    hide Trim, Lower, NameTold, RestoreName, RestoreCall, CallTold;
    if i :| StandsFor(r, h, i) {
      CallTells(r, h, i);
    } else {
      SomebodysCall(r, h);
      assert IsCall(h.typ) ==> RestoreCall(r, h) == h by { NobodysCall(r, h); }
      NameTells(r.table, if !IsCall(h.typ) && IsShellCall(h.typ) && r.legacyShell then RestoreShell(h) else h);
    }
  }

  lemma SomebodysCall(r: Restorer, h: Head)
    ensures IsCall(h.typ) && Resolve(r, h) != None ==> StandsFor(r, h, Resolve(r, h).value)
  {
  }

  lemma NobodysCall(r: Restorer, h: Head)
    ensures Resolve(r, h) == None ==> RestoreCall(r, h) == h
  {
  }

  lemma CallTells(r: Restorer, h: Head, i: Identity)
    requires StandsFor(r, h, i)
    ensures CallTold(r, h, i, RestoreHead(r, h))
  {
    hide Trim, Lower, NameTold, RestoreName, Resolve, StandsFor;
    CallMeans(r, h, i);
    var c := RestoreCall(r, h);
    NameTells(r.table, c);
    BlankTold(r.table, c);
  }

  lemma CallMeans(r: Restorer, h: Head, i: Identity)
    requires StandsFor(r, h, i)
    ensures Resolve(r, h) == Some(i) && IsCall(h.typ)
  {
    hide Trim, Lower;
  }

  lemma BlankTold(t: Table, h: Head)
    ensures h.name == "" ==> RestoreName(t, h) == h
  {
    TrimTight("");
  }

  lemma NameTells(t: Table, h: Head)
    ensures var g := RestoreName(t, h); g == h.(name := g.name, space := g.space) && NameTold(t, h.name, h.space, g)
  {
    hide Trim;
  }

  /**
   The condition is needed: with a plain tool called like another tool's alias, the last
   step renames the restored call a second time.
   */
  lemma RenamedTwiceExample(hash: string -> string)
    ensures var i, j := Identity(FunctionTool, "n", "x"), Identity(FunctionTool, "m", "n__x");
            var t := RegisterAll(hash, Empty, [i, j]);
            Known(t, j) && !Settled(t, j.name, j.space)
  {
    hide Key, Base, RegisterAll, Known, Trim, Settled, HasNul, Tight;
    TheTwo();
    RenamedTwice(hash, Identity(FunctionTool, "n", "x"), Identity(FunctionTool, "m", "n__x"), "m__n__x");
  }

  /** `j` is called like the alias of `i`. */
  ghost predicate Shadowed(i: Identity, j: Identity, b: string)
  {
    && Key(i) != Key(j) && Base(i) == j.name && Base(j) == b && j.name != b && |j.name| <= MAX_ALIAS && |b| <= MAX_ALIAS
    && Tight(b) && Tight(j.name) && j.name != "" && !HasNul(i.space) && !HasNul(j.space) && i.name != j.name
  }

  lemma RenamedTwice(hash: string -> string, i: Identity, j: Identity, b: string)
    requires Shadowed(i, j, b)
    ensures var t := RegisterAll(hash, Empty, [i, j]); Known(t, j) && !Settled(t, j.name, j.space)
  {
    hide Key, Base, RegisterAll, Trim, Tight, HasNul, Known;
    TwoRegistered(hash, i, j, j.name, b);
    TwoKnown(i, j, j.name, b);
    TrimTight(j.name);
  }

  lemma TheTwo()
    ensures Shadowed(Identity(FunctionTool, "n", "x"), Identity(FunctionTool, "m", "n__x"), "m__n__x")
  {
    var i, j := Identity(FunctionTool, "n", "x"), Identity(FunctionTool, "m", "n__x");
    assert Key(i)[2] == 'n' && Key(j)[2] == 'm';
    assert "n" + "__" + "x" == "n__x" && "m" + "__" + "n__x" == "m__n__x";
    assert "n__x"[0] != "m__n__x"[0];
  }

  lemma TwoKnown(i: Identity, j: Identity, a: string, b: string)
    requires Key(i) != Key(j) && a != b && |a| <= MAX_ALIAS && |b| <= MAX_ALIAS && Tight(b)
    requires !HasNul(i.space) && !HasNul(j.space)
    ensures Known(Table(map[a := i, b := j], map[Key(i) := a, Key(j) := b]), j)
  {
    hide Key, Tight, HasNul;
  }

  lemma TwoRegistered(hash: string -> string, i: Identity, j: Identity, a: string, b: string)
    requires Key(i) != Key(j) && Base(i) == a && Base(j) == b && a != b && |a| <= MAX_ALIAS && |b| <= MAX_ALIAS
    ensures RegisterAll(hash, Empty, [i, j]) == Table(map[a := i, b := j], map[Key(i) := a, Key(j) := b])
  {
    hide Key, Base, Hashed;
    assert [i, j][..1] == [i] && [i][..0] == [];
    assert RegisterAll(hash, Empty, []) == Empty;
    var t := RegisterAll(hash, Empty, [i]);
    assert t == Register(hash, Empty, i) == Table(map[a := i], map[Key(i) := a]);
    assert RegisterAll(hash, Empty, [i, j]) == Register(hash, t, j);
  }
}
