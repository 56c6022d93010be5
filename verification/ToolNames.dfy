/** The names the alias table gives out: never blank or untrimmed, and when they look like apply_patch. */
module ToolNames {
  import opened Basics
  import A = ToolAliases

  predicate IsPatchName(name: string)
  {
    Lower(name) == "apply_patch"
  }

  /** The table after registering `i`, and the name it has there. */
  function Registered(hash: string -> string, table: A.Table, i: A.Identity): (A.Table, string)
  {
    var t := A.Register(hash, table, i);
    (t, if A.Key(i) in t.names then t.names[A.Key(i)] else "")
  }

  /** The digits of a hash contain no white space. */
  ghost predicate Digits(hash: string -> string)
  {
    forall key: string :: forall c :: c in A.Short(hash, key) ==> !IsSpace(c)
  }

  predicate GoodName(a: string, strict: bool)
  {
    Tight(a) && a != "" && (strict ==> !IsPatchName(a))
  }

  ghost predicate GoodTable(t: A.Table, strict: bool)
  {
    forall key :: key in t.names ==> GoodName(t.names[key], strict)
  }

  lemma TwoUnderscores(a: string, k: nat)
    requires k + 1 < |a| && a[k] == '_' && a[k + 1] == '_'
    ensures !IsPatchName(a)
  {
    assert Lower(a)[k] == '_' && Lower(a)[k + 1] == '_';
    PatchText(k);
  }

  lemma PatchText(k: nat)
    ensures var p := "apply_patch"; k + 1 < |p| ==> !(p[k] == '_' && p[k + 1] == '_')
  {
  }

  lemma HashedGood(hash: string -> string, base: string, key: string)
    requires Digits(hash) && Tight(base) && base != ""
    ensures GoodName(A.Hashed(hash, base, key), true)
  {
    var short := A.Short(hash, key);
    var a := A.Hashed(hash, base, key);
    var n := |a| - |short| - 2;
    assert a[0] == base[0];
    assert a[n] == '_' && a[n + 1] == '_';
    if short != "" { assert a[|a| - 1] == short[|short| - 1] && short[|short| - 1] in short; }
    TwoUnderscores(a, n);
  }

  /** An identity whose own name is trimmed, and in strict company not a custom apply_patch. */
  predicate GoodIdentity(i: A.Identity, strict: bool)
  {
    match i.kind
    case FunctionTool => Tight(i.space) && i.space != "" && Tight(i.name) && i.name != ""
    case CustomTool => i.space == "" && GoodName(i.name, strict)
    case _ => true
  }

  lemma BaseGood(i: A.Identity, strict: bool)
    requires GoodIdentity(i, strict)
    ensures GoodName(A.Base(i), strict)
  {
    var b := A.Base(i);
    match i.kind
    case FunctionTool =>
      assert b == i.space + "__" + i.name;
      assert b[0] == i.space[0] && b[|b| - 1] == i.name[|i.name| - 1];
      assert b[|i.space|] == '_' && b[|i.space| + 1] == '_';
      TwoUnderscores(b, |i.space|);
    case CustomTool =>
    case SearchTool => assert Lower(b)[0] == 'g';
    case PatchTool => assert Lower(b)[0] == 'g';
  }

  lemma RegisteredGood(hash: string -> string, t: A.Table, i: A.Identity, strict: bool)
    requires Digits(hash) && GoodTable(t, strict) && GoodIdentity(i, strict)
    ensures var (u, alias) := Registered(hash, t, i); GoodTable(u, strict) && GoodName(alias, strict)
  {
    hide A.Key, A.Base, A.Hashed, GoodName, Digits;
    BaseGood(i, strict);
    BaseTight(A.Base(i), strict);
    HashedGood(hash, A.Base(i), A.Key(i));
    Weaker(A.Hashed(hash, A.Base(i), A.Key(i)), strict);
  }

  // Who may be called apply_patch

  function CustomIdentity(name: string): A.Identity
  {
    A.Identity(A.CustomTool, "", name)
  }

  const SearchIdentity := A.Identity(A.SearchTool, "", "tool_search")

  /**
   The names that read apply_patch belong to the custom tools called so, and those have
   them; the search function's name begins with the gateway's own prefix.
   */
  ghost predicate PatchOwned(t: A.Table)
  {
    && (A.Key(SearchIdentity) in t.names ==> Prefixed(t.names[A.Key(SearchIdentity)]))
    && (forall a :: a in t.aliases && IsPatchName(a) ==> t.aliases[a] == CustomIdentity(a))
    && (forall n :: IsPatchName(n) && A.Key(CustomIdentity(n)) in t.names ==> t.names[A.Key(CustomIdentity(n))] == n)
  }

  /** Only such a custom tool gets such a name. */
  lemma FreshPatch(hash: string -> string, t: A.Table, i: A.Identity)
    requires Digits(hash) && GoodIdentity(i, false) && IsPatchName(A.Fresh(hash, t, i))
    ensures i == CustomIdentity(A.Fresh(hash, t, i))
  {
    hide A.Key, A.Base, A.Hashed, Digits;
    BaseGood(i, false);
    HashedGood(hash, A.Base(i), A.Key(i));
    assert A.Fresh(hash, t, i) == A.Base(i);
    if !i.kind.CustomTool? { BaseGood(i, true); }
    CustomBase(i);
  }

  lemma CustomBase(i: A.Identity)
    ensures i.kind.CustomTool? && i.space == "" ==> A.Base(i) == i.name && i == CustomIdentity(i.name)
  {
  }

  /** And it always does, since nobody else can have taken it. */
  lemma PatchFresh(hash: string -> string, t: A.Table, n: string)
    requires PatchOwned(t) && IsPatchName(n)
    ensures A.Fresh(hash, t, CustomIdentity(n)) == n
  {
    hide A.Key, A.Hashed;
    assert |n| == |Lower(n)| == |"apply_patch"|;
    CustomBase(CustomIdentity(n));
  }

  lemma KeyCustom(i: A.Identity, n: string)
    requires GoodIdentity(i, false) && A.Key(i) == A.Key(CustomIdentity(n))
    ensures i == CustomIdentity(n)
  {
    assert A.Key(i)[0] == A.Digit(i.kind) && A.Key(CustomIdentity(n))[0] == '1';
    assert i.kind.CustomTool? && i.space == "";
    assert A.Key(i)[3..] == i.name && A.Key(CustomIdentity(n))[3..] == n;
  }

  predicate Prefixed(a: string)
  {
    a != "" && a[0] == 'g'
  }

  /** A name given to a search identity has the prefix. */
  lemma SearchFresh(hash: string -> string, t: A.Table, i: A.Identity)
    ensures i.kind.SearchTool? ==> Prefixed(A.Fresh(hash, t, i))
    ensures A.Key(i) == A.Key(SearchIdentity) ==> i.kind.SearchTool?
  {
    hide A.Short;
    assert A.Key(i)[0] == A.Digit(i.kind) && A.Key(SearchIdentity)[0] == '2';
    assert A.SEARCH[0] == 'g';
    assert i.kind.SearchTool? ==> A.Hashed(hash, A.SEARCH, A.Key(i))[0] == 'g';
  }

  lemma RegisteredOwned(hash: string -> string, t: A.Table, i: A.Identity)
    requires Digits(hash) && PatchOwned(t) && GoodIdentity(i, false)
    ensures var (u, alias) := Registered(hash, t, i);
            PatchOwned(u) && (i.kind.CustomTool? && IsPatchName(i.name) ==> alias == i.name)
            && (i == SearchIdentity ==> Prefixed(alias))
  {
    hide A.Key, A.Fresh, Digits, IsPatchName, Prefixed;
    SearchFresh(hash, t, i);
    var alias := A.Fresh(hash, t, i);
    var (u, given) := Registered(hash, t, i);
    CustomBase(i);
    if A.Key(i) !in t.names {
      if IsPatchName(alias) { FreshPatch(hash, t, i); }
      forall n | IsPatchName(n) && A.Key(CustomIdentity(n)) in u.names ensures u.names[A.Key(CustomIdentity(n))] == n {
        if A.Key(CustomIdentity(n)) == A.Key(i) {
          KeyCustom(i, n);
          PatchFresh(hash, t, n);
        }
      }
    }
  }

  lemma BaseTight(a: string, strict: bool)
    requires GoodName(a, strict)
    ensures Tight(a) && a != ""
  {
  }

  lemma Weaker(a: string, strict: bool)
    requires GoodName(a, true)
    ensures GoodName(a, strict)
  {
  }
}
