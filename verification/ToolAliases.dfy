/**
 The alias table of one request: every client tool identity gets one upstream-safe function
 name, at most 128 characters long, and the way back is kept beside it.
 */
module ToolAliases {
  import opened Basics

  datatype Kind = FunctionTool | CustomTool | SearchTool | PatchTool

  datatype Identity = Identity(kind: Kind, space: string, name: string)

  /** `aliases` leads from names to identities, `names` from identity keys to names. */
  datatype Table = Table(aliases: map<string, Identity>, names: map<string, string>)

  const Empty := Table(map[], map[])
  const MAX_ALIAS: nat := 128
  const HASH: nat := 9
  const SEARCH := "grok2api_tool_search"
  const PATCH := "grok2api_apply_patch"

  function Digit(kind: Kind): char
  {
    match kind
    case FunctionTool => '0'
    case CustomTool => '1'
    case SearchTool => '2'
    case PatchTool => '3'
  }

  function Key(i: Identity): string
  {
    [Digit(i.kind), '\0'] + i.space + ['\0'] + i.name
  }

  function Base(i: Identity): string
  {
    match i.kind
    case SearchTool => SEARCH
    case PatchTool => PATCH
    case _ => if i.space != "" then i.space + "__" + i.name else i.name
  }

  /** The first nine digits of a key's hash. */
  function Short(hash: string -> string, key: string): (r: string)
    ensures |r| <= HASH
  {
    var h := hash(key);
    if |h| > HASH then h[..HASH] else h
  }

  function Hashed(hash: string -> string, base: string, key: string): string
  {
    var suffix := "__" + Short(hash, key);
    var limit := MAX_ALIAS - |suffix|;
    (if |base| > limit then base[..limit] else base) + suffix
  }

  function Truncated(hash: string -> string, base: string, key: string): string
  {
    if |base| <= MAX_ALIAS then base else Hashed(hash, base, key)
  }

  predicate Taken(t: Table, alias: string, key: string)
  {
    alias in t.aliases && Key(t.aliases[alias]) != key
  }

  /** The name a new identity gets. */
  function Fresh(hash: string -> string, t: Table, i: Identity): string
  {
    var alias := Truncated(hash, Base(i), Key(i));
    if Taken(t, alias, Key(i)) then Hashed(hash, Base(i), Key(i)) else alias
  }

  function Register(hash: string -> string, t: Table, i: Identity): Table
  {
    if Key(i) in t.names then t
    else
      var alias := Fresh(hash, t, i);
      Table(t.aliases[alias := i], t.names[Key(i) := alias])
  }

  function RegisterAll(hash: string -> string, t: Table, ids: seq<Identity>): Table
  {
    if ids == [] then t else Register(hash, RegisterAll(hash, t, ids[..|ids| - 1]), ids[|ids| - 1])
  }

  // The two directions

  /** Name to identity and identity to name lead back to where they came from. */
  ghost predicate Inverse(t: Table)
  {
    && (forall key :: key in t.names ==> t.names[key] in t.aliases && Key(t.aliases[t.names[key]]) == key)
    && (forall alias :: alias in t.aliases ==>
          Key(t.aliases[alias]) in t.names && t.names[Key(t.aliases[alias])] == alias && |alias| <= MAX_ALIAS)
  }

  /** The name of a new identity already belongs to another one. */
  predicate Clashes(hash: string -> string, t: Table, i: Identity)
  {
    Key(i) !in t.names && Fresh(hash, t, i) in t.aliases
  }

  lemma AliasLength(hash: string -> string, t: Table, i: Identity)
    ensures |Fresh(hash, t, i)| <= MAX_ALIAS
  {
  }

  /** The name an identity asks for: the gateway's own for its two tools, else the qualified name of the client's. */
  function Asked(i: Identity): string
  {
    if i.kind.SearchTool? then "grok2api_tool_search"
    else if i.kind.PatchTool? then "grok2api_apply_patch"
    else if i.space == "" then i.name
    else i.space + "__" + i.name
  }

  /**
   An identity gets the name it asks for unless that is longer than 128 characters or leads
   to another identity; then it gets as much of it as fits with nine digits of its hash.
   */
  lemma FreshForm(hash: string -> string, t: Table, i: Identity)
    ensures var name := Fresh(hash, t, i); var own := Asked(i);
            if |own| <= 128 && (own in t.aliases ==> Key(t.aliases[own]) == Key(i)) then name == own
            else exists n: nat, d: string ::
                   && n <= |own| && name == own[..n] + "__" + d && |name| <= 128 && (n < |own| ==> |name| == 128)
                   && d <= hash(Key(i)) && |d| == (if |hash(Key(i))| > 9 then 9 else |hash(Key(i))|)
  {
    hide Key;
    var own, d := Asked(i), Short(hash, Key(i));
    assert own == Base(i);
    var n := if |own| > 126 - |d| then 126 - |d| else |own|;
    assert Hashed(hash, own, Key(i)) == own[..n] + "__" + d by { assert own[..|own|] == own; assert own[..n] + ("__" + d) == own[..n] + "__" + d; }
  }

  /** Registering keeps the table invertible exactly when the new name was free. */
  lemma RegisterInverse(hash: string -> string, t: Table, i: Identity)
    requires Inverse(t)
    ensures Inverse(Register(hash, t, i)) <==> !Clashes(hash, t, i)
  {
    hide Key, Base, Hashed, Truncated, Fresh;
    if Key(i) !in t.names {
      AliasLength(hash, t, i);
      var alias := Fresh(hash, t, i);
      var u := Register(hash, t, i);
      if alias in t.aliases {
        var prev := Key(t.aliases[alias]);
        assert prev in t.names && prev != Key(i);
        assert u.names[prev] == alias && u.aliases[alias] == i;
      }
    }
  }

  /** A clash needs the hashed name itself to be taken by another identity. */
  lemma ClashIsHash(hash: string -> string, t: Table, i: Identity)
    requires Inverse(t) && Clashes(hash, t, i)
    ensures Taken(t, Hashed(hash, Base(i), Key(i)), Key(i))
  {
    hide Key, Base, Hashed;
  }

  ghost predicate NoClash(hash: string -> string, t: Table, ids: seq<Identity>)
  {
    forall k :: 0 <= k < |ids| ==> !Clashes(hash, RegisterAll(hash, t, ids[..k]), ids[k])
  }

  /** The way from a name to an identity and back never fails, clash or not. */
  ghost predicate NamesKept(t: Table)
  {
    forall alias :: alias in t.aliases ==>
      Key(t.aliases[alias]) in t.names && t.names[Key(t.aliases[alias])] == alias && |alias| <= MAX_ALIAS
  }

  /** An identity whose name now leads to another one. */
  predicate Lost(t: Table, key: string)
  {
    key in t.names && (t.names[key] !in t.aliases || Key(t.aliases[t.names[key]]) != key)
  }

  lemma RegisterKeeps(hash: string -> string, t: Table, i: Identity)
    requires NamesKept(t)
    ensures NamesKept(Register(hash, t, i))
    ensures forall key :: Lost(t, key) ==> Lost(Register(hash, t, i), key)
  {
    hide Key, Fresh;
    if Key(i) !in t.names { AliasLength(hash, t, i); }
  }

  lemma InverseParts(t: Table)
    ensures Inverse(t) <==> NamesKept(t) && forall key :: !Lost(t, key)
  {
    hide Key;
    if NamesKept(t) && (forall key :: !Lost(t, key)) {
      forall key | key in t.names ensures t.names[key] in t.aliases && Key(t.aliases[t.names[key]]) == key {
        assert !Lost(t, key);
      }
    }
  }

  /** Over any sequence of registrations the table is invertible exactly when no new name was ever taken. */
  lemma {:induction false} RegisterAllInverse(hash: string -> string, ids: seq<Identity>)
    ensures Inverse(RegisterAll(hash, Empty, ids)) <==> NoClash(hash, Empty, ids)
    ensures NamesKept(RegisterAll(hash, Empty, ids))
  {
    hide Key, Register, Inverse, Clashes, Lost, NamesKept;
    var t := RegisterAll(hash, Empty, ids);
    InverseParts(t);
    if ids == [] {
      assert NamesKept(t) && Inverse(t) by { EmptyInverse(); }
    } else {
      var front, u := ids[..|ids| - 1], RegisterAll(hash, Empty, ids[..|ids| - 1]);
      RegisterAllInverse(hash, front);
      InverseParts(u);
      RegisterKeeps(hash, u, ids[|ids| - 1]);
      NoClashFront(hash, ids);
      if Inverse(u) {
        RegisterInverse(hash, u, ids[|ids| - 1]);
      } else {
        var key :| Lost(u, key);
        assert Lost(t, key);
      }
    }
  }

  lemma EmptyInverse()
    ensures Inverse(Empty) && NamesKept(Empty)
  {
  }

  lemma NoClashFront(hash: string -> string, ids: seq<Identity>)
    requires ids != []
    ensures var front := ids[..|ids| - 1];
            NoClash(hash, Empty, ids) <==>
              NoClash(hash, Empty, front) && !Clashes(hash, RegisterAll(hash, Empty, front), ids[|ids| - 1])
  {
    hide Clashes, RegisterAll;
    var front := ids[..|ids| - 1];
    assert forall k :: 0 <= k < |front| ==> front[..k] == ids[..k] && front[k] == ids[k];
  }

  /** Once given, a name stays: asking again or registering anything else does not change it. */
  lemma {:induction false} NamesStable(hash: string -> string, t: Table, ids: seq<Identity>, key: string)
    requires key in t.names
    ensures key in RegisterAll(hash, t, ids).names && RegisterAll(hash, t, ids).names[key] == t.names[key]
  {
    hide Key, Fresh;
    if ids != [] { NamesStable(hash, t, ids[..|ids| - 1], key); }
  }

  /** Every registered identity is in the table at the end. */
  lemma {:induction false} AllNamed(hash: string -> string, t: Table, ids: seq<Identity>, k: nat)
    requires k < |ids|
    ensures Key(ids[k]) in RegisterAll(hash, t, ids).names
  {
    hide Key, Fresh;
    if k < |ids| - 1 {
      AllNamed(hash, t, ids[..|ids| - 1], k);
      assert ids[..|ids| - 1][k] == ids[k];
    }
  }

  // Keys

  predicate HasNul(s: string)
  {
    '\0' in s
  }

  /** Keys tell identities apart as long as namespaces contain no NUL. */
  lemma KeyInjective(i: Identity, j: Identity)
    requires Key(i) == Key(j) && !HasNul(i.space) && !HasNul(j.space)
    ensures i == j
  {
    var a, b := Key(i), Key(j);
    assert a[0] == Digit(i.kind) && b[0] == Digit(j.kind);
    assert a[2..] == i.space + ['\0'] + i.name && b[2..] == j.space + ['\0'] + j.name;
    FieldsSplit(i.space, i.name, j.space, j.name);
  }

  lemma FieldsSplit(s: string, x: string, t: string, y: string)
    requires s + ['\0'] + x == t + ['\0'] + y && !HasNul(s) && !HasNul(t)
    ensures s == t && x == y
  {
    var u, v := s + ['\0'] + x, t + ['\0'] + y;
    assert u[|s|] == '\0' && v[|t|] == '\0';
    assert forall k :: 0 <= k < |s| ==> u[k] == s[k];
    assert forall k :: 0 <= k < |t| ==> v[k] == t[k];
    assert |s| == |t|;
    assert u[..|s|] == s && v[..|t|] == t;
    assert u[|s| + 1..] == x && v[|t| + 1..] == y;
  }

  /** The first NUL of a text that has one. */
  lemma NulSplit(s: string) returns (k: nat)
    requires HasNul(s)
    ensures k < |s| && s == s[..k] + ['\0'] + s[k + 1..]
  {
    k :| k < |s| && s[k] == '\0';
  }

  /** With a NUL in either field the fields can be cut elsewhere. */
  lemma KeyShared(i: Identity) returns (j: Identity)
    requires HasNul(i.space) || HasNul(i.name)
    ensures j != i && Key(j) == Key(i)
  {
    if HasNul(i.space) {
      var k := NulSplit(i.space);
      j := Identity(i.kind, i.space[..k], i.space[k + 1..] + ['\0'] + i.name);
      assert j.space + ['\0'] + j.name == i.space + ['\0'] + i.name;
    } else {
      var k := NulSplit(i.name);
      j := Identity(i.kind, i.space + ['\0'] + i.name[..k], i.name[k + 1..]);
      assert j.space + ['\0'] + j.name == i.space + ['\0'] + i.name;
    }
    assert Key(i) == [Digit(i.kind), '\0'] + (i.space + ['\0'] + i.name);
    assert Key(j) == [Digit(j.kind), '\0'] + (j.space + ['\0'] + j.name);
    assert |j.space| != |i.space|;
  }

  /** Where neither field has a NUL, the only NUL between them tells where to cut. */
  lemma OneCut(s: string, x: string, t: string, y: string)
    requires s + ['\0'] + x == t + ['\0'] + y && !HasNul(s) && !HasNul(x)
    ensures s == t && x == y
  {
    var u, v := s + ['\0'] + x, t + ['\0'] + y;
    assert v[|t|] == '\0';
    assert forall k :: 0 <= k < |s| ==> u[k] == s[k];
    assert forall k :: |s| < k < |u| ==> u[k] == x[k - |s| - 1];
    assert |t| == |s|;
    assert u[..|s|] == s && v[..|t|] == t;
    assert u[|s| + 1..] == x && v[|t| + 1..] == y;
  }

  /** Another identity shares the key of `i` exactly if the namespace or the name of `i` contains a NUL. */
  lemma KeyClash(i: Identity)
    ensures (exists j :: j != i && Key(j) == Key(i)) <==> HasNul(i.space) || HasNul(i.name)
  {
    if HasNul(i.space) || HasNul(i.name) {
      var j := KeyShared(i);
    } else {
      forall j | Key(j) == Key(i) ensures j == i {
        assert Key(i)[0] == Digit(i.kind) && Key(j)[0] == Digit(j.kind);
        assert Key(i)[2..] == i.space + ['\0'] + i.name && Key(j)[2..] == j.space + ['\0'] + j.name;
        OneCut(i.space, i.name, j.space, j.name);
      }
    }
  }

  /** With a NUL in the namespace two different tools share a key, and so a name. */
  lemma KeyClashExample()
    ensures var i, j := Identity(FunctionTool, "a\0b", "c"), Identity(FunctionTool, "a", "b\0c");
            i != j && Key(i) == Key(j)
  {
    assert ['0', '\0'] + "a\0b" + ['\0'] + "c" == ['0', '\0'] + "a" + ['\0'] + "b\0c";
    assert "a\0b"[1] == '\0';
  }

  /** Different identities have different names. */
  lemma NamesDiffer(t: Table, i: Identity, j: Identity)
    requires Inverse(t) && Key(i) in t.names && Key(j) in t.names && Key(i) != Key(j)
    ensures t.names[Key(i)] != t.names[Key(j)]
  {
  }

  // The table as it is kept

  class ToolCompatibility {
    var aliases: map<string, Identity>
    var names: map<string, string>
    const hash: string -> string

    function Abs(): Table
      reads this
    {
      Table(aliases, names)
    }

    constructor (hash: string -> string)
      ensures Abs() == Empty && this.hash == hash
    {
      aliases, names, this.hash := map[], map[], hash;
    }

    /** The name of `i`, registered on first use. */
    method Alias(i: Identity) returns (alias: string)
      modifies this
      ensures Abs() == Register(hash, old(Abs()), i)
      ensures Key(i) in names && alias == names[Key(i)]
      ensures Inverse(old(Abs())) && !Clashes(hash, old(Abs()), i) ==> Inverse(Abs()) && |alias| <= MAX_ALIAS
    {
      if Inverse(Abs()) { RegisterInverse(hash, Abs(), i); }
      var key := Key(i);
      if key in names { return names[key]; }
      var base := Base(i);
      alias := Truncated(hash, base, key);
      if alias in aliases && Key(aliases[alias]) != key { alias := Hashed(hash, base, key); }
      aliases := aliases[alias := i];
      names := names[key := alias];
    }

    method RegisterFunction(space: string, name: string) returns (alias: string)
      modifies this
      ensures Abs() == Register(hash, old(Abs()), Identity(FunctionTool, space, name))
      ensures Key(Identity(FunctionTool, space, name)) in names && alias == names[Key(Identity(FunctionTool, space, name))]
    {
      alias := Alias(Identity(FunctionTool, space, name));
    }
  }
}
