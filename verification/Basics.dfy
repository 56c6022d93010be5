/** Small shared vocabulary: options, string trimming, and joining of string pieces. */
module Basics {

  datatype Option<+T> = None | Some(value: T)

  /** White space as trimmed by the code, on the Latin-1 range. */
  predicate IsSpace(c: char)
  {
    c == ' ' || c == '\t' || c == '\n' || c == '\r' || c == '\U{000B}' || c == '\U{000C}'
    || c == '\U{0085}' || c == '\U{00A0}'
  }

  function TrimLeft(s: string): string
  {
    if s != "" && IsSpace(s[0]) then TrimLeft(s[1..]) else s
  }

  function TrimRight(s: string): string
  {
    if s != "" && IsSpace(s[|s| - 1]) then TrimRight(s[..|s| - 1]) else s
  }

  function Trim(s: string): string
  {
    TrimRight(TrimLeft(s))
  }

  /** A string that trimming leaves alone. */
  predicate Tight(s: string)
  {
    s == "" || (!IsSpace(s[0]) && !IsSpace(s[|s| - 1]))
  }

  lemma {:induction false} TrimRightTight(s: string)
    requires s != "" ==> !IsSpace(s[0])
    ensures Tight(TrimRight(s))
  {
    if s != "" && IsSpace(s[|s| - 1]) {
      TrimRightTight(s[..|s| - 1]);
    }
  }

  lemma {:induction false} TrimLeftHead(s: string)
    ensures var t := TrimLeft(s); t != "" ==> !IsSpace(t[0])
  {
    if s != "" && IsSpace(s[0]) {
      TrimLeftHead(s[1..]);
    }
  }

  /** Trimming yields exactly the strings it leaves alone. */
  lemma TrimTight(s: string)
    ensures Tight(Trim(s))
    ensures Tight(s) ==> Trim(s) == s
  {
    TrimLeftHead(s);
    TrimRightTight(TrimLeft(s));
  }

  function LowerChar(c: char): char
  {
    if 'A' <= c <= 'Z' then ((c as int) + 32) as char else c
  }

  /** Lower case, on the ASCII letters. */
  function Lower(s: string): (r: string)
    ensures |r| == |s|
  {
    seq(|s|, i requires 0 <= i < |s| => LowerChar(s[i]))
  }

  lemma LowerTight(s: string)
    ensures Tight(s) ==> Tight(Lower(s))
  {
    if s != "" {
      assert IsSpace(LowerChar(s[0])) ==> IsSpace(s[0]);
      assert IsSpace(LowerChar(s[|s| - 1])) ==> IsSpace(s[|s| - 1]);
    }
  }

  /** Trimming and lowering what was trimmed and lowered changes nothing. */
  lemma LowerTrimStable(s: string)
    ensures Lower(Trim(Lower(Trim(s)))) == Lower(Trim(s)) && Trim(Lower(Trim(s))) == Lower(Trim(s))
    ensures Trim(Trim(s)) == Trim(s)
  {
    TrimTight(s);
    LowerTight(Trim(s));
    TrimTight(Trim(s));
    TrimTight(Lower(Trim(s)));
    var l := Lower(Trim(s));
    assert forall k :: 0 <= k < |l| ==> Lower(l)[k] == l[k];
  }

  /** Trimming takes white space off both ends and nothing else. */
  lemma TrimTells(s: string)
    ensures exists i, j :: 0 <= i <= j <= |s| && Trim(s) == s[i..j]
              && (forall k :: 0 <= k < i || j <= k < |s| ==> IsSpace(s[k]))
  {
    var i := TrimLeftTells(s);
    var n := TrimRightTells(TrimLeft(s));
    assert Trim(s) == s[i..i + n];
    forall k | i + n <= k < |s| ensures IsSpace(s[k]) { assert TrimLeft(s)[k - i] == s[k]; }
  }

  lemma {:induction false} TrimLeftTells(s: string) returns (i: nat)
    ensures i <= |s| && TrimLeft(s) == s[i..] && forall k :: 0 <= k < i ==> IsSpace(s[k])
  {
    i := 0;
    if s != "" && IsSpace(s[0]) {
      var j := TrimLeftTells(s[1..]);
      i := j + 1;
      forall k | 0 <= k < i ensures IsSpace(s[k]) { if k > 0 { assert s[k] == s[1..][k - 1]; } }
    }
  }

  lemma {:induction false} TrimRightTells(s: string) returns (n: nat)
    ensures n <= |s| && TrimRight(s) == s[..n] && forall k :: n <= k < |s| ==> IsSpace(s[k])
  {
    n := |s|;
    if s != "" && IsSpace(s[|s| - 1]) {
      n := TrimRightTells(s[..|s| - 1]);
    }
  }

  predicate HasPrefix(s: string, prefix: string)
  {
    prefix <= s
  }

  /** The first string that is not blank, trimmed. */
  function FirstNonEmpty(a: string, b: string): string
  {
    if Trim(a) != "" then Trim(a) else Trim(b)
  }

  /** Concatenation of all pieces. */
  function Concat(pieces: seq<string>): string
  {
    if pieces == [] then "" else pieces[0] + Concat(pieces[1..])
  }

  function Join(pieces: seq<string>, sep: string): string
  {
    if pieces == [] then ""
    else if |pieces| == 1 then pieces[0]
    else pieces[0] + sep + Join(pieces[1..], sep)
  }

  /** Joined pieces stand in order with the separator between any two. */
  lemma {:induction false} JoinTells(a: seq<string>, b: seq<string>, sep: string)
    ensures Join([], sep) == "" && (|a| == 1 ==> Join(a, sep) == a[0])
    ensures a != [] && b != [] ==> Join(a + b, sep) == Join(a, sep) + sep + Join(b, sep)
  {
    if |a| == 1 {
      assert b != [] ==> (a + b)[1..] == b;
    } else if a != [] && b != [] {
      assert (a + b)[0] == a[0] && (a + b)[1..] == a[1..] + b;
      JoinTells(a[1..], b, sep);
    }
  }

  // Picking from a list

  /** `idx` lists in order exactly the places below `n` that are wanted. */
  ghost predicate Picks(n: nat, wanted: nat -> bool, idx: seq<nat>)
  {
    && (forall j, k :: 0 <= j < k < |idx| ==> idx[j] < idx[k])
    && (forall i: nat :: i in idx <==> i < n && wanted(i))
  }

  lemma PicksSame(n: nat, wanted: nat -> bool, others: nat -> bool, idx: seq<nat>)
    requires Picks(n, wanted, idx) && forall i: nat :: i < n ==> wanted(i) == others(i)
    ensures Picks(n, others, idx)
  {
  }

  /** One more place at the end. */
  lemma PicksMore(n: nat, wanted: nat -> bool, idx: seq<nat>)
    requires Picks(n, wanted, idx)
    ensures Picks(n + 1, wanted, if wanted(n) then idx + [n] else idx)
  {
    var more := if wanted(n) then idx + [n] else idx;
    forall j, k | 0 <= j < k < |more| ensures more[j] < more[k] {
      assert more[j] == idx[j] && idx[j] in idx;
    }
    forall i: nat ensures i in more <==> i < n + 1 && wanted(i) {
      if wanted(n) { assert more[|idx|] == n; }
    }
  }
}
