/**
 Who is lent next, exactly: the accounts that can serve when the scan reaches them, the
 best tier of those, the least busy of that tier, and one of them by the pool's strategy.
 */
module PickLaws {
  import opened Basics
  import opened Accounts
  import opened Pools
  import opened PoolRuns
  import opened PoolLaws
  import Selection

  // Order of ids

  /** At the first place where the two differ `a` has ended or has the smaller character. */
  ghost predicate Precedes(a: string, b: string)
  {
    exists k: nat :: SmallerAt(a, b, k)
  }

  predicate SmallerAt(a: string, b: string, k: nat)
  {
    k <= |a| && k < |b| && a[..k] == b[..k] && (k < |a| ==> a[k] < b[k])
  }

  lemma {:induction false} SmallerLess(a: string, b: string, k: nat)
    requires SmallerAt(a, b, k)
    ensures Less(a, b)
    decreases k
  {
    if k > 0 {
      assert a[0] == a[..k][0] == b[..k][0] == b[0];
      assert a[1..][..k - 1] == a[..k][1..] && b[1..][..k - 1] == b[..k][1..];
      SmallerLess(a[1..], b[1..], k - 1);
    }
  }

  lemma {:induction false} LessSmaller(a: string, b: string) returns (k: nat)
    requires Less(a, b)
    ensures SmallerAt(a, b, k)
    decreases |a|
  {
    k := 0;
    if a != "" && a[0] == b[0] {
      k := LessSmaller(a[1..], b[1..]);
      assert a[..k + 1] == [a[0]] + a[1..][..k] && b[..k + 1] == [b[0]] + b[1..][..k];
      k := k + 1;
    }
  }

  /** The comparison of ids is byte order. */
  lemma LessPrecedes(a: string, b: string)
    ensures Less(a, b) <==> Precedes(a, b)
  {
    if Less(a, b) { var k := LessSmaller(a, b); }
    forall k: nat | SmallerAt(a, b, k) ensures Less(a, b) { SmallerLess(a, b, k); }
  }

  // Who comes into question

  /** Ready, with quota and room left. */
  predicate CanServe(p: Pool, id: string)
  {
    id in p.accounts && p.accounts[id].standing == Ready && !Spent(p.accounts[id]) && p.accounts[id].active < p.accounts[id].maxActive
  }

  /** A spent account holding one of the hot places. */
  predicate Blocks(p: Pool, id: string)
  {
    id in p.hot && id in p.accounts && p.accounts[id].standing == Ready && Spent(p.accounts[id])
  }

  /** The `i`-th ready account can serve and has a hot place: its own, a free one, or one a spent account before it loses. */
  predicate Comes(p: Pool, i: nat)
  {
    && i < |p.ready| && CanServe(p, p.ready[i])
    && (|| p.activeSize == 0 || p.ready[i] in p.hot || |p.hot| < p.activeSize
        || exists j :: 0 <= j < i && Blocks(p, p.ready[j]))
  }

  lemma ComesIsReached(p: Pool, i: nat)
    requires Valid(p)
    ensures Comes(p, i) <==> Selection.Reached(p, i)
  {
    assert forall j :: 0 <= j < |p.ready| ==> (Blocks(p, p.ready[j]) <==> Selection.SpentHot(p, p.ready[j]));
    if i < |p.ready| && p.ready[i] in p.accounts { AvailableMeans(p.accounts[p.ready[i]]); }
    hide Selection.SpentHot, Blocks, Spent, Available;
  }

  /** Among the first `k` ready accounts: one that comes into question, of the highest priority of those. */
  function Top(p: Pool, k: nat): nat -> bool
  {
    (i: nat) => i < k && k <= |p.ready| && Comes(p, i)
                && forall j :: 0 <= j < k && Comes(p, j) ==> Priority(p, j) <= Priority(p, i)
  }

  function Priority(p: Pool, i: nat): int
  {
    if i < |p.ready| && p.ready[i] in p.accounts then p.accounts[p.ready[i]].priority else 0
  }

  function Load(p: Pool, i: nat): int
  {
    if i < |p.ready| && p.ready[i] in p.accounts then p.accounts[p.ready[i]].active else 0
  }

  /** The ready accounts at these places. */
  ghost predicate Are(p: Pool, ids: seq<string>, idx: seq<nat>)
  {
    |ids| == |idx| && forall n :: 0 <= n < |idx| ==> idx[n] < |p.ready| && ids[n] == p.ready[idx[n]]
  }

  lemma CandidatesNext(p: Pool, k: nat, sc: Scan, now: int)
    requires Valid(p) && k < |p.ready| && sc == ScanAll(Scan(p, [], 0), p.ready[..k], now)
    ensures var id := p.ready[k]; var u := ScanOne(sc, id, now);
            if !Comes(p, k) then u.candidates == sc.candidates && u.priority == sc.priority
            else if sc.candidates == [] || Priority(p, k) > sc.priority then u.candidates == [id] && u.priority == Priority(p, k)
            else if Priority(p, k) == sc.priority then u.candidates == sc.candidates + [id] && u.priority == sc.priority
            else u.candidates == sc.candidates && u.priority == sc.priority
  {
    var front, id := p.ready[..k], p.ready[k];
    ScanParks(p, front, now);
    ComesIsReached(p, k);
    assert id in p.ready && id !in front;
    Selection.EligibleAfter(p, front, id, now);
    Selection.SpentBefore(p, k);
    assert sc.pool.accounts[id] == p.accounts[id];
    ParkableNot(p, id);
    hide ScanAll, Valid, Parked, Eligible, Selection.SpentHot, Comes, Park, Parkable, Available, Blocks;
    assert Free(sc.pool, id) <==> Selection.Reached(p, k);
  }

  lemma ParkableNot(p: Pool, id: string)
    ensures id in p.accounts && Available(p.accounts[id]) ==> !Parkable(p.accounts[id])
  {
  }

  /** The candidates after `k` visits: exactly the best of those that came into question, in order. */
  ghost predicate Tops(p: Pool, k: nat, ids: seq<string>, priority: int, idx: seq<nat>)
  {
    && Picks(k, Top(p, k), idx) && Are(p, ids, idx)
    && (ids == [] ==> forall j :: 0 <= j < k ==> !Comes(p, j))
    && (ids != [] ==> forall i: nat :: i in idx ==> Priority(p, i) == priority)
    && (ids != [] ==> forall j :: 0 <= j < k && Comes(p, j) ==> Priority(p, j) <= priority)
  }

  lemma Skipped(p: Pool, k: nat, ids: seq<string>, priority: int, idx: seq<nat>)
    requires k < |p.ready| && Tops(p, k, ids, priority, idx) && (Comes(p, k) ==> ids != [] && Priority(p, k) < priority)
    ensures Tops(p, k + 1, ids, priority, idx)
  {
    hide Comes;
    if ids != [] { assert idx[0] in idx && Top(p, k)(idx[0]); }
    forall i: nat ensures i in idx <==> i < k + 1 && Top(p, k + 1)(i) {
      if i in idx { assert Top(p, k)(i); }
      if Top(p, k + 1)(i) && i < k { assert Top(p, k)(i); }
    }
  }

  lemma Joined(p: Pool, k: nat, ids: seq<string>, priority: int, idx: seq<nat>)
    requires k < |p.ready| && Tops(p, k, ids, priority, idx) && Comes(p, k) && ids != [] && Priority(p, k) == priority
    ensures Tops(p, k + 1, ids + [p.ready[k]], priority, idx + [k])
  {
    hide Comes;
    var more := idx + [k];
    forall i: nat ensures i in more <==> i < k + 1 && Top(p, k + 1)(i) {
      if i in idx { assert Top(p, k)(i); }
      if Top(p, k + 1)(i) && i < k { assert Top(p, k)(i); }
      if i == k { assert more[|idx|] == k; }
    }
    forall j, l | 0 <= j < l < |more| ensures more[j] < more[l] { assert idx[j] in idx; }
  }

  lemma Replaced(p: Pool, k: nat, ids: seq<string>, priority: int, idx: seq<nat>)
    requires k < |p.ready| && Tops(p, k, ids, priority, idx) && Comes(p, k) && (ids == [] || Priority(p, k) > priority)
    ensures Tops(p, k + 1, [p.ready[k]], Priority(p, k), [k])
  {
    hide Comes;
    forall i: nat ensures i in [k] <==> i < k + 1 && Top(p, k + 1)(i) { }
  }

  lemma {:induction false} ScanTops(p: Pool, k: nat, now: int) returns (idx: seq<nat>)
    requires Valid(p) && k <= |p.ready|
    ensures var sc := ScanAll(Scan(p, [], 0), p.ready[..k], now); Tops(p, k, sc.candidates, sc.priority, idx)
  {
    hide Valid, ScanOne, Comes, Tops;
    idx := [];
    if k == 0 {
      NoTops(p);
    } else {
      var id := p.ready[k - 1];
      assert p.ready[..k][..k - 1] == p.ready[..k - 1];
      idx := ScanTops(p, k - 1, now);
      var sc := ScanAll(Scan(p, [], 0), p.ready[..k - 1], now);
      CandidatesNext(p, k - 1, sc, now);
      if !Comes(p, k - 1) || (sc.candidates != [] && Priority(p, k - 1) < sc.priority) {
        Skipped(p, k - 1, sc.candidates, sc.priority, idx);
      } else if sc.candidates != [] && Priority(p, k - 1) == sc.priority {
        Joined(p, k - 1, sc.candidates, sc.priority, idx);
        idx := idx + [k - 1];
      } else {
        Replaced(p, k - 1, sc.candidates, sc.priority, idx);
        idx := [k - 1];
      }
    }
  }

  lemma NoTops(p: Pool)
    ensures Tops(p, 0, [], 0, [])
  {
  }

  // The least busy

  /** One of the least requests in flight of the list. */
  function Light(accounts: map<string, Account>, ids: seq<string>): nat -> bool
  {
    (i: nat) => i < |ids| && ids[i] in accounts
                && forall j :: 0 <= j < |ids| && ids[j] in accounts ==> accounts[ids[i]].active <= accounts[ids[j]].active
  }

  /** The light ones among `ids`, in order. */
  ghost predicate Lights(accounts: map<string, Account>, ids: seq<string>, light: seq<string>, sub: seq<nat>)
  {
    && Picks(|ids|, Light(accounts, ids), sub) && |light| == |sub|
    && forall n :: 0 <= n < |sub| ==> sub[n] < |ids| && light[n] == ids[sub[n]]
  }

  lemma {:induction false} LightestTells(accounts: map<string, Account>, ids: seq<string>) returns (sub: seq<nat>)
    ensures Lights(accounts, ids, Lightest(accounts, ids), sub)
  {
    hide Lights;
    sub := [];
    if ids == [] {
      NoLights(accounts);
    } else {
      var front, id := ids[..|ids| - 1], ids[|ids| - 1];
      assert ids == front + [id];
      sub := LightestTells(accounts, front);
      sub := LightNext(accounts, front, id, Lightest(accounts, front), sub);
    }
  }

  lemma NoLights(accounts: map<string, Account>)
    ensures Lights(accounts, [], [], [])
  {
  }

  /** One of the least of a longer list is one of the least of its beginning. */
  lemma LightFront(accounts: map<string, Account>, front: seq<string>, id: string, i: nat)
    requires i < |front| && Light(accounts, front + [id])(i)
    ensures Light(accounts, front)(i)
  {
    var ids := front + [id];
    assert forall j :: 0 <= j < |front| ==> front[j] == ids[j];
  }

  lemma LightLonger(accounts: map<string, Account>, front: seq<string>, id: string, i: nat)
    requires i < |front| && Light(accounts, front)(i) && (id in accounts ==> accounts[front[i]].active <= accounts[id].active)
    ensures Light(accounts, front + [id])(i)
  {
    var ids := front + [id];
    assert forall j :: 0 <= j < |front| ==> front[j] == ids[j];
  }

  /** All the light ones are equally busy. */
  lemma EquallyLight(accounts: map<string, Account>, ids: seq<string>, light: seq<string>, sub: seq<nat>)
    requires Lights(accounts, ids, light, sub) && light != []
    ensures light[0] in accounts && forall i: nat :: Light(accounts, ids)(i) ==> accounts[ids[i]].active == accounts[light[0]].active
    ensures forall j :: 0 <= j < |ids| && ids[j] in accounts ==> accounts[light[0]].active <= accounts[ids[j]].active
  {
    assert sub[0] in sub && Light(accounts, ids)(sub[0]);
  }

  lemma LightSkipped(accounts: map<string, Account>, front: seq<string>, id: string, light: seq<string>, sub: seq<nat>)
    requires Lights(accounts, front, light, sub)
    requires id in accounts ==> light != [] && light[0] in accounts && accounts[light[0]].active < accounts[id].active
    ensures Lights(accounts, front + [id], light, sub)
  {
    var ids := front + [id];
    if light != [] {
      EquallyLight(accounts, front, light, sub);
      assert sub[0] in sub && Light(accounts, front)(sub[0]) && ids[sub[0]] == front[sub[0]];
    }
    forall i: nat ensures i in sub <==> i < |ids| && Light(accounts, ids)(i) {
      if i < |front| && Light(accounts, ids)(i) { LightFront(accounts, front, id, i); }
      if i in sub { LightLonger(accounts, front, id, i); }
    }
  }

  lemma LightJoined(accounts: map<string, Account>, front: seq<string>, id: string, light: seq<string>, sub: seq<nat>)
    requires Lights(accounts, front, light, sub)
    requires id in accounts && light != [] && light[0] in accounts && accounts[light[0]].active == accounts[id].active
    ensures Lights(accounts, front + [id], light + [id], sub + [|front|])
  {
    var ids, n := front + [id], |front|;
    var more := sub + [n];
    EquallyLight(accounts, front, light, sub);
    forall i: nat ensures i in more <==> i < n + 1 && Light(accounts, ids)(i) {
      if i < n && Light(accounts, ids)(i) { LightFront(accounts, front, id, i); }
      if i in sub { LightLonger(accounts, front, id, i); }
      if i == n {
        assert more[|sub|] == n;
        assert forall j :: 0 <= j < n ==> ids[j] == front[j];
      }
    }
    forall j, l | 0 <= j < l < |more| ensures more[j] < more[l] { assert sub[j] in sub; }
  }

  lemma LightReplaced(accounts: map<string, Account>, front: seq<string>, id: string, light: seq<string>, sub: seq<nat>)
    requires Lights(accounts, front, light, sub) && id in accounts
    requires light == [] || (light[0] in accounts && accounts[id].active < accounts[light[0]].active)
    ensures Lights(accounts, front + [id], [id], [|front|])
  {
    var ids, n := front + [id], |front|;
    if light == [] { NoneLight(accounts, front, sub); } else { EquallyLight(accounts, front, light, sub); }
    assert ids[n] == id && forall j :: 0 <= j < n ==> ids[j] == front[j];
    forall i: nat ensures i in [n] <==> i < n + 1 && Light(accounts, ids)(i) {
      if i == n { assert ids[i] == id; }
    }
  }

  lemma LightNext(accounts: map<string, Account>, front: seq<string>, id: string, light: seq<string>, before: seq<nat>) returns (sub: seq<nat>)
    requires Lights(accounts, front, light, before) && (forall x :: x in light ==> x in accounts)
    ensures Lights(accounts, front + [id],
                   if id !in accounts then light
                   else if light == [] || accounts[id].active < accounts[light[0]].active then [id]
                   else if accounts[id].active == accounts[light[0]].active then light + [id] else light, sub)
  {
    hide Lights;
    if id in accounts && (light == [] || accounts[id].active < accounts[light[0]].active) {
      LightReplaced(accounts, front, id, light, before);
      sub := [|front|];
    } else if id in accounts && accounts[id].active == accounts[light[0]].active {
      LightJoined(accounts, front, id, light, before);
      sub := before + [|front|];
    } else {
      LightSkipped(accounts, front, id, light, before);
      sub := before;
    }
  }

  /** Where nobody is light nobody is known. */
  lemma NoneLight(accounts: map<string, Account>, ids: seq<string>, sub: seq<nat>)
    requires Lights(accounts, ids, [], sub)
    ensures forall j :: 0 <= j < |ids| ==> ids[j] !in accounts
  {
    forall j | 0 <= j < |ids| ensures ids[j] !in accounts {
      if ids[j] in accounts { var i := LightestOne(accounts, ids, j); }
    }
  }

  lemma {:induction false} LightestOne(accounts: map<string, Account>, ids: seq<string>, j: nat) returns (i: nat)
    requires j < |ids| && ids[j] in accounts
    ensures Light(accounts, ids)(i)
    decreases accounts[ids[j]].active
  {
    i := j;
    if !Light(accounts, ids)(j) {
      var k :| 0 <= k < |ids| && ids[k] in accounts && accounts[ids[k]].active < accounts[ids[j]].active;
      i := LightestOne(accounts, ids, k);
    }
  }

  // The pick

  /** Nobody who comes into question has a higher priority, or the same and fewer requests in flight. */
  function Best(p: Pool): nat -> bool
  {
    (i: nat) => Comes(p, i) && forall j :: 0 <= j < |p.ready| && Comes(p, j) ==>
                  Priority(p, j) < Priority(p, i) || (Priority(p, j) == Priority(p, i) && Load(p, i) <= Load(p, j))
  }

  /** The candidates are who they were before the scan. */
  ghost predicate SameRecords(p: Pool, q: map<string, Account>, ids: seq<string>)
  {
    forall x :: x in ids ==> x in q && x in p.accounts && q[x] == p.accounts[x]
  }

  lemma BestOnly(p: Pool, q: map<string, Account>, ids: seq<string>, priority: int, idx: seq<nat>, light: seq<string>, sub: seq<nat>, s: nat)
    requires Tops(p, |p.ready|, ids, priority, idx) && Lights(q, ids, light, sub) && SameRecords(p, q, ids) && s in sub
    ensures s < |idx| && Best(p)(idx[s])
  {
    hide Comes;
    assert Light(q, ids)(s);
    var i := idx[s];
    assert i in idx && Top(p, |p.ready|)(i) && ids[s] == p.ready[i] && ids[s] in ids;
    forall j | 0 <= j < |p.ready| && Comes(p, j)
      ensures Priority(p, j) < Priority(p, i) || (Priority(p, j) == Priority(p, i) && Load(p, i) <= Load(p, j))
    {
      if Priority(p, j) == Priority(p, i) {
        assert Top(p, |p.ready|)(j);
        assert j in idx;
        var m :| 0 <= m < |idx| && idx[m] == j;
        assert ids[m] == p.ready[j] && ids[m] in ids;
      }
    }
  }

  lemma BestAll(p: Pool, q: map<string, Account>, ids: seq<string>, priority: int, idx: seq<nat>, light: seq<string>, sub: seq<nat>, i: nat)
    returns (s: nat)
    requires Tops(p, |p.ready|, ids, priority, idx) && Lights(q, ids, light, sub) && SameRecords(p, q, ids) && Best(p)(i)
    ensures s in sub && s < |idx| && idx[s] == i
  {
    ComesInside(p, i);
    hide Comes;
    assert Top(p, |p.ready|)(i);
    assert i in idx;
    s :| 0 <= s < |idx| && idx[s] == i;
    assert ids[s] == p.ready[i] && ids[s] in ids;
    forall m | 0 <= m < |ids| && ids[m] in q ensures q[ids[s]].active <= q[ids[m]].active {
      assert idx[m] in idx && Top(p, |p.ready|)(idx[m]);
      assert ids[m] == p.ready[idx[m]] && ids[m] in ids;
    }
    assert Light(q, ids)(s);
  }

  lemma ComesInside(p: Pool, i: nat)
    requires Comes(p, i)
    ensures i < |p.ready|
  {
  }

  lemma BestPicked(p: Pool, q: map<string, Account>, ids: seq<string>, priority: int, idx: seq<nat>, light: seq<string>, sub: seq<nat>)
    returns (best: seq<nat>)
    requires Tops(p, |p.ready|, ids, priority, idx) && Lights(q, ids, light, sub) && SameRecords(p, q, ids)
    ensures Picks(|p.ready|, Best(p), best) && Are(p, light, best)
  {
    hide Comes, Best;
    forall s: nat | s in sub ensures s < |idx| && Best(p)(idx[s]) { BestOnly(p, q, ids, priority, idx, light, sub, s); }
    assert forall k :: 0 <= k < |sub| ==> sub[k] in sub;
    best := seq(|sub|, k requires 0 <= k < |sub| && sub[k] < |idx| => idx[sub[k]]);
    forall i: nat ensures i in best <==> i < |p.ready| && Best(p)(i) {
      if i in best {
        var k :| 0 <= k < |best| && best[k] == i;
        assert sub[k] in sub;
      }
      if Best(p)(i) {
        var s := BestAll(p, q, ids, priority, idx, light, sub, i);
        var k :| 0 <= k < |sub| && sub[k] == s;
        assert best[k] == i;
      }
    }
  }

  lemma {:induction false} SmallestFirst(ids: seq<string>)
    requires ids != []
    ensures forall x :: x in ids ==> !Precedes(x, Smallest(ids))
  {
    hide Less, Precedes;
    if |ids| == 1 {
      LessPrecedes(ids[0], ids[0]);
      NotLess(ids[0]);
    } else {
      var front, last := ids[..|ids| - 1], ids[|ids| - 1];
      SmallestFirst(front);
      var s := Smallest(ids);
      assert ids == front + [last];
      forall x | x in ids ensures !Precedes(x, s) {
        LessPrecedes(x, s);
        LessPrecedes(x, Smallest(front));
        LessPrecedes(last, Smallest(front));
        NotLess(s);
        LessOn(x, last, Smallest(front));
      }
    }
  }

  lemma {:induction false} NotLess(a: string)
    ensures !Less(a, a)
  {
    if a != "" { NotLess(a[1..]); }
  }

  lemma {:induction false} LessOn(a: string, b: string, c: string)
    ensures Less(a, b) && Less(b, c) ==> Less(a, c)
    decreases |a|
  {
    if a != "" && b != "" && c != "" { LessOn(a[1..], b[1..], c[1..]); }
  }

  /**
   The pick exactly: `best` are the places of the ready accounts that come into question and
   that none of those outranks. Round robin takes the one at the cursor among them and moves
   the cursor on, wrapping at 2^64; fill first takes the one whose id precedes the others.
   Nobody is picked if there is none, and the cursor stays.
   */
  lemma PickTells(p: Pool, now: int) returns (best: seq<nat>)
    requires Valid(p)
    ensures Picks(|p.ready|, Best(p), best) && forall k :: 0 <= k < |best| ==> best[k] < |p.ready|
    ensures var r := Pick(p, now);
            if best == [] then r.id == None && r.pool.cursor == p.cursor
            else
              && r.id.Some?
              && match p.strategy
                 case RoundRobin => r.id.value == p.ready[best[p.cursor % |best|]] && r.pool.cursor == (p.cursor + 1) % 0x1_0000_0000_0000_0000
                 case FillFirst =>
                   && (exists k :: 0 <= k < |best| && r.id.value == p.ready[best[k]])
                   && (forall k :: 0 <= k < |best| ==> !Precedes(p.ready[best[k]], r.id.value)) && r.pool.cursor == p.cursor
  {
    hide Valid, Tops, Lights, ScanAll, Best, Less, Precedes, Lightest;
    assert p.ready[..|p.ready|] == p.ready;
    var idx := ScanTops(p, |p.ready|, now);
    var sc := ScanAll(Scan(p, [], 0), p.ready, now);
    CandidatesSame(p, now);
    var light := Lightest(sc.pool.accounts, sc.candidates);
    var sub := LightestTells(sc.pool.accounts, sc.candidates);
    best := BestPicked(p, sc.pool.accounts, sc.candidates, sc.priority, idx, light, sub);
    if light != [] && p.strategy == FillFirst {
      SmallestFirst(light);
      assert Smallest(light) in light;
    }
    ScanKeepsCursor(p, now);
  }

  lemma CandidatesSame(p: Pool, now: int)
    requires Valid(p)
    ensures var sc := ScanAll(Scan(p, [], 0), p.ready, now); SameRecords(p, sc.pool.accounts, sc.candidates)
  {
    hide Valid, ScanAll, Eligible;
    ScanParks(p, p.ready, now);
    CandidatesServable(p, p.ready, now);
  }

  lemma ScanKeepsCursor(p: Pool, now: int)
    requires Valid(p)
    ensures var sc := ScanAll(Scan(p, [], 0), p.ready, now); sc.pool.cursor == p.cursor && sc.pool.strategy == p.strategy
  {
    hide Valid, ScanAll;
    ScanParks(p, p.ready, now);
  }
}
