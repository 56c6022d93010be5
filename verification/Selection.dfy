/**
 How the scheduler chooses: the pick is best among what could serve, load stays level over
 a tier, and round-robin serves every candidate once per turn.
 */
module Selection {
  import opened Basics
  import opened Accounts
  import opened Pools
  import opened PoolRuns

  // The pick is optimal

  /** Every account that could serve before the scan is outranked by, or among, the candidates. */
  ghost predicate Covers(p: Pool, ids: seq<string>, sc: Scan)
  {
    && (forall c :: c in sc.candidates ==> c in p.accounts && p.accounts[c].priority == sc.priority)
    && (forall x :: x in ids && Servable(p, x) ==>
          && sc.candidates != []
          && p.accounts[x].priority <= sc.priority
          && (p.accounts[x].priority == sc.priority ==> x in sc.candidates))
  }

  /** Parking others never costs an account its eligibility. */
  lemma StillFree(p: Pool, q: Pool, ids: seq<string>, x: string)
    requires Parked(p, q, ids) && Servable(p, x)
    ensures q.accounts[x] == p.accounts[x] && Free(q, x)
  {
    if x !in p.hot {
      SmallerHot(p.hot, q.hot);
    }
  }

  lemma SmallerHot(a: set<string>, b: set<string>)
    requires b <= a
    ensures |b| <= |a|
  {
    assert a == b + (a - b);
  }

  /** One more visit: a new candidate has the priority it had, and whoever could serve still can. */
  lemma CoversMore(p: Pool, front: seq<string>, sc: Scan, id: string, now: int)
    requires Covers(p, front, sc) && Parked(p, sc.pool, front)
    requires Servable(p, id) ==> sc.pool.accounts[id] == p.accounts[id] && Free(sc.pool, id)
    ensures Covers(p, front + [id], ScanOne(sc, id, now))
  {
    hide Park, QuotaExhausted;
  }

  lemma {:induction false} ScanCovers(p: Pool, ids: seq<string>, now: int)
    requires Valid(p)
    ensures Covers(p, ids, ScanAll(Scan(p, [], 0), ids, now))
  {
    if ids != [] {
      var front, id := ids[..|ids| - 1], ids[|ids| - 1];
      ScanCovers(p, front, now);
      ScanParks(p, front, now);
      var sc := ScanAll(Scan(p, [], 0), front, now);
      if Servable(p, id) {
        StillFree(p, sc.pool, front, id);
      }
      assert ids == front + [id] && ScanAll(Scan(p, [], 0), ids, now) == ScanOne(sc, id, now);
      hide Valid, Covers, Parked, Servable, ScanAll;
      CoversMore(p, front, sc, id, now);
    }
  }

  lemma {:induction false} LightestLeast(accounts: map<string, Account>, ids: seq<string>)
    ensures var r := Lightest(accounts, ids);
            && (forall id :: id in r ==> accounts[id].active == accounts[r[0]].active)
            && (forall id :: id in ids && id in accounts ==>
                  r != [] && accounts[r[0]].active <= accounts[id].active
                  && (accounts[id].active == accounts[r[0]].active ==> id in r))
  {
    if ids != [] {
      LightestLeast(accounts, ids[..|ids| - 1]);
    }
  }

  /** `id` is no worse than `x`: higher priority first, then fewer requests in flight. */
  predicate NoWorse(p: Pool, id: string, x: string)
    requires id in p.accounts && x in p.accounts
  {
    || p.accounts[id].priority > p.accounts[x].priority
    || (p.accounts[id].priority == p.accounts[x].priority && p.accounts[id].active <= p.accounts[x].active)
  }

  /** The pick can serve, and nothing that could serve before it was better. */
  lemma PickOptimal(p: Pool, now: int)
    requires Valid(p)
    ensures var r := Pick(p, now);
            && (r.id.Some? ==>
                  && r.id.value in p.ready && r.id.value in p.accounts && Servable(r.pool, r.id.value)
                  && forall x :: Servable(p, x) ==> NoWorse(p, r.id.value, x))
            && (r.id.None? ==> forall x :: !Servable(p, x))
  {
    PickServable(p, now);
    ScanCovers(p, p.ready, now);
    ScanParks(p, p.ready, now);
    var sc := ScanAll(Scan(p, [], 0), p.ready, now);
    LightestLeast(sc.pool.accounts, sc.candidates);
    forall x | Servable(p, x) ensures x in p.ready { ReadyIfAvailable(p, x); }
  }

  // Who is found

  /** A spent account still holding a place in the hot set. */
  predicate SpentHot(p: Pool, id: string)
  {
    id in p.hot && id in p.accounts && Parkable(p.accounts[id])
  }

  /**
   The `i`-th ready account has room and quota, and a place in the hot set: its own, a free
   one, or one that a spent account listed before it is about to lose.
   */
  predicate Reached(p: Pool, i: nat)
  {
    && i < |p.ready| && p.ready[i] in p.accounts && Available(p.accounts[p.ready[i]])
    && (Eligible(p, p.ready[i]) || exists j :: 0 <= j < i && SpentHot(p, p.ready[j]))
  }

  /** A scan empties exactly the hot places of the spent accounts it visits. */
  lemma HotAfter(p: Pool, ids: seq<string>, now: int)
    requires Valid(p)
    ensures var q := ScanAll(Scan(p, [], 0), ids, now).pool;
            && q.activeSize == p.activeSize && q.hot <= p.hot
            && forall h :: h in p.hot ==> (h !in q.hot <==> h in ids && SpentHot(p, h))
  {
    ScanParks(p, ids, now);
    var q := ScanAll(Scan(p, [], 0), ids, now).pool;
    forall h | h in p.hot ensures h !in q.hot <==> h in ids && SpentHot(p, h) {
      assert h in p.ready && h in p.accounts;
      if h in q.hot { assert h in q.ready; }
    }
  }

  lemma RoomAfter(a: set<string>, b: set<string>, n: nat)
    requires b <= a && |a| <= n
    ensures |b| < n <==> |a| < n || exists h :: h in a && h !in b
  {
    SmallerHot(a, b);
    assert a == b + (a - b);
    if exists h :: h in a && h !in b {
      assert a - b != {};
    } else {
      assert a == b;
    }
  }

  lemma EligibleAfter(p: Pool, ids: seq<string>, id: string, now: int)
    requires Valid(p) && !(id in ids && SpentHot(p, id))
    ensures Eligible(ScanAll(Scan(p, [], 0), ids, now).pool, id) <==>
            Eligible(p, id) || exists h :: h in ids && SpentHot(p, h)
  {
    HotAfter(p, ids, now);
    if p.activeSize > 0 { RoomAfter(p.hot, ScanAll(Scan(p, [], 0), ids, now).pool.hot, p.activeSize); }
  }

  lemma {:induction false} ScanFinds(p: Pool, k: nat, now: int)
    requires Valid(p) && k <= |p.ready|
    ensures ScanAll(Scan(p, [], 0), p.ready[..k], now).candidates != [] <==> exists i :: 0 <= i < k && Reached(p, i)
  {
    if k > 0 {
      var front, id := p.ready[..k - 1], p.ready[k - 1];
      assert p.ready[..k][..k - 1] == front;
      ScanFinds(p, k - 1, now);
      VisitFinds(p, k - 1, now);
    }
  }

  lemma SpentBefore(p: Pool, k: nat)
    requires k <= |p.ready|
    ensures (exists h :: h in p.ready[..k] && SpentHot(p, h)) <==> exists j :: 0 <= j < k && SpentHot(p, p.ready[j])
  {
    hide SpentHot;
    var front := p.ready[..k];
    assert forall j :: 0 <= j < k ==> front[j] == p.ready[j] && front[j] in front;
    if h :| h in front && SpentHot(p, h) {
      var j :| 0 <= j < |front| && front[j] == h;
      assert SpentHot(p, p.ready[j]);
    }
  }

  lemma CandidateFound(sc: Scan, id: string, now: int)
    ensures ScanOne(sc, id, now).candidates != [] <==> sc.candidates != [] || Free(sc.pool, id)
  {
    hide Park, Eligible;
  }

  /** The account visited next becomes a candidate exactly when it is reached. */
  lemma VisitFinds(p: Pool, k: nat, now: int)
    requires Valid(p) && k < |p.ready|
    ensures var sc := ScanAll(Scan(p, [], 0), p.ready[..k], now);
            ScanOne(sc, p.ready[k], now).candidates != [] <==> sc.candidates != [] || Reached(p, k)
  {
    var front, id := p.ready[..k], p.ready[k];
    var sc := ScanAll(Scan(p, [], 0), front, now);
    ScanParks(p, front, now);
    assert id in p.ready && id !in front;
    CandidateFound(sc, id, now);
    EligibleAfter(p, front, id, now);
    SpentBefore(p, k);
    assert sc.pool.accounts[id] == p.accounts[id];
    hide ScanOne, ScanAll, Valid, Parked, Eligible, SpentHot;
    assert Free(sc.pool, id) <==> Reached(p, k);
  }

  /**
   Somebody is picked exactly when some ready account is reached. With no spent account in
   the hot set that is when somebody can serve.
   */
  lemma PickComplete(p: Pool, now: int)
    requires Valid(p)
    ensures Pick(p, now).id.Some? <==> exists i :: 0 <= i < |p.ready| && Reached(p, i)
    ensures (forall h :: !SpentHot(p, h)) ==> (Pick(p, now).id.None? <==> forall x :: !Servable(p, x))
  {
    hide Reached;
    ScanFinds(p, |p.ready|, now);
    assert p.ready[..|p.ready|] == p.ready;
    CandidatesServable(p, p.ready, now);
    var sc := ScanAll(Scan(p, [], 0), p.ready, now);
    if sc.candidates != [] { assert sc.candidates[0] in sc.candidates && sc.candidates[0] in sc.pool.accounts; }
    if forall h :: !SpentHot(p, h) { ReachedServes(p); }
  }

  lemma ReachedServes(p: Pool)
    requires Valid(p) && forall h :: !SpentHot(p, h)
    ensures (exists i :: 0 <= i < |p.ready| && Reached(p, i)) <==> exists x :: Servable(p, x)
  {
    if i :| 0 <= i < |p.ready| && Reached(p, i) { assert Servable(p, p.ready[i]); }
    if x :| Servable(p, x) {
      ReadyIfAvailable(p, x);
      var i :| 0 <= i < |p.ready| && p.ready[i] == x;
      assert Reached(p, i);
    }
  }

  // What a saturated turn leaves behind

  /** Room for one more request on an account that may be used. */
  predicate Slot(p: Pool, id: string)
  {
    id in p.accounts && p.accounts[id].standing == Ready && p.accounts[id].active < p.accounts[id].maxActive && Eligible(p, id)
  }

  ghost predicate Full(p: Pool)
  {
    forall id :: !Slot(p, id)
  }

  /** Room on an account outside the hot set. */
  predicate Cold(p: Pool, id: string)
  {
    && id in p.accounts && p.accounts[id].standing == Ready && p.accounts[id].active < p.accounts[id].maxActive
    && id !in p.hot
  }

  /** A spent account holds a hot place that an unspent one with room waits for. */
  ghost predicate Thaws(p: Pool)
  {
    && p.activeSize > 0 && (exists h :: SpentHot(p, h))
    && exists x :: Cold(p, x) && !Parkable(p.accounts[x])
  }

  /** A turn that finds nobody although it frees a place: the spent account is listed too late. */
  ghost predicate Overlooks(p: Pool)
  {
    Thaws(p) && forall i :: 0 <= i < |p.ready| ==> !Reached(p, i)
  }

  /**
   After a saturated turn no account has room for the caller, and nobody can serve, exactly
   unless the turn itself freed a hot place that an account with room waited for.
   */
  lemma SaturatedLeaves(p: Pool, key: string, now: int)
    requires Valid(p) && Pools.Acquire(p, key, now).outcome.Saturated?
    ensures Full(Pools.Acquire(p, key, now).pool) <==> !Thaws(p)
    ensures Full(Pools.Acquire(p, key, now).pool) <==> forall x :: !Servable(Pools.Acquire(p, key, now).pool, x)
  {
    hide Pick, Valid, Grant, Reached, Servable, Thaws, Full;
    var q := Pools.Acquire(p, key, now).pool;
    var p1 := DropStale(p, key, now);
    AcquireEffect(p, key, now);
    PickSteady(p, key, now);
    PickServable(p1, now);
    assert q == Pick(p1, now).pool;
    PickComplete(p1, now);
    SlotsLeft(p1, now);
    SameThaws(p, p1);
    UnspentServes(q);
  }

  lemma SameThaws(p: Pool, p1: Pool)
    requires p1 == p.(sticky := p1.sticky)
    ensures Thaws(p) == Thaws(p1)
    ensures forall i: nat :: Reached(p, i) == Reached(p1, i)
  {
    assert forall h :: SpentHot(p, h) == SpentHot(p1, h);
    assert forall x :: Cold(p, x) == Cold(p1, x);
    assert forall id :: Eligible(p, id) == Eligible(p1, id);
  }

  lemma UnspentServes(q: Pool)
    requires Valid(q) && forall id :: id in q.accounts ==> !Parkable(q.accounts[id])
    ensures Full(q) <==> forall x :: !Servable(q, x)
  {
    assert forall x :: Servable(q, x) <==> Slot(q, x);
  }

  lemma PickPool(p: Pool, now: int)
    ensures var q := ScanAll(Scan(p, [], 0), p.ready, now).pool; Pick(p, now).pool.(cursor := q.cursor) == q
  {
  }

  lemma SlotsLeft(p: Pool, now: int)
    requires Valid(p) && forall i :: 0 <= i < |p.ready| ==> !Reached(p, i)
    ensures Full(Pick(p, now).pool) <==> !Thaws(p)
  {
    var q := Pick(p, now).pool;
    PickPool(p, now);
    ScanParks(p, p.ready, now);
    forall x ensures Slot(q, x) <==> Cold(p, x) && !Parkable(p.accounts[x]) && p.activeSize > 0 && exists h :: SpentHot(p, h) {
      SlotLeft(p, x, now);
    }
  }

  lemma SlotLeft(p: Pool, x: string, now: int)
    requires Valid(p) && forall i :: 0 <= i < |p.ready| ==> !Reached(p, i)
    ensures Slot(Pick(p, now).pool, x) <==>
            Cold(p, x) && !Parkable(p.accounts[x]) && p.activeSize > 0 && exists h :: SpentHot(p, h)
  {
    hide Pick;
    var q := ScanAll(Scan(p, [], 0), p.ready, now).pool;
    PickPool(p, now);
    assert Slot(Pick(p, now).pool, x) == Slot(q, x);
    ScanParks(p, p.ready, now);
    if x in p.accounts && p.accounts[x].standing == Ready {
      assert x in p.ready;
      if Parkable(p.accounts[x]) {
      } else {
        EligibleAfter(p, p.ready, x, now);
        var i :| 0 <= i < |p.ready| && p.ready[i] == x;
        assert !Reached(p, i);
        HotListed(p);
      }
    }
  }

  lemma HotListed(p: Pool)
    requires Valid(p)
    ensures (exists h :: h in p.ready && SpentHot(p, h)) <==> exists h :: SpentHot(p, h)
  {
  }

  /** Overlooking is exactly a saturated turn that leaves room behind. */
  lemma OverlooksExact(p: Pool, key: string, now: int)
    requires Valid(p)
    ensures Overlooks(p) <==>
            Pools.Acquire(p, key, now).outcome.Saturated? && !Full(Pools.Acquire(p, key, now).pool)
  {
    hide Pick, Valid, Grant, Reached, Thaws, Full;
    var p1 := DropStale(p, key, now);
    SameThaws(p, p1);
    AcquireEffect(p, key, now);
    if Pools.Acquire(p, key, now).outcome.Saturated? {
      SaturatedLeaves(p, key, now);
      PickSteady(p, key, now);
      PickComplete(p1, now);
    } else if Overlooks(p) {
      ThawsReady(p);
      StickyReached(p, key, now);
      PickSteady(p, key, now);
      PickComplete(p1, now);
    }
  }

  lemma ThawsReady(p: Pool)
    requires Valid(p) && Thaws(p)
    ensures p.ready != []
  {
  }

  /** An account its session may have back is reached. */
  lemma StickyReached(p: Pool, key: string, now: int)
    requires Valid(p)
    ensures StickyHit(p, key, now) ==> exists i :: 0 <= i < |p.ready| && Reached(p, i)
  {
    if StickyHit(p, key, now) {
      var x := p.sticky[key].account;
      ReadyIfAvailable(p, x);
      var i :| 0 <= i < |p.ready| && p.ready[i] == x;
      assert Reached(p, i);
    }
  }

  /**
   A slot freed by parking a spent hot account late in the scan is not used by that scan:
   the caller is told to wait although an account could serve.
   */
  lemma LateSlotExample(now: int)
    ensures var p := LateSlotPool();
            Valid(p) && Pick(p, now).id.None? && Servable(Pick(p, now).pool, "a") && Thaws(p)
  {
    hide Valid, Park;
    var p := LateSlotPool();
    LateSlotValid();
    assert ["a", "b"][..1] == ["a"] && ["a"][..0] == [];
    var s0 := Scan(p, [], 0);
    assert ScanAll(s0, [], now) == s0;
    assert ScanAll(s0, ["a"], now) == s0;
    assert ScanAll(s0, ["a", "b"], now) == s0.(pool := Park(p, "b", now));
    assert SpentHot(p, "b") && Cold(p, "a") && !Parkable(p.accounts["a"]);
    assert Park(p, "b", now).hot == {} && Park(p, "b", now).accounts["a"] == p.accounts["a"] by { LateSlotPark(now); }
  }

  function LateSlotPool(): Pool
  {
    var a := Account("a", Ready, NoReason, None, "", 0, 0, 0, 0, 0, 1, 0);
    var b := Account("b", Ready, NoReason, None, "", 9, 9, 0, 0, 0, 1, 0);
    Pool(map["a" := a, "b" := b], ["a", "b"], {"b"}, map[], 1, 0, 1, 0, RoundRobin, true, DEFAULT_TTL, DAY)
  }

  lemma LateSlotValid()
    ensures Valid(LateSlotPool()) && "a" != "b"
  {
    assert "a"[0] != "b"[0];
  }

  lemma LateSlotPark(now: int)
    ensures var q := Park(LateSlotPool(), "b", now);
            q.hot == {} && "a" in q.accounts && q.accounts["a"] == LateSlotPool().accounts["a"] && q.activeSize == 1
  {
    LateSlotValid();
  }

  // Session affinity

  function Ttl(p: Pool): int
  {
    if p.stickyTtl <= 0 then DEFAULT_TTL else p.stickyTtl
  }

  /** A grant binds its session, and pruning old bindings never takes the new one. */
  lemma GrantBinds(p: Pool, id: string, key: string, now: int)
    requires id in p.accounts && p.stickyOn && key != ""
    ensures var q := Grant(p, id, key, now); key in q.sticky && q.sticky[key] == Sticky(id, now + Ttl(p))
    ensures var q := Grant(p, id, key, now); q.stickyOn && q.stickyTtl == p.stickyTtl
  {
  }

  /** A session that comes back in time gets the account it had, as long as that one is free. */
  lemma AffinityHolds(p: Pool, key: string, now: int, later: int)
    requires Valid(p) && p.stickyOn && key != "" && Pools.Acquire(p, key, now).outcome.Granted?
    requires now <= later <= now + Ttl(p)
    ensures var a := Pools.Acquire(p, key, now);
            Free(a.pool, a.outcome.id) ==> Pools.Acquire(a.pool, key, later).outcome == a.outcome
  {
    hide Valid, Grant, Pick;
    AcquireEffect(p, key, now);
    var a := Pools.Acquire(p, key, now);
    var id := a.outcome.id;
    if StickyHit(p, key, now) {
      GrantBinds(p, id, key, now);
    } else {
      var p1 := DropStale(p, key, now);
      PickSteady(p, key, now);
      PickKeeps(p1, now);
      GrantBinds(Pick(p1, now).pool, id, key, now);
    }
    if Free(a.pool, id) { ReadyIfAvailable(a.pool, id); }
  }

  lemma PickKeeps(p: Pool, now: int)
    requires Valid(p)
    ensures var q := Pick(p, now).pool; q.stickyOn == p.stickyOn && q.stickyTtl == p.stickyTtl && q.sticky == p.sticky
  {
    PickServable(p, now);
  }

  /** Parking an account leaves no session bound to it. */
  lemma ParkedUnbound(p: Pool, id: string, reason: Reason, retryAt: Option<int>, errorCode: string, key: string)
    requires id in p.accounts
    ensures var q := MoveUnavailable(p, id, reason, retryAt, errorCode);
            key in q.sticky <==> key in p.sticky && p.sticky[key].account != id
  {
  }

  // Level load over one tier

  /** One tier of equal limits whose loads differ by at most one. */
  ghost predicate Level(p: Pool, priority: int, limit: int)
  {
    && Valid(p) && p.activeSize == 0
    && (forall id :: id in p.ready && !QuotaExhausted(p.accounts[id]) ==>
          p.accounts[id].priority == priority && p.accounts[id].maxActive == limit)
    && (forall x, y :: x in p.ready && y in p.ready && !QuotaExhausted(p.accounts[x]) && !QuotaExhausted(p.accounts[y])
          ==> p.accounts[x].active <= p.accounts[y].active + 1)
  }

  /** After a pick, the ready unspent accounts are those of before, unchanged. */
  lemma PickFrame(p: Pool, now: int)
    requires Valid(p)
    ensures var q := Pick(p, now).pool;
            && q.activeSize == p.activeSize
            && (forall id :: id in q.ready ==>
                  id in p.ready && id in p.accounts && id in q.accounts && q.accounts[id] == p.accounts[id])
  {
    PickServable(p, now);
    var q := Pick(p, now).pool;
    forall id | id in q.ready
      ensures id in p.ready && id in p.accounts && id in q.accounts && q.accounts[id] == p.accounts[id]
    {
      assert id in q.accounts && q.accounts[id].standing == Ready;
    }
  }

  lemma AcquireLevel(p: Pool, now: int, priority: int, limit: int)
    requires Level(p, priority, limit)
    ensures Level(Pools.Acquire(p, "", now).pool, priority, limit)
  {
    AcquireEffect(p, "", now);
    var a := Pools.Acquire(p, "", now);
    if p.ready != [] {
      PickOptimal(p, now);
      PickFrame(p, now);
      PickServable(p, now);
      var r := Pick(p, now);
      if r.id.Some? {
        LendLevel(p, r.pool, r.id.value, now, priority, limit);
      }
    }
  }

  lemma LendLevel(p: Pool, q: Pool, id: string, now: int, priority: int, limit: int)
    requires Level(p, priority, limit) && Valid(q) && q.activeSize == 0 && Servable(q, id)
    requires forall x :: x in q.ready ==> x in p.ready && x in p.accounts && x in q.accounts && q.accounts[x] == p.accounts[x]
    requires forall x :: Servable(p, x) ==> id in p.accounts && NoWorse(p, id, x)
    ensures Level(Grant(q, id, "", now), priority, limit)
  {
    GrantValid(q, id, "", now);
    var g := Grant(q, id, "", now);
    ReadyIfAvailable(q, id);
    forall x, y | x in g.ready && y in g.ready && !QuotaExhausted(g.accounts[x]) && !QuotaExhausted(g.accounts[y])
      ensures g.accounts[x].active <= g.accounts[y].active + 1
    {
      assert x in p.ready && y in p.ready;
      if x == id && y != id {
        if Available(p.accounts[y]) {
          assert Servable(p, y);
        }
      }
    }
  }

  /** Any number of acquires without releases keeps the tier level; `pools` is what they leave, one after the other. */
  lemma {:induction false} AcquiresStayLevel(pools: seq<Pool>, times: seq<int>, priority: int, limit: int)
    requires |pools| == |times| + 1 && Level(pools[0], priority, limit)
    requires forall i :: 0 <= i < |times| ==> pools[i + 1] == Pools.Acquire(pools[i], "", times[i]).pool
    ensures forall p :: p in pools ==> Level(p, priority, limit)
  {
    hide Level, Pools.Acquire;
    if times != [] {
      AcquireLevel(pools[0], times[0], priority, limit);
      AcquiresStayLevel(pools[1..], times[1..], priority, limit);
    }
  }

  // Round-robin turns

  /** Candidates of equal rank, all free: a round-robin tier at rest. */
  ghost predicate AtRest(p: Pool)
  {
    && Valid(p) && p.activeSize == 0 && p.strategy == RoundRobin && p.ready != []
    && (forall id :: id in p.ready ==> Available(p.accounts[id]))
    && (forall x, y :: x in p.ready && y in p.ready ==>
          p.accounts[x].priority == p.accounts[y].priority && p.accounts[x].active == p.accounts[y].active)
  }

  lemma {:induction false} ScanAtRest(p: Pool, ids: seq<string>, now: int)
    requires AtRest(p) && forall id :: id in ids ==> id in p.ready
    ensures var sc := ScanAll(Scan(p, [], 0), ids, now); sc.pool == p && sc.candidates == ids
    ensures ids != [] ==> ScanAll(Scan(p, [], 0), ids, now).priority == p.accounts[ids[0]].priority
  {
    hide AtRest, ScanOne, Available, Eligible;
    if ids != [] {
      var front, id := ids[..|ids| - 1], ids[|ids| - 1];
      ScanAtRest(p, front, now);
      RestIds(p);
      assert front + [id] == ids && (front != [] ==> front[0] == ids[0]);
      OneAtRest(p, ScanAll(Scan(p, [], 0), front, now), id, now);
    }
  }

  lemma RestIds(p: Pool)
    requires AtRest(p)
    ensures forall x :: x in p.ready ==> x in p.accounts && Eligible(p, x) && Available(p.accounts[x])
    ensures forall x, y :: x in p.ready && y in p.ready ==> p.accounts[x].priority == p.accounts[y].priority
  {
  }

  lemma OneAtRest(p: Pool, sc: Scan, id: string, now: int)
    requires sc.pool == p && id in p.accounts && Eligible(p, id) && Available(p.accounts[id])
    requires sc.candidates == [] || sc.priority == p.accounts[id].priority
    ensures ScanOne(sc, id, now) == Scan(p, sc.candidates + [id], p.accounts[id].priority)
  {
    assert [] + [id] == [id];
  }

  lemma {:induction false} LightestAtRest(p: Pool, ids: seq<string>)
    requires AtRest(p) && forall id :: id in ids ==> id in p.ready
    ensures Lightest(p.accounts, ids) == ids
  {
    if ids != [] {
      var front, id := ids[..|ids| - 1], ids[|ids| - 1];
      LightestAtRest(p, front);
      RestLoads(p);
      hide AtRest;
      assert id in p.ready && (front == [] || front[0] in p.ready);
      assert front + [id] == ids;
    }
  }

  lemma RestLoads(p: Pool)
    requires AtRest(p)
    ensures forall x :: x in p.ready ==> x in p.accounts
    ensures forall x, y :: x in p.ready && y in p.ready ==> p.accounts[x].active == p.accounts[y].active
  {
  }

  /** One request served and finished. */
  function Turn(p: Pool, now: int): (Pool, string)
  {
    var a := Pools.Acquire(p, "", now);
    if a.outcome.Granted? then (Pools.Release(a.pool, a.outcome.id), a.outcome.id) else (a.pool, "")
  }

  lemma PickAtRest(p: Pool, now: int)
    requires AtRest(p)
    ensures Pick(p, now) == Picked(p.(cursor := (p.cursor + 1) % CURSOR_WIDTH), Some(p.ready[p.cursor % |p.ready|]))
  {
    hide Valid, ScanAll, Lightest;
    ScanAtRest(p, p.ready, now);
    LightestAtRest(p, p.ready);
  }

  /** A finished request leaves only a trace in the counters. */
  lemma TurnShape(p: Pool, now: int)
    requires AtRest(p)
    ensures var (q, id) := Turn(p, now);
            && id == p.ready[p.cursor % |p.ready|] && id in p.accounts
            && q == p.(cursor := (p.cursor + 1) % CURSOR_WIDTH,
                       accounts := p.accounts[id := p.accounts[id].(requestCount := p.accounts[id].requestCount + 1)])
  {
    hide Pick;
    PickAtRest(p, now);
    var id := p.ready[p.cursor % |p.ready|];
    var p1 := p.(cursor := (p.cursor + 1) % CURSOR_WIDTH);
    var g := Grant(p1, id, "", now);
    assert g == p1.(accounts := p1.accounts[id := Lend(p1.accounts[id])]);
    assert DropStale(p, "", now) == p;
    assert Pools.Acquire(p, "", now) == Acquired(g, Granted(id));
  }

  lemma TurnServes(p: Pool, now: int)
    requires AtRest(p)
    ensures var (q, id) := Turn(p, now);
            && id == p.ready[p.cursor % |p.ready|]
            && AtRest(q) && q.ready == p.ready && q.cursor == (p.cursor + 1) % CURSOR_WIDTH
  {
    hide Turn;
    TurnShape(p, now);
    var (q, id) := Turn(p, now);
    SameStandingValid(p, p.accounts[id].(requestCount := p.accounts[id].requestCount + 1));
  }

  function Turns(p: Pool, times: seq<int>): (Pool, seq<string>)
  {
    if times == [] then (p, [])
    else
      var (q, served) := Turns(p, times[..|times| - 1]);
      var (r, id) := Turn(q, times[|times| - 1]);
      (r, served + [id])
  }

  lemma {:induction false} TurnsRotate(p: Pool, times: seq<int>)
    requires AtRest(p) && p.cursor + |times| < CURSOR_WIDTH
    ensures var (q, served) := Turns(p, times);
            && AtRest(q) && q.ready == p.ready && q.cursor == p.cursor + |times|
            && |served| == |times|
            && forall i :: 0 <= i < |times| ==> served[i] == p.ready[(p.cursor + i) % |p.ready|]
  {
    hide AtRest, Turn;
    if times != [] {
      TurnsRotate(p, times[..|times| - 1]);
      var (q, served) := Turns(p, times[..|times| - 1]);
      TurnServes(q, times[|times| - 1]);
      assert (q.cursor + 1) % CURSOR_WIDTH == q.cursor + 1;
    } else {
      RestReady(p);
    }
  }

  lemma RestReady(p: Pool)
    requires AtRest(p)
    ensures p.ready != [] && Distinct(p.ready)
  {
  }

  lemma {:induction false} MulMonotone(n: nat, a: nat, b: nat)
    requires a <= b
    ensures n * a <= n * b
  {
    if a < b {
      MulMonotone(n, a, b - 1);
      assert n * b == n * (b - 1) + n;
    }
  }

  lemma QuotientsAgree(n: nat, d: nat, r: nat, q: nat, x: nat)
    requires r < n && x < n
    ensures n * d + r == n * q + x ==> d == q
  {
    if d > q {
      MulMonotone(n, q + 1, d);
      assert n * (q + 1) == n * q + n;
    } else if d < q {
      MulMonotone(n, d + 1, q);
      assert n * (d + 1) == n * d + n;
    }
  }

  /** Moving fewer than a whole turn wraps at most once. */
  function Wrap(r: nat, i: nat, n: nat): (k: nat)
    requires r < n && i < n
    ensures k < n
  {
    if r + i < n then r + i else r + i - n
  }

  lemma ShiftParts(n: nat, q: nat, r: nat, i: nat, d: nat, x: nat)
    requires r < n && i < n && x < n && n * q + r + i == n * d + x
    ensures x == Wrap(r, i, n)
  {
    if r + i < n {
      QuotientsAgree(n, q, r + i, d, x);
    } else {
      assert n * (q + 1) == n * q + n;
      QuotientsAgree(n, q + 1, r + i - n, d, x);
    }
  }

  lemma ModShift(c: nat, i: nat, n: nat)
    requires i < n
    ensures (c + i) % n == Wrap(c % n, i, n)
  {
    ShiftParts(n, c / n, c % n, i, (c + i) / n, (c + i) % n);
  }

  /** In n turns over n candidates at rest, each is served exactly once. */
  lemma RoundRobinFair(p: Pool, times: seq<int>)
    requires AtRest(p) && |times| == |p.ready| && p.cursor + |times| < CURSOR_WIDTH
    ensures var served := Turns(p, times).1;
            Distinct(served) && |served| == |p.ready| && (forall id :: id in served <==> id in p.ready)
  {
    hide AtRest, Turns;
    RestReady(p);
    TurnsRotate(p, times);
    var served := Turns(p, times).1;
    var n, r := |p.ready|, p.cursor % |p.ready|;
    forall i | 0 <= i < n ensures served[i] == p.ready[Wrap(r, i, n)] {
      ModShift(p.cursor, i, n);
    }
    Rotated(p.ready, served, r);
  }

  lemma Rotated(ids: seq<string>, served: seq<string>, r: nat)
    requires Distinct(ids) && |served| == |ids| && r < |ids|
    requires forall i :: 0 <= i < |ids| ==> served[i] == ids[Wrap(r, i, |ids|)]
    ensures Distinct(served) && forall id :: id in served <==> id in ids
  {
    var n := |ids|;
    forall i, j | 0 <= i < j < n ensures served[i] != served[j] {
      var a, b := Wrap(r, i, n), Wrap(r, j, n);
      if a < b { assert ids[a] != ids[b]; } else { assert ids[b] != ids[a]; }
    }
    forall id | id in ids ensures id in served {
      var k :| 0 <= k < n && ids[k] == id;
      var i := if k >= r then k - r else k - r + n;
      assert Wrap(r, i, n) == k;
      assert served[i] == id;
    }
  }
}
