/**
 Whole runs of the scheduler with its leases: any sequence of operations keeps the
 indexes, accounts for every lease and moves the revision whenever the ready set changes.
 */
module PoolRuns {
  import opened Basics
  import opened Accounts
  import opened Pools

  /** A lease knows its account and whether it was released; releasing twice is a no-op. */
  datatype Lease = Lease(account: string, open: bool)

  datatype World = World(pool: Pool, leases: seq<Lease>)

  datatype Op =
    | Acquire(key: string, now: int)
    | Release(lease: nat)
    | Move(lease: nat, reason: Reason, retryAt: Option<int>, errorCode: string)
    | Record(lease: nat, actual: int, limit: int)
    | Upsert(item: Account)
    | Delete(id: string)
    | Promote(now: int, order: seq<string>)
    | MaxActive(n: int)
    | ActiveSize(n: int, keep: set<string>)
    | ClearSticky(id: string)
    | Configure(strategy: Strategy, stickyOn: bool, stickyTtl: int, quotaRetry: int)

  /** What callers owe: leases they hold, fresh accounts without requests in flight, real walks of the maps. */
  ghost predicate Legal(w: World, op: Op)
  {
    match op
    case Release(i) => i < |w.leases|
    case Move(i, _, _, _) => i < |w.leases|
    case Record(i, _, _) => i < |w.leases|
    case Upsert(item) => item.id !in w.pool.accounts ==> item.active == 0
    case Promote(_, order) => Walks(w.pool, order)
    case ActiveSize(n, keep) => Keepable(w.pool, n, keep)
    case _ => true
  }

  function Step(w: World, op: Op): World
  {
    match op
    case Acquire(key, now) =>
      var a := Pools.Acquire(w.pool, key, now);
      World(a.pool, if a.outcome.Granted? then w.leases + [Lease(a.outcome.id, true)] else w.leases)
    case Release(i) =>
      if i < |w.leases| && w.leases[i].open
      then World(Pools.Release(w.pool, w.leases[i].account), w.leases[i := w.leases[i].(open := false)]) else w
    case Move(i, reason, retryAt, errorCode) =>
      if i < |w.leases| then w.(pool := MoveUnavailable(w.pool, w.leases[i].account, reason, retryAt, errorCode)) else w
    case Record(i, actual, limit) =>
      if i < |w.leases| then w.(pool := Pools.Record(w.pool, w.leases[i].account, actual, limit)) else w
    case Upsert(item) => w.(pool := Pools.Upsert(w.pool, item))
    case Delete(id) => w.(pool := Pools.Delete(w.pool, id))
    case Promote(now, order) => w.(pool := PromoteDue(w.pool, now, order))
    case MaxActive(n) => w.(pool := ApplyMaxActive(w.pool, n))
    case ActiveSize(n, keep) => w.(pool := ApplyActiveSize(w.pool, n, keep))
    case ClearSticky(id) => w.(pool := Pools.ClearSticky(w.pool, id))
    case Configure(strategy, stickyOn, stickyTtl, quotaRetry) =>
      w.(pool := w.pool.(strategy := strategy, stickyOn := stickyOn, stickyTtl := stickyTtl, quotaRetry := quotaRetry))
  }

  // Acquire, in the terms the run needs

  /** Parking changes standing only: nobody's requests in flight. */
  ghost predicate SameLoad(p: Pool, q: Pool)
  {
    && p.accounts.Keys == q.accounts.Keys
    && (forall id :: id in p.accounts ==>
          && q.accounts[id].active == p.accounts[id].active && q.accounts[id].maxActive == p.accounts[id].maxActive
          && q.accounts[id].priority == p.accounts[id].priority && q.accounts[id].id == p.accounts[id].id
          && q.accounts[id].quotaActual == p.accounts[id].quotaActual && q.accounts[id].quotaLimit == p.accounts[id].quotaLimit)
  }

  /** Parking takes exactly the spent ready accounts of `ids` out, and bumps the revision if there are any. */
  ghost predicate Parked(p: Pool, q: Pool, ids: seq<string>)
  {
    && SameLoad(p, q)
    && q == p.(accounts := q.accounts, ready := q.ready, hot := q.hot, revision := q.revision)
    && q.revision >= p.revision
    && q.hot <= p.hot
    && (forall id :: id in p.accounts ==>
          if id in ids && Parkable(p.accounts[id]) then q.accounts[id].standing == Unavailable
          else q.accounts[id] == p.accounts[id] && (id in p.hot ==> id in q.hot))
    && (q.revision == p.revision ==> q == p)
  }

  lemma {:induction false} ScanParks(p: Pool, ids: seq<string>, now: int)
    requires Valid(p)
    ensures var sc := ScanAll(Scan(p, [], 0), ids, now); Parked(p, sc.pool, ids) && Valid(sc.pool)
  {
    if ids != [] {
      var front, id := ids[..|ids| - 1], ids[|ids| - 1];
      ScanParks(p, front, now);
      var sc := ScanAll(Scan(p, [], 0), front, now);
      ScanOneValid(sc, id, now);
      OneMoreParked(p, sc, front, id, now);
      assert front + [id] == ids;
    }
  }

  lemma OneMoreParked(p: Pool, sc: Scan, front: seq<string>, id: string, now: int)
    requires Valid(p) && Parked(p, sc.pool, front) && Valid(sc.pool)
    ensures Parked(p, ScanOne(sc, id, now).pool, front + [id])
  {
    var q := sc.pool;
    var r := ScanOne(sc, id, now).pool;
    if id in q.accounts && Parkable(q.accounts[id]) {
      assert r == Park(q, id, now);
    } else {
      assert r == q;
    }
  }

  /** A candidate was ready, unspent, below its limit and eligible when visited, so it still is. */
  ghost predicate Servable(p: Pool, id: string)
  {
    id in p.accounts && Available(p.accounts[id]) && Eligible(p, id)
  }

  lemma {:induction false} CandidatesServable(p: Pool, ids: seq<string>, now: int)
    requires Valid(p)
    ensures var sc := ScanAll(Scan(p, [], 0), ids, now);
            forall id :: id in sc.candidates ==> id in ids && Servable(sc.pool, id)
  {
    if ids != [] {
      var front, id := ids[..|ids| - 1], ids[|ids| - 1];
      CandidatesServable(p, front, now);
      ScanParks(p, front, now);
      var sc := ScanAll(Scan(p, [], 0), front, now);
      forall c | c in ScanOne(sc, id, now).candidates ensures c in ids && Servable(ScanOne(sc, id, now).pool, c) {
        if c in sc.candidates {
          StillServable(sc, id, c, now);
        }
      }
    }
  }

  lemma StillServable(sc: Scan, id: string, c: string, now: int)
    requires Valid(sc.pool) && Servable(sc.pool, c)
    ensures Servable(ScanOne(sc, id, now).pool, c)
  {
    HotShrinks(sc.pool.hot, id);
  }

  /** The picked account can serve in the pool the pick leaves behind. */
  lemma PickServable(p: Pool, now: int)
    requires Valid(p)
    ensures var r := Pick(p, now);
            && Valid(r.pool) && Parked(p, r.pool.(cursor := p.cursor), p.ready)
            && (r.id.Some? ==> r.id.value in p.ready && Servable(r.pool, r.id.value))
  {
    ScanParks(p, p.ready, now);
    CandidatesServable(p, p.ready, now);
    PickShape(p, now);
    hide ScanAll, Pick, Parked, Valid, Servable;
    var q := ScanAll(Scan(p, [], 0), p.ready, now).pool;
    var r := Pick(p, now);
    SameCursor(p, q, p.ready);
    assert r.pool.(cursor := p.cursor) == q;
    CursorFree(q, r.pool.cursor);
  }

  lemma PickShape(p: Pool, now: int)
    ensures var sc := ScanAll(Scan(p, [], 0), p.ready, now); var r := Pick(p, now);
            r.pool == sc.pool.(cursor := r.pool.cursor) && (r.id.Some? ==> r.id.value in sc.candidates)
  {
    hide ScanAll, Lightest;
  }

  lemma SameCursor(p: Pool, q: Pool, ids: seq<string>)
    requires Parked(p, q, ids)
    ensures q.cursor == p.cursor
  {
    hide Parkable;
  }

  lemma CursorFree(q: Pool, cursor: nat)
    ensures Valid(q.(cursor := cursor)) == Valid(q)
    ensures forall id :: Servable(q.(cursor := cursor), id) == Servable(q, id)
  {
  }

  /** Nobody's load changed, and the ready list only together with the revision. */
  ghost predicate Steady(p: Pool, q: Pool)
  {
    && SameLoad(p, q) && q.activeSize == p.activeSize
    && q.revision >= p.revision && (q.revision == p.revision ==> q.ready == p.ready)
  }

  /** Account `id` was lent, strictly below its limit and with quota left; everyone else's load is as before. */
  ghost predicate Lent(p: Pool, q: Pool, id: string)
  {
    && q.accounts.Keys == p.accounts.Keys && id in p.accounts && id in p.ready
    && (forall x :: x in p.accounts && x != id ==> q.accounts[x].active == p.accounts[x].active)
    && p.accounts[id].active < p.accounts[id].maxActive && !QuotaExhausted(p.accounts[id])
    && q.accounts[id].active == p.accounts[id].active + 1
    && (p.activeSize > 0 ==> id in q.hot)
    && q.revision >= p.revision && (q.revision == p.revision ==> q.ready == p.ready)
  }

  lemma GrantLends(p: Pool, m: Pool, id: string, key: string, now: int)
    requires Valid(p) && Valid(m) && Steady(p, m) && Servable(m, id) && id in p.ready && id in p.accounts
    ensures Lent(p, Grant(m, id, key, now), id) && Valid(Grant(m, id, key, now))
  {
    hide Valid, Grant;
    GrantValid(m, id, key, now);
    GrantShape(m, id, key, now);
    NamedBy(m, id);
  }

  lemma NamedBy(p: Pool, id: string)
    requires Valid(p) && id in p.accounts
    ensures p.accounts[id].id == id && p.accounts[id].maxActive >= 1
  {
  }

  lemma GrantShape(p: Pool, id: string, key: string, now: int)
    requires id in p.accounts
    ensures var q := Grant(p, id, key, now);
            q == p.(accounts := p.accounts[id := Lend(p.accounts[id])], hot := q.hot, sticky := q.sticky)
  {
    hide Prune;
  }

  lemma PickSteady(p: Pool, key: string, now: int)
    requires Valid(p)
    ensures var p1 := DropStale(p, key, now); var r := Pick(p1, now);
            && Valid(p1) && Valid(r.pool) && Steady(p, r.pool)
            && (r.id.Some? ==> r.id.value in p.ready && Servable(r.pool, r.id.value))
            && (forall id :: id in r.pool.accounts ==> !Parkable(r.pool.accounts[id]))
  {
    var p1 := DropStale(p, key, now);
    PickServable(p1, now);
    var r := Pick(p1, now);
    forall id | id in r.pool.accounts ensures !Parkable(r.pool.accounts[id]) {
      assert id in p1.ready || !Parkable(p1.accounts[id]);
    }
  }

  /**
   The whole effect of one turn of the acquire loop: a lease lends one account; without
   one nobody's load changes, and a saturated turn has parked every spent account.
   */
  lemma AcquireEffect(p: Pool, key: string, now: int)
    requires Valid(p)
    ensures var a := Pools.Acquire(p, key, now);
            && Valid(a.pool)
            && (a.outcome.Granted? ==> Lent(p, a.pool, a.outcome.id))
            && (!a.outcome.Granted? ==> Steady(p, a.pool))
            && (a.outcome.NoReady? <==> p.ready == [])
            && (a.outcome.Saturated? ==> forall id :: id in a.pool.accounts ==> !Parkable(a.pool.accounts[id]))
  {
    hide Valid, Grant, Pick, Lent, Parkable;
    if p.ready == [] {
    } else if StickyHit(p, key, now) {
      ReadyIfAvailable(p, p.sticky[key].account);
      GrantLends(p, p, p.sticky[key].account, key, now);
    } else {
      PickSteady(p, key, now);
      var r := Pick(DropStale(p, key, now), now);
      if r.id.Some? {
        GrantLends(p, r.pool, r.id.value, key, now);
      }
    }
  }

  lemma ReadyIfAvailable(p: Pool, id: string)
    requires Valid(p) && id in p.accounts && Available(p.accounts[id])
    ensures id in p.ready
  {
  }

  // The index invariant over whole runs

  lemma StepValid(w: World, op: Op)
    requires Valid(w.pool) && Legal(w, op)
    ensures Valid(Step(w, op).pool)
  {
    var p := w.pool;
    match op
    case Acquire(key, now) => AcquireEffect(p, key, now);
    case Release(i) =>
      if w.leases[i].account in p.accounts && p.accounts[w.leases[i].account].active > 0 {
        var a := p.accounts[w.leases[i].account];
        SameStandingValid(p, a.(active := a.active - 1));
      }
    case Move(i, reason, retryAt, errorCode) => MoveValid(p, w.leases[i].account, reason, retryAt, errorCode);
    case Record(i, actual, limit) =>
      if w.leases[i].account in p.accounts {
        SameStandingValid(p, RecordUsage(p.accounts[w.leases[i].account], actual, limit));
      }
    case Upsert(item) => UpsertValid(p, item);
    case Delete(id) => DeleteValid(p, id);
    case Promote(now, order) => PromoteValid(p, now, order);
    case MaxActive(n) => MaxActiveValid(p, n);
    case ActiveSize(n, keep) => ActiveSizeValid(p, n, keep);
    case _ =>
  }

  /** A run is legal when every operation is, in the state it meets. */
  ghost predicate LegalRun(w: World, ops: seq<Op>)
    decreases |ops|
  {
    ops == [] || (Legal(w, ops[0]) && LegalRun(Step(w, ops[0]), ops[1..]))
  }

  function Run(w: World, ops: seq<Op>): World
    decreases |ops|
  {
    if ops == [] then w else Run(Step(w, ops[0]), ops[1..])
  }

  /** Every run keeps the indexes exact. */
  lemma {:induction false} RunValid(w: World, ops: seq<Op>)
    requires Valid(w.pool) && LegalRun(w, ops)
    ensures Valid(Run(w, ops).pool)
    decreases |ops|
  {
    if ops != [] {
      StepValid(w, ops[0]);
      RunValid(Step(w, ops[0]), ops[1..]);
    }
  }

  // Lease accounting

  function OpenLeases(leases: seq<Lease>, id: string): nat
  {
    if leases == [] then 0
    else
      var l := leases[|leases| - 1];
      OpenLeases(leases[..|leases| - 1], id) + if l.open && l.account == id then 1 else 0
  }

  lemma {:induction false} CloseLease(leases: seq<Lease>, i: nat, id: string)
    requires i < |leases| && leases[i].open
    ensures OpenLeases(leases[i := leases[i].(open := false)], id) ==
            OpenLeases(leases, id) - (if leases[i].account == id then 1 else 0)
    ensures leases[i].account == id ==> OpenLeases(leases, id) > 0
  {
    var after := leases[i := leases[i].(open := false)];
    if i == |leases| - 1 {
      assert after[..i] == leases[..i];
    } else {
      CloseLease(leases[..|leases| - 1], i, id);
      assert after[..|leases| - 1] == leases[..|leases| - 1][i := leases[i].(open := false)];
    }
  }

  lemma OpenOne(leases: seq<Lease>, l: Lease, id: string)
    ensures OpenLeases(leases + [l], id) == OpenLeases(leases, id) + (if l.open && l.account == id then 1 else 0)
  {
    assert (leases + [l])[..|leases|] == leases;
  }

  function InFlight(p: Pool, id: string): nat
  {
    if id in p.accounts then p.accounts[id].active else 0
  }

  /** Requests in flight never exceed unreleased leases; `exact` while no leased account is deleted. */
  ghost predicate Accounted(w: World, exact: bool)
  {
    forall id :: InFlight(w.pool, id) <= OpenLeases(w.leases, id)
              && (exact ==> InFlight(w.pool, id) == OpenLeases(w.leases, id))
  }

  predicate DeletesLeased(w: World, op: Op)
  {
    op.Delete? && op.id in w.pool.accounts && OpenLeases(w.leases, op.id) > 0
  }

  lemma AcquireAccounted(w: World, key: string, now: int, exact: bool)
    requires Valid(w.pool) && Accounted(w, exact)
    ensures Accounted(Step(w, Acquire(key, now)), exact)
  {
    hide Valid, Pools.Acquire;
    AcquireEffect(w.pool, key, now);
    var a := Pools.Acquire(w.pool, key, now);
    var w1 := Step(w, Acquire(key, now));
    forall id ensures InFlight(w1.pool, id) - OpenLeases(w1.leases, id) == InFlight(w.pool, id) - OpenLeases(w.leases, id) {
      if a.outcome.Granted? { OpenOne(w.leases, Lease(a.outcome.id, true), id); }
    }
  }

  lemma ReleaseAccounted(w: World, i: nat, exact: bool)
    requires Valid(w.pool) && i < |w.leases| && Accounted(w, exact)
    ensures Accounted(Step(w, Release(i)), exact)
  {
    if w.leases[i].open {
      var w1 := Step(w, Release(i));
      var owner := w.leases[i].account;
      CloseLease(w.leases, i, owner);
      forall id
        ensures InFlight(w1.pool, id) <= OpenLeases(w1.leases, id)
        ensures exact ==> InFlight(w1.pool, id) == OpenLeases(w1.leases, id)
      {
        CloseLease(w.leases, i, id);
      }
    }
  }

  lemma StepAccounted(w: World, op: Op, exact: bool)
    requires Valid(w.pool) && Legal(w, op) && Accounted(w, exact)
    ensures Accounted(Step(w, op), exact && !DeletesLeased(w, op))
  {
    hide Valid, Step, Accounted, Legal;
    match op
    case Acquire(key, now) => AcquireAccounted(w, key, now, exact);
    case Release(i) => StepReleases(w, i, exact);
    case Delete(id) => DeleteAccounted(w, id, exact);
    case Upsert(item) => UpsertAccounted(w, item, exact);
    case _ => RestAccounted(w, op, exact);
  }

  lemma StepReleases(w: World, i: nat, exact: bool)
    requires Valid(w.pool) && Legal(w, Release(i)) && Accounted(w, exact)
    ensures Accounted(Step(w, Release(i)), exact)
  {
    hide Valid, Step, Accounted;
    ReleaseAccounted(w, i, exact);
  }

  lemma DeleteAccounted(w: World, id: string, exact: bool)
    requires Accounted(w, exact)
    ensures Accounted(Step(w, Delete(id)), exact && !DeletesLeased(w, Delete(id)))
  {
    hide Remove, OpenLeases;
  }

  /** A replaced account keeps its load; a new one comes with none. */
  lemma UpsertAccounted(w: World, item: Account, exact: bool)
    requires Legal(w, Op.Upsert(item)) && Accounted(w, exact)
    ensures Accounted(Step(w, Op.Upsert(item)), exact)
  {
    hide Remove, OpenLeases, Clamp;
  }

  lemma RestAccounted(w: World, op: Op, exact: bool)
    requires Valid(w.pool) && Accounted(w, exact) && !op.Acquire? && !op.Release? && !op.Delete? && !op.Upsert?
    ensures Accounted(Step(w, op), exact)
  {
    hide Remove, Due, Clamp, OpenLeases, Accounts.Parkable;
    LoadsKept(w, op);
    hide Step;
  }

  lemma LoadsKept(w: World, op: Op)
    requires Valid(w.pool) && !op.Acquire? && !op.Release? && !op.Delete? && !op.Upsert?
    ensures Step(w, op).leases == w.leases && forall id :: InFlight(Step(w, op).pool, id) == InFlight(w.pool, id)
  {
    hide Remove, Due, Clamp;
  }

  lemma {:induction false} RunAccounted(w: World, ops: seq<Op>, exact: bool)
    requires Valid(w.pool) && LegalRun(w, ops) && Accounted(w, exact)
    requires exact ==> NeverDeletesLeased(w, ops)
    ensures Accounted(Run(w, ops), exact)
    decreases |ops|
  {
    if ops != [] {
      StepValid(w, ops[0]);
      StepAccounted(w, ops[0], exact);
      RunAccounted(Step(w, ops[0]), ops[1..], exact);
    }
  }

  predicate NeverDeletesLeased(w: World, ops: seq<Op>)
    decreases |ops|
  {
    ops == [] || (!DeletesLeased(w, ops[0]) && NeverDeletesLeased(Step(w, ops[0]), ops[1..]))
  }

  /** From stored accounts with nothing in flight, every run accounts for its leases. */
  lemma LeasesAccounted(items: seq<Account>, ops: seq<Op>)
    requires forall i, j :: 0 <= i < j < |items| ==> items[i].id != items[j].id
    requires forall i :: 0 <= i < |items| ==> items[i].active == 0
    requires LegalRun(World(Load(items), []), ops)
    ensures Accounted(Run(World(Load(items), []), ops), false)
    ensures NeverDeletesLeased(World(Load(items), []), ops) ==> Accounted(Run(World(Load(items), []), ops), true)
  {
    LoadValid(items);
    LoadIdle(items);
    var w := World(Load(items), []);
    RunAccounted(w, ops, false);
    if NeverDeletesLeased(w, ops) { RunAccounted(w, ops, true); }
  }

  lemma {:induction false} LoadIdle(items: seq<Account>)
    requires forall i :: 0 <= i < |items| ==> items[i].active == 0
    ensures forall id :: id in Load(items).accounts ==> Load(items).accounts[id].active == 0
  {
    if items != [] { LoadIdle(items[..|items| - 1]); }
  }

  /** A second release changes nothing at all. */
  lemma ReleaseTwice(w: World, i: nat)
    requires Valid(w.pool) && i < |w.leases|
    ensures Step(Step(w, Release(i)), Release(i)) == Step(w, Release(i))
  {
  }

  // Revision

  ghost predicate SameReady(p: Pool, q: Pool)
  {
    forall id :: id in p.ready <==> id in q.ready
  }

  /** Every step leaves the ready set alone or moves the revision forward. */
  lemma StepRevision(w: World, op: Op)
    requires Valid(w.pool) && Legal(w, op)
    ensures Step(w, op).pool.revision >= w.pool.revision
    ensures Step(w, op).pool.revision == w.pool.revision ==> SameReady(w.pool, Step(w, op).pool)
  {
    match op
    case Acquire(key, now) => AcquireEffect(w.pool, key, now);
    case _ =>
  }

  /** Between two equal revisions the ready set never changed, whatever ran in between. */
  lemma {:induction false} RevisionSound(w: World, ops: seq<Op>)
    requires Valid(w.pool) && LegalRun(w, ops)
    ensures Run(w, ops).pool.revision >= w.pool.revision
    ensures Run(w, ops).pool.revision == w.pool.revision ==> SameReady(w.pool, Run(w, ops).pool)
    decreases |ops|
  {
    if ops != [] {
      StepValid(w, ops[0]);
      StepRevision(w, ops[0]);
      RevisionSound(Step(w, ops[0]), ops[1..]);
    }
  }
}
