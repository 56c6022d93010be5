/**
 What each scheduler operation does to the records, field by field: who is lent, parked,
 promoted, recorded or replaced, what the record says afterwards, and that everything else
 stays as it was.
 */
module PoolLaws {
  import opened Basics
  import opened Accounts
  import opened Pools
  import opened PoolRuns
  import Selection

  /** No quota left. */
  predicate Spent(a: Account)
  {
    a.quotaLimit > 0 && a.quotaLimit <= a.quotaActual
  }

  /** A spent account taken out of service at `now`: its own code and a deadline still ahead are kept. */
  predicate OutOfQuota(a: Account, b: Account, now: int, window: int)
  {
    && b == a.(standing := Unavailable, reason := Quota, errorCode := b.errorCode, retryAt := b.retryAt)
    && (a.errorCode != "" ==> b.errorCode == a.errorCode)
    && (a.errorCode == "" ==> b.errorCode == "local:quota-exhausted")
    && (a.retryAt.Some? && now <= a.retryAt.value ==> b.retryAt == a.retryAt)
    && (a.retryAt.None? || a.retryAt.value < now ==> b.retryAt == Some(now + if window > 0 then window else 24 * 60 * 60))
  }

  // Acquiring

  /** After a scan of `ids`: the spent ready ones among them are out, everybody else is as before. */
  ghost predicate ScanLeft(p: Pool, q: Pool, ids: seq<string>, now: int)
  {
    && q == p.(accounts := q.accounts, ready := q.ready, hot := q.hot, revision := q.revision)
    && q.accounts.Keys == p.accounts.Keys
    && forall x :: x in p.accounts ==>
         if x in ids && p.accounts[x].standing == Ready && Spent(p.accounts[x])
         then OutOfQuota(p.accounts[x], q.accounts[x], now, p.quotaRetry)
         else q.accounts[x] == p.accounts[x]
  }

  lemma {:induction false} ScanLeaves(p: Pool, ids: seq<string>, now: int)
    requires Valid(p)
    ensures ScanLeft(p, ScanAll(Scan(p, [], 0), ids, now).pool, ids, now)
  {
    if ids != [] {
      var front, id := ids[..|ids| - 1], ids[|ids| - 1];
      ScanLeaves(p, front, now);
      ScanParks(p, front, now);
      VisitLeaves(p, ScanAll(Scan(p, [], 0), front, now), front, id, now);
      assert ids == front + [id];
    }
  }

  lemma VisitLeaves(p: Pool, sc: Scan, front: seq<string>, id: string, now: int)
    requires Valid(sc.pool) && ScanLeft(p, sc.pool, front, now)
    ensures ScanLeft(p, ScanOne(sc, id, now).pool, front + [id], now)
  {
    hide Valid, ScanLeft, Free, Park;
    if id in sc.pool.accounts && Parkable(sc.pool.accounts[id]) {
      ParkLeaves(p, sc.pool, front, id, now);
    } else {
      SkipLeaves(p, sc.pool, front, id, now);
    }
  }

  lemma ParkLeaves(p: Pool, q: Pool, front: seq<string>, id: string, now: int)
    requires Valid(q) && ScanLeft(p, q, front, now) && id in q.accounts && Parkable(q.accounts[id])
    ensures ScanLeft(p, Park(q, id, now), front + [id], now)
  {
    hide Remove;
    NamedBy(q, id);
    hide Valid;
    assert q.accounts[id] == p.accounts[id];
    OutOfService(q.accounts[id], now, RetryWindow(p));
    assert Park(q, id, now).accounts == q.accounts[id := ParkKnownExhausted(q.accounts[id], now, RetryWindow(q))];
    hide Park, ParkKnownExhausted, OutOfQuota;
  }

  /** Parking for want of quota touches ready spent accounts only. */
  lemma OutOfService(a: Account, now: int, window: int)
    ensures var b := ParkKnownExhausted(a, now, window);
            if a.standing == Ready && Spent(a) then OutOfQuota(a, b, now, window) else b == a
    ensures Parkable(a) <==> a.standing == Ready && Spent(a)
  {
  }

  /** An account can serve one more request if it is ready, not spent and below its limit; without a limit it takes one at a time. */
  lemma AvailableMeans(a: Account)
    ensures Available(a) <==>
            && a.standing == Ready && !Spent(a)
            && (a.maxActive >= 1 ==> a.active < a.maxActive) && (a.maxActive < 1 ==> a.active == 0)
  {
  }

  lemma SkipLeaves(p: Pool, q: Pool, front: seq<string>, id: string, now: int)
    requires ScanLeft(p, q, front, now) && (id in q.accounts ==> !Parkable(q.accounts[id]))
    ensures ScanLeft(p, q, front + [id], now)
  {
    hide OutOfQuota;
    forall x | x in p.accounts
      ensures if x in front + [id] && p.accounts[x].standing == Ready && Spent(p.accounts[x])
              then OutOfQuota(p.accounts[x], q.accounts[x], now, p.quotaRetry) else q.accounts[x] == p.accounts[x]
    {
      assert x in front + [id] <==> x in front || x == id;
    }
  }

  /**
   What an acquire leaves of every record: the one lent has one request more, in flight and
   in all; of the others only spent ready ones may change, by going out of quota, and after
   a saturated turn they all have. Nobody is lent who is not ready, is at its limit or spent.
   */
  lemma AcquireRecords(p: Pool, key: string, now: int)
    requires Valid(p)
    ensures var a := Pools.Acquire(p, key, now); var q := a.pool;
      && q.accounts.Keys == p.accounts.Keys && q.quotaRetry == p.quotaRetry
      && (a.outcome.Granted? ==>
            var id := a.outcome.id;
            && id in p.accounts && p.accounts[id].standing == Ready && !Spent(p.accounts[id])
            && p.accounts[id].active < p.accounts[id].maxActive
            && q.accounts[id] == p.accounts[id].(active := p.accounts[id].active + 1, requestCount := p.accounts[id].requestCount + 1))
      && (forall x :: x in p.accounts && !(a.outcome.Granted? && x == a.outcome.id) ==>
            q.accounts[x] == p.accounts[x]
            || (p.accounts[x].standing == Ready && Spent(p.accounts[x]) && OutOfQuota(p.accounts[x], q.accounts[x], now, p.quotaRetry)))
      && (a.outcome.Saturated? ==> forall x :: x in q.accounts ==> !(q.accounts[x].standing == Ready && Spent(q.accounts[x])))
  {
    hide Valid, Pick, Grant, OutOfQuota;
    AcquireEffect(p, key, now);
    if p.ready == [] {
    } else if StickyHit(p, key, now) {
      StickyFree(p, key, now);
      GrantShape(p, p.sticky[key].account, key, now);
      NamedBy(p, p.sticky[key].account);
    } else {
      var p1 := DropStale(p, key, now);
      PickSteady(p, key, now);
      PickLeaves(p1, now);
      var r := Pick(p1, now);
      if r.id.Some? {
        GrantShape(r.pool, r.id.value, key, now);
        NamedBy(r.pool, r.id.value);
      }
    }
  }

  lemma StickyFree(p: Pool, key: string, now: int)
    requires StickyHit(p, key, now)
    ensures Servable(p, p.sticky[key].account)
  {
  }

  lemma PickLeaves(p: Pool, now: int)
    requires Valid(p)
    ensures ScanLeft(p, Pick(p, now).pool.(cursor := p.cursor), p.ready, now)
  {
    hide Valid, ScanAll, Lightest;
    ScanLeaves(p, p.ready, now);
    PickShape(p, now);
  }

  /** Without a hot set a saturated turn means that every ready account is at its limit. */
  lemma SaturatedMeans(p: Pool, key: string, now: int)
    requires Valid(p) && p.activeSize == 0 && Pools.Acquire(p, key, now).outcome.Saturated?
    ensures var q := Pools.Acquire(p, key, now).pool;
            forall x :: x in q.accounts && q.accounts[x].standing == Ready ==> q.accounts[x].active >= q.accounts[x].maxActive
  {
    hide Pools.Acquire;
    Selection.SaturatedLeaves(p, key, now);
    AcquireRecords(p, key, now);
    AcquireEffect(p, key, now);
    var q := Pools.Acquire(p, key, now).pool;
    forall x | x in q.accounts && q.accounts[x].standing == Ready ensures q.accounts[x].active >= q.accounts[x].maxActive {
      assert !Servable(q, x);
    }
  }

  // The other operations

  /** Parking sets the four fields of one record, takes it off both lists and drops its bindings. */
  lemma MoveRecords(p: Pool, id: string, reason: Reason, retryAt: Option<int>, errorCode: string)
    requires Valid(p) && id in p.accounts
    ensures var q := MoveUnavailable(p, id, reason, retryAt, errorCode); var a := p.accounts[id];
      && q == p.(accounts := p.accounts[id := a.(standing := Unavailable, reason := reason, retryAt := retryAt, errorCode := errorCode)],
                 ready := q.ready, hot := p.hot - {id}, sticky := q.sticky, revision := q.revision)
      && (forall x :: x in q.ready <==> x in p.ready && x != id)
      && (forall k :: k in q.sticky <==> k in p.sticky && p.sticky[k].account != id)
      && (forall k :: k in q.sticky ==> q.sticky[k] == p.sticky[k])
      && (q.revision == p.revision + if q.accounts == p.accounts then 0 else 1)
  {
    hide Remove;
    var q := MoveUnavailable(p, id, reason, retryAt, errorCode);
    if q.accounts == p.accounts { assert q.accounts[id] == p.accounts[id]; }
    if q.revision == p.revision { assert q.accounts[id] == p.accounts[id]; }
  }

  /** Promotion makes exactly the cooldowns whose time has come ready, with nothing left of the failure. */
  lemma PromoteRecords(p: Pool, now: int, order: seq<string>)
    requires Valid(p) && Walks(p, order)
    ensures var q := PromoteDue(p, now, order);
      && q == p.(accounts := q.accounts, ready := q.ready, revision := q.revision) && q.accounts.Keys == p.accounts.Keys
      && (forall x :: x in p.accounts ==>
            var a := p.accounts[x];
            q.accounts[x] ==
            if a.standing == Unavailable && a.reason == Cooldown && a.retryAt.Some? && a.retryAt.value <= now
            then a.(standing := Ready, reason := NoReason, retryAt := None, errorCode := "") else a)
      && p.ready <= q.ready
      && (q.revision == p.revision + if q.ready == p.ready then 0 else 1)
  {
    hide Distinct;
    var due := Due(p.accounts, order, now);
    assert PromoteDue(p, now, order).ready == p.ready + due;
    if due != [] { assert |p.ready + due| > |p.ready|; } else { assert p.ready + due == p.ready; }
  }

  /** An upsert stores the record given, its limit at least one and at most the cap, its requests in flight those it had. */
  lemma UpsertRecords(p: Pool, item: Account)
    ensures var q := Pools.Upsert(p, item); var b := q.accounts[item.id];
      && q == p.(accounts := p.accounts[item.id := b], ready := q.ready, hot := p.hot - {item.id}, revision := p.revision + 1)
      && b == item.(maxActive := b.maxActive, active := b.active)
      && b.active == (if item.id in p.accounts then p.accounts[item.id].active else item.active)
      && (b.maxActive == item.maxActive || b.maxActive == p.maxActiveCap || (item.maxActive <= 0 && b.maxActive == 1))
      && (p.maxActiveCap > 0 ==> b.maxActive <= p.maxActiveCap) && b.maxActive >= 1
      && (item.maxActive >= 1 && (p.maxActiveCap <= 0 || item.maxActive <= p.maxActiveCap) ==> b.maxActive == item.maxActive)
      && (forall x :: x in q.ready <==> (x in p.ready && x != item.id) || (x == item.id && item.standing == Ready))
  {
    hide Remove;
  }

  lemma DeleteRecords(p: Pool, id: string)
    requires id in p.accounts
    ensures var q := Pools.Delete(p, id);
      && q == p.(accounts := p.accounts - {id}, ready := q.ready, hot := p.hot - {id}, revision := p.revision + 1)
      && (forall x :: x in q.ready <==> x in p.ready && x != id)
  {
    hide Remove;
  }

  /** Usage counters, requests in flight, limits: each operation touches its own field only. */
  lemma CounterRecords(p: Pool, id: string, actual: int, limit: int, n: int)
    requires Valid(p) && id in p.accounts
    ensures var a := p.accounts[id];
      && Pools.Record(p, id, actual, limit) == p.(accounts := p.accounts[id := a.(quotaActual := actual, quotaLimit := limit)])
      && Pools.Release(p, id) == p.(accounts := p.accounts[id := a.(active := if a.active == 0 then 0 else a.active - 1)])
      && var q := ApplyMaxActive(p, n); var cap := q.maxActiveCap;
         && q == p.(accounts := q.accounts, maxActiveCap := cap) && q.accounts.Keys == p.accounts.Keys
         && cap >= 1 && (n >= 1 ==> cap == n) && (n < 1 ==> cap == 1)
         && q.accounts[id] == a.(maxActive := if a.maxActive < cap then a.maxActive else cap)
  {
    assert p.accounts[id := p.accounts[id]] == p.accounts;
  }

  /** A loaded pool holds the records given, each with a limit of at least one, and starts from the defaults. */
  lemma {:induction false} LoadRecords(items: seq<Account>, i: nat)
    requires i < |items| && forall j, k :: 0 <= j < k < |items| ==> items[j].id != items[k].id
    ensures var p := Load(items); var a := items[i];
      && a.id in p.accounts
      && p.accounts[a.id] == a.(maxActive := if a.maxActive < 1 then 1 else a.maxActive)
      && p == Pool(p.accounts, p.ready, {}, map[], 1, 0, 0, 0, RoundRobin, true, 30 * 60, 24 * 60 * 60)
  {
    var front, last := items[..|items| - 1], items[|items| - 1];
    if i < |front| {
      LoadRecords(front, i);
      assert front[i].id != last.id;
    } else if front != [] {
      LoadRecords(front, 0);
    } else {
      assert Load(front) == Pool(map[], [], {}, map[], 1, 0, 0, 0, RoundRobin, true, 30 * 60, 24 * 60 * 60);
    }
  }

  /** A binding lives for its time to live. */
  lemma BindingLives(p: Pool, key: string, id: string, now: int)
    requires p.stickyOn && key != ""
    ensures var q := BumpSticky(p, key, id, now);
      && q == p.(sticky := q.sticky) && key in q.sticky
      && q.sticky[key] == Sticky(id, now + if p.stickyTtl > 0 then p.stickyTtl else 30 * 60)
      && (forall k :: k in q.sticky && k != key ==> k in p.sticky && q.sticky[k] == p.sticky[k])
      && (forall k :: k in p.sticky && k != key && k !in q.sticky ==> p.sticky[k].expiresAt < now && |p.sticky| >= 10000)
      && (forall k :: k in q.sticky && q.sticky[k].expiresAt < now ==> |p.sticky[key := q.sticky[key]]| <= 10000)
  {
  }

  /** A binding that no longer leads anywhere: expired, or to an account that is gone or out of service. */
  predicate Stale(p: Pool, key: string, now: int)
  {
    && p.stickyOn && key != "" && key in p.sticky
    && (p.sticky[key].expiresAt < now || p.sticky[key].account !in p.accounts || p.accounts[p.sticky[key].account].standing == Unavailable)
  }

  /**
   What a turn of an acquire does to the bindings: one granted is bound if sessions are, as
   `BindingLives` says; one refused forgets the caller's own binding if it is stale, and
   no other.
   */
  lemma AcquireBindings(p: Pool, key: string, now: int)
    requires Valid(p)
    ensures var a := Pools.Acquire(p, key, now); var q := a.pool;
      && (a.outcome.NoReady? ==> q.sticky == p.sticky)
      && (a.outcome.Saturated? ==> q.sticky == if Stale(p, key, now) then p.sticky - {key} else p.sticky)
      && (a.outcome.Granted? && (!p.stickyOn || key == "") ==> q.sticky == p.sticky)
      && (a.outcome.Granted? && p.stickyOn && key != "" ==>
            && key in q.sticky && q.sticky[key] == Sticky(a.outcome.id, now + if p.stickyTtl > 0 then p.stickyTtl else 30 * 60)
            && (forall k :: k in q.sticky && k != key ==> k in p.sticky && q.sticky[k] == p.sticky[k]))
  {
    hide Valid, Pick, Prune;
    assert StickyStale(p, key, now) <==> Stale(p, key, now);
    if p.ready != [] && !StickyHit(p, key, now) {
      var p1 := DropStale(p, key, now);
      PickSteady(p, key, now);
      PickKeepsBindings(p1, now);
      GrantBindings(Pick(p1, now).pool, key, now);
    } else if p.ready != [] {
      GrantBindings(p, key, now);
    }
  }

  lemma PickKeepsBindings(p: Pool, now: int)
    requires Valid(p)
    ensures var r := Pick(p, now); r.pool.sticky == p.sticky && r.pool.stickyOn == p.stickyOn && r.pool.stickyTtl == p.stickyTtl
  {
    hide Valid;
    PickLeaves(p, now);
    hide Pick;
  }

  lemma GrantBindings(p: Pool, key: string, now: int)
    ensures forall id :: id in p.accounts ==>
              var q := Grant(p, id, key, now);
              if !p.stickyOn || key == "" then q.sticky == p.sticky
              else
                && key in q.sticky && q.sticky[key] == Sticky(id, now + if p.stickyTtl > 0 then p.stickyTtl else 30 * 60)
                && (forall k :: k in q.sticky && k != key ==> k in p.sticky && q.sticky[k] == p.sticky[k])
  {
    forall id | id in p.accounts
      ensures var q := Grant(p, id, key, now);
              if !p.stickyOn || key == "" then q.sticky == p.sticky
              else
                && key in q.sticky && q.sticky[key] == Sticky(id, now + if p.stickyTtl > 0 then p.stickyTtl else 30 * 60)
                && (forall k :: k in q.sticky && k != key ==> k in p.sticky && q.sticky[k] == p.sticky[k])
    {
      var m := EnsureHot(p.(accounts := p.accounts[id := Lend(p.accounts[id])]), id);
      if p.stickyOn && key != "" { BindingLives(m, key, id, now); }
    }
  }

  // One step of a run

  /** One record is replaced, the others stay. */
  predicate OneRecord(p: Pool, q: Pool, id: string, b: Account)
  {
    q.accounts == p.accounts[id := b]
  }

  /**
   What a step of a run leaves behind; what an acquire does is said by `AcquireRecords`,
   `AcquireBindings` and `PoolRuns.AcquireEffect`.
   */
  ghost predicate StepTold(w: World, op: Op, x: World)
    requires Legal(w, op)
  {
    var p, q := w.pool, x.pool;
    match op
    case Acquire(key, now) =>
      var a := Pools.Acquire(p, key, now);
      q == a.pool && x.leases == w.leases + if a.outcome.Granted? then [Lease(a.outcome.id, true)] else []
    case Release(i) =>
      var id := w.leases[i].account;
      && |x.leases| == |w.leases| && !x.leases[i].open && x.leases[i].account == id
      && (forall j :: 0 <= j < |w.leases| && j != i ==> x.leases[j] == w.leases[j])
      && (!w.leases[i].open || id !in p.accounts ==> q == p)
      && (w.leases[i].open && id in p.accounts ==>
            var a := p.accounts[id];
            q == p.(accounts := q.accounts) && OneRecord(p, q, id, a.(active := if a.active == 0 then 0 else a.active - 1)))
    case Move(i, reason, retryAt, errorCode) =>
      var id := w.leases[i].account;
      && x.leases == w.leases
      && (id in p.accounts ==>
            && OneRecord(p, q, id, p.accounts[id].(standing := Unavailable, reason := reason, retryAt := retryAt, errorCode := errorCode))
            && id !in q.ready && id !in q.hot)
    case Record(i, actual, limit) =>
      var id := w.leases[i].account;
      && x.leases == w.leases
      && (id in p.accounts ==> OneRecord(p, q, id, p.accounts[id].(quotaActual := actual, quotaLimit := limit)))
    case Upsert(item) =>
      && x.leases == w.leases && item.id in q.accounts
      && OneRecord(p, q, item.id, item.(maxActive := q.accounts[item.id].maxActive,
                                        active := if item.id in p.accounts then p.accounts[item.id].active else item.active))
      && (item.id in q.ready <==> item.standing == Ready)
    case Delete(id) => x.leases == w.leases && id !in q.accounts && q.accounts == p.accounts - {id}
    case Promote(now, order) =>
      && x.leases == w.leases && q.accounts.Keys == p.accounts.Keys
      && forall id :: id in p.accounts ==>
           var a := p.accounts[id];
           q.accounts[id] ==
           if a.standing == Unavailable && a.reason == Cooldown && a.retryAt.Some? && a.retryAt.value <= now
           then a.(standing := Ready, reason := NoReason, retryAt := None, errorCode := "") else a
    case MaxActive(n) =>
      var cap := if n < 1 then 1 else n;
      && x.leases == w.leases && q.maxActiveCap == cap && q.accounts.Keys == p.accounts.Keys
      && forall id :: id in p.accounts ==>
           q.accounts[id] == p.accounts[id].(maxActive := if p.accounts[id].maxActive < cap then p.accounts[id].maxActive else cap)
    case ActiveSize(n, keep) =>
      && x.leases == w.leases && q == p.(activeSize := q.activeSize, hot := q.hot)
      && q.activeSize == (if n > 0 then n else 0) && q.hot <= p.hot
      && (n <= 0 ==> q.hot == {}) && (n >= |p.hot| && n > 0 ==> q.hot == p.hot) && (0 < n < |p.hot| ==> |q.hot| == n)
    case ClearSticky(id) =>
      && x.leases == w.leases && q == p.(sticky := q.sticky)
      && (forall k :: k in q.sticky <==> k in p.sticky && p.sticky[k].account != id)
      && forall k :: k in q.sticky ==> q.sticky[k] == p.sticky[k]
    case Configure(strategy, stickyOn, stickyTtl, quotaRetry) =>
      x == World(p.(strategy := strategy, stickyOn := stickyOn, stickyTtl := stickyTtl, quotaRetry := quotaRetry), w.leases)
  }

  lemma StepTells(w: World, op: Op)
    requires Valid(w.pool) && Legal(w, op)
    ensures StepTold(w, op, Step(w, op))
  {
    hide Valid, Pools.Acquire, Remove, Walks, Pools.MoveUnavailable, PromoteDue;
    var p := w.pool;
    match op
    case Release(i) =>
      if w.leases[i].account in p.accounts { CounterRecords(p, w.leases[i].account, 0, 0, 1); }
    case Move(i, reason, retryAt, errorCode) =>
      if w.leases[i].account in p.accounts { MoveRecords(p, w.leases[i].account, reason, retryAt, errorCode); }
    case Record(i, actual, limit) =>
      if w.leases[i].account in p.accounts { CounterRecords(p, w.leases[i].account, actual, limit, 1); }
    case Upsert(item) => UpsertRecords(p, item);
    case Delete(id) => if id in p.accounts { DeleteRecords(p, id); }
    case Promote(now, order) => PromoteRecords(p, now, order);
    case MaxActive(n) => CapTells(w, n);
    case _ =>
  }

  lemma CapTells(w: World, n: int)
    requires Valid(w.pool)
    ensures StepTold(w, Op.MaxActive(n), Step(w, Op.MaxActive(n)))
  {
    forall id | id in w.pool.accounts
      ensures var a := w.pool.accounts[id]; var cap := if n < 1 then 1 else n;
              ApplyMaxActive(w.pool, n).accounts[id] == a.(maxActive := if a.maxActive < cap then a.maxActive else cap)
    {
      CounterRecords(w.pool, id, 0, 0, n);
    }
  }
}
