/**
 One caller blocked in the acquire loop while others use the scheduler, as interleaved
 steps: the caller checks under the lock and then sleeps on a channel of capacity one;
 the others change the pool under the lock and signal only afterwards.
 */
module Wakeup {
  import opened Basics
  import opened Accounts
  import opened Pools
  import opened PoolRuns
  import opened Selection

  datatype Waiter = Looking | Asleep | Served(account: string) | Refused

  /** `unsent` counts the others who have freed something and not signalled yet. */
  datatype Machine = Machine(world: World, key: string, waiter: Waiter, token: bool, unsent: nat)

  datatype Event = Check(now: int) | Wake | Do(op: Op) | Signal

  /** The operations that signal when they are done. */
  predicate Sends(w: World, op: Op)
  {
    match op
    case Release(i) => i < |w.leases| && w.leases[i].open
    case Upsert(_) => true
    case Delete(id) => id in w.pool.accounts
    case Promote(now, order) => Due(w.pool.accounts, order, now) != []
    case _ => false
  }

  ghost predicate Enabled(m: Machine, e: Event)
  {
    match e
    case Check(_) => m.waiter.Looking?
    case Wake => m.waiter.Asleep? && m.token
    case Do(op) => Legal(m.world, op)
    case Signal => m.unsent > 0
  }

  function Next(m: Machine, e: Event): Machine
  {
    match e
    case Check(now) =>
      var a := Pools.Acquire(m.world.pool, m.key, now);
      m.(world := Step(m.world, Acquire(m.key, now)),
         waiter := match a.outcome case Granted(id) => Served(id) case NoReady => Refused case Saturated => Asleep)
    case Wake => m.(token := false, waiter := Looking)
    case Do(op) => m.(world := Step(m.world, op), unsent := m.unsent + if Sends(m.world, op) then 1 else 0)
    case Signal => m.(token := true, unsent := if m.unsent > 0 then m.unsent - 1 else 0)
  }

  function After(m: Machine, events: seq<Event>): Machine
  {
    if events == [] then m else Next(After(m, events[..|events| - 1]), events[|events| - 1])
  }

  ghost predicate Possible(m: Machine, events: seq<Event>)
  {
    events == [] ||
    (Possible(m, events[..|events| - 1]) && Enabled(After(m, events[..|events| - 1]), events[|events| - 1]))
  }

  // What each operation that does not signal does to a full pool

  /** Some account outside the hot set has room. */
  ghost predicate Hungry(p: Pool)
  {
    exists x :: Cold(p, x)
  }

  /** The one freed place goes to `choice`, which takes its last room, and nobody waits for another. */
  ghost predicate Absorbed(p: Pool, choice: Option<string>)
  {
    && choice.Some? && choice.value in p.accounts
    && p.accounts[choice.value].active + 1 >= p.accounts[choice.value].maxActive
    && ((forall h, k :: SpentHot(p, h) && SpentHot(p, k) ==> h == k)
        || forall y :: Cold(p, y) && !Parkable(p.accounts[y]) ==> y == choice.value)
  }

  /** The account a scan at `now` would choose. */
  function Choice(p: Pool, key: string, now: int): Option<string>
  {
    Pick(DropStale(p, key, now), now).id
  }

  /** The operation would make room in a pool that has none. */
  ghost predicate Frees(w: World, op: Op)
  {
    var p := w.pool;
    match op
    case Acquire(key, now) => Thaws(p) && !Absorbed(p, Choice(p, key, now))
    case Move(i, _, _, _) => i < |w.leases| && p.activeSize > 0 && w.leases[i].account in p.hot && Hungry(p)
    case ActiveSize(n, _) => Hungry(p) && (n <= 0 || |p.hot| < n)
    case _ => false
  }

  /** Whoever can serve has a slot. */
  lemma FullServesNone(p: Pool)
    requires Valid(p) && Full(p)
    ensures forall id :: !Servable(p, id)
  {
    forall id ensures !Servable(p, id) {
      if Servable(p, id) { assert Slot(p, id); }
    }
  }

  /** In a full pool with a hot set, an account with room is cold and the hot set is full. */
  lemma FullHot(p: Pool, x: string)
    requires Valid(p) && Full(p) && x in p.accounts && p.accounts[x].standing == Ready && p.accounts[x].active < p.accounts[x].maxActive
    ensures p.activeSize > 0 && Cold(p, x) && |p.hot| == p.activeSize
  {
    assert !Slot(p, x);
  }

  lemma MoveShape(p: Pool, id: string, reason: Reason, retryAt: Option<int>, errorCode: string)
    requires Valid(p) && id in p.accounts
    ensures var q := MoveUnavailable(p, id, reason, retryAt, errorCode);
            && q.accounts == p.accounts[id := MarkUnavailable(p.accounts[id], reason, retryAt, errorCode)]
            && q.hot == p.hot - {id} && q.activeSize == p.activeSize
  {
    hide Remove;
  }

  /** Who has a slot once `id` is unavailable and out of the hot set. */
  lemma SlotWithout(p: Pool, q: Pool, id: string, x: string)
    requires Valid(p) && Full(p) && id in p.accounts && id in q.accounts && q.accounts[id].standing == Unavailable
    requires q.accounts == p.accounts[id := q.accounts[id]] && q.hot == p.hot - {id} && q.activeSize == p.activeSize
    ensures Slot(q, x) <==> Cold(p, x) && p.activeSize > 0 && id in p.hot
  {
    assert !Slot(p, x);
    if id in p.hot {
      assert p.hot == (p.hot - {id}) + {id};
    } else {
      assert p.hot - {id} == p.hot;
    }
  }

  /** Parking a leased account makes room exactly if it held a hot place somebody waits for. */
  lemma MoveExact(p: Pool, id: string, reason: Reason, retryAt: Option<int>, errorCode: string)
    requires Valid(p) && Full(p)
    ensures Full(MoveUnavailable(p, id, reason, retryAt, errorCode)) <==> !(p.activeSize > 0 && id in p.hot && Hungry(p))
  {
    var q := MoveUnavailable(p, id, reason, retryAt, errorCode);
    if id in p.accounts {
      MoveShape(p, id, reason, retryAt, errorCode);
      hide MoveUnavailable, Valid, Slot, Cold;
      forall x ensures Slot(q, x) <==> Cold(p, x) && p.activeSize > 0 && id in p.hot {
        SlotWithout(p, q, id, x);
      }
    }
  }

  lemma RecordExact(p: Pool, id: string, actual: int, limit: int)
    requires Valid(p) && Full(p)
    ensures Full(Pools.Record(p, id, actual, limit))
  {
    forall x ensures !Slot(Pools.Record(p, id, actual, limit), x) { assert !Slot(p, x); }
  }

  lemma MaxActiveExact(p: Pool, n: int)
    requires Valid(p) && Full(p)
    ensures Full(ApplyMaxActive(p, n))
  {
    forall x ensures !Slot(ApplyMaxActive(p, n), x) { assert !Slot(p, x); }
  }

  /** Resizing makes room exactly if it adds a place somebody waits for. */
  lemma ActiveSizeExact(p: Pool, n: int, keep: set<string>)
    requires Valid(p) && Full(p) && Keepable(p, n, keep)
    ensures Full(ApplyActiveSize(p, n, keep)) <==> !(Hungry(p) && (n <= 0 || |p.hot| < n))
  {
    var q := ApplyActiveSize(p, n, keep);
    forall x ensures Slot(q, x) <==> Cold(p, x) && (n <= 0 || |p.hot| < n) {
      assert !Slot(p, x);
    }
  }

  lemma PromoteNone(p: Pool, now: int, order: seq<string>)
    requires Full(p) && Due(p.accounts, order, now) == []
    ensures Full(PromoteDue(p, now, order))
  {
    assert PromoteDue(p, now, order) == p;
  }

  lemma SidesExact(p: Pool, q: Pool)
    requires Full(p) && q.accounts == p.accounts && q.hot == p.hot && q.activeSize == p.activeSize
    ensures Full(q)
  {
    forall x ensures !Slot(q, x) { assert !Slot(p, x); }
  }

  // Another caller's acquire

  lemma GrantHot(p: Pool, id: string, key: string, now: int)
    requires id in p.accounts
    ensures Grant(p, id, key, now).hot == EnsureHot(p, id).hot && Grant(p, id, key, now).activeSize == p.activeSize
  {
    hide Prune;
  }

  lemma TwoGone(a: set<string>, b: set<string>)
    requires b <= a
    ensures |b| + 1 < |a| <==> exists h, k :: h in a && h !in b && k in a && k !in b && h != k
  {
    var gone := a - b;
    assert a == b + gone;
    if h, k :| h in a && h !in b && k in a && k !in b && h != k {
      assert gone == (gone - {h, k}) + {h, k};
    } else if gone != {} {
      var h :| h in gone;
      assert gone == {h};
    }
  }

  /** A scan that picks somebody in a full pool picks a cold account for the place of a spent one. */
  lemma PickedCold(p: Pool, now: int)
    requires Valid(p) && Full(p) && Pick(p, now).id.Some?
    ensures var id := Pick(p, now).id.value; var q := Pick(p, now).pool;
            && Thaws(p) && Cold(p, id) && !Parkable(p.accounts[id]) && Servable(q, id) && q.accounts[id] == p.accounts[id]
            && |p.hot| == p.activeSize && q.activeSize == p.activeSize && id !in q.hot
  {
    PickServable(p, now);
    var id := Pick(p, now).id.value;
    FullHot(p, id);
    PickComplete(p, now);
    var i :| 0 <= i < |p.ready| && Reached(p, i);
    var x := p.ready[i];
    FullHot(p, x);
    assert !Slot(p, x);
    assert Cold(p, x) && !Parkable(p.accounts[x]);
  }

  /** What room is left once the picked account has been lent and heated. */
  lemma GrantedSlots(p: Pool, q: Pool, now: int, key: string, x: string)
    requires Valid(p) && Full(p) && Pick(p, now).id.Some? && Pick(p, now).id.value in Pick(p, now).pool.accounts
    requires q == Grant(Pick(p, now).pool, Pick(p, now).id.value, key, now)
    ensures var id := Pick(p, now).id.value;
            id in p.accounts &&
            (Slot(q, x) <==>
              if x == id then p.accounts[id].active + 1 < p.accounts[id].maxActive
              else Cold(p, x) && !Parkable(p.accounts[x]) && exists h, k :: SpentHot(p, h) && SpentHot(p, k) && h != k)
  {
    var m := Pick(p, now).pool;
    var id := Pick(p, now).id.value;
    PickedCold(p, now);
    PickServable(p, now);
    HotAfterPick(p, now);
    GrantShape(m, id, key, now);
    GrantHot(m, id, key, now);
    hide Pick, Grant, Thaws, Servable, Slot;
    SlotAfter(p, m, q, id, x);
  }

  /** Who has a slot once the spent accounts are parked and `id` is lent and heated. */
  lemma SlotAfter(p: Pool, m: Pool, q: Pool, id: string, x: string)
    requires Valid(p) && Full(p) && Cold(p, id) && |p.hot| == p.activeSize
    requires Parked(p, m.(cursor := p.cursor), p.ready) && id in m.accounts && m.accounts[id] == p.accounts[id] && id !in m.hot
    requires m.hot <= p.hot && forall h :: h in p.hot ==> (h !in m.hot <==> SpentHot(p, h))
    requires q.accounts == m.accounts[id := Lend(m.accounts[id])] && q.hot == m.hot + {id} && q.activeSize == p.activeSize
    ensures Slot(q, x) <==>
              if x == id then p.accounts[id].active + 1 < p.accounts[id].maxActive
              else Cold(p, x) && !Parkable(p.accounts[x]) && exists h, k :: SpentHot(p, h) && SpentHot(p, k) && h != k
  {
    assert |q.hot| == |m.hot| + 1;
    TwoGone(p.hot, m.hot);
    assert !Slot(p, x);
    if x in p.accounts && p.accounts[x].standing == Ready { assert x in p.ready; }
  }

  lemma HotAfterPick(p: Pool, now: int)
    requires Valid(p)
    ensures var q := Pick(p, now).pool; q.hot <= p.hot && forall h :: h in p.hot ==> (h !in q.hot <==> SpentHot(p, h))
  {
    HotAfter(p, p.ready, now);
    PickPool(p, now);
    assert forall h :: h in p.hot ==> h in p.ready;
  }

  lemma PickExact(p: Pool, now: int, key: string)
    requires Valid(p) && Full(p) && Pick(p, now).id.Some? && Pick(p, now).id.value in Pick(p, now).pool.accounts
    ensures Full(Grant(Pick(p, now).pool, Pick(p, now).id.value, key, now)) <==> Absorbed(p, Pick(p, now).id)
    ensures Thaws(p)
  {
    var id := Pick(p, now).id.value;
    var q := Grant(Pick(p, now).pool, id, key, now);
    PickedCold(p, now);
    hide Pick, Grant, Cold, SpentHot, Thaws;
    forall x ensures Slot(q, x) <==>
                     if x == id then p.accounts[id].active + 1 < p.accounts[id].maxActive
                     else Cold(p, x) && !Parkable(p.accounts[x]) && exists h, k :: SpentHot(p, h) && SpentHot(p, k) && h != k
    {
      GrantedSlots(p, q, now, key, x);
    }
    assert Full(q) ==> !Slot(q, id);
  }

  /**
   Another caller's acquire makes room in a full pool exactly if a spent account holds a hot
   place that an account with room waits for, unless the caller takes all that is freed.
   */
  lemma AcquireExact(p: Pool, key: string, now: int)
    requires Valid(p) && Full(p)
    ensures Full(Pools.Acquire(p, key, now).pool) <==> !(Thaws(p) && !Absorbed(p, Choice(p, key, now)))
  {
    hide Pick, Valid, Grant, Thaws, Full, Absorbed;
    var p1 := DropStale(p, key, now);
    AcquireEffect(p, key, now);
    SameThaws(p, p1);
    SameAbsorbed(p, p1, Choice(p, key, now));
    FullServesNone(p);
    if p.ready == [] {
      if Thaws(p) { ThawsReady(p); }
    } else {
      StickyServes(p, key, now);
      PickSteady(p, key, now);
      var r := Pick(p1, now);
      if r.id.Some? && r.id.value in r.pool.accounts {
        PickExact(p1, now, key);
      } else {
        SaturatedLeaves(p, key, now);
        assert Choice(p, key, now) == None;
        NoneAbsorbs(p);
      }
    }
  }

  lemma StickyServes(p: Pool, key: string, now: int)
    ensures StickyHit(p, key, now) ==> Servable(p, p.sticky[key].account)
  {
  }

  lemma NoneAbsorbs(p: Pool)
    ensures !Absorbed(p, None)
  {
  }

  lemma SameAbsorbed(p: Pool, p1: Pool, choice: Option<string>)
    requires p1 == p.(sticky := p1.sticky)
    ensures Absorbed(p, choice) == Absorbed(p1, choice) && Full(p) == Full(p1)
  {
    assert forall h :: SpentHot(p, h) == SpentHot(p1, h);
    assert forall x :: Cold(p, x) == Cold(p1, x) && Slot(p, x) == Slot(p1, x);
  }

  /** An operation that does not signal leaves a full pool full exactly unless it frees a place in the hot set as `Frees` says. */
  lemma QuietExact(w: World, op: Op)
    requires Valid(w.pool) && Legal(w, op) && Full(w.pool) && !Sends(w, op)
    ensures Full(Step(w, op).pool) <==> !Frees(w, op)
  {
    hide Valid, Full, Thaws, Absorbed, Hungry, Choice, MoveUnavailable, Pools.Record, ApplyMaxActive, ApplyActiveSize, Pools.Acquire,
      PromoteDue, Pools.Release, Pools.Upsert;
    var p, q := w.pool, Step(w, op).pool;
    match op
    case Acquire(key, now) => AcquireExact(p, key, now);
    case Release(_) =>
    case Upsert(_) =>
    case Delete(_) =>
    case Promote(now, order) => PromoteNone(p, now, order);
    case Move(i, reason, retryAt, errorCode) => MoveExact(p, w.leases[i].account, reason, retryAt, errorCode);
    case Record(i, actual, limit) => RecordExact(p, w.leases[i].account, actual, limit);
    case MaxActive(n) => MaxActiveExact(p, n);
    case ActiveSize(n, keep) => ActiveSizeExact(p, n, keep);
    case ClearSticky(_) => SidesExact(p, q);
    case Configure(_, _, _, _) => SidesExact(p, q);
  }

  /** A caller goes to sleep on a full pool, exactly unless its own scan overlooked a place it freed. */
  lemma SleepsWhenFull(p: Pool, key: string, now: int)
    requires Valid(p) && Pools.Acquire(p, key, now).outcome.Saturated?
    ensures Full(Pools.Acquire(p, key, now).pool) <==> !Overlooks(p)
  {
    hide Pools.Acquire, Overlooks, Full;
    OverlooksExact(p, key, now);
  }

  // The invariant over all interleavings

  /** Asleep with nothing on its way means there is nothing to be had. */
  ghost predicate NotStranded(m: Machine)
  {
    m.waiter.Asleep? && !m.token && m.unsent == 0 ==> Full(m.world.pool)
  }

  /**
   The steps that strand the caller, read off the state before them: a check that overlooks
   room, and an operation of somebody else that makes room without a signal while the caller
   sleeps with nothing on its way.
   */
  ghost predicate Strands(m: Machine, e: Event)
  {
    match e
    case Check(_) => !m.token && m.unsent == 0 && Overlooks(m.world.pool)
    case Do(op) => m.waiter.Asleep? && !m.token && m.unsent == 0 && !Sends(m.world, op) && Frees(m.world, op)
    case _ => false
  }

  lemma EventValid(m: Machine, e: Event)
    requires Valid(m.world.pool) && Enabled(m, e)
    ensures Valid(Next(m, e).world.pool)
  {
    hide Valid, Step, Pools.Acquire;
    match e
    case Check(now) => AcquireStep(m.world, m.key, now);
    case Do(op) => StepValid(m.world, op);
    case _ =>
  }

  /** One step keeps the caller from being stranded exactly if it is not one of those. */
  lemma StepNotStranded(m: Machine, e: Event)
    requires Valid(m.world.pool) && NotStranded(m) && Enabled(m, e)
    ensures NotStranded(Next(m, e)) <==> !Strands(m, e)
  {
    hide Valid, Step, Pools.Acquire, Full, Frees, Overlooks, Sends;
    match e
    case Check(now) =>
      AcquireStep(m.world, m.key, now);
      OverlooksExact(m.world.pool, m.key, now);
    case Do(op) =>
      if m.waiter.Asleep? && !m.token && m.unsent == 0 && !Sends(m.world, op) { QuietExact(m.world, op); }
    case Wake =>
    case Signal =>
  }

  lemma AcquireStep(w: World, key: string, now: int)
    requires Valid(w.pool)
    ensures Step(w, Acquire(key, now)).pool == Pools.Acquire(w.pool, key, now).pool && Valid(Pools.Acquire(w.pool, key, now).pool)
  {
    hide Valid, Pools.Acquire;
    AcquireEffect(w.pool, key, now);
  }

  /**
   Over every interleaving the caller never sleeps through capacity - whenever an account it
   may use has room, the channel holds a token or somebody is about to send one - exactly if
   no step on the way is one of those that strand it.
   */
  lemma {:induction false} NoMissedWakeup(m: Machine, events: seq<Event>)
    requires Valid(m.world.pool) && NotStranded(m) && Possible(m, events)
    ensures (forall k :: 0 <= k <= |events| ==> NotStranded(After(m, events[..k])))
            <==> forall k :: 0 <= k < |events| ==> !Strands(After(m, events[..k]), events[k])
    ensures Valid(After(m, events).world.pool)
  {
    hide Valid, Next, NotStranded, Enabled, Strands;
    if events == [] {
      assert events[..0] == [];
      assert After(m, []) == m;
    } else {
      var front, e := events[..|events| - 1], events[|events| - 1];
      NoMissedWakeup(m, front);
      EventValid(After(m, front), e);
      assert forall k :: 0 <= k <= |front| ==> events[..k] == front[..k];
      assert front[..|front|] == front && events[..|events|] == events;
      if NotStranded(After(m, front)) {
        StepNotStranded(After(m, front), e);
      } else {
        assert !NotStranded(After(m, events[..|front|]));
      }
    }
  }

  /** A guard without any scan: nobody spent is hot when a scan runs, no hot account is parked, the hot set keeps its size. */
  predicate Calm(m: Machine, e: Event)
  {
    match e
    case Check(_) => forall h | h in m.world.pool.hot :: !SpentHot(m.world.pool, h)
    case Do(Acquire(_, _)) => forall h | h in m.world.pool.hot :: !SpentHot(m.world.pool, h)
    case Do(Move(i, _, _, _)) => i < |m.world.leases| ==> m.world.leases[i].account !in m.world.pool.hot
    case Do(ActiveSize(_, _)) => false
    case _ => true
  }

  lemma CalmStep(m: Machine, e: Event)
    requires Calm(m, e)
    ensures !Strands(m, e)
  {
    hide Cold, Reached, Absorbed, Sends, Choice;
  }

  /** A run of calm steps never strands the caller. */
  lemma CalmRun(m: Machine, events: seq<Event>)
    requires Valid(m.world.pool) && NotStranded(m) && Possible(m, events)
    requires forall k :: 0 <= k < |events| ==> Calm(After(m, events[..k]), events[k])
    ensures forall k :: 0 <= k <= |events| ==> NotStranded(After(m, events[..k]))
  {
    hide Valid, Calm, Strands, NotStranded, Possible;
    NoMissedWakeup(m, events);
    forall k | 0 <= k < |events| ensures !Strands(After(m, events[..k]), events[k]) {
      CalmStep(After(m, events[..k]), events[k]);
    }
  }

  /** Without a hot set nothing strands the caller. */
  lemma NoHotSetSteady(m: Machine, e: Event)
    requires Valid(m.world.pool) && NotStranded(m) && m.world.pool.activeSize == 0 && Enabled(m, e)
    ensures !Strands(m, e)
    ensures !(e.Do? && e.op.ActiveSize?) ==> Next(m, e).world.pool.activeSize == 0
  {
    hide Valid, Pools.Acquire;
    match e
    case Check(now) => AcquireSize(m.world.pool, m.key, now);
    case Do(op) =>
      if op.Acquire? { AcquireSize(m.world.pool, op.key, op.now); }
      NoHotNoHunger(m.world.pool);
    case _ =>
  }

  lemma NoHotNoHunger(p: Pool)
    requires Valid(p) && p.activeSize == 0
    ensures Full(p) ==> !Hungry(p)
  {
    assert forall x :: Cold(p, x) ==> Slot(p, x);
  }

  lemma AcquireSize(p: Pool, key: string, now: int)
    requires Valid(p)
    ensures Pools.Acquire(p, key, now).pool.activeSize == p.activeSize
  {
    hide Pick, Valid, Grant;
    if p.ready != [] && !StickyHit(p, key, now) {
      PickSteady(p, key, now);
      var r := Pick(DropStale(p, key, now), now);
      if r.id.Some? && r.id.value in r.pool.accounts { GrantShape(r.pool, r.id.value, key, now); }
    } else if p.ready != [] {
      GrantShape(p, p.sticky[key].account, key, now);
    }
  }

  /** A check finds capacity that is there. */
  lemma CheckServes(m: Machine, now: int, x: string)
    requires Valid(m.world.pool) && m.waiter.Looking? && Servable(m.world.pool, x)
    ensures Next(m, Check(now)).waiter.Served?
  {
    var p := m.world.pool;
    ReadyIfAvailable(p, x);
    var p1 := DropStale(p, m.key, now);
    assert Servable(p1, x);
    PickSteady(p, m.key, now);
    PickOptimal(p1, now);
  }

  /** A caller that is not stranded gets what is there: signal if need be, wake, check. */
  lemma WokenAndServed(m: Machine, now: int, x: string)
    requires Valid(m.world.pool) && NotStranded(m) && m.waiter.Asleep? && Servable(m.world.pool, x)
    ensures var events := (if m.token then [] else [Signal]) + [Wake, Check(now)];
            Possible(m, events) && After(m, events).waiter.Served?
  {
    assert m.token || m.unsent > 0 by {
      if !m.token && m.unsent == 0 { FullServesNone(m.world.pool); }
    }
    var m1 := if m.token then m else Next(m, Signal);
    CheckServes(Next(m1, Wake), now, x);
    hide Valid, Servable, Pools.Acquire, Step, Full;
    var events := (if m.token then [] else [Signal]) + [Wake, Check(now)];
    if m.token {
      TwoEvents(m, now);
      assert events == [Wake, Check(now)];
    } else {
      ThreeEvents(m, now);
      assert events == [Signal, Wake, Check(now)];
    }
  }

  lemma TwoEvents(m: Machine, now: int)
    requires m.waiter.Asleep? && m.token
    ensures Possible(m, [Wake, Check(now)])
    ensures After(m, [Wake, Check(now)]) == Next(Next(m, Wake), Check(now))
  {
    hide Step, Pools.Acquire;
    assert [Wake, Check(now)][..1] == [Wake] && [Wake][..0] == [];
    assert After(m, []) == m && Possible(m, []);
    assert After(m, [Wake]) == Next(m, Wake) && Possible(m, [Wake]);
  }

  lemma ThreeEvents(m: Machine, now: int)
    requires m.waiter.Asleep? && m.unsent > 0
    ensures Possible(m, [Signal, Wake, Check(now)])
    ensures After(m, [Signal, Wake, Check(now)]) == Next(Next(Next(m, Signal), Wake), Check(now))
  {
    hide Step, Pools.Acquire;
    assert [Signal, Wake, Check(now)][..2] == [Signal, Wake] && [Signal, Wake][..1] == [Signal] && [Signal][..0] == [];
    assert After(m, []) == m && Possible(m, []);
    assert After(m, [Signal]) == Next(m, Signal) && Possible(m, [Signal]);
    assert After(m, [Signal, Wake]) == Next(Next(m, Signal), Wake) && Possible(m, [Signal, Wake]);
  }

  /**
   It does happen: parking an account frees its place in the hot set without a signal, and
   the caller sleeps on although another account could serve.
   */
  lemma StrandedExample(now: int)
    ensures var m := HotWaiter(); var e := Do(Move(0, Quota, None, ""));
            && Valid(m.world.pool) && Accounted(m.world, true)
            && Next(m, Check(now)).waiter.Asleep? && Enabled(Next(m, Check(now)), e)
            && Strands(Next(m, Check(now)), e) && !NotStranded(Next(Next(m, Check(now)), e))
  {
    var m := HotWaiter();
    var p := m.world.pool;
    DistinctNames();
    HotFull();
    AcquireWhenHot(now);
    var m1 := Next(m, Check(now));
    assert m1.world == m.world;
    assert Cold(p, "b") && "a" in p.hot;
    OneLease();
    hide Accounted, Valid, Full, Pools.Acquire, Eligible;
    StepNotStranded(m1, Do(Move(0, Quota, None, "")));
  }

  lemma OneLease()
    ensures Accounted(HotWaiter().world, true)
  {
    DistinctNames();
    var w := HotWaiter().world;
    forall id ensures InFlight(w.pool, id) == OpenLeases(w.leases, id) {
      assert w.leases[..0] == [];
    }
  }

  function HotWaiter(): Machine
  {
    var a := Account("a", Ready, NoReason, None, "", 0, 0, 0, 0, 1, 1, 0);
    var b := Account("b", Ready, NoReason, None, "", 0, 0, 0, 0, 0, 1, 0);
    Machine(World(Pool(map["a" := a, "b" := b], ["a", "b"], {"a"}, map[], 1, 0, 1, 0, RoundRobin, true, DEFAULT_TTL, DAY),
                  [Lease("a", true)]), "", Looking, false, 0)
  }

  lemma DistinctNames()
    ensures "a" != "b"
  {
    assert "a"[0] != "b"[0];
  }

  lemma HotFull()
    ensures Full(HotWaiter().world.pool) && Valid(HotWaiter().world.pool)
  {
    DistinctNames();
  }

  /** Nobody is spent, so the check parks nobody and leaves the pool as it was. */
  lemma AcquireWhenHot(now: int)
    ensures Pools.Acquire(HotWaiter().world.pool, "", now) == Acquired(HotWaiter().world.pool, Saturated)
  {
    DistinctNames();
    var p := HotWaiter().world.pool;
    assert ["a", "b"][..1] == ["a"] && ["a"][..0] == [];
    var s0 := Scan(p, [], 0);
    assert ScanAll(s0, [], now) == s0;
    assert ScanAll(s0, ["a"], now) == s0;
    assert ScanAll(s0, ["a", "b"], now) == s0;
  }
}
