/**
 What every gateway request guarantees, for any pool and any upstream behaviour: leases
 are given back, attempts use different accounts, rotation parks no more than its budget,
 and the circuit opens only on quota failures and only reports the ready set it saw.
 */
module GatewaySafety {
  import opened Basics
  import opened Accounts
  import opened Pools
  import opened PoolRuns
  import opened GatewaySpec

  // Acquire leaves every other account alone, or parks it because its quota is spent

  ghost predicate OnlyParked(p: Pool, q: Pool, except: Option<string>)
  {
    && q.accounts.Keys == p.accounts.Keys
    && (forall x :: x in q.ready ==> x in p.ready)
    && (forall x :: x in p.ready && x !in q.ready ==> x in p.accounts && Parkable(p.accounts[x]))
    && (forall x :: x in p.accounts && except != Some(x) ==>
          q.accounts[x] == p.accounts[x] || (Parkable(p.accounts[x]) && x !in q.ready))
  }

  lemma ReadyKnown(p: Pool)
    requires Valid(p)
    ensures forall x :: x in p.ready ==> x in p.accounts
  {
  }

  lemma ParkedOnly(p: Pool, q: Pool)
    requires Valid(p) && Valid(q) && Parked(p, q.(cursor := p.cursor), p.ready)
    ensures OnlyParked(p, q, None)
  {
    forall x | x in p.ready && x !in q.ready ensures x in p.accounts && Parkable(p.accounts[x]) {
      assert x in q.accounts;
    }
  }

  lemma GrantTouches(p: Pool, m: Pool, id: string, key: string, now: int)
    requires OnlyParked(p, m, None) && id in m.accounts
    ensures OnlyParked(p, Grant(m, id, key, now), Some(id))
  {
    hide Grant, Parkable;
    GrantShape(m, id, key, now);
  }

  lemma NothingParked(p: Pool, q: Pool)
    requires q == p.(sticky := q.sticky) && forall x :: x in p.ready ==> x in p.accounts
    ensures OnlyParked(p, q, None)
  {
  }

  lemma AcquireOnlyParks(p: Pool, key: string, now: int)
    requires Valid(p)
    ensures var a := Pools.Acquire(p, key, now);
            OnlyParked(p, a.pool, if a.outcome.Granted? then Some(a.outcome.id) else None)
  {
    hide Valid, Pick, Grant, OnlyParked, Parkable;
    ReadyKnown(p);
    NothingParked(p, p);
    if p.ready == [] {
    } else if StickyHit(p, key, now) {
      GrantTouches(p, p, p.sticky[key].account, key, now);
    } else {
      var p1 := DropStale(p, key, now);
      PickSteady(p, key, now);
      PickServable(p1, now);
      var r := Pick(p1, now);
      ParkedOnly(p1, r.pool);
      SameSides(p, p1, r.pool);
      if r.id.Some? { GrantTouches(p, r.pool, r.id.value, key, now); }
    }
  }

  lemma SameSides(p: Pool, p1: Pool, q: Pool)
    requires p1 == p.(sticky := p1.sticky) && OnlyParked(p1, q, None)
    ensures OnlyParked(p, q, None)
  {
  }

  // One attempt

  /** What one served attempt on `id` does to the pool. */
  ghost predicate AttemptEffect(p: Pool, q: Pool, id: string, rotated: bool, held: bool)
  {
    && id in p.ready
    && (forall x :: x in q.ready ==> x in p.ready)
    && (rotated ==> id !in q.ready)
    && (forall x :: x in p.ready && x != id && x !in q.ready ==> x in p.accounts && Parkable(p.accounts[x]))
    && (forall x :: x in q.ready && x != id ==> x in p.accounts && x in q.accounts && q.accounts[x] == p.accounts[x])
    && (forall x :: InFlight(q, x) == InFlight(p, x) + if held && x == id then 1 else 0)
  }

  lemma ServeReleases(cfg: Config, p: Pool, circuit: Circuit, streaks: map<string, nat>, lease: nat, id: string,
                      stream: bool, reply: Reply, now: int)
    ensures var sv := Serve(cfg, p, circuit, streaks, lease, id, stream, reply, now);
            && (Releases(sv.ops) > 0 <==> !(sv.ending.Some? && sv.ending.value.Streaming?))
            && (sv.ending.Some? && sv.ending.value.Streaming? ==> sv.ending.value.account == id)
            && (sv.rotated ==> |sv.ops| > 0 && sv.ops[0].Move?)
            && (sv.ending.None? ==> sv.rotated)
            && (sv.circuit == circuit || sv.circuit == Closed)
            && (sv.ending.None? ==> sv.circuit == circuit)
            && (sv.quota ==> sv.rotated)
  {
    ReleasesAppend(Persist(cfg, p, lease, id, if reply.Response? then reply.usage else None, now), [Release(lease)]);
    assert [Release(lease)][1..] == [];
    if reply.Response? && reply.usage.Some? {
      var r := Record(lease, reply.usage.value.actual, reply.usage.value.limit);
      var m := Move(lease, Quota, Some(now + cfg.quotaRetry), EXHAUSTED);
      ReleasesAppend([r], [m]);
      assert [r][1..] == [] && [m][1..] == [];
      assert [r] + [] == [r];
    }
    if reply.Response? && reply.usage.None? && id in p.accounts {
      assert [Record(lease, p.accounts[id].quotaActual, p.accounts[id].quotaLimit)][1..] == [];
    }
  }

  lemma {:induction false} ReleasesAppend(a: seq<Op>, b: seq<Op>)
    ensures Releases(a + b) == Releases(a) + Releases(b)
  {
    if a == [] {
      assert a + b == b;
    } else {
      assert (a + b)[0] == a[0] && (a + b)[1..] == a[1..] + b;
      ReleasesAppend(a[1..], b);
    }
  }

  /** A rotated account is out of the ready list for good. */
  lemma RotationParks(w: World, ops: seq<Op>, lease: nat)
    requires Valid(w.pool) && lease < |w.leases| && AllOnLease(ops, lease) && ops != [] && ops[0].Move?
    requires w.leases[lease].account in w.pool.accounts
    ensures w.leases[lease].account !in Run(w, ops).pool.ready
  {
    var w1 := Step(w, ops[0]);
    assert OnLease(ops[0], lease);
    LeaseStep(w, ops[0], lease);
    assert AllOnLease(ops[1..], lease) by {
      forall i | 0 <= i < |ops[1..]| ensures OnLease(ops[1..][i], lease) { assert OnLease(ops[i + 1], lease); }
    }
    LeaseRun(w1, ops[1..], lease);
  }

  lemma AttemptSafe(cfg: Config, s: State, key: string, stream: bool, reply: Reply, now: int)
    requires Valid(s.world.pool) && Pools.Acquire(s.world.pool, key, now).outcome.Granted?
    ensures var a := Pools.Acquire(s.world.pool, key, now); var id := a.outcome.id;
            var w1 := Step(s.world, Acquire(key, now));
            var sv := Serve(cfg, w1.pool, s.circuit, s.streaks, |s.world.leases|, id, stream, reply, now);
            var w2 := Run(w1, sv.ops);
            && Valid(w2.pool)
            && LegalRun(s.world, [Acquire(key, now)] + sv.ops) && Run(s.world, [Acquire(key, now)] + sv.ops) == w2
            && AttemptEffect(s.world.pool, w2.pool, id, sv.rotated, sv.ending.Some? && sv.ending.value.Streaming?)
  {
    hide Valid, Serve, Pools.Acquire, Parkable;
    var p := s.world.pool;
    var a := Pools.Acquire(p, key, now);
    var id := a.outcome.id;
    var lease := |s.world.leases|;
    AcquireEffect(p, key, now);
    AcquireOnlyParks(p, key, now);
    var w1 := Step(s.world, Acquire(key, now));
    var sv := Serve(cfg, w1.pool, s.circuit, s.streaks, lease, id, stream, reply, now);
    ServeOnLease(cfg, w1.pool, s.circuit, s.streaks, lease, id, stream, reply, now);
    ServeReleases(cfg, w1.pool, s.circuit, s.streaks, lease, id, stream, reply, now);
    assert w1.leases[lease] == Lease(id, true);
    LeaseRun(w1, sv.ops, lease);
    if sv.rotated { RotationParks(w1, sv.ops, lease); }
    RunAppend(s.world, [Acquire(key, now)], sv.ops);
    OneOp(s.world, Acquire(key, now));
    ReadyKnown(p);
    Compose(p, w1.pool, Run(w1, sv.ops).pool, id, sv.rotated, sv.ending.Some? && sv.ending.value.Streaming?);
  }

  lemma Compose(p: Pool, m: Pool, q: Pool, id: string, rotated: bool, held: bool)
    requires Lent(p, m, id) && OnlyParked(p, m, Some(id)) && Touches(m, q, id)
    requires forall x :: x in p.ready ==> x in p.accounts
    requires InFlight(q, id) == InFlight(m, id) - (if held then 0 else 1)
    requires rotated ==> id !in q.ready
    ensures AttemptEffect(p, q, id, rotated, held)
  {
    forall x ensures InFlight(q, x) == InFlight(p, x) + if held && x == id then 1 else 0 {
      if x != id {
        assert x in p.accounts <==> x in m.accounts;
        if x in p.accounts { assert m.accounts[x].active == p.accounts[x].active; }
      }
    }
  }

  // The whole loop

  predicate Attempted(attempts: seq<Attempt>, id: string)
  {
    exists k :: 0 <= k < |attempts| && attempts[k].account == id
  }

  ghost predicate DistinctAccounts(attempts: seq<Attempt>)
  {
    forall j, k :: 0 <= j < k < |attempts| ==> attempts[j].account != attempts[k].account
  }

  predicate AllQuota(attempts: seq<Attempt>)
  {
    forall k :: 0 <= k < |attempts| ==> attempts[k].quota
  }

  function HeldBy(ending: Ending, id: string): nat
  {
    if ending.Streaming? && ending.account == id then 1 else 0
  }

  /** The guarantees of a request that started in pool `p` and went as `t` says. */
  ghost predicate Safe(s: State, t: Trace)
  {
    var p, q := s.world.pool, t.state.world.pool;
    && Valid(q) && LegalRun(s.world, t.ops) && t.state.world == Run(s.world, t.ops)
    && DistinctAccounts(t.attempts)
    && (forall k :: 0 <= k < |t.attempts| ==> t.attempts[k].account in p.ready)
    && (forall x :: InFlight(q, x) == InFlight(p, x) + HeldBy(t.ending, x))
    && (t.ending.Streaming? ==> t.attempts != [] && t.attempts[|t.attempts| - 1].account == t.ending.account)
    && (forall x :: x in q.ready ==> x in p.ready)
    && (forall x :: x in p.ready && x !in q.ready && !Attempted(t.attempts, x) ==> x in p.accounts && Parkable(p.accounts[x]))
  }

  /** Prefixing a rotated attempt to a safe rest keeps the request safe. */
  lemma OneMoreAttempt(s: State, s2: State, rest: Trace, attempt: Attempt, ops: seq<Op>)
    requires Valid(s.world.pool) && Safe(s2, rest)
    requires LegalRun(s.world, ops) && Run(s.world, ops) == s2.world
    requires AttemptEffect(s.world.pool, s2.world.pool, attempt.account, true, false)
    ensures Safe(s, Trace(rest.state, rest.ending, [attempt] + rest.attempts, ops + rest.ops))
  {
    hide Valid, LegalRun, Run, Parkable;
    var p, m, q := s.world.pool, s2.world.pool, rest.state.world.pool;
    var t := Trace(rest.state, rest.ending, [attempt] + rest.attempts, ops + rest.ops);
    RunAppend(s.world, ops, rest.ops);
    OneMoreAccount(m, p, attempt, rest.attempts);
    forall x | x in p.ready && x !in q.ready && !Attempted(t.attempts, x) ensures x in p.accounts && Parkable(p.accounts[x]) {
      assert t.attempts[0] == attempt;
      assert x != attempt.account;
      forall k | 0 <= k < |rest.attempts| ensures rest.attempts[k].account != x {
        assert t.attempts[k + 1] == rest.attempts[k];
      }
      assert !Attempted(rest.attempts, x);
    }
  }

  lemma OneMoreAccount(m: Pool, p: Pool, attempt: Attempt, attempts: seq<Attempt>)
    requires DistinctAccounts(attempts) && attempt.account !in m.ready && attempt.account in p.ready
    requires forall k :: 0 <= k < |attempts| ==> attempts[k].account in m.ready
    requires forall x :: x in m.ready ==> x in p.ready
    ensures DistinctAccounts([attempt] + attempts)
    ensures forall k :: 0 <= k < |[attempt] + attempts| ==> ([attempt] + attempts)[k].account in p.ready
  {
    var all := [attempt] + attempts;
    forall j, k | 0 <= j < k < |all| ensures all[j].account != all[k].account {
      if j == 0 { assert all[k] == attempts[k - 1]; }
      else { assert all[j] == attempts[j - 1] && all[k] == attempts[k - 1]; }
    }
  }

  /** The single last attempt of a request. */
  lemma LastAttempt(s: State, s2: State, ending: Ending, attempt: Attempt, ops: seq<Op>)
    requires Valid(s.world.pool) && Valid(s2.world.pool)
    requires LegalRun(s.world, ops) && Run(s.world, ops) == s2.world
    requires AttemptEffect(s.world.pool, s2.world.pool, attempt.account, attempt.rotated, ending.Streaming?)
    requires ending.Streaming? ==> ending.account == attempt.account
    ensures Safe(s, Trace(s2, ending, [attempt], ops))
  {
    var t := Trace(s2, ending, [attempt], ops);
    assert t.attempts[0] == attempt;
    forall x | x in s.world.pool.ready && x !in s2.world.pool.ready && !Attempted(t.attempts, x)
      ensures x in s.world.pool.accounts && Parkable(s.world.pool.accounts[x])
    {
      assert x != t.attempts[0].account;
    }
  }

  lemma NoAttempt(s: State, t: Trace)
    requires Valid(s.world.pool) && t.state.world == s.world && t.attempts == [] && t.ops == [] && !t.ending.Streaming?
    ensures Safe(s, t)
  {
  }

  lemma RefusedAttempt(s: State, key: string, now: int)
    requires Valid(s.world.pool) && !Pools.Acquire(s.world.pool, key, now).outcome.Granted?
    ensures Safe(s, Trace(s.(world := Step(s.world, Acquire(key, now))), PoolUnavailable, [], [Acquire(key, now)]))
  {
    hide Pools.Acquire;
    AcquireEffect(s.world.pool, key, now);
    AcquireOnlyParks(s.world.pool, key, now);
    var w1 := Step(s.world, Acquire(key, now));
    OneOp(s.world, Acquire(key, now));
  }

  /** A circuit that a loop leaves open was open before, or every attempt was a quota failure. */
  ghost predicate CircuitEarned(s: State, t: Trace, i: nat, quotas: nat)
  {
    && (t.state.circuit.open ==>
          || t.state.circuit == s.circuit
          || (AllQuota(t.attempts) && quotas == i && i + |t.attempts| > 0
              && t.state.circuit.revision == t.state.world.pool.revision))
    && (t.ending.CircuitRefused? ==> t.state.circuit.open)
  }

  lemma ExhaustSafe(cfg: Config, s: State, env: Environment, i: nat, quotas: nat)
    requires Valid(s.world.pool)
    ensures var t := Exhaust(cfg, s, env, i, quotas);
            Safe(s, t) && CircuitEarned(s, t, i, quotas) && t.attempts == []
  {
    hide Valid;
    NoAttempt(s, Exhaust(cfg, s, env, i, quotas));
  }

  lemma {:induction false} AttemptsSafe(cfg: Config, s: State, key: string, stream: bool, env: Environment, i: nat, budget: nat, quotas: nat)
    requires Valid(s.world.pool) && quotas <= i <= budget
    ensures var t := Attempts(cfg, s, key, stream, env, i, budget, quotas);
            Safe(s, t) && CircuitEarned(s, t, i, quotas) && |t.attempts| <= budget - i
    decreases budget - i
  {
    hide Safe, AttemptEffect, Serve, Pools.Acquire, Valid, Run, LegalRun, Exhaust;
    var now := env.clock(i);
    var a := Pools.Acquire(s.world.pool, key, now);
    if i == budget {
      ExhaustSafe(cfg, s, env, i, quotas);
    } else if !a.outcome.Granted? {
      RefusedAttempt(s, key, now);
    } else {
      var w1 := Step(s.world, Acquire(key, now));
      var sv := Serve(cfg, w1.pool, s.circuit, s.streaks, |s.world.leases|, a.outcome.id, stream, env.replies(i), now);
      var s2 := State(Run(w1, sv.ops), sv.circuit, sv.streaks);
      var attempt := Attempt(a.outcome.id, sv.rotated, sv.quota);
      AttemptSafe(cfg, s, key, stream, env.replies(i), now);
      ServeReleases(cfg, w1.pool, s.circuit, s.streaks, |s.world.leases|, a.outcome.id, stream, env.replies(i), now);
      if sv.ending.Some? {
        LastAttempt(s, s2, sv.ending.value, attempt, [Acquire(key, now)] + sv.ops);
        ServeEnding(cfg, w1.pool, s.circuit, s.streaks, |s.world.leases|, a.outcome.id, stream, env.replies(i), now);
      } else {
        var more := quotas + if sv.quota then 1 else 0;
        AttemptsSafe(cfg, s2, key, stream, env, i + 1, budget, more);
        var rest := Attempts(cfg, s2, key, stream, env, i + 1, budget, more);
        OneMoreAttempt(s, s2, rest, attempt, [Acquire(key, now)] + sv.ops);
        assert AllQuota(rest.attempts) && sv.quota ==> AllQuota([attempt] + rest.attempts);
      }
    }
  }

  lemma ServeEnding(cfg: Config, p: Pool, circuit: Circuit, streaks: map<string, nat>, lease: nat, id: string,
                    stream: bool, reply: Reply, now: int)
    ensures var sv := Serve(cfg, p, circuit, streaks, lease, id, stream, reply, now);
            sv.ending.Some? ==> !sv.ending.value.CircuitRefused?
  {
  }

  /**
   One request, for any valid pool, upstream behaviour and clock: every lease is given
   back except the one a stream holds, at most `Budget` different ready accounts are
   tried, only they or spent accounts leave the ready list, and a newly opened circuit
   means that there were attempts and all of them were quota failures.
   */
  lemma RequestSafe(cfg: Config, s: State, key: string, stream: bool, env: Environment)
    requires Valid(s.world.pool)
    ensures var t := Request(cfg, s, key, stream, env);
            && Safe(s, t)
            && |t.attempts| <= Budget(cfg, |s.world.pool.ready|)
            && (t.state.circuit.open && t.state.circuit != s.circuit ==>
                  t.attempts != [] && AllQuota(t.attempts) && t.state.circuit.revision == t.state.world.pool.revision)
            && (t.ending.CircuitRefused? ==> t.state.circuit.open)
  {
    hide Safe, Attempts, Valid;
    var c := Refresh(s.circuit, s.world.pool.revision, env.clock(0));
    var s1 := s.(circuit := c);
    var t := Request(cfg, s, key, stream, env);
    if c.open || s.world.pool.ready == [] {
      NoAttempt(s, t);
    } else {
      AttemptsSafe(cfg, s1, key, stream, env, 0, Budget(cfg, |s.world.pool.ready|), 0);
      SafeFrame(s, s1, t);
    }
  }

  lemma SafeFrame(s: State, s1: State, t: Trace)
    requires s1 == s.(circuit := s1.circuit) && Safe(s1, t)
    ensures Safe(s, t)
  {
  }

  /** Consequence for callers: unless it streams, a request leaves everybody's requests in flight as they were. */
  lemma NoLeaseLeaks(cfg: Config, s: State, key: string, stream: bool, env: Environment, id: string)
    requires Valid(s.world.pool)
    ensures var t := Request(cfg, s, key, stream, env);
            InFlight(t.state.world.pool, id) == InFlight(s.world.pool, id) + HeldBy(t.ending, id)
  {
    RequestSafe(cfg, s, key, stream, env);
  }

  /** Giving back the one lease a stream holds restores everybody's requests in flight. */
  lemma StreamSettles(cfg: Config, s: State, key: string, stream: bool, env: Environment, id: string)
    requires Valid(s.world.pool) && Request(cfg, s, key, stream, env).ending.Streaming?
    ensures var t := Request(cfg, s, key, stream, env);
            InFlight(Pools.Release(t.state.world.pool, t.ending.account), id) == InFlight(s.world.pool, id)
  {
    hide Request, Valid;
    RequestSafe(cfg, s, key, stream, env);
    var t := Request(cfg, s, key, stream, env);
    NamedAfter(t.state.world.pool);
    ReleaseTouches(t.state.world.pool, t.ending.account);
    NoLeaseLeaks(cfg, s, key, stream, env, id);
    NoLeaseLeaks(cfg, s, key, stream, env, t.ending.account);
  }

  lemma NamedAfter(p: Pool)
    requires Valid(p)
    ensures Named(p.accounts)
  {
  }

  // The circuit

  /**
   While a circuit reports open, the ready accounts are exactly those it opened on,
   whatever scheduler operations ran since.
   */
  lemma CircuitSound(w: World, ops: seq<Op>, c: Circuit, now: int)
    requires Valid(w.pool) && LegalRun(w, ops) && c.revision == w.pool.revision
    requires Refresh(c, Run(w, ops).pool.revision, now).open
    ensures SameReady(w.pool, Run(w, ops).pool) && now < c.retryAt
  {
    RevisionSound(w, ops);
  }
}
