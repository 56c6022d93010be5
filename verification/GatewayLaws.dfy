/**
 What a request makes of upstream's replies, in their own terms: which reply moves it to
 the next account, how it ends, and what the records, the streaks and the circuit say
 afterwards.
 */
module GatewayLaws {
  import opened Basics
  import opened Accounts
  import opened Pools
  import opened PoolRuns
  import opened GatewaySpec
  import opened GatewaySafety
  import opened PoolLaws

  /** A refusal that blames the account and not the request. */
  predicate AccountFailure(r: Reply)
  {
    && r.Response? && r.status >= 400 && !r.bodyFails
    && (|| r.failure.kind == QuotaFailure || r.failure.kind == AuthFailure || r.failure.kind == RateLimitFailure
        || r.failure.reason == Validating)
  }

  /** An answer: a stream as soon as its headers are there, anything else once its body is read. */
  predicate Succeeds(r: Reply, stream: bool)
  {
    r.Response? && r.status < 400 && (stream || !r.bodyFails)
  }

  // How long an account rests

  const POWERS := [1, 2, 4, 8, 16, 32]

  /** The base, doubled once for each further failure in a row, five times at most and not beyond an hour. */
  ghost predicate Cools(base: int, streak: nat, d: int)
  {
    exists n: nat :: n <= 5 && CoolsAfter(base, n, streak, d)
  }

  predicate CoolsAfter(base: int, n: nat, streak: nat, d: int)
    requires n <= 5
  {
    DoubledTimes(if base > 0 then base else 1, n, if streak > 1 then streak - 1 else 0, d)
  }

  /** `d` is the base doubled `n` times of the `wanted` ones. */
  predicate DoubledTimes(b: int, n: nat, wanted: nat, d: int)
    requires n <= 5
  {
    && d == b * POWERS[n] && n <= wanted
    && (n > 0 ==> b * POWERS[n - 1] <= 60 * 60)
    && (n < 5 && n < wanted ==> d > 60 * 60)
  }

  /** Spent quota rests for the quota window, everything else cools down; what upstream asks for is honoured. */
  ghost predicate Rests(cfg: Config, r: Reply, streak: nat, d: int)
    requires r.Response?
  {
    exists base ::
      && RestBase(cfg, r.failure, streak, base)
      && d >= base && d >= r.retryAfter && (d == base || d == r.retryAfter)
  }

  ghost predicate RestBase(cfg: Config, f: Failure, streak: nat, base: int)
  {
    if f.kind == QuotaFailure then base == if cfg.quotaRetry > 0 then cfg.quotaRetry else 24 * 60 * 60
    else if f.reason == Validating then Cools(if cfg.validatingRetry > 0 then cfg.validatingRetry else 45, streak, base)
    else Cools(if cfg.rateRetry > 0 then cfg.rateRetry else 45, streak, base)
  }

  lemma {:induction false} DoubledStops(b: int, n: nat) returns (m: nat)
    requires b > 0 && n <= 5
    ensures m <= 5 && DoubledTimes(b, m, n, Doubled(b, n))
  {
    m := 0;
    if n > 0 {
      m := DoubledStops(b, n - 1);
      if Doubled(b, n - 1) <= 60 * 60 { m := m + 1; }
    }
  }

  lemma CooldownClosed(base: int, streak: nat)
    ensures Cools(base, streak, CooldownForStreak(base, streak))
  {
    hide Doubled;
    var b := if base > 0 then base else 1;
    var wanted := if streak > 1 then streak - 1 else 0;
    var m := DoubledStops(b, if wanted > 5 then 5 else wanted);
    assert CoolsAfter(base, m, streak, CooldownForStreak(base, streak)) by {
      if streak <= 1 { OnceIsBase(b); }
    }
  }

  lemma OnceIsBase(b: int)
    ensures Doubled(b, 0) == b
  {
  }

  lemma RetryRests(cfg: Config, r: Reply, streak: nat, now: int)
    requires r.Response?
    ensures Rests(cfg, r, streak, RetryAtFor(cfg, r.failure, r.retryAfter, streak, now) - now)
  {
    hide CooldownForStreak, Cools;
    var validating := if cfg.validatingRetry > 0 then cfg.validatingRetry else 45;
    var rate := if cfg.rateRetry > 0 then cfg.rateRetry else 45;
    CooldownClosed(validating, streak);
    CooldownClosed(rate, streak);
    var base :=
      if r.failure.kind == QuotaFailure then if cfg.quotaRetry > 0 then cfg.quotaRetry else 24 * 60 * 60
      else if r.failure.reason == Validating then CooldownForStreak(validating, streak)
      else CooldownForStreak(rate, streak);
    assert RestBase(cfg, r.failure, streak, base);
  }

  // The record of the account tried

  /** Failures in a row with the one just seen; a blank id is not counted. */
  function StreakAfter(streaks: map<string, nat>, id: string): nat
  {
    if Trim(id) == "" then 0 else if id in streaks then streaks[id] + 1 else 1
  }

  /** What trying the account of record `a` leaves of it, by the reply. */
  ghost predicate Left(cfg: Config, a: Account, b: Account, stream: bool, r: Reply, streak: nat, now: int)
  {
    var used := a.(requestCount := a.requestCount + 1);
    if AccountFailure(r) then
      && b == used.(standing := Unavailable, errorCode := r.failure.code, retryAt := b.retryAt,
                    reason := if r.failure.reason == NoReason then Cooldown else r.failure.reason)
      && b.retryAt.Some? && Rests(cfg, r, streak, b.retryAt.value - now)
    else if Succeeds(r, stream) then
      var lent := used.(active := if stream then a.active + 1 else a.active);
      match r.usage
      case None => b == lent
      case Some(u) =>
        var counted := lent.(quotaActual := u.actual, quotaLimit := u.limit);
        if u.exhausted
        then b == counted.(standing := Unavailable, reason := Quota, retryAt := Some(now + cfg.quotaRetry),
                           errorCode := "subscription:free-usage-exhausted")
        else b == counted
    else b == used
  }

  /** One more in a row after a rotation, none after a success, otherwise as before. */
  ghost predicate StreakMoves(before: map<string, nat>, after: map<string, nat>, stream: bool, r: Reply, id: string)
  {
    if Trim(id) == "" then after == before
    else if AccountFailure(r) then after == before[id := StreakAfter(before, id)]
    else if Succeeds(r, stream) then after == before - {id}
    else after == before
  }

  /** How a request ends by the reply of its last attempt. */
  predicate EndsBy(ending: Ending, r: Reply, stream: bool, id: string)
  {
    match r
    case TransportError => ending == TransportFailed
    case Response(status, _, bodyFails, _, _, saveFails) =>
      if stream && status < 400 then ending == Streaming(status, id)
      else if bodyFails then ending == BodyFailed
      else if status < 400 || !AccountFailure(r) then ending == Answered(status)
      else if saveFails then ending == SaveFailed
      else ending == PoolUnavailable || ending == CircuitRefused
  }

  /** A request goes on to another account exactly after an account failure that was stored. */
  predicate GoesOn(r: Reply)
  {
    AccountFailure(r) && !r.saveFails
  }

  // One attempt

  /** The record after an operation on its own lease. */
  function Applied(op: Op, a: Account): Account
  {
    match op
    case Release(_) => a.(active := if a.active == 0 then 0 else a.active - 1)
    case Move(_, reason, retryAt, errorCode) =>
      a.(standing := Unavailable, reason := reason, retryAt := retryAt, errorCode := errorCode)
    case Record(_, actual, limit) => a.(quotaActual := actual, quotaLimit := limit)
    case _ => a
  }

  function AppliedAll(ops: seq<Op>, a: Account): Account
  {
    if ops == [] then a else AppliedAll(ops[1..], Applied(ops[0], a))
  }

  ghost predicate OneRecord(p: Pool, q: Pool, id: string, b: Account)
  {
    q.quotaRetry == p.quotaRetry && id in p.accounts && q.accounts == p.accounts[id := b]
  }

  lemma StepApplies(w: World, op: Op, lease: nat, id: string)
    requires Valid(w.pool) && lease < |w.leases| && w.leases[lease] == Lease(id, true) && OnLease(op, lease)
    requires id in w.pool.accounts
    ensures var v := Step(w, op);
            && Valid(v.pool) && |v.leases| == |w.leases| && v.leases[lease] == Lease(id, !op.Release?)
            && OneRecord(w.pool, v.pool, id, Applied(op, w.pool.accounts[id]))
  {
    hide Valid, MoveUnavailable, Pools.Release, Pools.Record;
    StepValid(w, op);
    match op
    case Release(_) => CounterRecords(w.pool, id, 0, 0, 1);
    case Move(_, reason, retryAt, errorCode) => MoveRecords(w.pool, id, reason, retryAt, errorCode);
    case Record(_, actual, limit) => CounterRecords(w.pool, id, actual, limit, 1);
  }

  /** Operations on one lease, the release last, add up on the one record. */
  lemma {:induction false} RunApplies(w: World, ops: seq<Op>, lease: nat, id: string)
    requires Valid(w.pool) && lease < |w.leases| && w.leases[lease] == Lease(id, true) && AllOnLease(ops, lease)
    requires id in w.pool.accounts && forall i :: 0 <= i < |ops| - 1 ==> !ops[i].Release?
    ensures OneRecord(w.pool, Run(w, ops).pool, id, AppliedAll(ops, w.pool.accounts[id]))
    decreases |ops|
  {
    hide Valid, Step, Applied;
    if ops == [] {
      assert w.pool.accounts == w.pool.accounts[id := w.pool.accounts[id]];
    } else {
      assert OnLease(ops[0], lease);
      StepApplies(w, ops[0], lease, id);
      if |ops| == 1 {
        assert ops[1..] == [];
      } else {
        forall i | 0 <= i < |ops[1..]| ensures OnLease(ops[1..][i], lease) && (i < |ops[1..]| - 1 ==> !ops[1..][i].Release?) {
          assert ops[1..][i] == ops[i + 1];
        }
        RunApplies(Step(w, ops[0]), ops[1..], lease, id);
      }
    }
  }

  lemma {:induction false} AppliedTogether(a: seq<Op>, b: seq<Op>, r: Account)
    ensures AppliedAll(a + b, r) == AppliedAll(b, AppliedAll(a, r))
  {
    if a == [] {
      assert a + b == b;
    } else {
      assert (a + b)[0] == a[0] && (a + b)[1..] == a[1..] + b;
      AppliedTogether(a[1..], b, Applied(a[0], r));
    }
  }

  lemma AppliedOnce(op: Op, r: Account)
    ensures AppliedAll([op], r) == Applied(op, r)
  {
    assert [op][1..] == [];
  }

  /** The operations after a grant leave of the record what the reply calls for. */
  lemma ServeLeft(cfg: Config, p: Pool, s: State, a: Account, lease: nat, id: string, stream: bool, r: Reply, now: int)
    requires id in p.accounts && p.accounts[id] == a.(active := a.active + 1, requestCount := a.requestCount + 1)
    ensures var sv := Serve(cfg, p, s.circuit, s.streaks, lease, id, stream, r, now);
            && (forall i :: 0 <= i < |sv.ops| - 1 ==> !sv.ops[i].Release?)
            && Left(cfg, a, AppliedAll(sv.ops, p.accounts[id]), stream, r, StreakAfter(s.streaks, id), now)
  {
    var lent := p.accounts[id];
    var sv := Serve(cfg, p, s.circuit, s.streaks, lease, id, stream, r, now);
    AppliedOnce(Release(lease), lent);
    if AccountFailure(r) {
      RetryRests(cfg, r, StreakAfter(s.streaks, id), now);
      hide RetryAtFor, Rests;
      AppliedTogether([sv.ops[0]], [Release(lease)], lent);
      AppliedOnce(sv.ops[0], lent);
      AppliedOnce(Release(lease), Applied(sv.ops[0], lent));
    } else if Succeeds(r, stream) {
      PersistLeft(cfg, p, lease, id, r.usage, now);
      var kept := Persist(cfg, p, lease, id, r.usage, now);
      AppliedTogether(kept, [Release(lease)], lent);
      AppliedOnce(Release(lease), AppliedAll(kept, lent));
      hide Persist;
    }
  }

  lemma PersistLeft(cfg: Config, p: Pool, lease: nat, id: string, usage: Option<Usage>, now: int)
    requires id in p.accounts
    ensures var ops := Persist(cfg, p, lease, id, usage, now); var b := AppliedAll(ops, p.accounts[id]);
            && (forall i :: 0 <= i < |ops| ==> !ops[i].Release?)
            && match usage
               case None => b == p.accounts[id]
               case Some(u) =>
                 var counted := p.accounts[id].(quotaActual := u.actual, quotaLimit := u.limit);
                 b == if u.exhausted
                      then counted.(standing := Unavailable, reason := Quota, retryAt := Some(now + cfg.quotaRetry),
                                    errorCode := "subscription:free-usage-exhausted")
                      else counted
  {
    var a := p.accounts[id];
    match usage
    case None => AppliedOnce(Record(lease, a.quotaActual, a.quotaLimit), a);
    case Some(u) =>
      var record := Record(lease, u.actual, u.limit);
      var move := Move(lease, Quota, Some(now + cfg.quotaRetry), EXHAUSTED);
      AppliedOnce(record, a);
      AppliedTogether([record], [move], a);
      AppliedOnce(move, Applied(record, a));
      assert [record] + [] == [record];
  }

  /** Ending, circuit and streaks of one attempt, by its reply alone. */
  lemma ServeEnds(cfg: Config, p: Pool, s: State, lease: nat, id: string, stream: bool, r: Reply, now: int)
    ensures var sv := Serve(cfg, p, s.circuit, s.streaks, lease, id, stream, r, now);
            && sv.rotated == AccountFailure(r) && sv.quota == (AccountFailure(r) && r.failure.kind == QuotaFailure)
            && (sv.ending.None? <==> GoesOn(r)) && (sv.ending.Some? ==> EndsBy(sv.ending.value, r, stream, id))
            && sv.circuit == (if Settles(r, stream) then Circuit(false, 0, 0) else s.circuit)
            && StreakMoves(s.streaks, sv.streaks, stream, r, id)
  {
    hide RetryAtFor, Persist;
  }

  /** Replies that close the circuit: none from upstream at all, an answer, or a refusal the account is not to blame for. */
  predicate Settles(r: Reply, stream: bool)
  {
    r.TransportError? || Succeeds(r, stream) || (!r.bodyFails && !AccountFailure(r))
  }

  /** All that one attempt does to the records, and what it is reported as. */
  ghost predicate Tried(cfg: Config, p: Pool, q: Pool, streaks: map<string, nat>, stream: bool, r: Reply, now: int, at: Attempt)
  {
    && at.account in p.accounts && at.account in q.accounts && Ready == p.accounts[at.account].standing
    && !Spent(p.accounts[at.account]) && p.accounts[at.account].active < p.accounts[at.account].maxActive
    && at.rotated == AccountFailure(r) && at.quota == (AccountFailure(r) && r.failure.kind == QuotaFailure)
    && Left(cfg, p.accounts[at.account], q.accounts[at.account], stream, r, StreakAfter(streaks, at.account), now)
  }

  /** A record nobody lent: untouched, or out for want of quota since `now`. */
  ghost predicate Idle(p: Pool, q: Pool, x: string, now: int)
    requires x in p.accounts && x in q.accounts
  {
    || q.accounts[x] == p.accounts[x]
    || (p.accounts[x].standing == Ready && Spent(p.accounts[x]) && OutOfQuota(p.accounts[x], q.accounts[x], now, p.quotaRetry))
  }

  lemma AttemptTells(cfg: Config, s: State, key: string, stream: bool, r: Reply, now: int)
    requires Valid(s.world.pool) && Pools.Acquire(s.world.pool, key, now).outcome.Granted?
    ensures var p := s.world.pool; var id := Pools.Acquire(p, key, now).outcome.id;
            var w1 := Step(s.world, Acquire(key, now));
            var sv := Serve(cfg, w1.pool, s.circuit, s.streaks, |s.world.leases|, id, stream, r, now);
            var q := Run(w1, sv.ops).pool;
            && q.accounts.Keys == p.accounts.Keys && q.quotaRetry == p.quotaRetry
            && Tried(cfg, p, q, s.streaks, stream, r, now, Attempt(id, sv.rotated, sv.quota))
            && forall x :: x in p.accounts && x != id ==> Idle(p, q, x, now)
  {
    hide Valid, Serve, Pools.Acquire, Left, OutOfQuota, AppliedAll;
    var p := s.world.pool;
    var id := Pools.Acquire(p, key, now).outcome.id;
    var lease := |s.world.leases|;
    AcquireRecords(p, key, now);
    AcquireEffect(p, key, now);
    var w1 := Step(s.world, Acquire(key, now));
    assert w1.leases[lease] == Lease(id, true);
    var sv := Serve(cfg, w1.pool, s.circuit, s.streaks, lease, id, stream, r, now);
    ServeLeft(cfg, w1.pool, s, p.accounts[id], lease, id, stream, r, now);
    ServeEnds(cfg, w1.pool, s, lease, id, stream, r, now);
    ServeOnLease(cfg, w1.pool, s.circuit, s.streaks, lease, id, stream, r, now);
    RunApplies(w1, sv.ops, lease, id);
  }

  // The whole loop

  predicate SameStreak(before: map<string, nat>, after: map<string, nat>, id: string)
  {
    (id in before <==> id in after) && (id in before ==> before[id] == after[id])
  }

  /** One account's failures in a row at the end, after the one attempt on it. */
  ghost predicate StreakTold(before: map<string, nat>, after: map<string, nat>, stream: bool, r: Reply, id: string)
  {
    if Trim(id) == "" then SameStreak(before, after, id)
    else if AccountFailure(r) then id in after && after[id] == StreakAfter(before, id)
    else if Succeeds(r, stream) then id !in after
    else SameStreak(before, after, id)
  }

  /** Attempt `k` of a trace, the first of which met reply `i`. */
  ghost predicate TriedAt(cfg: Config, s: State, t: Trace, stream: bool, env: Environment, i: nat, k: nat)
    requires k < |t.attempts|
  {
    var r := env.replies(i + k);
    && Tried(cfg, s.world.pool, t.state.world.pool, s.streaks, stream, r, env.clock(i + k), t.attempts[k])
    && StreakTold(s.streaks, t.state.streaks, stream, r, t.attempts[k].account)
    && (k + 1 < |t.attempts| ==> GoesOn(r))
  }

  ghost predicate IdleSince(p: Pool, q: Pool, x: string, env: Environment, first: nat, last: nat)
    requires x in p.accounts && x in q.accounts
  {
    exists j :: first <= j <= last && Idle(p, q, x, env.clock(j))
  }

  /** Everything a trace says of records and streaks. */
  ghost predicate Told(cfg: Config, s: State, t: Trace, stream: bool, env: Environment, i: nat)
  {
    var p, q := s.world.pool, t.state.world.pool;
    && q.accounts.Keys == p.accounts.Keys && q.quotaRetry == p.quotaRetry
    && (forall k :: 0 <= k < |t.attempts| ==> TriedAt(cfg, s, t, stream, env, i, k))
    && (forall x :: x in p.accounts && !Attempted(t.attempts, x) ==> IdleSince(p, q, x, env, i, i + |t.attempts|))
    && (forall x :: !Attempted(t.attempts, x) ==> SameStreak(s.streaks, t.state.streaks, x))
  }

  /** Deadline of an account that waits for one. */
  predicate WaitsUntil(q: Pool, x: string, t: int)
  {
    x in q.accounts && q.accounts[x].standing == Unavailable && q.accounts[x].retryAt == Some(t)
  }

  ghost predicate Soonest(q: Pool, t: int)
  {
    (exists x :: WaitsUntil(q, x, t)) && forall x, u :: WaitsUntil(q, x, u) ==> t <= u
  }

  /** When an opened circuit closes: at the soonest deadline if that is ahead, else after the quota window. */
  ghost predicate Reopens(cfg: Config, q: Pool, now: int, t: int)
  {
    || (Soonest(q, t) && t > now)
    || (t == now + cfg.quotaRetry && forall u :: Soonest(q, u) ==> u <= now)
  }

  /** Every attempt found an account without quota: the circuit opens, unless its time is past at once. */
  ghost predicate Opened(cfg: Config, q: Pool, c: Circuit, ending: Ending, now: int)
  {
    exists t :: Reopens(cfg, q, now, t)
      && if t > now then c == Circuit(true, t, q.revision) && ending == CircuitRefused
         else c == Circuit(false, 0, 0) && ending == PoolUnavailable
  }

  /** The pool had no account to lend for the attempt after the last. */
  ghost predicate Refused(w: World, ops: seq<Op>, key: string, now: int)
  {
    && ops != [] && ops[|ops| - 1] == Acquire(key, now)
    && !Pools.Acquire(Run(w, ops[..|ops| - 1]).pool, key, now).outcome.Granted?
  }

  /** How a trace of at most `budget - i` attempts ends. */
  ghost predicate Ended(cfg: Config, s: State, t: Trace, key: string, stream: bool, env: Environment, i: nat, budget: nat, onlyQuota: bool)
  {
    var n := |t.attempts|;
    && i + n <= budget
    && if n > 0 && !GoesOn(env.replies(i + n - 1)) then
         var r := env.replies(i + n - 1);
         && EndsBy(t.ending, r, stream, t.attempts[n - 1].account)
         && t.state.circuit == if Settles(r, stream) then Circuit(false, 0, 0) else s.circuit
       else if i + n < budget then
         t.ending == PoolUnavailable && t.state.circuit == s.circuit && Refused(s.world, t.ops, key, env.clock(i + n))
       else if budget > 0 && onlyQuota && AllQuota(t.attempts) then
         Opened(cfg, t.state.world.pool, t.state.circuit, t.ending, env.clock(budget))
       else t.ending == PoolUnavailable && t.state.circuit == s.circuit
  }

  lemma SoonestIsEarliest(q: Pool, e: Option<int>)
    requires IsEarliest(q, e)
    ensures forall u :: Soonest(q, u) <==> e == Some(u)
  {
    forall u ensures Soonest(q, u) <==> e == Some(u) {
      if e == Some(u) {
        var x :| x in q.accounts.Keys && x in q.accounts && Waiting(q.accounts[x]) && q.accounts[x].retryAt == e;
        assert WaitsUntil(q, x, u);
      }
      if Soonest(q, u) {
        var x :| WaitsUntil(q, x, u);
        assert e.Some? && e.value <= u;
        var y :| y in q.accounts.Keys && y in q.accounts && Waiting(q.accounts[y]) && q.accounts[y].retryAt == e;
        assert WaitsUntil(q, y, e.value);
      }
    }
  }

  lemma ExhaustTells(cfg: Config, s: State, key: string, stream: bool, env: Environment, budget: nat, quotas: nat)
    requires quotas <= budget
    ensures var t := Exhaust(cfg, s, env, budget, quotas);
            Told(cfg, s, t, stream, env, budget) && Ended(cfg, s, t, key, stream, env, budget, budget, quotas == budget)
  {
    var q := s.world.pool;
    var t := Exhaust(cfg, s, env, budget, quotas);
    NothingTold(cfg, s, t, stream, env, budget);
    hide IsEarliest, Told;
    if budget > 0 && quotas == budget {
      var now := env.clock(budget);
      SoonestIsEarliest(q, Earliest(q));
      var c := OpenCircuit(cfg, Earliest(q), q.revision, now);
      assert Reopens(cfg, q, now, c.retryAt);
    }
  }

  lemma NothingTold(cfg: Config, s: State, t: Trace, stream: bool, env: Environment, i: nat)
    requires t.attempts == [] && t.state.world.pool == s.world.pool && t.state.streaks == s.streaks
    ensures Told(cfg, s, t, stream, env, i)
  {
    hide Tried, StreakTold;
    forall x | x in s.world.pool.accounts ensures IdleSince(s.world.pool, t.state.world.pool, x, env, i, i) {
      assert Idle(s.world.pool, t.state.world.pool, x, env.clock(i));
    }
  }

  lemma RefusedTells(cfg: Config, s: State, key: string, stream: bool, env: Environment, i: nat, budget: nat, onlyQuota: bool)
    requires Valid(s.world.pool) && i < budget && !Pools.Acquire(s.world.pool, key, env.clock(i)).outcome.Granted?
    ensures var now := env.clock(i);
            var t := Trace(s.(world := Step(s.world, Acquire(key, now))), PoolUnavailable, [], [Acquire(key, now)]);
            Told(cfg, s, t, stream, env, i) && Ended(cfg, s, t, key, stream, env, i, budget, onlyQuota)
  {
    hide Valid, Pools.Acquire, Tried, StreakTold, OutOfQuota;
    var now := env.clock(i);
    AcquireRecords(s.world.pool, key, now);
    var q := Step(s.world, Acquire(key, now)).pool;
    forall x | x in s.world.pool.accounts ensures IdleSince(s.world.pool, q, x, env, i, i) {
      assert Idle(s.world.pool, q, x, env.clock(i));
    }
    assert [Acquire(key, now)][..0] == [];
  }

  /** An account rotated first is left alone by the later attempts. */
  lemma FirstStays(cfg: Config, s: State, m: Pool, q: Pool, at: Attempt, stream: bool, env: Environment, i: nat, last: nat)
    requires Tried(cfg, s.world.pool, m, s.streaks, stream, env.replies(i), env.clock(i), at) && AccountFailure(env.replies(i))
    requires at.account in q.accounts && IdleSince(m, q, at.account, env, i + 1, last)
    ensures q.accounts[at.account] == m.accounts[at.account]
  {
    hide OutOfQuota, Rests;
    assert m.accounts[at.account].standing == Unavailable;
  }

  /** An account tried later was as it is found then from the start. */
  lemma LaterStands(cfg: Config, p: Pool, m: Pool, q: Pool, before: map<string, nat>, streaks: map<string, nat>, at: Attempt, stream: bool,
                    r: Reply, now: int, since: int)
    requires Tried(cfg, m, q, streaks, stream, r, now, at) && at.account in p.accounts && Idle(p, m, at.account, since)
    requires StreakAfter(before, at.account) == StreakAfter(streaks, at.account)
    ensures Tried(cfg, p, q, before, stream, r, now, at)
  {
    hide Left, Spent;
  }

  lemma IdleOn(p: Pool, m: Pool, q: Pool, x: string, env: Environment, i: nat, last: nat)
    requires x in p.accounts && x in m.accounts && x in q.accounts && m.quotaRetry == p.quotaRetry
    requires Idle(p, m, x, env.clock(i)) && IdleSince(m, q, x, env, i + 1, last)
    ensures IdleSince(p, q, x, env, i, last)
  {
    hide Spent;
    var j :| i + 1 <= j <= last && Idle(m, q, x, env.clock(j));
    if q.accounts[x] == m.accounts[x] {
      assert Idle(p, q, x, env.clock(i));
    } else {
      assert Idle(p, q, x, env.clock(j));
    }
  }

  lemma StreakFirst(before: map<string, nat>, after: map<string, nat>, end: map<string, nat>, stream: bool, r: Reply, id: string)
    requires StreakMoves(before, after, stream, r, id) && SameStreak(after, end, id)
    ensures StreakTold(before, end, stream, r, id)
  {
  }

  lemma StreakElse(before: map<string, nat>, after: map<string, nat>, stream: bool, r: Reply, id: string, x: string)
    requires StreakMoves(before, after, stream, r, id) && x != id
    ensures SameStreak(before, after, x) && StreakAfter(before, x) == StreakAfter(after, x)
  {
  }

  lemma StreakLater(before: map<string, nat>, after: map<string, nat>, end: map<string, nat>, stream: bool, r: Reply, id: string)
    requires SameStreak(before, after, id)
    ensures StreakTold(before, end, stream, r, id) == StreakTold(after, end, stream, r, id)
  {
  }

  lemma AttemptedOne(at: Attempt, rest: seq<Attempt>, x: string)
    ensures Attempted([at] + rest, x) <==> x == at.account || Attempted(rest, x)
  {
    var all := [at] + rest;
    if x == at.account { assert all[0].account == x; }
    if Attempted(rest, x) {
      var k :| 0 <= k < |rest| && rest[k].account == x;
      assert all[k + 1].account == x;
    }
  }

  /** A stored rotation before a told rest makes a told trace. */
  lemma OneMoreTold(cfg: Config, s: State, s2: State, rest: Trace, t: Trace, at: Attempt, stream: bool, env: Environment, i: nat)
    requires var p, m := s.world.pool, s2.world.pool; var r := env.replies(i);
             && m.accounts.Keys == p.accounts.Keys && m.quotaRetry == p.quotaRetry
             && Tried(cfg, p, m, s.streaks, stream, r, env.clock(i), at) && GoesOn(r)
             && (forall x :: x in p.accounts && x != at.account ==> Idle(p, m, x, env.clock(i)))
             && StreakMoves(s.streaks, s2.streaks, stream, r, at.account)
    requires Told(cfg, s2, rest, stream, env, i + 1)
    requires t.state == rest.state && t.attempts == [at] + rest.attempts
    ensures Told(cfg, s, t, stream, env, i)
  {
    hide Tried, StreakTold, StreakMoves, Idle, IdleSince, Attempted, StreakAfter, SameStreak;
    var p, m, q := s.world.pool, s2.world.pool, t.state.world.pool;
    var r := env.replies(i);
    RestNotFirst(cfg, s, s2, rest, at, stream, env, i);
    forall k | 0 <= k < |t.attempts| ensures TriedAt(cfg, s, t, stream, env, i, k) {
      if k == 0 {
        FirstTried(cfg, s, s2, rest, t, at, stream, env, i);
      } else {
        assert TriedAt(cfg, s2, rest, stream, env, i + 1, k - 1);
        var x := rest.attempts[k - 1].account;
        LaterKnown(cfg, m, q, s2.streaks, stream, env.replies(i + k), env.clock(i + k), rest.attempts[k - 1]);
        StreakElse(s.streaks, s2.streaks, stream, r, at.account, x);
        LaterStands(cfg, p, m, q, s.streaks, s2.streaks, rest.attempts[k - 1], stream, env.replies(i + k), env.clock(i + k), env.clock(i));
        StreakLater(s.streaks, s2.streaks, t.state.streaks, stream, env.replies(i + k), x);
      }
    }
    forall x | x in p.accounts && !Attempted(t.attempts, x) ensures IdleSince(p, q, x, env, i, i + |t.attempts|) {
      AttemptedOne(at, rest.attempts, x);
      IdleOn(p, m, q, x, env, i, i + |t.attempts|);
    }
    forall x | !Attempted(t.attempts, x) ensures SameStreak(s.streaks, t.state.streaks, x) {
      AttemptedOne(at, rest.attempts, x);
      StreakElse(s.streaks, s2.streaks, stream, r, at.account, x);
      StreakOn(s.streaks, s2.streaks, t.state.streaks, x);
    }
  }

  lemma StreakOn(a: map<string, nat>, b: map<string, nat>, c: map<string, nat>, x: string)
    requires SameStreak(a, b, x) && SameStreak(b, c, x)
    ensures SameStreak(a, c, x)
  {
  }

  lemma LaterKnown(cfg: Config, m: Pool, q: Pool, streaks: map<string, nat>, stream: bool, r: Reply, now: int, at: Attempt)
    requires Tried(cfg, m, q, streaks, stream, r, now, at)
    ensures at.account in m.accounts && m.accounts[at.account].standing == Ready
  {
  }

  /** The later attempts find other accounts: the first one is out of service. */
  lemma RestNotFirst(cfg: Config, s: State, s2: State, rest: Trace, at: Attempt, stream: bool, env: Environment, i: nat)
    requires Tried(cfg, s.world.pool, s2.world.pool, s.streaks, stream, env.replies(i), env.clock(i), at) && AccountFailure(env.replies(i))
    requires Told(cfg, s2, rest, stream, env, i + 1)
    ensures !Attempted(rest.attempts, at.account)
    ensures forall k :: 0 <= k < |rest.attempts| ==> rest.attempts[k].account != at.account
  {
    hide Rests, StreakTold, SameStreak, IdleSince;
    forall k | 0 <= k < |rest.attempts| ensures rest.attempts[k].account != at.account {
      assert TriedAt(cfg, s2, rest, stream, env, i + 1, k);
    }
  }

  lemma FirstTried(cfg: Config, s: State, s2: State, rest: Trace, t: Trace, at: Attempt, stream: bool, env: Environment, i: nat)
    requires Tried(cfg, s.world.pool, s2.world.pool, s.streaks, stream, env.replies(i), env.clock(i), at) && GoesOn(env.replies(i))
    requires s2.world.pool.accounts.Keys == t.state.world.pool.accounts.Keys
    requires StreakMoves(s.streaks, s2.streaks, stream, env.replies(i), at.account)
    requires Told(cfg, s2, rest, stream, env, i + 1) && !Attempted(rest.attempts, at.account)
    requires t.state == rest.state && t.attempts == [at] + rest.attempts
    ensures TriedAt(cfg, s, t, stream, env, i, 0)
  {
    hide StreakTold, StreakMoves, Idle, Attempted, SameStreak, Left, IdleSince, TriedAt;
    LaterKnownToo(cfg, s.world.pool, s2.world.pool, s.streaks, stream, env.replies(i), env.clock(i), at);
    FirstStays(cfg, s, s2.world.pool, t.state.world.pool, at, stream, env, i, i + 1 + |rest.attempts|);
    StreakFirst(s.streaks, s2.streaks, t.state.streaks, stream, env.replies(i), at.account);
    TriedIs(cfg, s, t, stream, env, i);
  }

  lemma TriedIs(cfg: Config, s: State, t: Trace, stream: bool, env: Environment, i: nat)
    requires t.attempts != [] && GoesOn(env.replies(i))
    requires Tried(cfg, s.world.pool, t.state.world.pool, s.streaks, stream, env.replies(i), env.clock(i), t.attempts[0])
    requires StreakTold(s.streaks, t.state.streaks, stream, env.replies(i), t.attempts[0].account)
    ensures TriedAt(cfg, s, t, stream, env, i, 0)
  {
  }

  lemma LaterKnownToo(cfg: Config, p: Pool, m: Pool, streaks: map<string, nat>, stream: bool, r: Reply, now: int, at: Attempt)
    requires Tried(cfg, p, m, streaks, stream, r, now, at)
    ensures at.account in p.accounts && at.account in m.accounts
  {
  }

  /** A stored rotation before a trace that ended so makes a trace that ended so. */
  lemma OneMoreEnded(cfg: Config, s: State, s2: State, rest: Trace, t: Trace, at: Attempt, ops: seq<Op>, key: string, stream: bool,
                     env: Environment, i: nat, budget: nat, onlyQuota: bool)
    requires GoesOn(env.replies(i)) && s2.circuit == s.circuit && Run(s.world, ops) == s2.world
    requires Ended(cfg, s2, rest, key, stream, env, i + 1, budget, onlyQuota && at.quota)
    requires t == Trace(rest.state, rest.ending, [at] + rest.attempts, ops + rest.ops)
    ensures Ended(cfg, s, t, key, stream, env, i, budget, onlyQuota)
  {
    hide GoesOn, EndsBy, Settles, Opened, Refused, Run, AllQuota;
    var n := |rest.attempts|;
    QuotaOne(at, rest.attempts);
    if n > 0 { assert t.attempts[n] == rest.attempts[n - 1]; }
    if Refused(s2.world, rest.ops, key, env.clock(i + 1 + n)) { RefusedOn(s.world, ops, rest.ops, key, env.clock(i + 1 + n)); }
  }

  lemma RefusedOn(w: World, ops: seq<Op>, rest: seq<Op>, key: string, now: int)
    requires Refused(Run(w, ops), rest, key, now)
    ensures Refused(w, ops + rest, key, now)
  {
    hide Pools.Acquire, Run;
    var front := rest[..|rest| - 1];
    assert (ops + rest)[..|ops + rest| - 1] == ops + front;
    RunAppend(w, ops, front);
  }

  lemma QuotaOne(at: Attempt, rest: seq<Attempt>)
    ensures AllQuota([at] + rest) <==> at.quota && AllQuota(rest)
  {
    var all := [at] + rest;
    if AllQuota(all) {
      assert all[0] == at;
      forall k | 0 <= k < |rest| ensures rest[k].quota { assert all[k + 1] == rest[k]; }
    }
  }

  /** The last attempt. */
  lemma LastTells(cfg: Config, s: State, t: Trace, at: Attempt, key: string, stream: bool, env: Environment, i: nat, budget: nat, onlyQuota: bool)
    requires var p, q := s.world.pool, t.state.world.pool; var r := env.replies(i);
             && q.accounts.Keys == p.accounts.Keys && q.quotaRetry == p.quotaRetry
             && Tried(cfg, p, q, s.streaks, stream, r, env.clock(i), at) && !GoesOn(r)
             && (forall x :: x in p.accounts && x != at.account ==> Idle(p, q, x, env.clock(i)))
             && StreakMoves(s.streaks, t.state.streaks, stream, r, at.account)
             && EndsBy(t.ending, r, stream, at.account)
             && t.state.circuit == (if Settles(r, stream) then Circuit(false, 0, 0) else s.circuit)
    requires i < budget && t.attempts == [at]
    ensures Told(cfg, s, t, stream, env, i) && Ended(cfg, s, t, key, stream, env, i, budget, onlyQuota)
  {
    hide Tried, StreakTold, StreakMoves, Idle, SameStreak, EndsBy, Settles, GoesOn;
    var p, q := s.world.pool, t.state.world.pool;
    SameToItself(t.state.streaks, at.account);
    StreakFirst(s.streaks, t.state.streaks, t.state.streaks, stream, env.replies(i), at.account);
    assert t.attempts[0] == at;
    forall x | x in p.accounts && !Attempted(t.attempts, x) ensures IdleSince(p, q, x, env, i, i + 1) {
      assert Idle(p, q, x, env.clock(i));
    }
    forall x | !Attempted(t.attempts, x) ensures SameStreak(s.streaks, t.state.streaks, x) {
      StreakElse(s.streaks, t.state.streaks, stream, env.replies(i), at.account, x);
    }
  }

  lemma SameToItself(streaks: map<string, nat>, id: string)
    ensures SameStreak(streaks, streaks, id)
  {
  }

  /** The loop of attempts from any of them on. */
  lemma {:induction false} AttemptsTell(cfg: Config, s: State, key: string, stream: bool, env: Environment, i: nat, budget: nat, quotas: nat)
    requires Valid(s.world.pool) && quotas <= i <= budget
    ensures var t := Attempts(cfg, s, key, stream, env, i, budget, quotas);
            Told(cfg, s, t, stream, env, i) && Ended(cfg, s, t, key, stream, env, i, budget, quotas == i)
    decreases budget - i
  {
    hide Told, Ended, Tried, Idle, StreakMoves, EndsBy, Settles, GoesOn, Serve, Pools.Acquire, Valid, Run, Exhaust, Safe, AttemptEffect;
    var now := env.clock(i);
    var a := Pools.Acquire(s.world.pool, key, now);
    if i == budget {
      ExhaustTells(cfg, s, key, stream, env, budget, quotas);
    } else if !a.outcome.Granted? {
      RefusedTells(cfg, s, key, stream, env, i, budget, quotas == i);
    } else {
      var w1 := Step(s.world, Acquire(key, now));
      var sv := Serve(cfg, w1.pool, s.circuit, s.streaks, |s.world.leases|, a.outcome.id, stream, env.replies(i), now);
      var s2 := State(Run(w1, sv.ops), sv.circuit, sv.streaks);
      var at := Attempt(a.outcome.id, sv.rotated, sv.quota);
      AttemptTells(cfg, s, key, stream, env.replies(i), now);
      ServeEnds(cfg, w1.pool, s, |s.world.leases|, a.outcome.id, stream, env.replies(i), now);
      var t := Attempts(cfg, s, key, stream, env, i, budget, quotas);
      if sv.ending.Some? {
        LastTells(cfg, s, t, at, key, stream, env, i, budget, quotas == i);
      } else {
        AttemptSafe(cfg, s, key, stream, env.replies(i), now);
        var more := quotas + if sv.quota then 1 else 0;
        AttemptsTell(cfg, s2, key, stream, env, i + 1, budget, more);
        var rest := Attempts(cfg, s2, key, stream, env, i + 1, budget, more);
        OneMoreTold(cfg, s, s2, rest, t, at, stream, env, i);
        KeepsCircuit(env.replies(i), stream);
        OneMoreEnded(cfg, s, s2, rest, t, at, [Acquire(key, now)] + sv.ops, key, stream, env, i, budget, quotas == i);
      }
    }
  }

  lemma KeepsCircuit(r: Reply, stream: bool)
    requires GoesOn(r)
    ensures !Settles(r, stream)
  {
  }

  /**
   One request. While the circuit is open on an unchanged pool and its time has not come,
   nothing is tried and nothing changes. Otherwise at most as many attempts are made as the
   configuration allows (three by default) and accounts are ready; each but the last met an
   account failure that was stored, and the request ends as its last reply says.
   */
  lemma RequestTells(cfg: Config, s: State, key: string, stream: bool, env: Environment)
    requires Valid(s.world.pool)
    ensures var t := Request(cfg, s, key, stream, env); var p := s.world.pool;
            var barred := s.circuit.open && s.circuit.revision == p.revision && s.circuit.retryAt > env.clock(0);
            var wanted := if cfg.maxAttempts > 0 then cfg.maxAttempts else 3;
            var s1 := if s.circuit.open then s.(circuit := Circuit(false, 0, 0)) else s;
            && (barred <==> t.ending == CircuitRefused && t.attempts == [])
            && (barred ==> t.state == s && t.ops == [])
            && (!barred && p.ready == [] ==> t == Trace(s1, PoolUnavailable, [], []))
            && (!barred && p.ready != [] ==>
                  && Told(cfg, s1, t, stream, env, 0)
                  && Ended(cfg, s1, t, key, stream, env, 0, if wanted < |p.ready| then wanted else |p.ready|, true))
  {
    hide Valid, Attempts, Told;
    if !(s.circuit.open && s.circuit.revision == s.world.pool.revision && s.circuit.retryAt > env.clock(0)) && s.world.pool.ready != [] {
      AttemptsTell(cfg, s.(circuit := Refresh(s.circuit, s.world.pool.revision, env.clock(0))), key, stream, env, 0, Budget(cfg, |s.world.pool.ready|), 0);
    }
  }

  /**
   An attempt rotates exactly on a refusal, read to its end, for quota, credentials or rate
   or while the account is being validated. The account then stands unavailable under the
   reply's reason and code until the rest is over, with one more failure in a row.
   */
  lemma AttemptRotates(cfg: Config, s: State, key: string, stream: bool, env: Environment, k: nat)
    requires Valid(s.world.pool) && k < |Request(cfg, s, key, stream, env).attempts|
    ensures var t := Request(cfg, s, key, stream, env); var r := env.replies(k); var id := t.attempts[k].account;
            && (t.attempts[k].rotated <==>
                  && r.Response? && r.status >= 400 && !r.bodyFails
                  && (r.failure.kind in {QuotaFailure, AuthFailure, RateLimitFailure} || r.failure.reason == Validating))
            && (t.attempts[k].rotated ==>
                  && id in t.state.world.pool.accounts
                  && var b := t.state.world.pool.accounts[id];
                     && b.standing == Unavailable && b.errorCode == r.failure.code
                     && b.reason == (if r.failure.reason == NoReason then Cooldown else r.failure.reason)
                     && b.retryAt.Some? && b.retryAt.value - env.clock(k) >= r.retryAfter
                     && (Trim(id) != "" ==>
                           id in t.state.streaks && t.state.streaks[id] == (if id in s.streaks then s.streaks[id] + 1 else 1)))
  {
    hide Valid, Request, RestBase, Ended;
    RequestTells(cfg, s, key, stream, env);
    var t := Request(cfg, s, key, stream, env);
    var s1 := if s.circuit.open then s.(circuit := Circuit(false, 0, 0)) else s;
    assert TriedAt(cfg, s1, t, stream, env, 0, k) by { hide TriedAt; }
  }

  /** A refusal reaches the client exactly when it is the last reply and does not blame the account. */
  lemma RefusalPasses(cfg: Config, s: State, key: string, stream: bool, env: Environment)
    requires Valid(s.world.pool)
    ensures var t := Request(cfg, s, key, stream, env);
            t.attempts != [] ==> RefusalAnswered(t.ending, env.replies(|t.attempts| - 1))
  {
    hide Valid, Request, RefusalAnswered, Ended, Told;
    RequestTells(cfg, s, key, stream, env);
    var t := Request(cfg, s, key, stream, env);
    if t.attempts != [] {
      EndedAnswers(cfg, if s.circuit.open then s.(circuit := Circuit(false, 0, 0)) else s, t, key, stream, env,
                   if (if cfg.maxAttempts > 0 then cfg.maxAttempts else 3) < |s.world.pool.ready|
                   then if cfg.maxAttempts > 0 then cfg.maxAttempts else 3 else |s.world.pool.ready|);
    }
  }

  /** The answer is the last reply's own, and a refusal only if that reply is one which blames the request. */
  predicate RefusalAnswered(ending: Ending, r: Reply)
  {
    && (ending.Answered? ==> r.Response? && ending.status == r.status)
    && (ending.Answered? && ending.status >= 400 <==> r.Response? && r.status >= 400 && !r.bodyFails && !AccountFailure(r))
  }

  lemma EndedAnswers(cfg: Config, s: State, t: Trace, key: string, stream: bool, env: Environment, budget: nat)
    requires t.attempts != [] && Ended(cfg, s, t, key, stream, env, 0, budget, true)
    ensures RefusalAnswered(t.ending, env.replies(|t.attempts| - 1))
  {
    hide Refused, Reopens, Settles;
  }
}
