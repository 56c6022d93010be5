/**
 The gateway's request loop as a function: which scheduler operations one request
 performs, attempt by attempt, for any upstream behaviour, and what it returns.
 */
module GatewaySpec {
  import opened Basics
  import opened Accounts
  import opened Pools
  import opened PoolRuns

  datatype Kind = QuotaFailure | RateLimitFailure | AuthFailure | RequestFailure | UpstreamFailure

  datatype Failure = Failure(kind: Kind, reason: Reason, code: string)

  datatype Usage = Usage(actual: int, limit: int, exhausted: bool)

  /** What upstream and the store do in one attempt. */
  datatype Reply =
    | TransportError
    | Response(status: int, usage: Option<Usage>, bodyFails: bool, failure: Failure, retryAfter: int, saveFails: bool)

  datatype Circuit = Circuit(open: bool, retryAt: int, revision: nat)

  datatype Config = Config(maxAttempts: int, quotaRetry: int, rateRetry: int, validatingRetry: int)

  datatype Ending =
    | CircuitRefused
    | PoolUnavailable
    | TransportFailed
    | BodyFailed
    | SaveFailed
    | Answered(status: int)
    | Streaming(status: int, account: string)

  datatype Attempt = Attempt(account: string, rotated: bool, quota: bool)

  datatype State = State(world: World, circuit: Circuit, streaks: map<string, nat>)

  datatype Trace = Trace(state: State, ending: Ending, attempts: seq<Attempt>, ops: seq<Op>)

  const Closed := Circuit(false, 0, 0)
  const HOUR := 3600
  const STREAK_CAP: nat := 6
  const DEFAULT_ATTEMPTS := 3
  const DEFAULT_RETRY := 45
  const EXHAUSTED := "subscription:free-usage-exhausted"

  // Cooldowns

  /** The base doubled `n` times, unless it has passed an hour already. */
  function Doubled(base: int, n: nat): int
  {
    if n == 0 then base
    else
      var before := Doubled(base, n - 1);
      if before > HOUR then before else before * 2
  }

  function CooldownForStreak(base: int, streak: int): int
  {
    var b := if base <= 0 then 1 else base;
    if streak <= 1 then b else Doubled(b, (if streak > STREAK_CAP then STREAK_CAP else streak) - 1)
  }

  lemma {:induction false} DoubledBounds(base: int, n: nat)
    requires base > 0
    ensures base <= Doubled(base, n) && (Doubled(base, n) <= 2 * HOUR || Doubled(base, n) == base)
    ensures Doubled(base, n) <= Doubled(base, n + 1)
  {
    if n > 0 { DoubledBounds(base, n - 1); }
  }

  lemma {:induction false} DoubledMonotone(base: int, m: nat, n: nat)
    requires base > 0 && m <= n
    ensures Doubled(base, m) <= Doubled(base, n)
    decreases n - m
  {
    if m < n {
      DoubledBounds(base, m);
      DoubledMonotone(base, m + 1, n);
    }
  }

  /** Cooldowns never shrink as the streak grows, start at the base and stay within two hours of growth. */
  lemma CooldownGrows(base: int, streak: int, longer: int)
    requires streak <= longer
    ensures CooldownForStreak(base, streak) <= CooldownForStreak(base, longer)
    ensures CooldownForStreak(base, streak) >= (if base <= 0 then 1 else base)
    ensures CooldownForStreak(base, streak) <= (if base > 2 * HOUR then base else 2 * HOUR)
  {
    var b := if base <= 0 then 1 else base;
    var m := if streak <= 1 then 0 else (if streak > STREAK_CAP then STREAK_CAP else streak) - 1;
    var n := if longer <= 1 then 0 else (if longer > STREAK_CAP then STREAK_CAP else longer) - 1;
    DoubledMonotone(b, m, n);
    DoubledBounds(b, m);
  }

  // One attempt

  predicate ShouldRotate(f: Failure)
  {
    f.kind == QuotaFailure || f.kind == AuthFailure || f.kind == RateLimitFailure || f.reason == Validating
  }

  function Positive(n: int, otherwise: int): int
  {
    if n <= 0 then otherwise else n
  }

  function RetryAtFor(cfg: Config, f: Failure, retryAfter: int, streak: int, now: int): int
  {
    var base :=
      if f.kind == QuotaFailure then Positive(cfg.quotaRetry, DAY)
      else if f.reason == Validating then CooldownForStreak(Positive(cfg.validatingRetry, DEFAULT_RETRY), streak)
      else CooldownForStreak(Positive(cfg.rateRetry, DEFAULT_RETRY), streak);
    now + if retryAfter > base then retryAfter else base
  }

  /** Recording a success: usage from the headers, or the counters as they are. */
  function Persist(cfg: Config, p: Pool, lease: nat, id: string, usage: Option<Usage>, now: int): seq<Op>
  {
    if usage.Some? then
      [Record(lease, usage.value.actual, usage.value.limit)]
      + (if usage.value.exhausted then [Move(lease, Quota, Some(now + cfg.quotaRetry), EXHAUSTED)] else [])
    else if id in p.accounts && id != "" then [Record(lease, p.accounts[id].quotaActual, p.accounts[id].quotaLimit)]
    else []
  }

  /** What follows a granted lease: operations, an ending or the next attempt, circuit and streaks. */
  datatype Served = Served(ops: seq<Op>, ending: Option<Ending>, circuit: Circuit, streaks: map<string, nat>,
                           rotated: bool, quota: bool)

  function Serve(cfg: Config, p: Pool, circuit: Circuit, streaks: map<string, nat>, lease: nat, id: string,
                 stream: bool, reply: Reply, now: int): Served
  {
    match reply
    case TransportError => Served([Release(lease)], Some(TransportFailed), Closed, streaks, false, false)
    case Response(status, usage, bodyFails, failure, retryAfter, saveFails) =>
      if stream && status < 400 then
        Served(Persist(cfg, p, lease, id, usage, now), Some(Streaming(status, id)), Closed, NoteSuccess(streaks, id), false, false)
      else if bodyFails then Served([Release(lease)], Some(BodyFailed), circuit, streaks, false, false)
      else if status < 400 then
        Served(Persist(cfg, p, lease, id, usage, now) + [Release(lease)], Some(Answered(status)), Closed, NoteSuccess(streaks, id), false, false)
      else if ShouldRotate(failure) then
        var noted := NoteFailure(streaks, id);
        var streak := FailStreak(noted, id);
        var retryAt := RetryAtFor(cfg, failure, retryAfter, streak, now);
        var reason := if failure.reason == NoReason then Cooldown else failure.reason;
        Served([Move(lease, reason, Some(retryAt), failure.code), Release(lease)],
               if saveFails then Some(SaveFailed) else None, circuit, noted, true, failure.kind == QuotaFailure)
      else Served([Release(lease)], Some(Answered(status)), Closed, streaks, false, false)
  }

  // The circuit

  /** An open circuit closes once its time has come or the pool has moved. */
  function Refresh(c: Circuit, revision: nat, now: int): Circuit
  {
    if c.open && (c.revision != revision || c.retryAt <= now) then Closed else c
  }

  function OpenCircuit(cfg: Config, earliest: Option<int>, revision: nat, now: int): Circuit
  {
    Circuit(true, if earliest.Some? && earliest.value > now then earliest.value else now + cfg.quotaRetry, revision)
  }

  // The loop

  /** Upstream replies and clock readings, by attempt. */
  datatype Environment = Environment(replies: nat -> Reply, clock: nat -> int)

  ghost function Attempts(cfg: Config, s: State, key: string, stream: bool, env: Environment, i: nat, budget: nat, quotas: nat): Trace
    requires i <= budget
    decreases budget - i
  {
    if i == budget then Exhaust(cfg, s, env, i, quotas)
    else
      var now := env.clock(i);
      var a := Pools.Acquire(s.world.pool, key, now);
      var w1 := Step(s.world, Acquire(key, now));
      if !a.outcome.Granted? then Trace(s.(world := w1), PoolUnavailable, [], [Acquire(key, now)])
      else
        var sv := Serve(cfg, w1.pool, s.circuit, s.streaks, |s.world.leases|, a.outcome.id, stream, env.replies(i), now);
        var s2 := State(Run(w1, sv.ops), sv.circuit, sv.streaks);
        var attempt := Attempt(a.outcome.id, sv.rotated, sv.quota);
        if sv.ending.Some? then Trace(s2, sv.ending.value, [attempt], [Acquire(key, now)] + sv.ops)
        else
          var rest := Attempts(cfg, s2, key, stream, env, i + 1, budget, quotas + if sv.quota then 1 else 0);
          Trace(rest.state, rest.ending, [attempt] + rest.attempts, [Acquire(key, now)] + sv.ops + rest.ops)
  }

  /** All attempts rotated: the circuit opens if each was a quota failure. */
  ghost function Exhaust(cfg: Config, s: State, env: Environment, attempted: nat, quotas: nat): Trace
  {
    if attempted > 0 && quotas == attempted then
      var now := env.clock(attempted);
      var tripped := OpenCircuit(cfg, Earliest(s.world.pool), s.world.pool.revision, now);
      var c := Refresh(tripped, s.world.pool.revision, now);
      Trace(s.(circuit := c), if c.open then CircuitRefused else PoolUnavailable, [], [])
    else Trace(s, PoolUnavailable, [], [])
  }

  function Budget(cfg: Config, ready: nat): nat
  {
    var n := if cfg.maxAttempts <= 0 then DEFAULT_ATTEMPTS else cfg.maxAttempts;
    if ready < n then ready else n
  }

  ghost function Request(cfg: Config, s: State, key: string, stream: bool, env: Environment): Trace
  {
    var c := Refresh(s.circuit, s.world.pool.revision, env.clock(0));
    var s1 := s.(circuit := c);
    if c.open then Trace(s1, CircuitRefused, [], [])
    else if s.world.pool.ready == [] then Trace(s1, PoolUnavailable, [], [])
    else Attempts(cfg, s1, key, stream, env, 0, Budget(cfg, |s.world.pool.ready|), 0)
  }

  // A request is a legal run of scheduler operations

  lemma {:induction false} RunAppend(w: World, a: seq<Op>, b: seq<Op>)
    ensures Run(w, a + b) == Run(Run(w, a), b)
    ensures LegalRun(w, a + b) <==> LegalRun(w, a) && LegalRun(Run(w, a), b)
    decreases |a|
  {
    if a == [] {
      assert a + b == b;
    } else {
      assert (a + b)[0] == a[0] && (a + b)[1..] == a[1..] + b;
      RunAppend(Step(w, a[0]), a[1..], b);
    }
  }

  lemma OneOp(w: World, op: Op)
    requires Legal(w, op)
    ensures Run(w, [op]) == Step(w, op) && LegalRun(w, [op])
  {
    hide Step, Legal;
    assert [op][1..] == [];
    assert Run(Step(w, op), []) == Step(w, op) && LegalRun(Step(w, op), []);
  }

  /** The operations after a grant concern that lease only. */
  predicate OnLease(op: Op, lease: nat)
  {
    match op
    case Release(l) => l == lease
    case Move(l, _, _, _) => l == lease
    case Record(l, _, _) => l == lease
    case _ => false
  }

  predicate AllOnLease(ops: seq<Op>, lease: nat)
  {
    forall i :: 0 <= i < |ops| ==> OnLease(ops[i], lease)
  }

  lemma ServeOnLease(cfg: Config, p: Pool, circuit: Circuit, streaks: map<string, nat>, lease: nat, id: string,
                     stream: bool, reply: Reply, now: int)
    ensures AllOnLease(Serve(cfg, p, circuit, streaks, lease, id, stream, reply, now).ops, lease)
  {
  }

  /** One account's record may change, and only it; it may leave the ready list, nothing joins. */
  ghost predicate Touches(p: Pool, q: Pool, id: string)
  {
    && q.accounts.Keys == p.accounts.Keys
    && (forall x :: x in p.accounts && x != id ==> q.accounts[x] == p.accounts[x])
    && (forall x :: x in q.ready ==> x in p.ready)
    && (forall x :: x in p.ready && x != id ==> x in q.ready)
  }

  lemma MoveTouches(p: Pool, id: string, reason: Reason, retryAt: Option<int>, errorCode: string)
    requires Named(p.accounts)
    ensures Touches(p, MoveUnavailable(p, id, reason, retryAt, errorCode), id)
    ensures InFlight(MoveUnavailable(p, id, reason, retryAt, errorCode), id) == InFlight(p, id)
  {
  }

  lemma ReleaseTouches(p: Pool, id: string)
    requires Named(p.accounts)
    ensures Touches(p, Pools.Release(p, id), id)
    ensures InFlight(Pools.Release(p, id), id) == if InFlight(p, id) > 0 then InFlight(p, id) - 1 else 0
  {
  }

  lemma RecordTouches(p: Pool, id: string, actual: int, limit: int)
    requires Named(p.accounts)
    ensures Touches(p, Pools.Record(p, id, actual, limit), id)
    ensures InFlight(Pools.Record(p, id, actual, limit), id) == InFlight(p, id)
  {
  }

  lemma LeaseStep(w: World, op: Op, lease: nat)
    requires Valid(w.pool) && lease < |w.leases| && OnLease(op, lease)
    ensures Legal(w, op) && Valid(Step(w, op).pool) && |Step(w, op).leases| == |w.leases|
    ensures Step(w, op).leases[lease].account == w.leases[lease].account
    ensures Touches(w.pool, Step(w, op).pool, w.leases[lease].account)
    ensures Step(w, op).leases[lease].open == (w.leases[lease].open && !op.Release?)
    ensures InFlight(Step(w, op).pool, w.leases[lease].account) ==
            (if op.Release? && w.leases[lease].open && InFlight(w.pool, w.leases[lease].account) > 0
             then InFlight(w.pool, w.leases[lease].account) - 1 else InFlight(w.pool, w.leases[lease].account))
  {
    StepValid(w, op);
    var p, id := w.pool, w.leases[lease].account;
    assert Named(p.accounts);
    hide Valid, MoveUnavailable, Pools.Release, Pools.Record, Named, InFlight;
    match op
    case Release(_) => ReleaseTouches(p, id);
    case Move(_, reason, retryAt, errorCode) => MoveTouches(p, id, reason, retryAt, errorCode);
    case Record(_, actual, limit) => RecordTouches(p, id, actual, limit);
  }

  function Releases(ops: seq<Op>): nat
  {
    if ops == [] then 0 else Releases(ops[1..]) + if ops[0].Release? then 1 else 0
  }

  lemma {:induction false} LeaseRun(w: World, ops: seq<Op>, lease: nat)
    requires Valid(w.pool) && lease < |w.leases| && AllOnLease(ops, lease)
    ensures var v := Run(w, ops); var id := w.leases[lease].account;
            && LegalRun(w, ops) && Valid(v.pool) && |v.leases| == |w.leases| && v.leases[lease].account == id
            && Touches(w.pool, v.pool, id)
            && InFlight(v.pool, id) ==
               (if Releases(ops) > 0 && w.leases[lease].open && InFlight(w.pool, id) > 0
                then InFlight(w.pool, id) - 1 else InFlight(w.pool, id))
    decreases |ops|
  {
    hide Valid, Step;
    if ops != [] {
      assert OnLease(ops[0], lease);
      LeaseStep(w, ops[0], lease);
      assert AllOnLease(ops[1..], lease) by {
        forall i | 0 <= i < |ops[1..]| ensures OnLease(ops[1..][i], lease) { assert OnLease(ops[i + 1], lease); }
      }
      LeaseRun(Step(w, ops[0]), ops[1..], lease);
    }
  }
}
