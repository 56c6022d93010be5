/**
 The gateway as the object it is: one request leases accounts from the shared scheduler,
 parks those that fail and rotates within its budget, and keeps the quota circuit. Each
 method is proved to do to scheduler, streaks and circuit exactly what `GatewaySpec` says.
 A streamed answer keeps its lease in a reader that gives it back once.
 */
module Gateway {
  import opened Basics
  import opened Accounts
  import P = Pools
  import R = PoolRuns
  import G = GatewaySpec
  import S = Scheduler
  import Safety = GatewaySafety

  /** The cooldown after `streak` failures in a row. */
  method CooldownForStreak(base: int, streak: int) returns (cooldown: int)
    ensures cooldown == G.CooldownForStreak(base, streak)
  {
    cooldown := if base <= 0 then 1 else base;
    if streak <= 1 { return; }
    var cap := if streak > G.STREAK_CAP then G.STREAK_CAP else streak;
    ghost var b := cooldown;
    var i := 1;
    while i < cap
      invariant 1 <= i <= cap
      invariant cooldown == G.Doubled(b, i - 1)
    {
      if cooldown > G.HOUR {
        Settled(b, i - 1, cap - 1);
        return;
      }
      cooldown := cooldown * 2;
      i := i + 1;
    }
  }

  /** Once past an hour the doubling stops for good. */
  lemma {:induction false} Settled(base: int, m: nat, n: nat)
    requires m <= n && G.Doubled(base, m) > G.HOUR
    ensures G.Doubled(base, n) == G.Doubled(base, m)
  {
    if m < n { Settled(base, m, n - 1); }
  }

  class Gateway {
    const scheduler: S.Scheduler
    const cfg: G.Config
    var circuit: G.Circuit

    constructor (scheduler: S.Scheduler, cfg: G.Config)
      ensures this.scheduler == scheduler && this.cfg == cfg && circuit == G.Closed
    {
      this.scheduler, this.cfg, circuit := scheduler, cfg, G.Closed;
    }

    /** The gateway's state over the world of leases `w`. */
    function At(w: R.World): G.State
      reads this, scheduler
    {
      G.State(w, circuit, scheduler.failStreak)
    }

    /** `w` is a world around the scheduler as it now is. */
    ghost predicate Shows(w: R.World)
      reads scheduler
    {
      w.pool == scheduler.Abs() && P.Valid(w.pool)
    }

    method RefreshCircuit(now: int)
      modifies this`circuit
      ensures circuit == G.Refresh(old(circuit), scheduler.revision, now)
    {
      if circuit.open && (circuit.revision != scheduler.revision || circuit.retryAt <= now) { circuit := G.Closed; }
    }

    method OpenQuotaCircuit(now: int)
      modifies this`circuit
      ensures circuit == G.OpenCircuit(cfg, P.Earliest(scheduler.Abs()), scheduler.revision, now)
    {
      var retryAt := now + cfg.quotaRetry;
      var earliest := scheduler.EarliestRetry();
      P.EarliestUnique(scheduler.Abs(), earliest, P.Earliest(scheduler.Abs()));
      if earliest.Some? && earliest.value > now { retryAt := earliest.value; }
      circuit := G.Circuit(true, retryAt, scheduler.revision);
    }

    /** Usage from the answer's headers, or the counters as they stand. */
    method PersistUsage(lease: S.Lease, usage: Option<G.Usage>, now: int, ghost w: R.World, ghost l: nat) returns (ghost after: R.World)
      requires Shows(w) && Holds(lease, w, l)
      modifies scheduler
      ensures after == R.Run(w, G.Persist(cfg, w.pool, l, lease.account, usage, now))
      ensures Shows(after) && Holds(lease, after, l) && scheduler.failStreak == old(scheduler.failStreak)
    {
      after := w;
      if usage.Some? {
        lease.RecordUsage(usage.value.actual, usage.value.limit);
        ghost var r := R.Record(l, usage.value.actual, usage.value.limit);
        after := Advance(after, r, l);
        if usage.value.exhausted {
          lease.MoveUnavailable(Quota, Some(now + cfg.quotaRetry), G.EXHAUSTED);
          ghost var m := R.Move(l, Quota, Some(now + cfg.quotaRetry), G.EXHAUSTED);
          after := Advance(after, m, l);
          TwoOps(w, r, m);
        } else {
          OneOp(w, r);
        }
      } else if lease.account in scheduler.accounts && lease.account != "" {
        var item := scheduler.accounts[lease.account];
        lease.RecordUsage(item.quotaActual, item.quotaLimit);
        ghost var r := R.Record(l, item.quotaActual, item.quotaLimit);
        after := Advance(after, r, l);
        OneOp(w, r);
      }
    }

    /** Gives the lease back. */
    method Return(lease: S.Lease, ghost w: R.World, ghost l: nat) returns (ghost after: R.World)
      requires Shows(w) && Holds(lease, w, l)
      modifies scheduler, lease
      ensures after == R.Step(w, R.Release(l))
      ensures Shows(after) && lease.released && scheduler.failStreak == old(scheduler.failStreak)
    {
      lease.Release();
      after := Advance(w, R.Release(l), l);
    }

    /** What follows a granted lease: an ending, or none when the request rotates on. */
    method Serve(lease: S.Lease, stream: bool, reply: G.Reply, now: int, ghost w: R.World, ghost l: nat)
      returns (ending: Option<G.Ending>, quota: bool, ghost after: R.World)
      requires Shows(w) && Holds(lease, w, l) && !lease.released
      modifies this`circuit, scheduler, lease
      ensures var sv := G.Serve(cfg, w.pool, old(circuit), old(scheduler.failStreak), l, lease.account, stream, reply, now);
              && after == R.Run(w, sv.ops) && ending == sv.ending && quota == sv.quota
              && circuit == sv.circuit && scheduler.failStreak == sv.streaks
      ensures Shows(after) && lease.released == !(ending.Some? && ending.value.Streaming?)
      ensures ending.Some? && ending.value.Streaming? ==> ending.value.account == lease.account
    {
      hide R.Step, R.Run, P.Valid, G.Persist, G.ShouldRotate, G.RetryAtFor;
      OneOp(w, R.Release(l));
      var id := lease.account;
      quota := false;
      if reply.TransportError? {
        after := Return(lease, w, l);
        circuit := G.Closed;
        return Some(G.TransportFailed), false, after;
      }
      if stream && reply.status < 400 {
        after := PersistUsage(lease, reply.usage, now, w, l);
        scheduler.NoteSuccess(id);
        circuit := G.Closed;
        return Some(G.Streaming(reply.status, id)), false, after;
      }
      if reply.bodyFails {
        after := Return(lease, w, l);
        return Some(G.BodyFailed), false, after;
      }
      if reply.status < 400 {
        after := PersistUsage(lease, reply.usage, now, w, l);
        OneOp(after, R.Release(l));
        G.RunAppend(w, G.Persist(cfg, w.pool, l, id, reply.usage, now), [R.Release(l)]);
        scheduler.NoteSuccess(id);
        after := Return(lease, after, l);
        circuit := G.Closed;
        return Some(G.Answered(reply.status)), false, after;
      }
      if G.ShouldRotate(reply.failure) {
        ending, quota, after := Rotate(lease, reply, now, w, l);
        return;
      }
      after := Return(lease, w, l);
      circuit := G.Closed;
      return Some(G.Answered(reply.status)), false, after;
    }

    /** Parks the account that failed and goes on, unless the store refuses the change. */
    method Rotate(lease: S.Lease, reply: G.Reply, now: int, ghost w: R.World, ghost l: nat)
      returns (ending: Option<G.Ending>, quota: bool, ghost after: R.World)
      requires Shows(w) && Holds(lease, w, l) && !lease.released
      requires reply.Response? && reply.status >= 400 && !reply.bodyFails && G.ShouldRotate(reply.failure)
      modifies scheduler, lease
      ensures var sv := G.Serve(cfg, w.pool, circuit, old(scheduler.failStreak), l, lease.account, false, reply, now);
              && after == R.Run(w, sv.ops) && ending == sv.ending && quota == sv.quota && scheduler.failStreak == sv.streaks
      ensures Shows(after) && lease.released && !(ending.Some? && ending.value.Streaming?)
    {
      hide R.Step, R.Run, P.Valid, G.ShouldRotate, G.RetryAtFor;
      var failure := reply.failure;
      quota := failure.kind == G.QuotaFailure;
      var streak := scheduler.NoteFailure(lease.account);
      var retryAt := RetryAtFor(failure, reply.retryAfter, streak, now);
      var reason := failure.reason;
      if reason == NoReason { reason := Cooldown; }
      after := Park(lease, reason, retryAt, failure.code, w, l);
      after := Return(lease, after, l);
      ending := if reply.saveFails then Some(G.SaveFailed) else None;
      ghost var m := R.Move(l, reason, Some(retryAt), failure.code);
      TwoOps(w, m, R.Release(l));
      assert [m] + [R.Release(l)] == [m, R.Release(l)];
    }

    method Park(lease: S.Lease, reason: Reason, retryAt: int, code: string, ghost w: R.World, ghost l: nat) returns (ghost after: R.World)
      requires Shows(w) && Holds(lease, w, l)
      modifies scheduler
      ensures after == R.Step(w, R.Move(l, reason, Some(retryAt), code))
      ensures Shows(after) && Holds(lease, after, l) && scheduler.failStreak == old(scheduler.failStreak)
    {
      lease.MoveUnavailable(reason, Some(retryAt), code);
      after := Advance(w, R.Move(l, reason, Some(retryAt), code), l);
    }

    method RetryAtFor(failure: G.Failure, retryAfter: int, streak: int, now: int) returns (retryAt: int)
      ensures retryAt == G.RetryAtFor(cfg, failure, retryAfter, streak, now)
    {
      hide G.CooldownForStreak;
      var base := cfg.rateRetry;
      if failure.kind == G.QuotaFailure {
        base := cfg.quotaRetry;
        if base <= 0 { base := DAY; }
      } else if failure.reason == Validating {
        base := cfg.validatingRetry;
        if base <= 0 { base := G.DEFAULT_RETRY; }
        base := CooldownForStreak(base, streak);
      } else {
        if base <= 0 { base := G.DEFAULT_RETRY; }
        base := CooldownForStreak(base, streak);
      }
      if retryAfter > base { base := retryAfter; }
      return now + base;
    }

    /** One lease, or why there is none. */
    method Lease(key: string, now: int, ghost w: R.World) returns (lease: S.Lease?, ghost after: R.World)
      requires Shows(w)
      modifies scheduler
      ensures var a := P.Acquire(w.pool, key, now);
              && after == R.Step(w, R.Acquire(key, now)) && Shows(after)
              && (lease != null <==> a.outcome.Granted?)
              && (lease != null ==> fresh(lease) && !lease.released && lease.account == a.outcome.id)
      ensures lease != null ==> |after.leases| == |w.leases| + 1 && Holds(lease, after, |w.leases|)
      ensures scheduler.failStreak == old(scheduler.failStreak)
    {
      hide P.Acquire, P.Valid;
      var outcome := scheduler.TryAcquire(key, now);
      after := R.Step(w, R.Acquire(key, now));
      if outcome.Granted? {
        lease := new S.Lease(scheduler, outcome.id);
      } else {
        lease := null;
      }
    }

    /**
     One client request: refuse while the circuit is open, otherwise try at most
     `Budget` accounts. A stream comes back with its lease still open; every other
     ending has released whatever it took, so that every account's requests in flight
     are what they were.
     */
    method Request(key: string, stream: bool, env: G.Environment, ghost w: R.World)
      returns (ending: G.Ending, held: S.Lease?, ghost after: R.World)
      requires Shows(w)
      modifies this`circuit, scheduler
      ensures var t := G.Request(cfg, G.State(w, old(circuit), old(scheduler.failStreak)), key, stream, env);
              ending == t.ending && At(after) == t.state
      ensures Shows(after)
      ensures held != null <==> ending.Streaming?
      ensures held != null ==> fresh(held) && !held.released && held.account == ending.account && held.scheduler == scheduler
      ensures forall id :: R.InFlight(scheduler.Abs(), id) == R.InFlight(old(scheduler.Abs()), id) + Safety.HeldBy(ending, id)
    {
      hide P.Valid, G.Attempts;
      NoLeaks(G.State(w, circuit, scheduler.failStreak), key, stream, env);
      after, held := w, null;
      RefreshCircuit(env.clock(0));
      if circuit.open { return G.CircuitRefused, null, after; }
      var ready := |scheduler.ready|;
      if ready == 0 { return G.PoolUnavailable, null, after; }
      var budget := if cfg.maxAttempts <= 0 then G.DEFAULT_ATTEMPTS else cfg.maxAttempts;
      if ready < budget { budget := ready; }
      ending, held, after := Rotation(key, stream, env, budget, w);
    }

    lemma NoLeaks(s: G.State, key: string, stream: bool, env: G.Environment)
      requires P.Valid(s.world.pool)
      ensures var t := G.Request(cfg, s, key, stream, env);
              forall id :: R.InFlight(t.state.world.pool, id) == R.InFlight(s.world.pool, id) + Safety.HeldBy(t.ending, id)
    {
      hide P.Valid, G.Request, Safety.HeldBy, R.InFlight;
      forall id
        ensures var t := G.Request(cfg, s, key, stream, env);
                R.InFlight(t.state.world.pool, id) == R.InFlight(s.world.pool, id) + Safety.HeldBy(t.ending, id)
      {
        Safety.NoLeaseLeaks(cfg, s, key, stream, env, id);
      }
    }

    method Rotation(key: string, stream: bool, env: G.Environment, budget: nat, ghost w: R.World)
      returns (ending: G.Ending, held: S.Lease?, ghost after: R.World)
      requires Shows(w)
      modifies this`circuit, scheduler
      ensures var t := G.Attempts(cfg, G.State(w, old(circuit), old(scheduler.failStreak)), key, stream, env, 0, budget, 0);
              ending == t.ending && At(after) == t.state
      ensures Shows(after)
      ensures held != null <==> ending.Streaming?
      ensures held != null ==> fresh(held) && !held.released && held.account == ending.account && held.scheduler == scheduler
    {
      hide P.Valid, P.Acquire, G.Serve, R.Step, R.Run;
      after, held := w, null;
      var quotas := 0;
      var i := 0;
      ghost var whole := G.Attempts(cfg, At(w), key, stream, env, 0, budget, 0);
      while i < budget
        invariant i <= budget && 0 <= quotas && held == null && Shows(after)
        invariant var rest := G.Attempts(cfg, At(after), key, stream, env, i, budget, quotas);
                  rest.ending == whole.ending && rest.state == whole.state
      {
        var now := env.clock(i);
        var lease;
        ghost var before, l := after, |after.leases|;
        lease, after := Lease(key, now, after);
        if lease == null { return G.PoolUnavailable, null, after; }
        var done, quota;
        done, quota, after := Serve(lease, stream, env.replies(i), now, after, l);
        if done.Some? {
          if done.value.Streaming? { held := lease; }
          return done.value, held, after;
        }
        if quota { quotas := quotas + 1; }
        i := i + 1;
      }
      ending := Exhausted(env, i, quotas, after);
    }

    /** Every attempt rotated: trip the circuit if each was a quota failure. */
    method Exhausted(env: G.Environment, attempted: nat, quotas: nat, ghost w: R.World) returns (ending: G.Ending)
      requires Shows(w)
      modifies this`circuit
      ensures var t := G.Exhaust(cfg, old(At(w)), env, attempted, quotas); t.ending == ending && t.state == At(w)
      ensures !ending.Streaming?
    {
      ending := G.PoolUnavailable;
      if attempted > 0 && quotas == attempted {
        var now := env.clock(attempted);
        OpenQuotaCircuit(now);
        RefreshCircuit(now);
        if circuit.open { return G.CircuitRefused; }
      }
    }

    /** `lease` is the open lease number `l` of `w`. */
    ghost predicate Holds(lease: S.Lease, w: R.World, l: nat)
      reads lease
    {
      lease.scheduler == scheduler && l < |w.leases| && w.leases[l] == R.Lease(lease.account, !lease.released)
    }
  }

  /** The world after one operation on lease `l`. */
  ghost function Advance(w: R.World, op: R.Op, l: nat): (v: R.World)
    requires P.Valid(w.pool) && l < |w.leases| && G.OnLease(op, l)
    ensures P.Valid(v.pool) && |v.leases| == |w.leases|
    ensures v.leases[l] == w.leases[l].(open := w.leases[l].open && !op.Release?)
  {
    G.LeaseStep(w, op, l);
    R.Step(w, op)
  }

  lemma OneOp(w: R.World, a: R.Op)
    ensures R.Run(w, [a]) == R.Step(w, a)
  {
    hide R.Step;
    assert [a][1..] == [];
  }

  lemma TwoOps(w: R.World, a: R.Op, b: R.Op)
    ensures R.Run(w, [a] + [b]) == R.Step(R.Step(w, a), b)
  {
    hide R.Step;
    assert ([a] + [b])[1..] == [b];
    OneOp(R.Step(w, a), b);
  }

  // The streamed answer

  const TAIL_WINDOW: nat := 98304

  /** What the reader of a streamed answer is asked to do; a read meets some bytes and how they end. */
  datatype Demand = Read(bytes: seq<bv8>, eof: bool) | Close

  /** The last `TAIL_WINDOW` bytes, where the usage report sits. */
  function Tail(bytes: seq<bv8>): (r: seq<bv8>)
    ensures |r| <= TAIL_WINDOW
  {
    if |bytes| > TAIL_WINDOW then bytes[|bytes| - TAIL_WINDOW..] else bytes
  }

  function Delivered(script: seq<Demand>): seq<bv8>
  {
    if script == [] then []
    else
      var last := script[|script| - 1];
      Delivered(script[..|script| - 1]) + if last.Read? then last.bytes else []
  }

  predicate Ends(d: Demand)
  {
    d.Close? || d.eof
  }

  predicate Ended(script: seq<Demand>)
    ensures Ended(script) <==> exists i :: 0 <= i < |script| && Ends(script[i])
  {
    script != [] && (Ended(script[..|script| - 1]) || Ends(script[|script| - 1]))
  }

  /** Keeping the tail of a tail and more bytes is keeping the tail of everything: its last 96 KiB. */
  lemma TailOfTail(a: seq<bv8>, b: seq<bv8>)
    ensures Tail(Tail(a) + b) == Tail(a + b)
    ensures |Tail(a)| == if |a| < 96 * 1024 then |a| else 96 * 1024
    ensures Tail(a) == a[|a| - |Tail(a)|..]
  {
    if |a| > TAIL_WINDOW {
      var cut := |a| - TAIL_WINDOW;
      assert Tail(a) + b == (a + b)[cut..];
    }
  }

  lemma ScriptGrows(script: seq<Demand>, d: Demand)
    ensures Delivered(script + [d]) == Delivered(script) + if d.Read? then d.bytes else []
    ensures Ended(script + [d]) == (Ended(script) || Ends(d))
  {
    assert (script + [d])[..|script|] == script;
  }

  /** The body of a streamed answer together with the lease that pays for it. */
  class LeaseReader {
    const lease: S.Lease
    var closes: nat
    var tail: seq<bv8>
    var closed: bool
    ghost var script: seq<Demand>

    /** The lease is given back and the upstream body closed exactly when some demand ended the stream. */
    ghost predicate Valid()
      reads this, lease
    {
      && tail == Tail(Delivered(script))
      && closed == Ended(script)
      && lease.released == closed && closes == if closed then 1 else 0
    }

    constructor (lease: S.Lease)
      requires !lease.released
      ensures this.lease == lease && Valid() && script == [] && !closed
    {
      this.lease, closes, tail, closed, script := lease, 0, [], false, [];
    }

    method CloseOnce()
      requires lease.released == closed
      modifies this`closed, this`closes, lease, lease.scheduler
      ensures closed && lease.released
      ensures closes == old(closes) + if old(closed) then 0 else 1
      ensures lease.scheduler.Abs() ==
              if old(closed) then old(lease.scheduler.Abs()) else P.Release(old(lease.scheduler.Abs()), lease.account)
      ensures lease.scheduler.failStreak == old(lease.scheduler.failStreak)
    {
      if !closed {
        closed := true;
        closes := closes + 1;
        lease.Release();
      }
    }

    /** Appends to the tail and cuts it to its window. */
    method Keep(bytes: seq<bv8>)
      requires |tail| <= TAIL_WINDOW
      modifies this`tail
      ensures tail == Tail(old(tail) + bytes)
    {
      if |bytes| > 0 {
        tail := tail + bytes;
        if |tail| > TAIL_WINDOW { tail := tail[|tail| - TAIL_WINDOW..]; }
      } else {
        assert tail + bytes == tail;
      }
    }

    /** Serves one demand. */
    method Serve(d: Demand)
      requires Valid()
      modifies this, lease, lease.scheduler
      ensures Valid() && script == old(script) + [d]
      ensures closed == (old(closed) || Ends(d))
      ensures lease.scheduler.Abs() ==
              if closed && !old(closed) then P.Release(old(lease.scheduler.Abs()), lease.account) else old(lease.scheduler.Abs())
    {
      hide Tail, Ended, Delivered;
      ScriptGrows(script, d);
      script := script + [d];
      TailOfTail(Delivered(old(script)), if d.Read? then d.bytes else []);
      Keep(if d.Read? then d.bytes else []);
      if Ends(d) { CloseOnce(); }
    }

    /** Any mix of reads and closes gives the lease back once if one of them ends the stream, never otherwise. */
    method ServeAll(demands: seq<Demand>)
      requires Valid() && script == []
      modifies this, lease, lease.scheduler
      ensures Valid() && script == demands && tail == Tail(Delivered(demands))
      ensures closed <==> exists i :: 0 <= i < |demands| && Ends(demands[i])
      ensures closes <= 1
      ensures lease.scheduler.Abs() ==
              if closed then P.Release(old(lease.scheduler.Abs()), lease.account) else old(lease.scheduler.Abs())
    {
      var k := 0;
      while k < |demands|
        invariant k <= |demands| && Valid() && script == demands[..k]
        invariant lease.scheduler.Abs() ==
                  if closed then P.Release(old(lease.scheduler.Abs()), lease.account) else old(lease.scheduler.Abs())
      {
        Serve(demands[k]);
        assert demands[..k] + [demands[k]] == demands[..k + 1];
        k := k + 1;
      }
      assert demands[..|demands|] == demands;
    }
  }
}
