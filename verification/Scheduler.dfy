/**
 The scheduler as the object it is: a map of accounts, a ready list filtered in place, a
 hot set and session bindings, changed by every call. Each method is proved to do to the
 pool exactly what the function of the same name in `Pools` does.
 */
module Scheduler {
  import opened Basics
  import opened Accounts
  import P = Pools
  import Runs = PoolRuns

  class Scheduler {
    var accounts: map<string, Account>
    var ready: seq<string>
    var hot: set<string>
    var sticky: map<string, P.Sticky>
    var revision: nat
    var cursor: nat
    var activeSize: nat
    var maxActiveCap: int
    var strategy: P.Strategy
    var stickyOn: bool
    var stickyTtl: int
    var quotaRetry: int
    var failStreak: map<string, nat>

    function Abs(): P.Pool
      reads this
    {
      P.Pool(accounts, ready, hot, sticky, revision, cursor, activeSize, maxActiveCap, strategy, stickyOn, stickyTtl, quotaRetry)
    }

    constructor (items: seq<Account>)
      ensures Abs() == P.Load(items) && failStreak == map[]
    {
      accounts, ready, hot, sticky := map[], [], {}, map[];
      revision, cursor, activeSize, maxActiveCap := 1, 0, 0, 0;
      strategy, stickyOn, stickyTtl, quotaRetry := P.RoundRobin, true, P.DEFAULT_TTL, DAY;
      failStreak := map[];
      new;
      var i := 0;
      while i < |items|
        invariant i <= |items|
        invariant Abs() == P.Load(items[..i]) && failStreak == map[]
      {
        assert items[..i + 1][..i] == items[..i];
        var item := items[i];
        if item.maxActive <= 0 { item := item.(maxActive := 1); }
        accounts := accounts[item.id := item];
        if item.standing == Ready { ready := ready + [item.id]; }
        i := i + 1;
      }
      assert items[..|items|] == items;
    }

    method SetAccount(a: Account)
      modifies this
      ensures failStreak == old(failStreak)
      ensures Abs() == P.SetAccount(old(Abs()), a)
    {
      accounts := accounts[a.id := a];
    }

    /** Filters the ready list and drops the hot slot. */
    method RemoveReady(id: string)
      modifies this
      ensures failStreak == old(failStreak)
      ensures Abs() == P.RemoveReady(old(Abs()), id)
    {
      var filtered: seq<string> := [];
      var i := 0;
      while i < |ready|
        invariant i <= |ready|
        invariant filtered == P.Remove(ready[..i], id)
      {
        assert ready[..i + 1][..i] == ready[..i];
        if ready[i] != id { filtered := filtered + [ready[i]]; }
        i := i + 1;
      }
      assert ready[..|ready|] == ready;
      ready := filtered;
      hot := hot - {id};
    }

    /** Takes a spent ready account out of service; reports whether it did. */
    method ParkIfSpent(id: string, now: int) returns (parked: bool)
      requires id in accounts && accounts[id].id == id
      modifies this
      ensures failStreak == old(failStreak)
      ensures parked == Parkable(old(accounts)[id])
      ensures Abs() == if parked then P.Park(old(Abs()), id, now) else old(Abs())
    {
      parked := Parkable(accounts[id]);
      if parked {
        var a := ParkKnownExhausted(accounts[id], now, P.RetryWindow(Abs()));
        SetAccount(a);
        RemoveReady(id);
        revision := revision + 1;
      }
    }

    /** The free accounts of the best tier; spent ones are parked on the way. */
    method ScanReady(now: int) returns (candidates: seq<string>)
      requires P.Named(accounts)
      modifies this
      ensures failStreak == old(failStreak)
      ensures P.Named(accounts)
      ensures var sc := P.ScanAll(P.Scan(old(Abs()), [], 0), old(ready), now);
              Abs() == sc.pool && candidates == sc.candidates
    {
      candidates := [];
      var priority := 0;
      var ids := ready;
      var i := 0;
      while i < |ids|
        invariant i <= |ids| && P.Named(accounts) && failStreak == old(failStreak)
        invariant P.Scan(Abs(), candidates, priority) == P.ScanAll(P.Scan(old(Abs()), [], 0), ids[..i], now)
      {
        assert ids[..i + 1][..i] == ids[..i];
        var id := ids[i];
        i := i + 1;
        if id in accounts {
          var parked := ParkIfSpent(id, now);
          if !parked && P.Free(Abs(), id) {
            var p := accounts[id].priority;
            if candidates == [] || p > priority {
              priority := p;
              candidates := [id];
            } else if p == priority {
              candidates := candidates + [id];
            }
          }
        }
      }
      assert ids[..|ids|] == ids;
    }

    /** The candidates with the fewest requests in flight. */
    method LightestOf(candidates: seq<string>) returns (best: seq<string>)
      ensures best == P.Lightest(accounts, candidates)
    {
      best := [];
      var lowest: int := -1;
      var i := 0;
      while i < |candidates|
        invariant i <= |candidates|
        invariant best == P.Lightest(accounts, candidates[..i])
        invariant if best == [] then lowest == -1 else lowest == accounts[best[0]].active
      {
        assert candidates[..i + 1][..i] == candidates[..i];
        var id := candidates[i];
        i := i + 1;
        if id in accounts {
          if lowest < 0 || accounts[id].active < lowest {
            lowest := accounts[id].active;
            best := [id];
          } else if accounts[id].active == lowest {
            best := best + [id];
          }
        }
      }
      assert candidates[..|candidates|] == candidates;
    }

    method SmallestOf(ids: seq<string>) returns (chosen: string)
      requires ids != []
      ensures chosen == P.Smallest(ids)
    {
      chosen := ids[0];
      var i := 1;
      assert ids[..1] == [ids[0]];
      while i < |ids|
        invariant 1 <= i <= |ids|
        invariant chosen == P.Smallest(ids[..i])
      {
        assert ids[..i + 1][..i] == ids[..i];
        if P.Less(ids[i], chosen) { chosen := ids[i]; }
        i := i + 1;
      }
      assert ids[..|ids|] == ids;
    }

    method PickReady(now: int) returns (picked: Option<string>)
      requires P.Named(accounts)
      modifies this
      ensures failStreak == old(failStreak)
      ensures var r := P.Pick(old(Abs()), now); Abs() == r.pool && picked == r.id
      ensures P.Named(accounts)
    {
      hide P.ScanAll, P.Named;
      var candidates := ScanReady(now);
      ghost var scanned := Abs();
      ScanFrame(P.Scan(old(Abs()), [], 0), old(ready), now);
      var best := LightestOf(candidates);
      if best == [] { return None; }
      var chosen;
      if strategy == P.FillFirst {
        chosen := SmallestOf(best);
      } else {
        chosen := best[cursor % |best|];
        cursor := (cursor + 1) % P.CURSOR_WIDTH;
      }
      return Some(chosen);
    }

    /** The hot accounts that may be evicted: gone, not ready or without a request. */
    function Idle(): set<string>
      reads this
    {
      set h | h in hot && (h !in accounts || accounts[h].standing != Ready || accounts[h].active == 0)
    }

    /**
     Gives an account a hot slot, evicting idle accounts when the set is full: an eligible
     account never needs that; for another one as many go as are needed for one free place,
     or all if even those are too few, and only then does it get none.
     */
    method EnsureHot(id: string)
      modifies this`hot
      ensures P.Eligible(old(Abs()), id) ==> Abs() == P.EnsureHot(old(Abs()), id)
      ensures !P.Eligible(old(Abs()), id) ==>
        var gone := old(hot) - hot; var need := |old(hot)| - activeSize + 1;
        && gone <= old(Idle())
        && |gone| == (if |old(Idle())| < need then |old(Idle())| else need)
        && hot == old(hot) - gone + (if need <= |old(Idle())| then {id} else {})
    {
      if activeSize == 0 || id in hot {
        assert id in hot ==> hot + {id} == hot;
        return;
      }
      ghost var before := hot;
      Evict();
      Placed(before, hot, id);
      if |hot| < activeSize { hot := hot + {id}; }
    }

    /** The eviction loop, over the hot set in any order. */
    method Evict()
      requires activeSize > 0
      modifies this`hot
      ensures |old(hot)| < activeSize ==> hot == old(hot)
      ensures hot <= old(hot) && old(hot) - hot <= old(Idle())
      ensures |old(hot)| >= activeSize ==>
        var need := |old(hot)| - activeSize + 1;
        && |old(hot) - hot| == (if |old(Idle())| < need then |old(Idle())| else need)
        && (|hot| < activeSize <==> need <= |old(Idle())|)
    {
      var rest := hot;
      ghost var idle := Idle();
      while |hot| >= activeSize && rest != {}
        invariant hot <= old(hot) && rest <= hot
        invariant |old(hot)| < activeSize ==> hot == old(hot)
        invariant old(hot) - hot <= idle && idle * hot <= rest
        invariant |old(hot)| >= activeSize ==> |hot| >= activeSize - 1
        decreases rest
      {
        var h :| h in rest;
        rest := rest - {h};
        if h !in accounts || accounts[h].standing != Ready || accounts[h].active == 0 {
          P.HotShrinks(hot, h);
          hot := hot - {h};
        }
      }
      Evicted(old(hot), hot, idle, rest, activeSize);
    }

    method BumpSticky(key: string, id: string, now: int)
      modifies this`sticky
      ensures Abs() == P.BumpSticky(old(Abs()), key, id, now)
    {
      if !stickyOn || key == "" { return; }
      var ttl := stickyTtl;
      if ttl <= 0 { ttl := P.DEFAULT_TTL; }
      sticky := sticky[key := P.Sticky(id, now + ttl)];
      if |sticky| > P.STICKY_LIMIT {
        sticky := map k | k in sticky && sticky[k].expiresAt >= now :: sticky[k];
      }
    }

    method Grant(id: string, key: string, now: int)
      requires id in accounts && P.Eligible(Abs(), id)
      modifies this
      ensures failStreak == old(failStreak)
      ensures Abs() == P.Grant(old(Abs()), id, key, now)
    {
      accounts := accounts[id := P.Lend(accounts[id])];
      EnsureHot(id);
      BumpSticky(key, id, now);
    }

    /** One turn of the acquire loop. */
    method TryAcquire(key: string, now: int) returns (outcome: P.Outcome)
      requires P.Valid(Abs())
      modifies this
      ensures failStreak == old(failStreak)
      ensures var r := P.Acquire(old(Abs()), key, now); Abs() == r.pool && outcome == r.outcome
      ensures P.Valid(Abs())
    {
      hide P.Pick, P.Grant, P.Prune;
      Effect(Abs(), key, now);
      if |ready| == 0 { return P.NoReady; }
      if stickyOn && key != "" && key in sticky {
        var entry := sticky[key];
        if entry.expiresAt < now {
          sticky := sticky - {key};
        } else if P.Free(Abs(), entry.account) {
          Grant(entry.account, key, now);
          return P.Granted(entry.account);
        } else if entry.account !in accounts || accounts[entry.account].standing != Ready {
          sticky := sticky - {key};
        }
      }
      assert Abs() == P.DropStale(old(Abs()), key, now);
      Servable(Abs(), now);
      var picked := PickReady(now);
      if picked.Some? && picked.value in accounts {
        Grant(picked.value, key, now);
        return P.Granted(picked.value);
      }
      return P.Saturated;
    }

    method Upsert(given: Account)
      modifies this
      ensures failStreak == old(failStreak)
      ensures Abs() == P.Upsert(old(Abs()), given)
    {
      hide P.Remove;
      var item := given;
      if item.maxActive <= 0 { item := item.(maxActive := 1); }
      if maxActiveCap > 0 && item.maxActive > maxActiveCap { item := item.(maxActive := maxActiveCap); }
      RemoveReady(item.id);
      if item.id in accounts { item := item.(active := accounts[item.id].active); }
      SetAccount(item);
      if item.standing == Ready { ready := ready + [item.id]; }
      revision := revision + 1;
    }

    method Delete(id: string) returns (existed: bool)
      modifies this
      ensures failStreak == old(failStreak)
      ensures Abs() == P.Delete(old(Abs()), id)
      ensures existed == (id in old(accounts))
    {
      existed := id in accounts;
      if existed {
        RemoveReady(id);
        accounts := accounts - {id};
        revision := revision + 1;
      }
    }

    /** Meets the accounts in an arbitrary order and readies the due cooldown ones. */
    method PromoteWalk(now: int) returns (promoted: seq<Account>, ghost order: seq<string>)
      requires P.Named(accounts)
      modifies this`accounts, this`ready
      ensures WalkedTo(old(accounts), {}, order)
      ensures var due := P.Due(old(accounts), order, now);
              accounts == Promoted(old(accounts), due) && ready == old(ready) + due && promoted == Readied(old(accounts), due)
    {
      hide P.Distinct, P.Due, WalkedTo, Promoted, Readied, P.Named;
      promoted, order := [], [];
      var rest := accounts.Keys;
      ghost var due: seq<string> := [];
      WalkNone(accounts, now);
      assert ready + [] == ready;
      while rest != {}
        invariant rest <= old(accounts).Keys && WalkedTo(old(accounts), rest, order)
        invariant due == P.Due(old(accounts), order, now)
        invariant accounts == Promoted(old(accounts), due) && ready == old(ready) + due
        invariant promoted == Readied(old(accounts), due)
        decreases rest
      {
        var id :| id in rest;
        NamedAt(old(accounts), id);
        assert rest == (rest - {id}) + {id};
        rest := rest - {id};
        WalkOne(old(accounts), rest, order, id, now);
        order := order + [id];
        PromotedAt(old(accounts), due, id);
        if CooldownDue(accounts[id], now) {
          var item := MarkReady(accounts[id]);
          PromoteOne(old(accounts), due, id, now);
          accounts := accounts[id := item];
          ready := ready + [item.id];
          promoted := promoted + [item];
          assert ready == old(ready) + (due + [id]);
          due := due + [id];
        }
      }
    }

    /** Promotes due cooldown accounts. */
    method PromoteDue(now: int) returns (promoted: seq<Account>, ghost order: seq<string>)
      requires P.Named(accounts)
      modifies this
      ensures failStreak == old(failStreak)
      ensures P.Walks(old(Abs()), order)
      ensures Abs() == P.PromoteDue(old(Abs()), now, order)
      ensures promoted == Readied(old(accounts), P.Due(old(accounts), order, now))
    {
      hide P.Due;
      promoted, order := PromoteWalk(now);
      if |promoted| > 0 { revision := revision + 1; }
    }

    method ClearSticky(id: string)
      modifies this`sticky
      ensures Abs() == old(Abs()).(sticky := sticky)
      ensures Abs() == P.ClearSticky(old(Abs()), id)
    {
      sticky := map k | k in sticky && sticky[k].account != id :: sticky[k];
    }

    method MoveUnavailable(id: string, reason: Reason, retryAt: Option<int>, errorCode: string)
      requires id in accounts ==> accounts[id].id == id
      modifies this
      ensures failStreak == old(failStreak)
      ensures Abs() == P.MoveUnavailable(old(Abs()), id, reason, retryAt, errorCode)
    {
      hide P.Remove, P.ClearSticky, P.RemoveReady, MarkUnavailable;
      if id !in accounts { return; }
      var item := accounts[id];
      var changed := item.standing != Unavailable || item.reason != reason || item.retryAt != retryAt || item.errorCode != errorCode;
      TakeOut(MarkUnavailable(item, reason, retryAt, errorCode), id);
      if changed { revision := revision + 1; }
    }

    /** Files the changed record and drops the account from every index. */
    method TakeOut(a: Account, id: string)
      modifies this
      ensures failStreak == old(failStreak) && revision == old(revision)
      ensures Abs() == P.ClearSticky(P.RemoveReady(P.SetAccount(old(Abs()), a), id), id)
    {
      hide P.Remove, P.ClearSticky;
      SetAccount(a);
      RemoveReady(id);
      ClearSticky(id);
    }

    method RecordUsage(id: string, actual: int, limit: int)
      modifies this
      ensures failStreak == old(failStreak)
      ensures Abs() == P.Record(old(Abs()), id, actual, limit)
    {
      if id in accounts { SetAccount(Accounts.RecordUsage(accounts[id], actual, limit)); }
    }

    method ReleaseOne(id: string)
      modifies this
      ensures failStreak == old(failStreak)
      ensures Abs() == P.Release(old(Abs()), id)
    {
      if id in accounts && accounts[id].active > 0 {
        SetAccount(accounts[id].(active := accounts[id].active - 1));
      }
    }

    method ApplyMaxActive(n: int)
      modifies this
      ensures failStreak == old(failStreak)
      ensures Abs() == P.ApplyMaxActive(old(Abs()), n)
    {
      var cap := n;
      if cap <= 0 { cap := 1; }
      maxActiveCap := cap;
      accounts := map id | id in accounts ::
        accounts[id].(maxActive := if accounts[id].maxActive <= 0 || accounts[id].maxActive > cap then cap else accounts[id].maxActive);
    }

    /** Drops arbitrary ids from a hot set that is too large. */
    method ShrinkHot(size: nat)
      modifies this`hot
      ensures hot <= old(hot)
      ensures if |old(hot)| > size then |hot| == size else hot == old(hot)
    {
      while |hot| > size
        invariant hot <= old(hot)
        invariant if |old(hot)| > size then |hot| >= size else hot == old(hot)
        decreases hot
      {
        var id :| id in hot;
        assert hot == (hot - {id}) + {id} && |hot - {id}| == |hot| - 1;
        hot := hot - {id};
      }
    }

    /** Caps the hot set; which ids survive a smaller cap is arbitrary. */
    method ApplyActiveSize(n: int) returns (ghost keep: set<string>)
      modifies this
      ensures failStreak == old(failStreak)
      ensures P.Keepable(old(Abs()), n, keep)
      ensures Abs() == P.ApplyActiveSize(old(Abs()), n, keep)
    {
      activeSize := if n < 0 then 0 else n;
      keep := hot;
      if activeSize == 0 {
        hot := {};
      } else {
        ShrinkHot(activeSize);
        keep := hot;
      }
    }

    method ConfigureQuotaRetry(duration: int)
      modifies this`quotaRetry
      ensures Abs() == old(Abs()).(quotaRetry := if duration <= 0 then old(quotaRetry) else duration)
    {
      if duration > 0 { quotaRetry := duration; }
    }
  
    /** The streak after one more failure in a row; a blank account has none. */
    method NoteFailure(id: string) returns (streak: nat)
      modifies this`failStreak
      ensures failStreak == P.NoteFailure(old(failStreak), id)
      ensures streak == P.FailStreak(failStreak, id)
    {
      if Trim(id) == "" { return 0; }
      streak := if id in failStreak then failStreak[id] + 1 else 1;
      failStreak := failStreak[id := streak];
    }

    method NoteSuccess(id: string)
      modifies this`failStreak
      ensures failStreak == P.NoteSuccess(old(failStreak), id)
    {
      if Trim(id) != "" { failStreak := failStreak - {id}; }
    }

    /** The earliest deadline of an unavailable account, by walking the map in any order. */
    method EarliestRetry() returns (earliest: Option<int>)
      ensures P.IsEarliest(Abs(), earliest)
    {
      earliest := None;
      var rest := accounts.Keys;
      ghost var seen: set<string> := {};
      while rest != {}
        invariant rest <= accounts.Keys && seen == accounts.Keys - rest
        invariant P.EarliestAmong(accounts, seen, earliest)
        decreases rest
      {
        var id :| id in rest;
        rest := rest - {id};
        seen := seen + {id};
        var a := accounts[id];
        if P.Waiting(a) && (earliest.None? || a.retryAt.value < earliest.value) { earliest := a.retryAt; }
      }
      assert seen == accounts.Keys;
    }
  }

  /** A lease on one account; only its first release counts. */
  class Lease {
    const scheduler: Scheduler
    const account: string
    var released: bool

    constructor (scheduler: Scheduler, account: string)
      ensures this.scheduler == scheduler && this.account == account && !released
    {
      this.scheduler, this.account, released := scheduler, account, false;
    }

    method MoveUnavailable(reason: Reason, retryAt: Option<int>, errorCode: string)
      requires P.Named(scheduler.accounts)
      modifies scheduler
      ensures scheduler.failStreak == old(scheduler.failStreak)
      ensures scheduler.Abs() == P.MoveUnavailable(old(scheduler.Abs()), account, reason, retryAt, errorCode)
    {
      scheduler.MoveUnavailable(account, reason, retryAt, errorCode);
    }

    method RecordUsage(actual: int, limit: int)
      modifies scheduler
      ensures scheduler.failStreak == old(scheduler.failStreak)
      ensures scheduler.Abs() == P.Record(old(scheduler.Abs()), account, actual, limit)
    {
      scheduler.RecordUsage(account, actual, limit);
    }

    method Release()
      modifies this, scheduler
      ensures released && scheduler.failStreak == old(scheduler.failStreak)
      ensures scheduler.Abs() == if old(released) then old(scheduler.Abs()) else P.Release(old(scheduler.Abs()), account)
    {
      if !released {
        released := true;
        scheduler.ReleaseOne(account);
      }
    }
  }

  /** The map with the accounts of `due` made ready. */
  function Promoted(accounts: map<string, Account>, due: seq<string>): map<string, Account>
  {
    map id | id in accounts :: if id in due then MarkReady(accounts[id]) else accounts[id]
  }

  function Readied(accounts: map<string, Account>, due: seq<string>): (r: seq<Account>)
    requires forall id :: id in due ==> id in accounts
    ensures |r| == |due| && forall i :: 0 <= i < |due| ==> r[i] == MarkReady(accounts[due[i]])
  {
    seq(|due|, i requires 0 <= i < |due| => MarkReady(accounts[due[i]]))
  }

  /** `order` has met exactly the accounts outside `rest`, once each. */
  ghost predicate WalkedTo(accounts: map<string, Account>, rest: set<string>, order: seq<string>)
  {
    P.Distinct(order) && forall id :: id in order <==> id in accounts && id !in rest
  }

  lemma WalkNone(accounts: map<string, Account>, now: int)
    ensures WalkedTo(accounts, accounts.Keys, []) && P.Due(accounts, [], now) == []
    ensures Promoted(accounts, []) == accounts && Readied(accounts, []) == []
  {
  }

  lemma NamedAt(accounts: map<string, Account>, id: string)
    requires P.Named(accounts) && id in accounts
    ensures accounts[id].id == id
  {
  }

  lemma WalkOne(accounts: map<string, Account>, rest: set<string>, order: seq<string>, id: string, now: int)
    requires id in accounts && id !in rest && WalkedTo(accounts, rest + {id}, order)
    ensures WalkedTo(accounts, rest, order + [id])
    ensures P.Due(accounts, order + [id], now) == P.Due(accounts, order, now) + if CooldownDue(accounts[id], now) then [id] else []
    ensures id !in P.Due(accounts, order, now)
  {
    assert (order + [id])[..|order|] == order;
  }

  lemma PromotedAt(accounts: map<string, Account>, due: seq<string>, id: string)
    requires id in accounts && id !in due
    ensures id in Promoted(accounts, due) && Promoted(accounts, due)[id] == accounts[id]
  {
  }

  lemma PromoteOne(accounts: map<string, Account>, due: seq<string>, id: string, now: int)
    requires id in accounts && id !in due && forall x :: x in due ==> x in accounts
    ensures Promoted(accounts, due)[id := MarkReady(accounts[id])] == Promoted(accounts, due + [id])
    ensures Readied(accounts, due) + [MarkReady(accounts[id])] == Readied(accounts, due + [id])
  {
  }

  lemma Effect(p: P.Pool, key: string, now: int)
    requires P.Valid(p)
    ensures P.Valid(P.Acquire(p, key, now).pool)
  {
    Runs.AcquireEffect(p, key, now);
  }

  lemma Servable(p: P.Pool, now: int)
    requires P.Valid(p)
    ensures var r := P.Pick(p, now); r.id.Some? ==> P.Free(r.pool, r.id.value)
  {
    Runs.PickServable(p, now);
  }

  lemma Placed(before: set<string>, kept: set<string>, id: string)
    requires kept <= before && id !in before
    ensures before - (kept + {id}) == before - kept
    ensures before - (before - kept) + {id} == kept + {id} && before - (before - kept) + {} == kept
  {
  }

  /** Counting what went: one place if there were idle accounts enough, else all of them. */
  lemma Evicted(before: set<string>, after: set<string>, idle: set<string>, rest: set<string>, size: nat)
    requires after <= before && idle <= before && before - after <= idle && idle * after <= rest <= after
    requires |before| >= size > 0 ==> |after| >= size - 1
    requires |after| < size || rest == {}
    ensures |before - after| == |before| - |after|
    ensures |before| >= size > 0 ==>
              var need := |before| - size + 1;
              |before - after| == (if |idle| < need then |idle| else need) && (|after| < size <==> need <= |idle|)
  {
    assert before == after + (before - after);
    Fits(before - after, idle);
    if |after| >= size {
      assert idle == before - after;
    }
  }

  lemma Fits(a: set<string>, b: set<string>)
    requires a <= b
    ensures |a| <= |b|
  {
    assert b == a + (b - a);
  }

  /** The scan changes nothing the choice depends on but the accounts' standing. */
  lemma {:induction false} ScanFrame(sc: P.Scan, ids: seq<string>, now: int)
    ensures var q := P.ScanAll(sc, ids, now).pool; q.strategy == sc.pool.strategy && q.cursor == sc.pool.cursor
  {
    if ids != [] {
      ScanFrame(sc, ids[..|ids| - 1], now);
    }
  }
}
