/**
 The account pool as a value and every scheduler operation as a function on it, with the
 invariant that ties the redundant indexes (ready list, hot set) to the accounts.
 `Scheduler` is the imperative form.
 */
module Pools {
  import opened Basics
  import opened Accounts

  datatype Strategy = RoundRobin | FillFirst

  datatype Sticky = Sticky(account: string, expiresAt: int)

  datatype Pool = Pool(
    accounts: map<string, Account>, ready: seq<string>, hot: set<string>, sticky: map<string, Sticky>,
    revision: nat, cursor: nat, activeSize: nat, maxActiveCap: int,
    strategy: Strategy, stickyOn: bool, stickyTtl: int, quotaRetry: int)

  const CURSOR_WIDTH: nat := 0x1_0000_0000_0000_0000
  const STICKY_LIMIT: nat := 10000
  const DEFAULT_TTL := 1800

  // The invariant

  predicate Distinct(ids: seq<string>)
  {
    forall i, j :: 0 <= i < j < |ids| ==> ids[i] != ids[j]
  }

  predicate Named(accounts: map<string, Account>)
  {
    forall id :: id in accounts ==> accounts[id].id == id
  }

  /** The ready list is, without repetition, the accounts that stand ready. */
  ghost predicate ReadyExact(accounts: map<string, Account>, ready: seq<string>)
  {
    && Distinct(ready)
    && (forall id :: id in ready <==> id in accounts && accounts[id].standing == Ready)
  }

  ghost predicate HotBounded(p: Pool)
  {
    && (forall id :: id in p.hot ==> id in p.ready)
    && (if p.activeSize == 0 then p.hot == {} else |p.hot| <= p.activeSize)
  }

  ghost predicate Valid(p: Pool)
  {
    && Named(p.accounts)
    && (forall id :: id in p.accounts ==> p.accounts[id].maxActive >= 1)
    && ReadyExact(p.accounts, p.ready)
    && HotBounded(p)
  }

  // Ready list

  function Remove(ids: seq<string>, id: string): (r: seq<string>)
    ensures forall x :: x in r <==> x in ids && x != id
  {
    if ids == [] then []
    else if ids[|ids| - 1] == id then Remove(ids[..|ids| - 1], id)
    else Remove(ids[..|ids| - 1], id) + [ids[|ids| - 1]]
  }

  lemma {:induction false} RemoveDistinct(ids: seq<string>, id: string)
    requires Distinct(ids)
    ensures Distinct(Remove(ids, id))
  {
    if ids != [] {
      var front := ids[..|ids| - 1];
      RemoveDistinct(front, id);
      assert ids[|ids| - 1] !in front;
      assert ids[|ids| - 1] !in Remove(front, id);
    }
  }

  function RemoveReady(p: Pool, id: string): Pool
  {
    p.(ready := Remove(p.ready, id), hot := p.hot - {id})
  }

  function SetAccount(p: Pool, a: Account): Pool
  {
    p.(accounts := p.accounts[a.id := a])
  }

  lemma HotShrinks(hot: set<string>, id: string)
    ensures |hot - {id}| <= |hot|
  {
    if id in hot {
      assert hot == (hot - {id}) + {id};
    } else {
      assert hot == hot - {id};
    }
  }

  /** Replacing an account by one that stands unavailable, and taking it off the lists. */
  lemma ParkedValid(p: Pool, a: Account)
    requires Valid(p) && a.id in p.accounts && a.standing == Unavailable && a.maxActive >= 1
    ensures Valid(RemoveReady(SetAccount(p, a), a.id))
  {
    RemoveDistinct(p.ready, a.id);
    HotShrinks(p.hot, a.id);
  }

  /** Replacing an account by one of the same standing. */
  lemma SameStandingValid(p: Pool, a: Account)
    requires Valid(p) && a.id in p.accounts && a.standing == p.accounts[a.id].standing && a.maxActive >= 1
    ensures Valid(SetAccount(p, a))
  {
  }

  // Selection

  predicate Eligible(p: Pool, id: string)
  {
    p.activeSize == 0 || id in p.hot || |p.hot| < p.activeSize
  }

  function RetryWindow(p: Pool): int
  {
    if p.quotaRetry <= 0 then DAY else p.quotaRetry
  }

  /** The scan over the ready ids: the pool as parked so far, the best tier found so far. */
  datatype Scan = Scan(pool: Pool, candidates: seq<string>, priority: int)

  function Park(p: Pool, id: string, now: int): Pool
    requires id in p.accounts
  {
    RemoveReady(SetAccount(p, ParkKnownExhausted(p.accounts[id], now, RetryWindow(p))), id).(revision := p.revision + 1)
  }

  predicate Free(p: Pool, id: string)
  {
    id in p.accounts && Available(p.accounts[id]) && Eligible(p, id)
  }

  function ScanOne(sc: Scan, id: string, now: int): Scan
  {
    var p := sc.pool;
    if id !in p.accounts then sc
    else if Parkable(p.accounts[id]) then sc.(pool := Park(p, id, now))
    else if !Free(p, id) then sc
    else
      var priority := p.accounts[id].priority;
      if sc.candidates == [] || priority > sc.priority then Scan(p, [id], priority)
      else if priority == sc.priority then sc.(candidates := sc.candidates + [id])
      else sc
  }

  function ScanAll(sc: Scan, ids: seq<string>, now: int): Scan
  {
    if ids == [] then sc else ScanOne(ScanAll(sc, ids[..|ids| - 1], now), ids[|ids| - 1], now)
  }

  /** The candidates with the fewest requests in flight, in order. */
  function Lightest(accounts: map<string, Account>, ids: seq<string>): (r: seq<string>)
    ensures forall id :: id in r ==> id in ids && id in accounts
    ensures (exists id :: id in ids && id in accounts) ==> r != []
  {
    if ids == [] then []
    else
      var before := Lightest(accounts, ids[..|ids| - 1]);
      var id := ids[|ids| - 1];
      if id !in accounts then before
      else if before == [] || accounts[id].active < accounts[before[0]].active then [id]
      else if accounts[id].active == accounts[before[0]].active then before + [id]
      else before
  }

  /** Byte order on ids. */
  predicate Less(a: string, b: string)
  {
    if a == "" then b != "" else b != "" && (a[0] < b[0] || (a[0] == b[0] && Less(a[1..], b[1..])))
  }

  function Smallest(ids: seq<string>): (r: string)
    requires ids != []
    ensures r in ids
  {
    if |ids| == 1 then ids[0]
    else
      var before := Smallest(ids[..|ids| - 1]);
      if Less(ids[|ids| - 1], before) then ids[|ids| - 1] else before
  }

  function Choose(strategy: Strategy, ids: seq<string>, cursor: nat): (r: string)
    requires ids != []
    ensures r in ids
  {
    match strategy
    case FillFirst => Smallest(ids)
    case RoundRobin => ids[cursor % |ids|]
  }

  function Advance(p: Pool): Pool
  {
    if p.strategy == RoundRobin then p.(cursor := (p.cursor + 1) % CURSOR_WIDTH) else p
  }

  datatype Picked = Picked(pool: Pool, id: Option<string>)

  function Pick(p: Pool, now: int): Picked
  {
    var sc := ScanAll(Scan(p, [], 0), p.ready, now);
    var best := Lightest(sc.pool.accounts, sc.candidates);
    if best == [] then Picked(sc.pool, None)
    else Picked(Advance(sc.pool), Some(Choose(p.strategy, best, p.cursor)))
  }

  // Acquiring

  function EnsureHot(p: Pool, id: string): Pool
  {
    if p.activeSize == 0 then p else p.(hot := p.hot + {id})
  }

  function Prune(sticky: map<string, Sticky>, now: int): map<string, Sticky>
  {
    if |sticky| > STICKY_LIMIT then map k | k in sticky && sticky[k].expiresAt >= now :: sticky[k] else sticky
  }

  function BumpSticky(p: Pool, key: string, id: string, now: int): Pool
  {
    if !p.stickyOn || key == "" then p
    else
      var ttl := if p.stickyTtl <= 0 then DEFAULT_TTL else p.stickyTtl;
      p.(sticky := Prune(p.sticky[key := Sticky(id, now + ttl)], now))
  }

  function Lend(a: Account): Account
  {
    a.(active := a.active + 1, requestCount := a.requestCount + 1)
  }

  function Grant(p: Pool, id: string, key: string, now: int): Pool
    requires id in p.accounts
  {
    BumpSticky(EnsureHot(p.(accounts := p.accounts[id := Lend(p.accounts[id])]), id), key, id, now)
  }

  datatype Outcome = Granted(id: string) | NoReady | Saturated

  datatype Acquired = Acquired(pool: Pool, outcome: Outcome)

  predicate StickyHit(p: Pool, key: string, now: int)
  {
    && p.stickyOn && key != "" && key in p.sticky && p.sticky[key].expiresAt >= now
    && Free(p, p.sticky[key].account)
  }

  predicate StickyStale(p: Pool, key: string, now: int)
  {
    && p.stickyOn && key != "" && key in p.sticky
    && (p.sticky[key].expiresAt < now
        || p.sticky[key].account !in p.accounts
        || p.accounts[p.sticky[key].account].standing != Ready)
  }

  function DropStale(p: Pool, key: string, now: int): Pool
  {
    if StickyStale(p, key, now) then p.(sticky := p.sticky - {key}) else p
  }

  /** One turn of the acquire loop: a lease, a refusal, or the pool is saturated and the caller waits. */
  function Acquire(p: Pool, key: string, now: int): Acquired
  {
    if p.ready == [] then Acquired(p, NoReady)
    else if StickyHit(p, key, now) then
      Acquired(Grant(p, p.sticky[key].account, key, now), Granted(p.sticky[key].account))
    else
      var picked := Pick(DropStale(p, key, now), now);
      if picked.id.Some? && picked.id.value in picked.pool.accounts then
        Acquired(Grant(picked.pool, picked.id.value, key, now), Granted(picked.id.value))
      else Acquired(picked.pool, Saturated)
  }

  // The other operations

  function Clamp(cap: int, n: int): int
  {
    var m := if n <= 0 then 1 else n;
    if cap > 0 && m > cap then cap else m
  }

  function Upsert(p: Pool, item: Account): Pool
  {
    var kept := item.(maxActive := Clamp(p.maxActiveCap, item.maxActive),
                      active := if item.id in p.accounts then p.accounts[item.id].active else item.active);
    var p1 := SetAccount(RemoveReady(p, item.id), kept);
    p1.(ready := if item.standing == Ready then p1.ready + [item.id] else p1.ready, revision := p.revision + 1)
  }

  function Delete(p: Pool, id: string): Pool
  {
    if id !in p.accounts then p
    else RemoveReady(p, id).(accounts := p.accounts - {id}, revision := p.revision + 1)
  }

  /** The due cooldown accounts among `order`, the arbitrary order in which the map is walked. */
  function Due(accounts: map<string, Account>, order: seq<string>, now: int): (due: seq<string>)
    ensures forall id :: id in due <==> id in order && id in accounts && CooldownDue(accounts[id], now)
  {
    if order == [] then []
    else
      var id := order[|order| - 1];
      Due(accounts, order[..|order| - 1], now) + if id in accounts && CooldownDue(accounts[id], now) then [id] else []
  }

  function PromoteDue(p: Pool, now: int, order: seq<string>): Pool
  {
    var due := Due(p.accounts, order, now);
    p.(accounts := map id | id in p.accounts :: if id in due then MarkReady(p.accounts[id]) else p.accounts[id],
       ready := p.ready + due, revision := if due == [] then p.revision else p.revision + 1)
  }

  function ClearSticky(p: Pool, id: string): Pool
  {
    p.(sticky := map k | k in p.sticky && p.sticky[k].account != id :: p.sticky[k])
  }

  function MoveUnavailable(p: Pool, id: string, reason: Reason, retryAt: Option<int>, errorCode: string): Pool
  {
    if id !in p.accounts then p
    else
      var a := p.accounts[id];
      var changed := a.standing != Unavailable || a.reason != reason || a.retryAt != retryAt || a.errorCode != errorCode;
      var p1 := ClearSticky(RemoveReady(SetAccount(p, MarkUnavailable(a, reason, retryAt, errorCode)), id), id);
      p1.(revision := if changed then p.revision + 1 else p.revision)
  }

  function Record(p: Pool, id: string, actual: int, limit: int): Pool
  {
    if id !in p.accounts then p else SetAccount(p, RecordUsage(p.accounts[id], actual, limit))
  }

  function Release(p: Pool, id: string): Pool
  {
    if id in p.accounts && p.accounts[id].active > 0
    then SetAccount(p, p.accounts[id].(active := p.accounts[id].active - 1)) else p
  }

  function ApplyMaxActive(p: Pool, n: int): Pool
  {
    var cap := if n <= 0 then 1 else n;
    p.(maxActiveCap := cap,
       accounts := map id | id in p.accounts :: p.accounts[id].(maxActive :=
         if p.accounts[id].maxActive <= 0 || p.accounts[id].maxActive > cap then cap else p.accounts[id].maxActive))
  }

  /** `keep` is what is left of the hot set: which ids survive a smaller cap is arbitrary. */
  function ApplyActiveSize(p: Pool, n: int, keep: set<string>): Pool
  {
    var size := if n < 0 then 0 else n;
    p.(activeSize := size, hot := if size == 0 then {} else if |p.hot| > size then keep else p.hot)
  }

  predicate Keepable(p: Pool, n: int, keep: set<string>)
  {
    keep <= p.hot && (0 < n < |p.hot| ==> |keep| == n)
  }

  /** The pool built from stored accounts. */
  function Load(items: seq<Account>): Pool
  {
    if items == [] then
      Pool(map[], [], {}, map[], 1, 0, 0, 0, RoundRobin, true, DEFAULT_TTL, DAY)
    else
      var p := Load(items[..|items| - 1]);
      var item := items[|items| - 1];
      SetAccount(p, item.(maxActive := if item.maxActive <= 0 then 1 else item.maxActive))
        .(ready := if item.standing == Ready then p.ready + [item.id] else p.ready)
  }

  // Failure streaks and the earliest deadline

  function FailStreak(streaks: map<string, nat>, id: string): nat
  {
    if Trim(id) != "" && id in streaks then streaks[id] else 0
  }

  function NoteFailure(streaks: map<string, nat>, id: string): map<string, nat>
  {
    if Trim(id) == "" then streaks else streaks[id := FailStreak(streaks, id) + 1]
  }

  function NoteSuccess(streaks: map<string, nat>, id: string): map<string, nat>
  {
    if Trim(id) == "" then streaks else streaks - {id}
  }

  predicate Waiting(a: Account)
  {
    a.standing == Unavailable && a.retryAt.Some?
  }

  /** `t` is the least deadline of the waiting accounts among `ids`; none if none waits. */
  predicate EarliestAmong(accounts: map<string, Account>, ids: set<string>, t: Option<int>)
  {
    && (forall id :: id in ids && id in accounts && Waiting(accounts[id]) ==> t.Some? && t.value <= accounts[id].retryAt.value)
    && (t.Some? ==> exists id :: id in ids && id in accounts && Waiting(accounts[id]) && accounts[id].retryAt == t)
  }

  predicate IsEarliest(p: Pool, t: Option<int>)
  {
    EarliestAmong(p.accounts, p.accounts.Keys, t)
  }

  lemma {:induction false} EarliestExists(accounts: map<string, Account>, ids: set<string>)
    ensures exists t :: EarliestAmong(accounts, ids, t)
    decreases ids
  {
    if ids == {} {
      assert EarliestAmong(accounts, ids, None);
    } else {
      var id :| id in ids;
      EarliestExists(accounts, ids - {id});
      var t :| EarliestAmong(accounts, ids - {id}, t);
      if id in accounts && Waiting(accounts[id]) && (t.None? || accounts[id].retryAt.value < t.value) {
        assert EarliestAmong(accounts, ids, accounts[id].retryAt);
      } else {
        assert EarliestAmong(accounts, ids, t);
      }
    }
  }

  lemma EarliestUnique(p: Pool, t: Option<int>, u: Option<int>)
    requires IsEarliest(p, t) && IsEarliest(p, u)
    ensures t == u
  {
  }

  ghost function Earliest(p: Pool): (t: Option<int>)
    ensures IsEarliest(p, t)
  {
    EarliestExists(p.accounts, p.accounts.Keys);
    var t :| EarliestAmong(p.accounts, p.accounts.Keys, t);
    t
  }

  // Every operation keeps the invariant

  lemma {:induction false} LoadValid(items: seq<Account>)
    requires forall i, j :: 0 <= i < j < |items| ==> items[i].id != items[j].id
    ensures Valid(Load(items))
    ensures forall id :: id in Load(items).accounts <==> exists i :: 0 <= i < |items| && items[i].id == id
    ensures Load(items).hot == {} && Load(items).activeSize == 0
  {
    if items != [] {
      var front, item := items[..|items| - 1], items[|items| - 1];
      LoadValid(front);
      var p := Load(front);
      assert item.id !in p.accounts by {
        forall i | 0 <= i < |front| ensures front[i].id != item.id {
          assert items[i].id != items[|items| - 1].id;
        }
      }
      forall id ensures id in Load(items).accounts <==> exists i :: 0 <= i < |items| && items[i].id == id {
        if id in p.accounts {
          var i :| 0 <= i < |front| && front[i].id == id;
          assert items[i].id == id;
        }
        if i :| 0 <= i < |items| && items[i].id == id {
          if i < |front| { assert front[i].id == id; }
        }
      }
    }
  }

  lemma ScanOneValid(sc: Scan, id: string, now: int)
    requires Valid(sc.pool)
    ensures Valid(ScanOne(sc, id, now).pool)
  {
    var p := sc.pool;
    if id in p.accounts && Parkable(p.accounts[id]) {
      ParkedValid(p, ParkKnownExhausted(p.accounts[id], now, RetryWindow(p)));
    }
  }

  lemma GrantValid(p: Pool, id: string, key: string, now: int)
    requires Valid(p) && id in p.accounts && p.accounts[id].standing == Ready && Eligible(p, id)
    ensures Valid(Grant(p, id, key, now))
    ensures p.activeSize > 0 ==> id in Grant(p, id, key, now).hot
  {
    SameStandingValid(p, Lend(p.accounts[id]));
    if id in p.hot {
      assert p.hot + {id} == p.hot;
    }
  }

  /** Replacing an account and listing it again, if it stands ready, keeps the ready list exact. */
  lemma Relisted(accounts: map<string, Account>, ready: seq<string>, id: string, a: Account)
    requires ReadyExact(accounts, ready)
    ensures ReadyExact(accounts[id := a], Remove(ready, id) + if a.standing == Ready then [id] else [])
  {
    var gone := Remove(ready, id);
    RemoveDistinct(ready, id);
    DistinctAppend(gone, if a.standing == Ready then [id] else []);
  }

  lemma UpsertParts(p: Pool, item: Account)
    ensures var q := Upsert(p, item); var a := q.accounts[item.id]; var gone := Remove(p.ready, item.id);
            && a.id == item.id && a.standing == item.standing && a.maxActive == Clamp(p.maxActiveCap, item.maxActive)
            && q == p.(accounts := p.accounts[item.id := a], hot := p.hot - {item.id}, revision := p.revision + 1,
                       ready := gone + if a.standing == Ready then [item.id] else [])
  {
    hide Remove;
    assert Remove(p.ready, item.id) + [] == Remove(p.ready, item.id);
  }

  lemma UpsertValid(p: Pool, item: Account)
    requires Valid(p)
    ensures Valid(Upsert(p, item))
  {
    hide ReadyExact, Upsert;
    var q := Upsert(p, item);
    UpsertParts(p, item);
    Relisted(p.accounts, p.ready, item.id, q.accounts[item.id]);
    HotShrinks(p.hot, item.id);
    forall id | id in q.hot ensures id in q.ready {
      assert id in Remove(p.ready, item.id);
    }
  }

  lemma DeleteValid(p: Pool, id: string)
    requires Valid(p)
    ensures Valid(Delete(p, id))
  {
    RemoveDistinct(p.ready, id);
    HotShrinks(p.hot, id);
  }

  lemma {:induction false} DueDistinct(accounts: map<string, Account>, order: seq<string>, now: int)
    requires Distinct(order)
    ensures Distinct(Due(accounts, order, now))
  {
    if order != [] {
      DueDistinct(accounts, order[..|order| - 1], now);
      assert order[|order| - 1] !in order[..|order| - 1];
    }
  }

  lemma DistinctAppend(a: seq<string>, b: seq<string>)
    requires Distinct(a) && Distinct(b) && forall id :: id in a ==> id !in b
    ensures Distinct(a + b)
  {
    forall i, j | 0 <= i < j < |a + b| ensures (a + b)[i] != (a + b)[j] {
      if i < |a| <= j {
        assert (a + b)[i] in a && (a + b)[j] in b;
      }
    }
  }

  /** `order` walks the whole map once. */
  ghost predicate Walks(p: Pool, order: seq<string>)
  {
    Distinct(order) && forall id :: id in order <==> id in p.accounts
  }

  lemma PromoteValid(p: Pool, now: int, order: seq<string>)
    requires Valid(p) && Walks(p, order)
    ensures Valid(PromoteDue(p, now, order))
  {
    DueDistinct(p.accounts, order, now);
    DistinctAppend(p.ready, Due(p.accounts, order, now));
  }

  lemma MoveValid(p: Pool, id: string, reason: Reason, retryAt: Option<int>, errorCode: string)
    requires Valid(p)
    ensures Valid(MoveUnavailable(p, id, reason, retryAt, errorCode))
  {
    if id in p.accounts {
      ParkedValid(p, MarkUnavailable(p.accounts[id], reason, retryAt, errorCode));
    }
  }

  lemma ActiveSizeValid(p: Pool, n: int, keep: set<string>)
    requires Valid(p) && Keepable(p, n, keep)
    ensures Valid(ApplyActiveSize(p, n, keep))
  {
  }

  lemma MaxActiveValid(p: Pool, n: int)
    requires Valid(p)
    ensures Valid(ApplyMaxActive(p, n))
  {
  }
}
