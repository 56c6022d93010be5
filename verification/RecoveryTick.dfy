/**
 Whole recovery ticks: every pass visits accounts of the store and files the outcome in
 store and pool. Whatever upstream answers and whichever saves fail, an account only
 comes back when its time has come, and never once it is disabled.
 */
module RecoveryTick {
  import opened Basics
  import opened Accounts
  import opened Pools

  datatype PassKind = IsolateAuth | IsolateSpent | RecoverQuota | RecoverValidating | RefreshExpiring | RecoverCredentials

  /** The answers a visit may get: refreshing fails or not, validation fails or reports a reason. */
  datatype Answer = Answer(refreshFails: bool, permanent: bool, validationFails: bool, reason: Reason, code: string)

  /** The configured retry, and the accounts whose tokens are about to expire or can be refreshed at all. */
  datatype Env = Env(quotaRetry: int, expiring: set<string>, refreshable: set<string>)

  const DISABLED_RETRY := 31536000
  const COOLDOWN_RETRY := 45
  const VALIDATING_RETRY := 45
  const TRANSIENT_RETRY := 300
  const VALIDATION_RETRY := 600
  const RECHECK := 7200
  const MAX_VALIDATING_FAILS := 12

  predicate Unrecoverable(code: string)
  {
    Lower(Trim(code)) == "refresh-revoked" || Lower(Trim(code)) == "invalid_grant"
  }

  predicate Elapsed(a: Account, now: int)
  {
    a.retryAt.None? || a.retryAt.value <= now
  }

  // Transitions

  function DisableRevoked(a: Account, now: int, code: string): Account
  {
    MarkUnavailable(a, Disabled, Some(now + DISABLED_RETRY), if code == "" then "refresh-revoked" else code)
  }

  function RecoverValidated(a: Account): Account
  {
    MarkReady(a).(authFails := 0)
  }

  function RefreshFailure(a: Account, permanent: bool, now: int): Account
  {
    var b := a.(authFails := a.authFails + 1);
    if permanent then DisableRevoked(b, now, "")
    else MarkUnavailable(b, Auth, Some(now + TRANSIENT_RETRY), "refresh-failed")
  }

  function CredentialRetryAt(reason: Reason, now: int): Option<int>
  {
    match reason
    case Quota => Some(now + DAY)
    case Cooldown => Some(now + COOLDOWN_RETRY)
    case Validating => Some(now + VALIDATING_RETRY)
    case Auth => Some(now + TRANSIENT_RETRY)
    case Disabled => Some(now + DISABLED_RETRY)
    case NoReason => None
  }

  function ReasonName(reason: Reason): string
  {
    match reason
    case NoReason => ""
    case Quota => "quota"
    case Auth => "auth"
    case Cooldown => "cooldown"
    case Validating => "validating"
    case Disabled => "disabled"
  }

  function StillInvalid(a: Account, answer: Answer, now: int): Account
    requires answer.reason != NoReason
  {
    var code := if answer.code != "" then answer.code else ReasonName(answer.reason);
    var b := a.(authFails := a.authFails + 1, errorCode := code);
    if answer.reason == Quota then MarkUnavailable(b, Quota, Some(now + RECHECK), code)
    else if answer.reason == Cooldown then MarkUnavailable(b, Cooldown, Some(now + COOLDOWN_RETRY), code)
    else if answer.reason == Auth || b.authFails >= MAX_VALIDATING_FAILS then MarkUnavailable(b, Auth, Some(now + TRANSIENT_RETRY), code)
    else MarkUnavailable(b, Validating, Some(now + VALIDATING_RETRY), code)
  }

  function Revalidated(a: Account, answer: Answer, now: int): Account
  {
    if answer.validationFails then
      a.(authFails := a.authFails + 1, errorCode := "validation-failed", retryAt := Some(now + VALIDATING_RETRY))
    else if answer.reason == NoReason then RecoverValidated(a)
    else StillInvalid(a, answer, now)
  }

  function Renewed(a: Account, answer: Answer, now: int): Account
  {
    if answer.refreshFails then RefreshFailure(a, answer.permanent, now)
    else if answer.validationFails then MarkUnavailable(a, Auth, Some(now + VALIDATION_RETRY), "validation-failed")
    else if answer.reason == NoReason then RecoverValidated(a)
    else if Unrecoverable(answer.code) then DisableRevoked(a, now, answer.code)
    else MarkUnavailable(a, answer.reason, CredentialRetryAt(answer.reason, now), answer.code)
  }

  /** What a pass makes of a listed account; none if it skips it. */
  function Visited(pass: PassKind, a: Account, answer: Answer, now: int, env: Env): Option<Account>
  {
    match pass
    case IsolateAuth =>
      if a.standing == Unavailable && Unrecoverable(a.errorCode) && a.reason != Disabled
      then Some(DisableRevoked(a, now, a.errorCode)) else None
    case IsolateSpent =>
      if Parkable(a) then Some(ParkKnownExhausted(a, now, env.quotaRetry)) else None
    case RecoverQuota =>
      if a.standing == Unavailable && a.reason == Quota && Elapsed(a, now) then Some(RecoverQuotaWindow(a)) else None
    case RecoverValidating =>
      if a.standing == Unavailable && a.reason == Validating && Elapsed(a, now) then Some(Revalidated(a, answer, now)) else None
    case RefreshExpiring =>
      if a.standing == Ready && a.id in env.expiring then Some(if answer.refreshFails then RefreshFailure(a, answer.permanent, now) else MarkReady(a)) else None
    case RecoverCredentials =>
      if a.standing != Unavailable || a.reason != Auth || a.id !in env.refreshable then None
      else if Unrecoverable(a.errorCode) then Some(DisableRevoked(a, now, a.errorCode))
      else if Elapsed(a, now) then Some(Renewed(a, answer, now)) else None
  }

  // The tick

  /** The store's records and the pool. */
  datatype Books = Books(store: map<string, Account>, pool: Pool)

  datatype Step =
    | PromoteAll(order: seq<string>, refused: set<string>)
    | Visit(pass: PassKind, id: string, answer: Answer, saveFails: bool)

  function Take(b: Books, step: Step, now: int, env: Env): Books
  {
    match step
    case PromoteAll(order, refused) =>
      var q := PromoteDue(b.pool, now, order);
      var saved := set id | id in Due(b.pool.accounts, order, now) && id !in refused;
      Books(map id | id in b.store.Keys + saved :: if id in saved then q.accounts[id] else b.store[id], q)
    case Visit(pass, id, answer, saveFails) =>
      if id !in b.store then b
      else
        var seen := Visited(pass, b.store[id], answer, now, env);
        if seen.None? || saveFails then b
        else Books(b.store[id := seen.value], Upsert(b.pool, seen.value))
  }

  function TakeAll(b: Books, steps: seq<Step>, now: int, env: Env): Books
  {
    if steps == [] then b
    else Take(TakeAll(b, steps[..|steps| - 1], now, env), steps[|steps| - 1], now, env)
  }

  // Only in time

  /** Parked for a reason the tick can lift, and its time has come. */
  predicate Ripe(a: Account, now: int)
  {
    && a.standing == Unavailable
    && match a.reason
       case Cooldown => a.retryAt.Some? && a.retryAt.value <= now
       case Quota => Elapsed(a, now)
       case Validating => Elapsed(a, now)
       case Auth => Elapsed(a, now)
       case Disabled => false
       case NoReason => false
  }

  predicate MayServe(a: Account, now: int)
  {
    a.standing == Ready || Ripe(a, now)
  }

  /** Nothing comes back, or comes due, that was neither serving nor due. */
  predicate Evolves(a: Account, b: Account, now: int)
  {
    MayServe(b, now) ==> MayServe(a, now)
  }

  predicate Kin(a: Account, b: Account)
  {
    a.standing == b.standing && a.reason == b.reason && a.retryAt == b.retryAt
  }

  /** The pool shows the standing the store has on record. */
  ghost predicate Mirrored(b: Books)
  {
    forall id :: id in b.store && id in b.pool.accounts ==> Kin(b.store[id], b.pool.accounts[id])
  }

  ghost predicate Filed(b: Books)
  {
    Named(b.store) && Named(b.pool.accounts)
  }

  /** The record the tick started from. */
  function Origin(b: Books, id: string): Account
    requires id in b.store || id in b.pool.accounts
  {
    if id in b.store then b.store[id] else b.pool.accounts[id]
  }

  ghost predicate Descends(b0: Books, b: Books, now: int)
  {
    && Filed(b)
    && (forall id :: id in b.store ==>
          (id in b0.store || id in b0.pool.accounts) && Evolves(Origin(b0, id), b.store[id], now))
    && (forall id :: id in b.pool.accounts ==>
          (id in b0.store || id in b0.pool.accounts) && Evolves(Origin(b0, id), b.pool.accounts[id], now))
  }

  /** A visited account keeps its id; it was serving or due, or it neither serves nor is due after the visit. */
  lemma VisitEvolves(pass: PassKind, a: Account, answer: Answer, now: int, env: Env)
    ensures var v := Visited(pass, a, answer, now, env); v.Some? ==> v.value.id == a.id && Evolves(a, v.value, now)
  {
    hide Unrecoverable;
  }

  /** No visit ever touches a disabled account. */
  lemma DisabledSkipped(pass: PassKind, a: Account, answer: Answer, now: int, env: Env)
    requires a.standing == Unavailable && a.reason == Disabled
    ensures Visited(pass, a, answer, now, env) == None
  {
    hide Unrecoverable;
  }

  lemma UpsertShape(p: Pool, item: Account)
    ensures var q := Upsert(p, item);
            && q.accounts.Keys == p.accounts.Keys + {item.id}
            && (forall id :: id in p.accounts && id != item.id ==> q.accounts[id] == p.accounts[id])
            && Kin(q.accounts[item.id], item) && q.accounts[item.id].id == item.id
  {
    hide Remove;
  }

  lemma PromoteDescends(b0: Books, b: Books, order: seq<string>, refused: set<string>, now: int, env: Env)
    requires Descends(b0, b, now)
    ensures Descends(b0, Take(b, PromoteAll(order, refused), now, env), now)
  {
    hide Due, Origin;
  }

  lemma FileDescends(b0: Books, b: Books, item: Account, now: int)
    requires Descends(b0, b, now) && item.id in b.store && Evolves(b.store[item.id], item, now)
    ensures Descends(b0, Books(b.store[item.id := item], Upsert(b.pool, item)), now)
  {
    hide Upsert, Origin, MayServe;
    UpsertShape(b.pool, item);
    KinServes(item, Upsert(b.pool, item).accounts[item.id], now);
    var b1 := Books(b.store[item.id := item], Upsert(b.pool, item));
    assert Filed(b1);
  }

  lemma KinServes(a: Account, b: Account, now: int)
    requires Kin(a, b)
    ensures MayServe(a, now) == MayServe(b, now)
  {
  }

  lemma TakeDescends(b0: Books, b: Books, step: Step, now: int, env: Env)
    requires Descends(b0, b, now)
    ensures Descends(b0, Take(b, step, now, env), now)
  {
    hide Descends, Visited, Upsert, Due, Evolves;
    match step
    case PromoteAll(order, refused) => PromoteDescends(b0, b, order, refused, now, env);
    case Visit(pass, id, answer, saveFails) =>
      if id in b.store {
        NamedInStore(b0, b, id, now);
        VisitEvolves(pass, b.store[id], answer, now, env);
        var v := Visited(pass, b.store[id], answer, now, env);
        if v.Some? { FileDescends(b0, b, v.value, now); }
      }
  }

  lemma NamedInStore(b0: Books, b: Books, id: string, now: int)
    requires Descends(b0, b, now) && id in b.store
    ensures b.store[id].id == id
  {
  }

  lemma {:induction false} TakeAllDescends(b: Books, steps: seq<Step>, now: int, env: Env)
    requires Filed(b) && Mirrored(b)
    ensures Descends(b, TakeAll(b, steps, now, env), now)
  {
    hide Take, Filed;
    if steps == [] {
    } else {
      TakeAllDescends(b, steps[..|steps| - 1], now, env);
      TakeDescends(b, TakeAll(b, steps[..|steps| - 1], now, env), steps[|steps| - 1], now, env);
    }
  }

  /**
   With books that mirror each other: an account that is ready at the end of any tick, in
   the store or in the pool, was ready or due at the start.
   */
  lemma OnlyRipeMirrored(b: Books, steps: seq<Step>, now: int, env: Env, id: string)
    requires Filed(b) && Mirrored(b)
    ensures var after := TakeAll(b, steps, now, env);
            && (id in after.store && after.store[id].standing == Ready ==>
                  (id in b.store || id in b.pool.accounts) && MayServe(Origin(b, id), now))
            && (id in after.pool.accounts && after.pool.accounts[id].standing == Ready ==>
                  (id in b.store || id in b.pool.accounts) && MayServe(Origin(b, id), now))
  {
    TakeAllDescends(b, steps, now, env);
  }

  // Account by account, whatever the books

  /** A record that one visit can turn into, or confirm as, a ready one. */
  predicate Renewable(a: Account, now: int, env: Env)
  {
    if a.standing == Ready then a.id in env.expiring
    else
      && Elapsed(a, now)
      && (a.reason == Quota || a.reason == Validating
          || (a.reason == Auth && a.id in env.refreshable && !Unrecoverable(a.errorCode)))
  }

  /** A ready record without quota whose old deadline is this very instant: parking it keeps that deadline. */
  predicate Borderline(a: Account, now: int)
  {
    Parkable(a) && a.retryAt == Some(now)
  }

  /** A record that the passes of one tick can put back into service. */
  predicate Liftable(a: Account, now: int, env: Env)
  {
    Renewable(a, now, env) || Borderline(a, now)
  }

  /** The visit that renews a record when every answer is good. */
  function Renewing(a: Account): Step
  {
    Visit(if a.standing == Ready then RefreshExpiring
          else if a.reason == Quota then RecoverQuota
          else if a.reason == Validating then RecoverValidating
          else RecoverCredentials, a.id, WELL, false)
  }

  const WELL := Answer(false, false, false, NoReason, "")

  lemma RenewingRenews(a: Account, now: int, env: Env)
    requires Renewable(a, now, env)
    ensures var v := Visited(Renewing(a).pass, a, WELL, now, env); v.Some? && v.value.standing == Ready && v.value.id == a.id
  {
    hide Unrecoverable;
  }

  /** A record that cannot be lifted is not made ready by a visit, nor due, nor so that it can be lifted. */
  lemma UnliftableVisited(pass: PassKind, a: Account, answer: Answer, now: int, env: Env)
    requires !Liftable(a, now, env)
    ensures var v := Visited(pass, a, answer, now, env);
            v.Some? ==> v.value.id == a.id && !MayServe(v.value, now) && !Liftable(v.value, now, env)
  {
    hide Unrecoverable;
  }

  /** The pool's record is out of service before its time and the store has none to lift. */
  ghost predicate Held(b: Books, id: string, now: int, env: Env)
  {
    && Filed(b) && id in b.pool.accounts && !MayServe(b.pool.accounts[id], now)
    && (id in b.store ==> !Liftable(b.store[id], now, env))
  }

  lemma HeldVisit(b: Books, pass: PassKind, x: string, answer: Answer, saveFails: bool, now: int, env: Env, id: string)
    requires Held(b, id, now, env)
    ensures Held(Take(b, Visit(pass, x, answer, saveFails), now, env), id, now, env)
  {
    hide Visited, Upsert;
    if x in b.store {
      VisitEvolves(pass, b.store[x], answer, now, env);
      if x == id { UnliftableVisited(pass, b.store[x], answer, now, env); }
      var v := Visited(pass, b.store[x], answer, now, env);
      if v.Some? { UpsertShape(b.pool, v.value); }
    }
  }

  lemma HeldPromote(b: Books, order: seq<string>, refused: set<string>, now: int, env: Env, id: string)
    requires Held(b, id, now, env)
    ensures Held(Take(b, PromoteAll(order, refused), now, env), id, now, env)
  {
    hide Due, Liftable;
  }

  lemma {:induction false} HeldStays(b: Books, steps: seq<Step>, now: int, env: Env, id: string)
    requires Held(b, id, now, env)
    ensures Held(TakeAll(b, steps, now, env), id, now, env)
  {
    hide Take, Held;
    if steps != [] {
      HeldStays(b, steps[..|steps| - 1], now, env, id);
      var m := TakeAll(b, steps[..|steps| - 1], now, env);
      match steps[|steps| - 1]
      case PromoteAll(order, refused) => HeldPromote(m, order, refused, now, env, id);
      case Visit(pass, x, answer, saveFails) => HeldVisit(m, pass, x, answer, saveFails, now, env, id);
    }
  }

  /** After `steps` the pool has `id` in service. */
  predicate Serving(b: Books, steps: seq<Step>, now: int, env: Env, id: string)
  {
    var after := TakeAll(b, steps, now, env);
    id in after.pool.accounts && after.pool.accounts[id].standing == Ready
  }

  /** One visit with good answers serves a renewable record. */
  lemma RenewedServes(b: Books, steps: seq<Step>, now: int, env: Env, id: string)
    requires var m := TakeAll(b, steps, now, env); Named(m.store) && id in m.store && Renewable(m.store[id], now, env)
    ensures Serving(b, steps + [Renewing(TakeAll(b, steps, now, env).store[id])], now, env, id)
  {
    hide Visited, Upsert, Renewing;
    var m := TakeAll(b, steps, now, env);
    var step := Renewing(m.store[id]);
    RenewingIs(m.store[id]);
    assert (steps + [step])[..|steps|] == steps;
    RenewingRenews(m.store[id], now, env);
    UpsertShape(m.pool, Visited(step.pass, m.store[id], WELL, now, env).value);
  }

  lemma RenewingIs(a: Account)
    ensures Renewing(a).Visit? && Renewing(a).id == a.id && Renewing(a).answer == WELL && !Renewing(a).saveFails
  {
  }

  /** Some tick serves a liftable record: one visit, or parking and then recovering a borderline one. */
  lemma LiftedServes(b: Books, now: int, env: Env, id: string)
    requires Filed(b) && id in b.store && Liftable(b.store[id], now, env)
    ensures exists steps: seq<Step> :: Serving(b, steps, now, env, id)
  {
    hide Visited, Upsert, Renewing, Serving;
    assert TakeAll(b, [], now, env) == b;
    if Renewable(b.store[id], now, env) {
      RenewedServes(b, [], now, env, id);
    } else {
      var park := Visit(IsolateSpent, id, WELL, false);
      assert [park][..0] == [];
      BorderlineParks(b.store[id], now, env);
      assert TakeAll(b, [park], now, env).store == b.store[id := Visited(IsolateSpent, b.store[id], WELL, now, env).value];
      RenewedServes(b, [park], now, env, id);
    }
  }

  lemma BorderlineParks(a: Account, now: int, env: Env)
    requires Borderline(a, now)
    ensures var v := Visited(IsolateSpent, a, WELL, now, env); v.Some? && v.value.id == a.id && Renewable(v.value, now, env)
  {
  }

  /**
   No tick, in whatever order its passes visit accounts, whatever upstream answers and
   whichever saves fail, puts an account of the pool back into service before its time,
   exactly if the store has no record of it that could be lifted while the pool's is not
   yet due.
   */
  lemma OnlyRipeReturn(b: Books, now: int, env: Env, id: string)
    requires Filed(b) && id in b.pool.accounts
    ensures (forall steps: seq<Step> :: Serving(b, steps, now, env, id) ==> MayServe(b.pool.accounts[id], now))
            <==> (id in b.store && Liftable(b.store[id], now, env) ==> MayServe(b.pool.accounts[id], now))
  {
    hide Liftable, MayServe, Serving;
    if !MayServe(b.pool.accounts[id], now) {
      if id in b.store && Liftable(b.store[id], now, env) {
        LiftedServes(b, now, env, id);
      } else {
        forall steps: seq<Step> ensures !Serving(b, steps, now, env, id) {
          HeldStays(b, steps, now, env, id);
          HeldIdle(b, steps, now, env, id);
        }
      }
    }
  }

  lemma HeldIdle(b: Books, steps: seq<Step>, now: int, env: Env, id: string)
    requires Held(TakeAll(b, steps, now, env), id, now, env)
    ensures !Serving(b, steps, now, env, id)
  {
    hide TakeAll;
  }

  /** The books show `id` with these records. */
  ghost predicate Shows(b: Books, id: string, stored: Account, pooled: Account)
  {
    Filed(b) && id in b.store && b.store[id] == stored && id in b.pool.accounts && b.pool.accounts[id] == pooled
  }

  lemma DisabledKept(b: Books, step: Step, now: int, env: Env, id: string, stored: Account, pooled: Account)
    requires Shows(b, id, stored, pooled) && stored.standing == Unavailable && stored.reason == Disabled && Kin(stored, pooled)
    ensures Shows(Take(b, step, now, env), id, stored, pooled)
  {
    hide Visited, Upsert;
    if step.Visit? && step.id in b.store {
      var seen := b.store[step.id];
      DisabledSkipped(step.pass, stored, step.answer, now, env);
      VisitEvolves(step.pass, seen, step.answer, now, env);
      var v := Visited(step.pass, seen, step.answer, now, env);
      if v.Some? { UpsertShape(b.pool, v.value); }
    }
  }

  /** A disabled account leaves the tick exactly as it entered it. */
  lemma {:induction false} DisabledStays(b: Books, steps: seq<Step>, now: int, env: Env, id: string)
    requires Filed(b) && id in b.store && id in b.pool.accounts
    requires b.store[id].standing == Unavailable && b.store[id].reason == Disabled && Kin(b.store[id], b.pool.accounts[id])
    ensures Shows(TakeAll(b, steps, now, env), id, b.store[id], b.pool.accounts[id])
  {
    hide Take;
    if steps != [] {
      DisabledStays(b, steps[..|steps| - 1], now, env, id);
      DisabledKept(TakeAll(b, steps[..|steps| - 1], now, env), steps[|steps| - 1], now, env, id,
                   b.store[id], b.pool.accounts[id]);
    }
  }

  /**
   It does happen: when the store still has an account ready that the pool has parked,
   refreshing its token puts it back into service before its time.
   */
  lemma StaleStoreExample(now: int, env: Env)
    requires "a" in env.expiring
    ensures var b := StaleBooks(now);
            var after := Take(b, Visit(RefreshExpiring, "a", Answer(false, false, false, NoReason, ""), false), now, env);
            && Filed(b) && !Mirrored(b) && Liftable(b.store["a"], now, env)
            && !MayServe(b.pool.accounts["a"], now) && after.pool.accounts["a"].standing == Ready
  {
    hide Upsert;
    var b := StaleBooks(now);
    assert Visited(RefreshExpiring, b.store["a"], Answer(false, false, false, NoReason, ""), now, env) == Some(b.store["a"]);
    UpsertShape(b.pool, b.store["a"]);
  }

  function StaleBooks(now: int): Books
  {
    var a := Account("a", Ready, NoReason, None, "", 0, 0, 0, 0, 0, 1, 0);
    Books(map["a" := a],
          Pool(map["a" := MarkUnavailable(a, Quota, Some(now + DAY), "")], [], {}, map[], 1, 0, 0, 0, RoundRobin, true, DEFAULT_TTL, DAY))
  }
}
