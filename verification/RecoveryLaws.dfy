/**
 What recovery makes of the records, field by field: what a quota pass restores, which
 accounts each visit of a tick takes up, and under which reason, code and deadline they
 stand afterwards.
 */
module RecoveryLaws {
  import opened Basics
  import opened Accounts
  import opened PoolLaws
  import P = Pools
  import R = Recovery
  import opened PickLaws
  import T = RecoveryTick

  // Which accounts a pass takes

  predicate Due(a: Account, now: int)
  {
    a.retryAt.Some? ==> a.retryAt.value <= now
  }

  /** Parked for quota until now at the latest. */
  predicate DueForQuota(a: Account, now: int)
  {
    a.standing == Unavailable && a.reason == Quota && Due(a, now)
  }

  /** Waiting for longer: no deadline at all, an earlier one, or the smaller id at the same one. */
  ghost predicate Older(a: Account, b: Account)
  {
    if a.retryAt.None? then b.retryAt.Some? || Precedes(a.id, b.id)
    else b.retryAt.Some? && (a.retryAt.value < b.retryAt.value || (a.retryAt == b.retryAt && Precedes(a.id, b.id)))
  }

  lemma OlderIs(a: Account, b: Account)
    ensures R.Before(a, b) <==> Older(a, b)
  {
    LessPrecedes(a.id, b.id);
  }

  /** A pass takes only due accounts, at most 256, and leaves one waiting only if all those it takes have waited for longer. */
  lemma ChosenTells(accounts: seq<Account>, now: int)
    requires R.DistinctIds(accounts)
    ensures var c := R.Chosen(accounts, now);
      && |c| <= 256 && (forall a :: a in c ==> a in accounts && DueForQuota(a, now))
      && (forall b :: b in accounts && DueForQuota(b, now) && b !in c ==> |c| == 256 && forall a :: a in c ==> !Older(b, a))
  {
    hide R.Chosen, R.Before, Older;
    R.ChosenOldest(accounts, now);
    var c := R.Chosen(accounts, now);
    forall b | b in accounts && DueForQuota(b, now) && b !in c ensures |c| == 256 && forall a :: a in c ==> !Older(b, a) {
      ChosenFull(accounts, now, b);
      forall a | a in c ensures !Older(b, a) { OlderIs(b, a); }
    }
  }

  lemma ChosenFull(accounts: seq<Account>, now: int, b: Account)
    requires b in accounts && R.QuotaDue(b, now) && b !in R.Chosen(accounts, now)
    ensures |R.Chosen(accounts, now)| == 256
  {
    hide R.Sorted, R.QuotaDue;
    var due := R.Candidates(accounts, now);
    var all := R.Sorted(due);
    assert b in multiset(due) && b in multiset(all);
  }

  // The quota pass

  /** Back in service with a new window; limit, counters and priority as they were. */
  predicate Restored(a: Account, b: Account)
  {
    b == a.(standing := Ready, reason := NoReason, retryAt := None, errorCode := "", quotaActual := 0)
  }

  /** The pool's record of a restored account: its own requests in flight, its limit within the pool's cap. */
  predicate RestoredInPool(a: Account, b: Account, p: P.Pool)
  {
    && b == a.(standing := Ready, reason := NoReason, retryAt := None, errorCode := "", quotaActual := 0,
               active := b.active, maxActive := b.maxActive)
    && b.active == (if a.id in p.accounts then p.accounts[a.id].active else a.active)
    && b.maxActive >= 1 && (p.maxActiveCap > 0 ==> b.maxActive <= p.maxActiveCap)
    && (1 <= a.maxActive && (p.maxActiveCap > 0 ==> a.maxActive <= p.maxActiveCap) ==> b.maxActive == a.maxActive)
  }

  /** Available again as soon as one of its places is free. */
  lemma RestoredServes(a: Account, b: Account, p: P.Pool)
    requires RestoredInPool(a, b, p)
    ensures !Spent(b) && !Parkable(b) && (Available(b) <==> b.active < b.maxActive)
  {
  }

  lemma RestoredSince(a: Account, b: Account, p: P.Pool, m: P.Pool)
    requires RestoredInPool(a, b, m) && m.maxActiveCap == p.maxActiveCap
    requires a.id in m.accounts <==> a.id in p.accounts
    requires a.id in p.accounts ==> m.accounts[a.id] == p.accounts[a.id]
    ensures RestoredInPool(a, b, p)
  {
  }

  /** Readying accounts one after the other restores each of them and leaves the others alone. */
  lemma {:induction false} ReadyAllRestores(p: P.Pool, saved: seq<Account>)
    requires R.DistinctIds(saved)
    ensures var q := R.ReadyAll(p, saved);
      && q.maxActiveCap == p.maxActiveCap && q.accounts.Keys == p.accounts.Keys + R.IdsOf(saved)
      && (forall a :: a in saved ==> a.id in q.accounts && RestoredInPool(a, q.accounts[a.id], p))
      && (forall id :: id in p.accounts && id !in R.IdsOf(saved) ==> id in q.accounts && q.accounts[id] == p.accounts[id])
  {
    hide P.Upsert, RestoredInPool, R.DistinctIds, R.IdsOf;
    if saved == [] {
      R.IdsNone();
    } else {
      var front, last := saved[..|saved| - 1], saved[|saved| - 1];
      assert saved == front + [last];
      R.FrontDistinct(saved);
      ReadyAllRestores(p, front);
      R.IdsAppend(front, last);
      IdsAre(front);
      UpsertRestores(R.ReadyAll(p, front), last);
      RestoredSince(last, R.ReadyAll(p, saved).accounts[last.id], p, R.ReadyAll(p, front));
    }
  }

  lemma IdsAre(s: seq<Account>)
    ensures forall id :: id in R.IdsOf(s) <==> exists a :: a in s && a.id == id
  {
  }

  lemma UpsertRestores(p: P.Pool, a: Account)
    ensures var q := P.Upsert(p, RecoverQuotaWindow(a));
      && q.maxActiveCap == p.maxActiveCap && q.accounts.Keys == p.accounts.Keys + {a.id}
      && RestoredInPool(a, q.accounts[a.id], p)
      && forall id :: id in p.accounts && id != a.id ==> q.accounts[id] == p.accounts[id]
  {
    hide P.Upsert;
    UpsertRecords(p, RecoverQuotaWindow(a));
  }

  /**
   After a pass every chosen account whose save was accepted stands ready in the store with
   nothing of its window used, no reason, no deadline and no code, and otherwise as it was;
   so it does in the pool, with its own requests in flight there, and it is available as
   soon as they are below its limit. No other record is touched in either.
   */
  lemma PassRestores(accounts: seq<Account>, pool: P.Pool, refused: set<string>, now: int)
    requires R.DistinctIds(accounts)
    ensures var r := R.Pass(accounts, pool, refused, now); var chosen := R.Chosen(accounts, now);
      && |r.accounts| == |accounts|
      && (forall i :: 0 <= i < |accounts| ==>
            if accounts[i] in chosen && accounts[i].id !in refused then Restored(accounts[i], r.accounts[i])
            else r.accounts[i] == accounts[i])
      && (forall a :: a in chosen && a.id !in refused ==>
            && a.id in r.pool.accounts && RestoredInPool(a, r.pool.accounts[a.id], pool)
            && var b := r.pool.accounts[a.id]; !Spent(b) && (Available(b) <==> b.active < b.maxActive))
      && (forall id :: id in pool.accounts && (forall a :: a in chosen && a.id !in refused ==> a.id != id) ==>
            id in r.pool.accounts && r.pool.accounts[id] == pool.accounts[id])
  {
    hide R.Chosen, R.Accepted, R.SaveAll, R.ReadyAll, R.IdsOf, R.Candidates, R.Ordered, R.QuotaDue, RestoredInPool, Available, Spent;
    var chosen := R.Chosen(accounts, now);
    var saved := R.Accepted(chosen, refused);
    R.ChosenOldest(accounts, now);
    R.AcceptedDistinct(chosen, refused);
    R.AcceptedMembers(chosen, refused);
    R.SaveAllIs(accounts, saved);
    ReadyAllRestores(pool, saved);
    IdsAre(saved);
    var q := R.ReadyAll(pool, saved);
    forall a | a in saved ensures !Spent(q.accounts[a.id]) && (Available(q.accounts[a.id]) <==> q.accounts[a.id].active < q.accounts[a.id].maxActive) {
      RestoredServes(a, q.accounts[a.id], pool);
    }
  }

  // The visits of a tick

  /** A code that says the credential is gone for good. */
  predicate Revoked(code: string)
  {
    var c := Lower(Trim(code));
    c == "refresh-revoked" || c == "invalid_grant"
  }

  /** The records a pass takes up. */
  predicate TakenUp(pass: T.PassKind, a: Account, now: int, env: T.Env)
  {
    match pass
    case IsolateSpent => a.standing == Ready && Spent(a)
    case RefreshExpiring => a.standing == Ready && a.id in env.expiring
    case IsolateAuth => a.standing == Unavailable && a.reason != Disabled && Revoked(a.errorCode)
    case RecoverQuota => DueForQuota(a, now)
    case RecoverValidating => a.standing == Unavailable && a.reason == Validating && Due(a, now)
    case RecoverCredentials =>
      a.standing == Unavailable && a.reason == Auth && a.id in env.refreshable && (Due(a, now) || Revoked(a.errorCode))
  }

  /** A visit that upstream answered well, as far as the pass asks. */
  predicate Well(pass: T.PassKind, a: Account, answer: T.Answer)
  {
    match pass
    case IsolateSpent => false
    case IsolateAuth => false
    case RecoverQuota => true
    case RefreshExpiring => !answer.refreshFails
    case RecoverValidating => !answer.validationFails && answer.reason == NoReason
    case RecoverCredentials =>
      !Revoked(a.errorCode) && !answer.refreshFails && !answer.validationFails && answer.reason == NoReason
  }

  /** Failures to authenticate are counted where a refresh or a validation failed. */
  predicate CountsFailure(pass: T.PassKind, a: Account, answer: T.Answer)
  {
    match pass
    case RefreshExpiring => answer.refreshFails
    case RecoverCredentials => !Revoked(a.errorCode) && answer.refreshFails
    case RecoverValidating => answer.validationFails || answer.reason != NoReason
    case _ => false
  }

  predicate ParkedAs(b: Account, reason: Reason, until: int, code: string)
  {
    b.standing == Unavailable && b.reason == reason && b.retryAt == Some(until) && b.errorCode == code
  }

  const YEAR := 365 * 24 * 60 * 60

  /** The rest that goes with a reason. */
  function RestFor(reason: Reason, pass: T.PassKind): int
  {
    match reason
    case Quota => if pass == T.RecoverValidating then 2 * 60 * 60 else 24 * 60 * 60
    case Auth => 5 * 60
    case Disabled => YEAR
    case Cooldown => 45
    case Validating => 45
    case NoReason => 0
  }

  /** Still in validation, unless upstream names quota, rate or credentials, or it is the twelfth failure. */
  function StillFor(a: Account, answer: T.Answer): Reason
  {
    if answer.validationFails then Validating
    else if answer.reason == Quota || answer.reason == Cooldown then answer.reason
    else if answer.reason == Auth || a.authFails >= 11 then Auth
    else Validating
  }

  const NAMES := map[Quota := "quota", Auth := "auth", Cooldown := "cooldown", Validating := "validating", Disabled := "disabled"]

  /** How a record stands after a visit that did not go well. */
  ghost predicate Parks(pass: T.PassKind, a: Account, answer: T.Answer, now: int, env: T.Env, b: Account)
  {
    match pass
    case IsolateSpent => OutOfQuota(a, b, now, env.quotaRetry)
    case IsolateAuth => ParkedAs(b, Disabled, now + YEAR, a.errorCode)
    case RecoverQuota => false
    case RecoverValidating =>
      var reason := StillFor(a, answer);
      var code := if answer.validationFails then "validation-failed"
                  else if answer.code == "" && answer.reason in NAMES then NAMES[answer.reason] else answer.code;
      ParkedAs(b, reason, now + RestFor(reason, pass), code)
    case RefreshExpiring => RefreshParks(answer, now, b)
    case RecoverCredentials =>
      if Revoked(a.errorCode) then ParkedAs(b, Disabled, now + YEAR, a.errorCode)
      else if answer.refreshFails then RefreshParks(answer, now, b)
      else if answer.validationFails then ParkedAs(b, Auth, now + 10 * 60, "validation-failed")
      else if Revoked(answer.code) then ParkedAs(b, Disabled, now + YEAR, answer.code)
      else ParkedAs(b, answer.reason, now + RestFor(answer.reason, pass), answer.code)
  }

  predicate RefreshParks(answer: T.Answer, now: int, b: Account)
  {
    if answer.permanent then ParkedAs(b, Disabled, now + YEAR, "refresh-revoked")
    else ParkedAs(b, Auth, now + 5 * 60, "refresh-failed")
  }

  /** What a visit makes of a record, all of it. */
  ghost predicate VisitTold(pass: T.PassKind, a: Account, answer: T.Answer, now: int, env: T.Env, v: Option<Account>)
  {
    && (v.Some? <==> TakenUp(pass, a, now, env))
    && (v.Some? ==>
          var b := v.value;
          && b == a.(standing := b.standing, reason := b.reason, retryAt := b.retryAt, errorCode := b.errorCode,
                     quotaActual := if pass == T.RecoverQuota then 0 else a.quotaActual,
                     authFails := if CountsFailure(pass, a, answer) then a.authFails + 1
                                  else if Well(pass, a, answer) && (pass == T.RecoverValidating || pass == T.RecoverCredentials) then 0
                                  else a.authFails)
          && (b.standing == Ready <==> Well(pass, a, answer))
          && (if Well(pass, a, answer) then b.reason == NoReason && b.retryAt == None && b.errorCode == ""
              else Parks(pass, a, answer, now, env, b)))
  }

  lemma RevokedIs(code: string)
    ensures T.Unrecoverable(code) <==> Revoked(code)
    ensures Revoked(code) ==> code != ""
  {
    BlankNotRevoked();
  }

  lemma QuickVisit(pass: T.PassKind, a: Account, answer: T.Answer, now: int, env: T.Env)
    requires pass != T.RecoverValidating && pass != T.RecoverCredentials
    ensures VisitTold(pass, a, answer, now, env, T.Visited(pass, a, answer, now, env))
  {
    RevokedIs(a.errorCode);
    hide T.Unrecoverable, Revoked, T.Revalidated, T.Renewed;
  }

  lemma ValidatingVisit(a: Account, answer: T.Answer, now: int, env: T.Env)
    ensures VisitTold(T.RecoverValidating, a, answer, now, env, T.Visited(T.RecoverValidating, a, answer, now, env))
  {
    hide T.Unrecoverable, Revoked, T.Renewed, T.RefreshFailure;
  }

  lemma CredentialVisit(a: Account, answer: T.Answer, now: int, env: T.Env)
    ensures VisitTold(T.RecoverCredentials, a, answer, now, env, T.Visited(T.RecoverCredentials, a, answer, now, env))
  {
    RevokedIs(a.errorCode);
    RevokedIs(answer.code);
    hide T.Unrecoverable, Revoked, T.Revalidated;
  }

  /**
   Each visit: which records it takes up; that it never touches limits, priorities or
   counters of requests; that a record answered well is ready with nothing left of its
   failure; and how every other one is parked.
   */
  lemma VisitTells(pass: T.PassKind, a: Account, answer: T.Answer, now: int, env: T.Env)
    ensures VisitTold(pass, a, answer, now, env, T.Visited(pass, a, answer, now, env))
  {
    hide T.Visited, VisitTold;
    match pass
    case RecoverValidating => ValidatingVisit(a, answer, now, env);
    case RecoverCredentials => CredentialVisit(a, answer, now, env);
    case _ => QuickVisit(pass, a, answer, now, env);
  }

  lemma BlankNotRevoked()
    ensures !Revoked("")
  {
    assert Lower(Trim("")) == "";
  }

  /** A visit files its outcome in store and pool, and a refused save files it in neither. */
  lemma VisitFiles(b: T.Books, pass: T.PassKind, id: string, answer: T.Answer, saveFails: bool, now: int, env: T.Env)
    requires P.Named(b.store)
    ensures var after := T.Take(b, T.Visit(pass, id, answer, saveFails), now, env);
      if id in b.store && TakenUp(pass, b.store[id], now, env) && !saveFails then
        && after.store.Keys == b.store.Keys && after.pool.accounts.Keys == b.pool.accounts.Keys + {id}
        && T.Visited(pass, b.store[id], answer, now, env) == Some(after.store[id])
        && after.pool.accounts[id] == after.store[id].(active := after.pool.accounts[id].active, maxActive := after.pool.accounts[id].maxActive)
        && (id in b.pool.accounts ==> after.pool.accounts[id].active == b.pool.accounts[id].active)
        && (forall x :: x in b.store && x != id ==> after.store[x] == b.store[x])
        && (forall x :: x in b.pool.accounts && x != id ==> after.pool.accounts[x] == b.pool.accounts[x])
      else after == b
  {
    hide P.Upsert, T.Visited, TakenUp;
    if id in b.store {
      VisitTells(pass, b.store[id], answer, now, env);
      var v := T.Visited(pass, b.store[id], answer, now, env);
      if v.Some? { UpsertRecords(b.pool, v.value); }
    }
  }

  /** Promotion files what became ready: in the pool always, in the store where the save was accepted. */
  lemma PromotionFiles(b: T.Books, order: seq<string>, refused: set<string>, now: int, env: T.Env)
    requires P.Valid(b.pool) && P.Walks(b.pool, order)
    ensures var after := T.Take(b, T.PromoteAll(order, refused), now, env);
      && after.pool.accounts.Keys == b.pool.accounts.Keys
      && (forall x :: x in b.pool.accounts ==>
            var a := b.pool.accounts[x];
            if a.standing == Unavailable && a.reason == Cooldown && a.retryAt.Some? && a.retryAt.value <= now then
              && after.pool.accounts[x] == a.(standing := Ready, reason := NoReason, retryAt := None, errorCode := "")
              && (x !in refused ==> x in after.store && after.store[x] == after.pool.accounts[x])
              && (x in refused && x in b.store ==> x in after.store && after.store[x] == b.store[x])
            else
              && after.pool.accounts[x] == a
              && (x in b.store ==> x in after.store && after.store[x] == b.store[x]))
      && (forall x :: x in b.store && x !in b.pool.accounts ==> x in after.store && after.store[x] == b.store[x])
      && (forall x :: x in after.store ==> x in b.store || x in b.pool.accounts)
  {
    hide P.Valid, P.PromoteDue;
    PromoteRecords(b.pool, now, order);
    WalksAll(b.pool, order);
  }

  lemma WalksAll(p: P.Pool, order: seq<string>)
    requires P.Walks(p, order)
    ensures forall x :: x in order <==> x in p.accounts
  {
  }
}
