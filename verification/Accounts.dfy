/** The account record and its transitions. A missing time is `None`; instants are integers. */
module Accounts {
  import opened Basics

  datatype Standing = Ready | Unavailable

  datatype Reason = NoReason | Quota | Auth | Cooldown | Validating | Disabled

  datatype Account = Account(
    id: string, standing: Standing, reason: Reason, retryAt: Option<int>, errorCode: string,
    quotaActual: int, quotaLimit: int, requestCount: int, authFails: int,
    active: nat, maxActive: int, priority: int)

  const DAY := 86400

  predicate QuotaExhausted(a: Account)
  {
    a.quotaLimit > 0 && a.quotaActual >= a.quotaLimit
  }

  predicate Available(a: Account)
  {
    a.standing == Ready && a.active < (if a.maxActive <= 0 then 1 else a.maxActive) && !QuotaExhausted(a)
  }

  function MarkUnavailable(a: Account, reason: Reason, retryAt: Option<int>, errorCode: string): Account
  {
    a.(standing := Unavailable, reason := reason, retryAt := retryAt, errorCode := errorCode)
  }

  function MarkReady(a: Account): Account
  {
    a.(standing := Ready, reason := NoReason, retryAt := None, errorCode := "")
  }

  function RecoverQuotaWindow(a: Account): Account
  {
    MarkReady(a).(quotaActual := 0)
  }

  predicate Parkable(a: Account)
  {
    a.standing == Ready && QuotaExhausted(a)
  }

  /** Takes a ready account with spent quota out of service; keeps its code and a later deadline. */
  function ParkKnownExhausted(a: Account, now: int, retryAfter: int): Account
  {
    if !Parkable(a) then a
    else
      a.(standing := Unavailable, reason := Quota,
         errorCode := if a.errorCode == "" then "local:quota-exhausted" else a.errorCode,
         retryAt := if a.retryAt.None? || a.retryAt.value < now
                    then Some(now + if retryAfter <= 0 then DAY else retryAfter) else a.retryAt)
  }

  predicate CooldownDue(a: Account, now: int)
  {
    a.standing == Unavailable && a.reason == Cooldown && a.retryAt.Some? && a.retryAt.value <= now
  }

  function RecordUsage(a: Account, actual: int, limit: int): Account
  {
    a.(quotaActual := actual, quotaLimit := limit)
  }
}
