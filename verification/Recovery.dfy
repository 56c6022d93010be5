/**
 The quota pass of the recovery tick: the longest-due accounts first, a bounded number per
 pass, every account counted once, and a backlog that drains in the least number of passes.
 */
module Recovery {
  import opened Basics
  import opened Accounts
  import P = Pools
  import S = Scheduler

  const BATCH: nat := 256

  datatype Tally = Tally(recovered: int, failed: int, skipped: int)

  predicate QuotaDue(a: Account, now: int)
  {
    a.standing == Unavailable && a.reason == Quota && (a.retryAt.None? || a.retryAt.value <= now)
  }

  ghost predicate DistinctIds(accounts: seq<Account>)
  {
    forall i, j :: 0 <= i < j < |accounts| ==> accounts[i].id != accounts[j].id
  }

  function Candidates(accounts: seq<Account>, now: int): (r: seq<Account>)
    ensures |r| <= |accounts| && forall a :: a in r <==> a in accounts && QuotaDue(a, now)
  {
    if accounts == [] then []
    else
      var a := accounts[|accounts| - 1];
      Candidates(accounts[..|accounts| - 1], now) + if QuotaDue(a, now) then [a] else []
  }

  // Oldest due first

  /** No deadline first, then the earlier one, then the smaller id. */
  predicate Before(a: Account, b: Account)
  {
    if a.retryAt.None? && b.retryAt.Some? then true
    else if a.retryAt.Some? && b.retryAt.None? then false
    else if a.retryAt != b.retryAt then a.retryAt.value < b.retryAt.value
    else P.Less(a.id, b.id)
  }

  lemma {:induction false} LessTransitive(a: string, b: string, c: string)
    ensures P.Less(a, b) && P.Less(b, c) ==> P.Less(a, c)
    ensures !P.Less(a, b) && !P.Less(b, c) ==> !P.Less(a, c)
    decreases |a|
  {
    if a != "" && b != "" && c != "" { LessTransitive(a[1..], b[1..], c[1..]); }
  }

  lemma {:induction false} LessAsymmetric(a: string, b: string)
    ensures P.Less(a, b) ==> !P.Less(b, a)
    decreases |a|
  {
    if a != "" && b != "" { LessAsymmetric(a[1..], b[1..]); }
  }

  /** The comparison is a weak order: what comes not before what comes not before. */
  lemma NotBeforeTransitive(a: Account, b: Account, c: Account)
    requires !Before(b, a) && !Before(c, b)
    ensures !Before(c, a)
  {
    LessTransitive(c.id, b.id, a.id);
  }

  lemma BeforeAsymmetric(a: Account, b: Account)
    requires Before(a, b)
    ensures !Before(b, a)
  {
    LessAsymmetric(a.id, b.id);
  }

  ghost predicate Ordered(s: seq<Account>)
  {
    forall i, j :: 0 <= i < j < |s| ==> !Before(s[j], s[i])
  }

  /** Stable insertion: behind everything it does not come before. */
  function Insert(s: seq<Account>, a: Account): (r: seq<Account>)
    ensures multiset(r) == multiset(s) + multiset{a}
  {
    if s == [] then [a]
    else if Before(a, s[|s| - 1]) then
      assert s == s[..|s| - 1] + [s[|s| - 1]];
      Insert(s[..|s| - 1], a) + [s[|s| - 1]]
    else s + [a]
  }

  lemma {:induction false} InsertOrdered(s: seq<Account>, a: Account)
    requires Ordered(s)
    ensures Ordered(Insert(s, a))
  {
    if s != [] {
      var front, last := s[..|s| - 1], s[|s| - 1];
      if Before(a, last) {
        InsertOrdered(front, a);
        BeforeAsymmetric(a, last);
        var r := Insert(front, a);
        forall i | 0 <= i < |r| ensures !Before(last, r[i]) {
          assert r[i] in multiset(r);
          if r[i] != a {
            assert r[i] in front;
            var k :| 0 <= k < |front| && front[k] == r[i];
            assert s[k] == r[i];
          }
        }
      } else {
        forall i | 0 <= i < |s| ensures !Before(a, s[i]) { NotBeforeTransitive(s[i], last, a) by { NotAfterLast(s, i); } }
      }
    }
  }

  lemma NotAfterLast(s: seq<Account>, i: nat)
    requires Ordered(s) && i < |s|
    ensures !Before(s[|s| - 1], s[i])
  {
    LessAsymmetric(s[i].id, s[i].id);
  }

  function Sorted(s: seq<Account>): (r: seq<Account>)
    ensures multiset(r) == multiset(s)
  {
    if s == [] then []
    else
      assert s == s[..|s| - 1] + [s[|s| - 1]];
      Insert(Sorted(s[..|s| - 1]), s[|s| - 1])
  }

  lemma {:induction false} SortedOrdered(s: seq<Account>)
    ensures Ordered(Sorted(s))
  {
    if s != [] {
      SortedOrdered(s[..|s| - 1]);
      InsertOrdered(Sorted(s[..|s| - 1]), s[|s| - 1]);
    }
  }

  // One pass

  function Chosen(accounts: seq<Account>, now: int): (r: seq<Account>)
  {
    var all := Sorted(Candidates(accounts, now));
    if |all| > BATCH then all[..BATCH] else all
  }

  /** The store after saving `a` over the record with its id. */
  function SaveOver(accounts: seq<Account>, a: Account): (r: seq<Account>)
    ensures |r| == |accounts| && forall i :: 0 <= i < |r| ==> r[i] == if accounts[i].id == a.id then a else accounts[i]
  {
    seq(|accounts|, i requires 0 <= i < |accounts| => if accounts[i].id == a.id then a else accounts[i])
  }

  /** The chosen accounts whose save is accepted, in order. */
  function Accepted(chosen: seq<Account>, refused: set<string>): (r: seq<Account>)
  {
    if chosen == [] then []
    else
      var a := chosen[|chosen| - 1];
      Accepted(chosen[..|chosen| - 1], refused) + if a.id in refused then [] else [a]
  }

  function SaveAll(accounts: seq<Account>, saved: seq<Account>): (r: seq<Account>)
    ensures |r| == |accounts|
  {
    if saved == [] then accounts
    else SaveOver(SaveAll(accounts, saved[..|saved| - 1]), RecoverQuotaWindow(saved[|saved| - 1]))
  }

  function ReadyAll(p: P.Pool, saved: seq<Account>): P.Pool
  {
    if saved == [] then p else P.Upsert(ReadyAll(p, saved[..|saved| - 1]), RecoverQuotaWindow(saved[|saved| - 1]))
  }

  datatype Passed = Passed(accounts: seq<Account>, pool: P.Pool, tally: Tally)

  function Pass(accounts: seq<Account>, pool: P.Pool, refused: set<string>, now: int): Passed
  {
    var chosen := Chosen(accounts, now);
    var saved := Accepted(chosen, refused);
    Passed(SaveAll(accounts, saved), ReadyAll(pool, saved),
           Tally(|saved|, |chosen| - |saved|, |accounts| - |chosen|))
  }

  // What one pass does

  lemma {:induction false} IdOnce(accounts: seq<Account>, a: Account, b: Account)
    requires DistinctIds(accounts) && a in accounts && b in accounts && a.id == b.id
    ensures a == b
  {
    var i :| 0 <= i < |accounts| && accounts[i] == a;
    var j :| 0 <= j < |accounts| && accounts[j] == b;
    assert i < j || j < i || i == j;
  }

  lemma IdsDiffer(accounts: seq<Account>, a: Account, b: Account)
    requires DistinctIds(accounts) && a in accounts && b in accounts && a != b
    ensures a.id != b.id
  {
    if a.id == b.id { IdOnce(accounts, a, b); }
  }

  lemma DistinctAppend(s: seq<Account>, a: Account)
    requires DistinctIds(s) && forall c :: c in s ==> c.id != a.id
    ensures DistinctIds(s + [a])
  {
  }

  function IdsOf(s: seq<Account>): (ids: set<string>)
  {
    set a | a in s :: a.id
  }

  lemma {:induction false} IdCount(s: seq<Account>)
    requires DistinctIds(s)
    ensures |IdsOf(s)| == |s|
  {
    if s == [] {
      assert IdsOf(s) == {};
    } else {
      var front, a := s[..|s| - 1], s[|s| - 1];
      IdCount(front);
      assert a.id !in IdsOf(front);
      assert IdsOf(s) == IdsOf(front) + {a.id} by {
        assert s == front + [a];
      }
    }
  }

  lemma {:induction false} CandidatesDistinct(accounts: seq<Account>, now: int)
    requires DistinctIds(accounts)
    ensures DistinctIds(Candidates(accounts, now))
  {
    if accounts != [] {
      var front, a := accounts[..|accounts| - 1], accounts[|accounts| - 1];
      CandidatesDistinct(front, now);
      forall c | c in Candidates(front, now) ensures c.id != a.id {
        var i :| 0 <= i < |front| && front[i] == c;
        assert accounts[i] == c;
      }
    }
  }

  /** Ids are distinct in a list exactly when no record counts twice and no two share one. */
  lemma PermutedDistinct(s: seq<Account>, r: seq<Account>)
    requires DistinctIds(s) && multiset(s) == multiset(r)
    ensures DistinctIds(r)
  {
    forall i, j | 0 <= i < j < |r| ensures r[i].id != r[j].id {
      assert r[i] in multiset(s) && r[j] in multiset(s);
      if r[i].id == r[j].id {
        IdOnce(s, r[i], r[j]);
        Twice(r, i, j);
        OnlyOnce(s, r[i]);
      }
    }
  }

  lemma Twice(r: seq<Account>, i: nat, j: nat)
    requires i < j < |r| && r[i] == r[j]
    ensures multiset(r)[r[i]] >= 2
  {
    assert r == r[..j] + r[j..];
    assert r[i] in r[..j] && r[j] in r[j..];
    assert r[j..][0] == r[j];
  }

  lemma {:induction false} OnlyOnce(s: seq<Account>, a: Account)
    requires DistinctIds(s)
    ensures multiset(s)[a] <= 1
  {
    if s != [] {
      var front, last := s[..|s| - 1], s[|s| - 1];
      assert s == front + [last];
      OnlyOnce(front, a);
      forall i | 0 <= i < |front| ensures front[i] != last { assert s[i].id != s[|s| - 1].id; }
    }
  }

  /** The pass takes the oldest due accounts: as many as there are, at most a batch, none left out that comes first. */
  lemma ChosenOldest(accounts: seq<Account>, now: int)
    requires DistinctIds(accounts)
    ensures var c := Chosen(accounts, now); var n := |Candidates(accounts, now)|;
            && |c| == (if n > BATCH then BATCH else n)
            && DistinctIds(c) && Ordered(c)
            && (forall a :: a in c ==> a in accounts && QuotaDue(a, now))
            && (forall a, b :: a in c && b in accounts && QuotaDue(b, now) && b !in c ==> !Before(b, a))
  {
    hide Candidates, Sorted, QuotaDue, Before;
    var due := Candidates(accounts, now);
    var all := Sorted(due);
    var c := Chosen(accounts, now);
    assert |all| == |multiset(all)| == |multiset(due)| == |due|;
    CandidatesDistinct(accounts, now);
    PermutedDistinct(due, all);
    SortedOrdered(due);
    forall a | a in c ensures a in accounts && QuotaDue(a, now) {
      assert a in all;
      assert a in multiset(all);
      assert a in due;
    }
    forall a, b | a in c && b in accounts && QuotaDue(b, now) && b !in c ensures !Before(b, a) {
      var i :| 0 <= i < |c| && c[i] == a;
      assert all[i] == a;
      assert b in due && b in multiset(due);
      assert b in all;
      var j :| 0 <= j < |all| && all[j] == b;
      assert forall k :: 0 <= k < |c| ==> all[k] == c[k] && c[k] in c;
    }
  }

  /** Saving touches exactly the records of the saved ids. */
  lemma {:induction false} SaveAllIs(accounts: seq<Account>, saved: seq<Account>)
    requires DistinctIds(accounts) && DistinctIds(saved) && forall a :: a in saved ==> a in accounts
    ensures forall i :: 0 <= i < |accounts| ==>
              SaveAll(accounts, saved)[i] == if accounts[i] in saved then RecoverQuotaWindow(accounts[i]) else accounts[i]
  {
    if saved != [] {
      var front, a := saved[..|saved| - 1], saved[|saved| - 1];
      SaveAllIs(accounts, front);
      assert saved == front + [a];
      forall i | 0 <= i < |accounts|
        ensures SaveAll(accounts, saved)[i] == if accounts[i] in saved then RecoverQuotaWindow(accounts[i]) else accounts[i]
      {
        if accounts[i].id == a.id { IdOnce(accounts, accounts[i], a); }
      }
    }
  }

  lemma {:induction false} AcceptedCount(chosen: seq<Account>, refused: set<string>)
    ensures |Accepted(chosen, refused)| <= |chosen|
    ensures refused == {} ==> Accepted(chosen, refused) == chosen
  {
    if chosen != [] {
      AcceptedCount(chosen[..|chosen| - 1], refused);
      assert chosen == chosen[..|chosen| - 1] + [chosen[|chosen| - 1]];
    }
  }

  lemma {:induction false} AcceptedMembers(chosen: seq<Account>, refused: set<string>)
    ensures forall a :: a in Accepted(chosen, refused) <==> a in chosen && a.id !in refused
  {
    if chosen != [] {
      AcceptedMembers(chosen[..|chosen| - 1], refused);
      assert chosen == chosen[..|chosen| - 1] + [chosen[|chosen| - 1]];
    }
  }

  lemma {:induction false} AcceptedDistinct(chosen: seq<Account>, refused: set<string>)
    requires DistinctIds(chosen)
    ensures DistinctIds(Accepted(chosen, refused))
  {
    hide DistinctIds;
    if chosen == [] {
      assert DistinctIds(Accepted(chosen, refused)) by { NoneDistinct(); }
    } else {
      var front, a := chosen[..|chosen| - 1], chosen[|chosen| - 1];
      FrontDistinct(chosen);
      AcceptedDistinct(front, refused);
      AcceptedMembers(front, refused);
      DistinctAppend(Accepted(front, refused), a);
      assert Accepted(front, refused) + [] == Accepted(front, refused);
    }
  }

  lemma NoneDistinct()
    ensures DistinctIds([])
  {
  }

  lemma FrontDistinct(s: seq<Account>)
    requires s != [] && DistinctIds(s)
    ensures DistinctIds(s[..|s| - 1]) && forall c :: c in s[..|s| - 1] ==> c.id != s[|s| - 1].id
  {
  }

  /**
   One pass over distinct accounts: an account stands ready afterwards if it did before
   or it was chosen and saved, which clears its usage; everything else is untouched; every
   account is counted once; and the due queue shrinks by exactly the number recovered.
   */
  lemma PassExact(accounts: seq<Account>, pool: P.Pool, refused: set<string>, now: int)
    requires DistinctIds(accounts)
    ensures var r := Pass(accounts, pool, refused, now); var saved := Accepted(Chosen(accounts, now), refused);
            && r.tally.recovered + r.tally.failed + r.tally.skipped == |accounts|
            && |r.accounts| == |accounts| && DistinctIds(r.accounts)
            && (forall i :: 0 <= i < |accounts| ==>
                  r.accounts[i] == if accounts[i] in saved then RecoverQuotaWindow(accounts[i]) else accounts[i])
            && |Candidates(r.accounts, now)| == |Candidates(accounts, now)| - r.tally.recovered
  {
    hide Chosen, Candidates, SaveAll, ReadyAll, QuotaDue, Accepted, Ordered;
    var chosen := Chosen(accounts, now);
    var saved := Accepted(chosen, refused);
    var after := SaveAll(accounts, saved);
    ChosenOldest(accounts, now);
    AcceptedDistinct(chosen, refused);
    AcceptedMembers(chosen, refused);
    SaveAllIs(accounts, saved);
    SameIds(accounts, after);
    QueueShrinks(accounts, after, saved, now);
  }

  lemma QueueShrinks(accounts: seq<Account>, after: seq<Account>, saved: seq<Account>, now: int)
    requires DistinctIds(accounts) && DistinctIds(after) && DistinctIds(saved) && |after| == |accounts|
    requires forall a :: a in saved ==> a in accounts && QuotaDue(a, now)
    requires forall i :: 0 <= i < |accounts| ==> after[i] == if accounts[i] in saved then RecoverQuotaWindow(accounts[i]) else accounts[i]
    ensures |Candidates(after, now)| == |Candidates(accounts, now)| - |saved|
  {
    CandidatesDistinct(accounts, now);
    CandidatesDistinct(after, now);
    IdCount(Candidates(accounts, now));
    IdCount(Candidates(after, now));
    IdCount(saved);
    DueLeft(accounts, after, saved, now);
    IdsWithin(saved, Candidates(accounts, now));
    hide Candidates, QuotaDue, DistinctIds, IdsOf;
    SizeWithout(IdsOf(Candidates(accounts, now)), IdsOf(saved));
  }

  lemma SizeWithout(all: set<string>, gone: set<string>)
    requires gone <= all
    ensures |all - gone| == |all| - |gone|
  {
    assert all == (all - gone) + gone;
  }

  lemma SameIds(accounts: seq<Account>, after: seq<Account>)
    requires DistinctIds(accounts) && |after| == |accounts|
    requires forall i :: 0 <= i < |accounts| ==> after[i].id == accounts[i].id
    ensures DistinctIds(after)
  {
  }

  lemma DueLeft(accounts: seq<Account>, after: seq<Account>, saved: seq<Account>, now: int)
    requires DistinctIds(accounts) && |after| == |accounts|
    requires forall a :: a in saved ==> a in accounts && QuotaDue(a, now)
    requires forall i :: 0 <= i < |accounts| ==> after[i] == if accounts[i] in saved then RecoverQuotaWindow(accounts[i]) else accounts[i]
    ensures IdsOf(Candidates(after, now)) == IdsOf(Candidates(accounts, now)) - IdsOf(saved)
  {
    forall id ensures id in IdsOf(Candidates(after, now)) <==> id in IdsOf(Candidates(accounts, now)) && id !in IdsOf(saved) {
      if id in IdsOf(Candidates(after, now)) {
        var a :| a in after && QuotaDue(a, now) && a.id == id;
        var i :| 0 <= i < |after| && after[i] == a;
        assert accounts[i] == a && a in accounts;
        forall b | b in saved ensures b.id != id { IdsDiffer(accounts, a, b); }
        assert a in Candidates(accounts, now);
      }
      if id in IdsOf(Candidates(accounts, now)) && id !in IdsOf(saved) {
        var a :| a in accounts && QuotaDue(a, now) && a.id == id;
        var i :| 0 <= i < |accounts| && accounts[i] == a;
        assert after[i] == a && a in after;
        assert a in Candidates(after, now);
      }
    }
  }

  /** In the pool exactly the saved accounts join the ready ones. */
  lemma {:induction false} ReadyAllExact(p: P.Pool, saved: seq<Account>)
    requires P.Valid(p)
    ensures var q := ReadyAll(p, saved);
            P.Valid(q) && forall id :: id in q.ready <==> id in p.ready || id in IdsOf(saved)
  {
    hide P.Valid, P.Upsert, IdsOf;
    if saved == [] {
      IdsNone();
    } else {
      var front, a := saved[..|saved| - 1], saved[|saved| - 1];
      ReadyAllExact(p, front);
      OneReady(ReadyAll(p, front), RecoverQuotaWindow(a));
      IdsAppend(front, a);
      assert saved == front + [a];
    }
  }

  lemma IdsNone()
    ensures IdsOf([]) == {}
  {
  }

  lemma IdsAppend(s: seq<Account>, a: Account)
    ensures IdsOf(s + [a]) == IdsOf(s) + {a.id}
  {
  }

  lemma IdsWithin(s: seq<Account>, t: seq<Account>)
    requires forall a :: a in s ==> a in t
    ensures IdsOf(s) <= IdsOf(t)
  {
  }

  lemma OneReady(p: P.Pool, item: Account)
    requires P.Valid(p) && item.standing == Ready
    ensures var q := P.Upsert(p, item); P.Valid(q) && forall id :: id in q.ready <==> id in p.ready || id == item.id
  {
    hide P.Valid, P.Upsert;
    P.UpsertValid(p, item);
    P.UpsertParts(p, item);
  }

  // Draining a backlog

  /** The store and the pool after a number of passes in which every save succeeds. */
  function Passes(accounts: seq<Account>, pool: P.Pool, now: int, times: nat): (seq<Account>, P.Pool)
  {
    if times == 0 then (accounts, pool)
    else
      var (before, p) := Passes(accounts, pool, now, times - 1);
      var r := Pass(before, p, {}, now);
      (r.accounts, r.pool)
  }

  /** While saves succeed and nothing new comes due, each pass takes a full batch off the queue. */
  lemma {:induction false} PassesLeave(accounts: seq<Account>, pool: P.Pool, now: int, times: nat)
    requires DistinctIds(accounts)
    ensures var n := |Candidates(accounts, now)|; var (after, p) := Passes(accounts, pool, now, times);
            && DistinctIds(after)
            && |Candidates(after, now)| == (if times * BATCH >= n then 0 else n - times * BATCH)
  {
    hide Pass, Chosen, Accepted, Candidates;
    if times > 0 {
      PassesLeave(accounts, pool, now, times - 1);
      var (before, p) := Passes(accounts, pool, now, times - 1);
      PassExact(before, p, {}, now);
      ChosenOldest(before, now);
      FullPass(before, p, now);
    }
  }

  lemma FullPass(accounts: seq<Account>, pool: P.Pool, now: int)
    requires DistinctIds(accounts)
    ensures Pass(accounts, pool, {}, now).tally.recovered == |Chosen(accounts, now)|
  {
    ChosenOldest(accounts, now);
    AcceptedCount(Chosen(accounts, now), {});
  }

  /** A backlog of n due accounts is gone after k passes exactly when k is at least n / BATCH rounded up. */
  lemma DrainsOnTime(accounts: seq<Account>, pool: P.Pool, now: int, times: nat)
    requires DistinctIds(accounts)
    ensures Candidates(Passes(accounts, pool, now, times).0, now) == [] <==>
            times >= (|Candidates(accounts, now)| + BATCH - 1) / BATCH
  {
    PassesLeave(accounts, pool, now, times);
  }

  // The pass as it runs

  /** The account store: a listing, and saves that may be refused. */
  class Store {
    var accounts: seq<Account>
    var refused: set<string>

    constructor (accounts: seq<Account>, refused: set<string>)
      ensures this.accounts == accounts && this.refused == refused
    {
      this.accounts, this.refused := accounts, refused;
    }

    method SaveAccount(a: Account) returns (ok: bool)
      modifies this`accounts
      ensures ok == (a.id !in refused)
      ensures accounts == if ok then SaveOver(old(accounts), a) else old(accounts)
    {
      ok := a.id !in refused;
      if ok { accounts := SaveOver(accounts, a); }
    }
  }

  /** Sorts in place of the list, stably. */
  method SortDue(s: seq<Account>) returns (r: seq<Account>)
    ensures r == Sorted(s)
  {
    r := [];
    var i := 0;
    while i < |s|
      invariant i <= |s| && r == Sorted(s[..i])
    {
      assert s[..i + 1][..i] == s[..i];
      r := Insert(r, s[i]);
      i := i + 1;
    }
    assert s[..|s|] == s;
  }

  method ListDue(accounts: seq<Account>, now: int) returns (due: seq<Account>, skipped: nat)
    ensures due == Candidates(accounts, now) && skipped == |accounts| - |due|
  {
    due, skipped := [], 0;
    var i := 0;
    while i < |accounts|
      invariant i <= |accounts| && due == Candidates(accounts[..i], now) && skipped == i - |due|
    {
      assert accounts[..i + 1][..i] == accounts[..i];
      var a := accounts[i];
      i := i + 1;
      if a.standing != Unavailable || a.reason != Quota {
        skipped := skipped + 1;
        continue;
      }
      if a.retryAt.Some? && a.retryAt.value > now {
        skipped := skipped + 1;
        continue;
      }
      due := due + [a];
    }
    assert accounts[..|accounts|] == accounts;
  }

  lemma AcceptedNone(refused: set<string>, accounts: seq<Account>, p: P.Pool)
    ensures Accepted([], refused) == [] && SaveAll(accounts, []) == accounts && ReadyAll(p, []) == p
  {
  }

  lemma OneMoreChosen(chosen: seq<Account>, i: nat, refused: set<string>, accounts: seq<Account>, p: P.Pool)
    requires i < |chosen|
    ensures var saved, more := Accepted(chosen[..i], refused), Accepted(chosen[..i + 1], refused); var item := RecoverQuotaWindow(chosen[i]);
            if chosen[i].id in refused then more == saved
            else && |more| == |saved| + 1
                 && SaveAll(accounts, more) == SaveOver(SaveAll(accounts, saved), item)
                 && ReadyAll(p, more) == P.Upsert(ReadyAll(p, saved), item)
  {
    hide P.Upsert, SaveOver;
    var saved := Accepted(chosen[..i], refused);
    assert chosen[..i + 1][..i] == chosen[..i];
    if chosen[i].id !in refused {
      assert Accepted(chosen[..i + 1], refused) == saved + [chosen[i]];
      assert (saved + [chosen[i]])[..|saved|] == saved;
    } else {
      assert saved + [] == saved;
    }
  }

  /** Saves and readies the chosen accounts one by one; a refused save leaves the account parked. */
  method ReadyChosen(store: Store, pool: S.Scheduler, chosen: seq<Account>) returns (recovered: int, failed: int)
    modifies store`accounts, pool
    ensures var saved := Accepted(chosen, store.refused);
            && store.accounts == SaveAll(old(store.accounts), saved) && pool.Abs() == ReadyAll(old(pool.Abs()), saved)
            && recovered == |saved| && failed == |chosen| - |saved|
    ensures pool.failStreak == old(pool.failStreak)
  {
    hide P.Upsert, SaveOver, Accepted, SaveAll, ReadyAll;
    AcceptedNone(store.refused, store.accounts, pool.Abs());
    recovered, failed := 0, 0;
    var i := 0;
    ghost var saved: seq<Account> := [];
    while i < |chosen|
      invariant i <= |chosen| && saved == Accepted(chosen[..i], store.refused)
      invariant recovered == |saved| && failed == i - |saved|
      invariant store.accounts == SaveAll(old(store.accounts), saved)
      invariant pool.Abs() == ReadyAll(old(pool.Abs()), saved) && pool.failStreak == old(pool.failStreak)
    {
      OneMoreChosen(chosen, i, store.refused, old(store.accounts), old(pool.Abs()));
      var item := RecoverQuotaWindow(chosen[i]);
      var ok := store.SaveAccount(item);
      if ok {
        pool.Upsert(item);
        recovered := recovered + 1;
      } else {
        failed := failed + 1;
      }
      saved := Accepted(chosen[..i + 1], store.refused);
      i := i + 1;
    }
    assert chosen[..|chosen|] == chosen;
  }

  /** One pass of the tick over the listed accounts. */
  method RecoverQuota(store: Store, pool: S.Scheduler, now: int) returns (result: Tally)
    modifies store`accounts, pool
    ensures var r := Pass(old(store.accounts), old(pool.Abs()), store.refused, now);
            store.accounts == r.accounts && pool.Abs() == r.pool && result == r.tally
    ensures pool.failStreak == old(pool.failStreak)
  {
    hide Sorted, Candidates, Accepted, SaveAll, ReadyAll;
    var due, skipped := ListDue(store.accounts, now);
    var chosen := SortDue(due);
    assert |chosen| == |multiset(chosen)| == |multiset(due)| == |due|;
    if |chosen| > BATCH {
      skipped := skipped + |chosen| - BATCH;
      chosen := chosen[..BATCH];
    }
    var recovered, failed := ReadyChosen(store, pool, chosen);
    result := Tally(recovered, failed, skipped);
  }
}
