/**
 Pairing tool calls with their outputs when a history leaves ids out: the request keeps the
 ids of the calls not answered yet and hands the oldest to the next output without one.
 */
module CallIds {
  import opened Basics

  /** A call or an output in a history, with the id it states; blank if it states none. */
  datatype Event = Call(id: string) | Output(id: string)

  /** The ids of unanswered calls, oldest first, and how many ids were made up. */
  datatype Ids = Ids(unanswered: seq<string>, made: nat)

  const Start := Ids([], 0)

  /** Without its first occurrence of `id`. */
  function Drop(ids: seq<string>, id: string): seq<string>
  {
    if ids == [] then [] else if ids[0] == id then ids[1..] else [ids[0]] + Drop(ids[1..], id)
  }

  /** `supply(n)` is the n-th id made up. */
  function Ensure(supply: nat -> string, s: Ids, explicit: string): (Ids, string)
  {
    var id := if Trim(explicit) == "" then supply(s.made) else Trim(explicit);
    (Ids(if id == "" then s.unanswered else s.unanswered + [id], if Trim(explicit) == "" then s.made + 1 else s.made), id)
  }

  function Take(supply: nat -> string, s: Ids, explicit: string): (Ids, string)
  {
    if explicit != "" then (s.(unanswered := Drop(s.unanswered, explicit)), explicit)
    else if s.unanswered != [] then (s.(unanswered := s.unanswered[1..]), s.unanswered[0])
    else (s.(made := s.made + 1), supply(s.made))
  }

  /** The event as it is sent on, with its id filled in. */
  function Fill(supply: nat -> string, s: Ids, e: Event): (Ids, Event)
  {
    match e
    case Call(id) => var (t, filled) := Ensure(supply, s, id); (t, Call(filled))
    case Output(id) => var (t, filled) := Take(supply, s, Trim(id)); (t, Output(filled))
  }

  function After(supply: nat -> string, s: Ids, history: seq<Event>): Ids
  {
    if history == [] then s else Fill(supply, After(supply, s, history[..|history| - 1]), history[|history| - 1]).0
  }

  function Filled(supply: nat -> string, s: Ids, history: seq<Event>): (r: seq<Event>)
    ensures |r| == |history|
  {
    if history == [] then []
    else
      var front := history[..|history| - 1];
      Filled(supply, s, front) + [Fill(supply, After(supply, s, front), history[|history| - 1]).1]
  }

  /** Made-up ids are not blank. */
  ghost predicate Usable(supply: nat -> string)
  {
    forall n: nat :: supply(n) != "" && Tight(supply(n))
  }

  // The open list, read off what was sent

  /** The calls of a filled history minus one occurrence per output, in order. */
  function Unanswered(sent: seq<Event>): seq<string>
  {
    if sent == [] then []
    else
      var before := Unanswered(sent[..|sent| - 1]);
      match sent[|sent| - 1]
      case Call(id) => before + [id]
      case Output(id) => Drop(before, id)
  }

  /** The list the request keeps is exactly the calls it sent and has not seen answered. */
  lemma {:induction false} OpenIsUnanswered(supply: nat -> string, history: seq<Event>)
    requires Usable(supply)
    ensures After(supply, Start, history).unanswered == Unanswered(Filled(supply, Start, history))
    ensures "" !in After(supply, Start, history).unanswered
    ensures forall i :: 0 <= i < |history| ==> Filled(supply, Start, history)[i].id != ""
  {
    if history != [] {
      var front := history[..|history| - 1];
      OpenIsUnanswered(supply, front);
      OneMore(supply, Start, history);
      DropFrom(After(supply, Start, front).unanswered, history[|history| - 1].id);
      DropFrom(After(supply, Start, front).unanswered, Trim(history[|history| - 1].id));
      assert forall i :: 0 <= i < |front| ==> Filled(supply, Start, front)[i] == Filled(supply, Start, history)[i];
    }
  }

  lemma {:induction false} DropFrom(ids: seq<string>, id: string)
    ensures forall x :: x in Drop(ids, id) ==> x in ids
  {
    if ids != [] { DropFrom(ids[1..], id); }
  }

  lemma OneMore(supply: nat -> string, s: Ids, history: seq<Event>)
    requires history != []
    ensures var front, sent := history[..|history| - 1], Filled(supply, s, history);
            && After(supply, s, history) == Fill(supply, After(supply, s, front), history[|history| - 1]).0
            && |sent| == |history| && sent[..|sent| - 1] == Filled(supply, s, front)
            && sent[|sent| - 1] == Fill(supply, After(supply, s, front), history[|history| - 1]).1
  {
    hide Fill;
  }

  /** Answering a call takes its oldest id off the list and leaves every other one in its place. */
  lemma {:induction false} DropTells(ids: seq<string>, id: string) returns (k: nat)
    ensures k <= |ids| && id !in ids[..k] && (k == |ids| || ids[k] == id)
    ensures Drop(ids, id) == if k < |ids| then ids[..k] + ids[k + 1..] else ids
  {
    k := 0;
    if ids != [] && ids[0] != id {
      var rest := ids[1..];
      var j := DropTells(rest, id);
      k := j + 1;
      assert ids[..k] == [ids[0]] + rest[..j];
      if j < |rest| { assert ids[k + 1..] == rest[j + 1..]; }
    }
  }

  /** A stated id is kept, whatever the history; an output without one takes the oldest unanswered call. */
  lemma FilledAt(supply: nat -> string, history: seq<Event>, e: Event)
    requires Usable(supply)
    ensures var sent := Filled(supply, Start, history + [e]); var before := Unanswered(Filled(supply, Start, history));
            && sent[..|history|] == Filled(supply, Start, history)
            && (Trim(e.id) != "" ==> sent[|history|].id == Trim(e.id))
            && (e.Output? && Trim(e.id) == "" && before != [] ==> sent[|history|] == Output(before[0]))
  {
    assert (history + [e])[..|history|] == history;
    OpenIsUnanswered(supply, history);
  }

  // Histories without any ids

  predicate IdLess(history: seq<Event>)
  {
    forall i :: 0 <= i < |history| ==> Trim(history[i].id) == ""
  }

  function CallsOf(sent: seq<Event>): seq<string>
  {
    if sent == [] then []
    else CallsOf(sent[..|sent| - 1]) + if sent[|sent| - 1].Call? then [sent[|sent| - 1].id] else []
  }

  function OutputsOf(sent: seq<Event>): seq<string>
  {
    if sent == [] then []
    else OutputsOf(sent[..|sent| - 1]) + if sent[|sent| - 1].Output? then [sent[|sent| - 1].id] else []
  }

  /** No output comes before the call it answers. */
  predicate Balanced(history: seq<Event>)
  {
    history == [] ||
    (Balanced(history[..|history| - 1]) && |OutputsOf(history)| <= |CallsOf(history)|)
  }

  ghost predicate Distinct(supply: nat -> string)
  {
    forall m: nat, n: nat :: m != n ==> supply(m) != supply(n)
  }

  /** Every id in use was made up so far. */
  ghost predicate MadeUp(supply: nat -> string, s: Ids, ids: seq<string>)
  {
    forall k :: 0 <= k < |ids| ==> exists n: nat :: n < s.made && supply(n) == ids[k]
  }

  lemma {:induction false} Counts(supply: nat -> string, history: seq<Event>)
    ensures var sent := Filled(supply, Start, history);
            |CallsOf(sent)| == |CallsOf(history)| && |OutputsOf(sent)| == |OutputsOf(history)|
  {
    if history != [] {
      var front, sent := history[..|history| - 1], Filled(supply, Start, history);
      Counts(supply, front);
      assert sent[..|sent| - 1] == Filled(supply, Start, front);
    }
  }

  lemma {:induction false} IdLessPairs(supply: nat -> string, history: seq<Event>)
    requires Usable(supply) && IdLess(history) && Balanced(history)
    ensures var sent := Filled(supply, Start, history); var calls, outputs := CallsOf(sent), OutputsOf(sent);
            |outputs| <= |calls| && outputs == calls[..|outputs|] && After(supply, Start, history).unanswered == calls[|outputs|..]
  {
    if history != [] {
      var front, sent := history[..|history| - 1], Filled(supply, Start, history);
      hide Fill, Filled, After, Trim;
      assert forall i :: 0 <= i < |front| ==> front[i] == history[i];
      IdLessPairs(supply, front);
      Counts(supply, history);
      Counts(supply, front);
      OneMore(supply, Start, history);
      var e := history[|history| - 1];
      PairStep(supply, After(supply, Start, front), e, CallsOf(Filled(supply, Start, front)), OutputsOf(Filled(supply, Start, front)));
    }
  }

  lemma PairStep(supply: nat -> string, s: Ids, e: Event, calls: seq<string>, outputs: seq<string>)
    requires Usable(supply) && Trim(e.id) == "" && |outputs| <= |calls| && outputs == calls[..|outputs|] && s.unanswered == calls[|outputs|..]
    requires e.Output? ==> |outputs| < |calls|
    ensures var (t, f) := Fill(supply, s, e);
            var cs, os := (if e.Call? then calls + [f.id] else calls), (if e.Output? then outputs + [f.id] else outputs);
            f.Call? == e.Call? && |os| <= |cs| && os == cs[..|os|] && t.unanswered == cs[|os|..]
  {
    var (t, f) := Fill(supply, s, e);
    if e.Call? {
      assert (calls + [f.id])[..|outputs|] == calls[..|outputs|];
      assert (calls + [f.id])[|outputs|..] == calls[|outputs|..] + [f.id];
    } else {
      assert f.id == calls[|outputs|];
      assert calls[..|outputs| + 1] == outputs + [calls[|outputs|]];
      assert s.unanswered[1..] == calls[|outputs| + 1..];
    }
  }

  /** Where an output comes too early its id belongs to no call, ever. */
  ghost predicate Orphaned(supply: nat -> string, s: Ids, sent: seq<Event>)
  {
    exists n: nat :: n < s.made && supply(n) in OutputsOf(sent) && supply(n) !in CallsOf(sent) && supply(n) !in s.unanswered
  }

  lemma {:induction false} UnbalancedOrphans(supply: nat -> string, history: seq<Event>)
    requires Usable(supply) && Distinct(supply) && IdLess(history) && !Balanced(history)
    ensures Orphaned(supply, After(supply, Start, history), Filled(supply, Start, history))
  {
    var front, sent := history[..|history| - 1], Filled(supply, Start, history);
    var s := After(supply, Start, front);
    var e := history[|history| - 1];
    assert forall i :: 0 <= i < |front| ==> front[i] == history[i];
    assert sent[..|sent| - 1] == Filled(supply, Start, front);
    TrimTight("");
    if !Balanced(front) {
      UnbalancedOrphans(supply, front);
      var n: nat :| n < s.made && supply(n) in OutputsOf(Filled(supply, Start, front))
        && supply(n) !in CallsOf(Filled(supply, Start, front)) && supply(n) !in s.unanswered;
      assert supply(n) in OutputsOf(sent) && supply(n) !in CallsOf(sent);
    } else {
      IdLessPairs(supply, front);
      Counts(supply, history);
      Counts(supply, front);
      CallsMadeUp(supply, front);
      assert sent[|sent| - 1] == Output(supply(s.made));
      assert supply(s.made) in OutputsOf(sent);
    }
  }

  lemma {:induction false} CallsMadeUp(supply: nat -> string, history: seq<Event>)
    requires Usable(supply) && IdLess(history)
    ensures MadeUp(supply, After(supply, Start, history), CallsOf(Filled(supply, Start, history)))
  {
    if history != [] {
      var front, sent := history[..|history| - 1], Filled(supply, Start, history);
      assert forall i :: 0 <= i < |front| ==> front[i] == history[i];
      CallsMadeUp(supply, front);
      assert sent[..|sent| - 1] == Filled(supply, Start, front);
      TrimTight("");
    }
  }

  /** In a history without ids the k-th output answers the k-th call exactly when no output comes before its call. */
  lemma KthAnswersKth(supply: nat -> string, history: seq<Event>)
    requires Usable(supply) && Distinct(supply) && IdLess(history)
    ensures var sent := Filled(supply, Start, history); var calls, outputs := CallsOf(sent), OutputsOf(sent);
            (|outputs| <= |calls| && forall k :: 0 <= k < |outputs| ==> outputs[k] == calls[k]) <==> Balanced(history)
  {
    if Balanced(history) {
      IdLessPairs(supply, history);
    } else {
      UnbalancedOrphans(supply, history);
    }
  }

  // The list as it is kept

  class OpenCalls {
    var ids: seq<string>
    var made: nat
    const supply: nat -> string

    function Abs(): Ids
      reads this
    {
      Ids(ids, made)
    }

    constructor (supply: nat -> string)
      ensures Abs() == Start && this.supply == supply
    {
      ids, made, this.supply := [], 0, supply;
    }

    /** Answers the call `explicit` names, or the oldest one; makes up an id if none is open. */
    method TakeCallId(explicit: string) returns (id: string)
      modifies this
      ensures Abs() == Take(supply, old(Abs()), explicit).0 && id == Take(supply, old(Abs()), explicit).1
    {
      if explicit != "" {
        var i := 0;
        while i < |ids| && ids[i] != explicit
          invariant i <= |ids| && Drop(ids, explicit) == ids[..i] + Drop(ids[i..], explicit)
        {
          assert ids[i..][1..] == ids[i + 1..] && ids[..i] + [ids[i]] == ids[..i + 1];
          i := i + 1;
        }
        if i < |ids| {
          assert ids[i..][1..] == ids[i + 1..];
          ids := ids[..i] + ids[i + 1..];
        } else {
          assert ids[..i] + [] == ids;
        }
        return explicit;
      }
      if |ids| > 0 {
        id := ids[0];
        ids := ids[1..];
        return;
      }
      made := made + 1;
      return supply(made - 1);
    }

    method EnsureCallId(explicit: string) returns (id: string)
      modifies this
      ensures Abs() == Ensure(supply, old(Abs()), explicit).0 && id == Ensure(supply, old(Abs()), explicit).1
    {
      id := Trim(explicit);
      if id == "" {
        id := supply(made);
        made := made + 1;
      }
      if id != "" { ids := ids + [id]; }
    }
  }
}
