/**
 What a chat client is told: how a stream ends for every sequence of upstream events, and
 which text, calls and finish reason a whole body comes to, read off the response itself.
 */
module ChatReplies {
  import opened Basics
  import opened ChatWire
  import opened ChatSpec
  import opened ChatDiscipline
  import opened ChatAgreement

  // How a stream ends

  predicate Ends(c: Chunk)
  {
    c.FinishChunk? || c.DoneFrame? || c.ErrorFrame?
  }

  ghost predicate StillOpen(out: seq<Chunk>)
  {
    forall i :: 0 <= i < |out| ==> !Ends(out[i])
  }

  ghost predicate Tooled(out: seq<Chunk>)
  {
    exists i :: 0 <= i < |out| && out[i].ToolStart?
  }

  /** The finish reason and the end mark after everything else; a call is what makes it a tool turn. */
  ghost predicate Finishes(out: seq<Chunk>, otherwise: string)
  {
    && |out| >= 2 && StillOpen(out[..|out| - 2]) && out[|out| - 1] == DoneFrame
    && out[|out| - 2] == FinishChunk(if Tooled(out) then "tool_calls" else otherwise)
  }

  ghost predicate Fails(out: seq<Chunk>, message: string, code: string)
  {
    out != [] && StillOpen(out[..|out| - 1]) && out[|out| - 1] == ErrorFrame(message, code)
  }

  /**
   The first terminal event decides how the stream ends; without one it is still open after
   the last event, and is cut off with an error that says whether anything had come.
   */
  ghost predicate Told(out: seq<Chunk>, events: seq<Event>, begun: bool)
    decreases |events|
  {
    if events == [] then
      Fails(out, if begun then "upstream stream ended before a terminal event" else "upstream stream empty", "upstream_stream_truncated")
    else
      match events[0]
      case Completed => Finishes(out, "stop")
      case Incomplete => Finishes(out, "length")
      case Failed(message) => Fails(out, if message == "" then "upstream response failed" else message, "upstream_error")
      case e => Told(out, events[1..], begun || Starts(e))
  }

  /** Events that always write something. */
  predicate Starts(e: Event)
  {
    || e.Created? || e.TextDelta?
    || (e.ArgumentsDelta? && (e.delta != "" || e.arguments != ""))
    || ((e.ItemAdded? || e.ItemDone?) && e.item.CallItem? && (CallName(e.item.call) != "" || CallId(e.item.call) != ""))
  }

  /** Before the end the shape tells what was written. */
  lemma {:induction false} ShapeTells(out: seq<Chunk>)
    requires Read(out).Shape? && (Read(out).phase == Idle || Read(out).phase == Streaming)
    ensures StillOpen(out) && (Tooled(out) <==> Read(out).calls > 0)
    ensures Read(out).phase == Idle <==> out == []
  {
    if out != [] {
      var front, c := out[..|out| - 1], out[|out| - 1];
      assert Read(out) == Accept(Read(front), c);
      ShapeTells(front);
      assert out == front + [c];
      if Tooled(front) {
        var i :| 0 <= i < |front| && front[i].ToolStart?;
        assert out[i].ToolStart?;
      }
    }
  }

  lemma MidTells(s: State)
    requires Mid(s)
    ensures StillOpen(s.out) && (Tooled(s.out) <==> s.sawTools) && (s.started <==> s.out != [])
  {
    ShapeTells(s.out);
  }

  lemma TerminalTells(s: State, incomplete: bool)
    requires Mid(s)
    ensures Finishes(Terminal(s, incomplete).out, if incomplete then "length" else "stop")
  {
    BeginMid(s);
    MidTells(Begin(s));
    MidUndone(s);
    hide Mid, Begin, StillOpen, Tooled;
    var b := Begin(s).out;
    var out := Terminal(s, incomplete).out;
    assert Begin(s).sawTools == s.sawTools by { BeginKeeps(s); }
    assert out == b + [FinishChunk(FinishReason(s.sawTools, incomplete)), DoneFrame];
    assert out[..|out| - 2] == b;
    ToolsBefore(b, FinishReason(s.sawTools, incomplete));
  }

  lemma BeginKeeps(s: State)
    ensures Begin(s).sawTools == s.sawTools
  {
  }

  lemma ToolsBefore(b: seq<Chunk>, reason: string)
    ensures Tooled(b + [FinishChunk(reason), DoneFrame]) <==> Tooled(b)
  {
    var out := b + [FinishChunk(reason), DoneFrame];
    if Tooled(b) {
      var i :| 0 <= i < |b| && b[i].ToolStart?;
      assert out[i].ToolStart?;
    }
    if Tooled(out) {
      var i :| 0 <= i < |out| && out[i].ToolStart?;
      assert b[i].ToolStart?;
    }
  }

  lemma FailTells(s: State, message: string, code: string)
    requires Mid(s)
    ensures Fails(Queue(s, ErrorFrame(message, code)).out, message, code)
  {
    MidTells(s);
    assert Queue(s, ErrorFrame(message, code)).out[..|s.out|] == s.out;
  }

  /** An event starts the stream exactly if it always writes. */
  lemma StartsTells(rnd: nat -> string, s: State, e: Event)
    requires Mid(s) && !e.Completed? && !e.Incomplete? && !e.Failed?
    ensures Mid(Step(rnd, s, e)) && (Step(rnd, s, e).started <==> s.started || Starts(e))
  {
    StepSound(rnd, s, e);
    hide Mid, CallId, CallName, CallArguments;
    StartedBy(rnd, s, e);
  }

  lemma StartedBy(rnd: nat -> string, s: State, e: Event)
    requires Mid(s) && !e.Completed? && !e.Incomplete? && !e.Failed?
    ensures Step(rnd, s, e).started <==> s.started || Starts(e)
  {
    hide Read, CallId, CallName, CallArguments, FirstNonEmpty;
    if !s.started { NothingTabled(s); }
  }

  lemma NothingTabled(s: State)
    requires Mid(s) && !s.started
    ensures (forall k :: k !in s.byCall) && forall k :: k !in s.byIndex
  {
    hide Read;
  }

  lemma {:induction false} RunTells(rnd: nat -> string, s: State, events: seq<Event>)
    requires Mid(s)
    ensures Told(AtEof(Run(rnd, s, events)).out, events, s.started)
    decreases |events|
  {
    hide Step, Mid, Finishes, Fails;
    MidUndone(s);
    if events == [] {
      FailTells(s, if s.started then "upstream stream ended before a terminal event" else "upstream stream empty", "upstream_stream_truncated");
    } else {
      var e := events[0];
      StepSound(rnd, s, e);
      if e.Completed? || e.Incomplete? || e.Failed? {
        EndTells(rnd, s, e);
      } else {
        StartsTells(rnd, s, e);
        RunTells(rnd, Step(rnd, s, e), events[1..]);
      }
    }
  }

  lemma EndTells(rnd: nat -> string, s: State, e: Event)
    requires Mid(s)
    ensures e.Completed? ==> Finishes(Step(rnd, s, e).out, "stop")
    ensures e.Incomplete? ==> Finishes(Step(rnd, s, e).out, "length")
    ensures e.Failed? ==> Fails(Step(rnd, s, e).out, if e.message == "" then "upstream response failed" else e.message, "upstream_error")
  {
    hide Mid, Finishes, Fails, Terminal;
    if e.Completed? { TerminalTells(s, false); }
    if e.Incomplete? { TerminalTells(s, true); }
    if e.Failed? { FailTells(s, if e.message == "" then "upstream response failed" else e.message, "upstream_error"); }
  }

  /**
   Every stream that is read to its end: it finishes with "tool_calls" exactly if a call was
   started, else with "length" exactly if the response was incomplete, else with "stop"; a
   failure, or a body without a terminal event, ends it with one error instead.
   */
  lemma StreamTells(rnd: nat -> string, events: seq<Event>)
    ensures Told(AtEof(Run(rnd, Init, events)).out, events, false)
    ensures var s := AtEof(Run(rnd, Init, events)); s.done && AtEof(s) == s
  {
    hide Run, Told;
    assert Mid(Init);
    RunTells(rnd, Init, events);
  }

  // Where a piece goes

  predicate StartAt(out: seq<Chunk>, i: nat, id: string, n: nat)
  {
    i < |out| && out[i].ToolStart? && out[i].id == id && out[i].index == n
  }

  /** The call with this id was started under this index, and under no later one. */
  ghost predicate LastStart(out: seq<Chunk>, id: string, n: nat)
  {
    && (exists i: nat :: StartAt(out, i, id, n))
    && (forall i: nat, m: nat :: StartAt(out, i, id, m) ==> m <= n)
  }

  predicate ArguedAt(out: seq<Chunk>, i: nat, n: nat)
  {
    i < |out| && out[i].ToolArguments? && out[i].index == n
  }

  ghost predicate HasArguments(out: seq<Chunk>, n: nat)
  {
    exists i: nat :: ArguedAt(out, i, n)
  }

  /** The tables by id and by argument are what was written. */
  ghost predicate Ledger(s: State)
  {
    && (forall id :: id in s.byCall ==> LastStart(s.out, id, s.byCall[id]))
    && (forall i: nat, id, n: nat :: StartAt(s.out, i, id, n) ==> id in s.byCall)
    && (forall n :: n in s.argued <==> HasArguments(s.out, n))
  }

  lemma LedgerPlain(s: State, t: State, c: Chunk)
    requires Ledger(s) && t.out == s.out + [c] && !c.ToolStart? && !c.ToolArguments? && t.byCall == s.byCall && t.argued == s.argued
    ensures Ledger(t)
  {
    KeepsStarts(s.out, c);
    KeepsArguments(s.out, c);
  }

  lemma KeepsStarts(out: seq<Chunk>, c: Chunk)
    requires !c.ToolStart?
    ensures forall i: nat, id, n: nat :: StartAt(out + [c], i, id, n) <==> StartAt(out, i, id, n)
    ensures forall id, n: nat :: LastStart(out + [c], id, n) <==> LastStart(out, id, n)
  {
    forall id, n: nat ensures LastStart(out + [c], id, n) <==> LastStart(out, id, n) {
      assert forall i: nat, m: nat :: StartAt(out + [c], i, id, m) <==> StartAt(out, i, id, m);
    }
  }

  lemma KeepsArguments(out: seq<Chunk>, c: Chunk)
    requires !c.ToolArguments?
    ensures forall n: nat :: HasArguments(out + [c], n) <==> HasArguments(out, n)
  {
    assert forall i: nat, n: nat :: ArguedAt(out + [c], i, n) <==> ArguedAt(out, i, n);
  }

  lemma LedgerArgued(s: State, n: nat, arguments: string)
    requires Ledger(s)
    ensures Ledger(Argue(s, n, arguments))
  {
    var c := ToolArguments(n, arguments);
    var out := s.out + [c];
    KeepsStarts(s.out, c);
    forall m: nat ensures HasArguments(out, m) <==> HasArguments(s.out, m) || m == n {
      if HasArguments(s.out, m) {
        var i: nat :| ArguedAt(s.out, i, m);
        assert ArguedAt(out, i, m);
      }
      if m == n { assert ArguedAt(out, |s.out|, n); }
      if HasArguments(out, m) && m != n {
        var i: nat :| ArguedAt(out, i, m);
        assert ArguedAt(s.out, i, m);
      }
    }
    assert Argue(s, n, arguments).out == out;
  }

  lemma LedgerOpened(s: State, id: string, name: string, index: int)
    requires Mid(s) && Ledger(s)
    ensures Ledger(Open(s, id, name, index))
  {
    var b := Begin(s);
    if !s.started { LedgerPlain(s, b, RoleChunk); }
    BelowNext(s);
    var t := Open(s, id, name, index);
    var c := ToolStart(s.next, id, name);
    assert t.out == b.out + [c] && t.byCall == b.byCall[id := s.next] && t.argued == b.argued;
    hide Mid, Open, Begin;
    KeepsArguments(b.out, c);
    assert StartAt(t.out, |b.out|, id, s.next);
    forall i: nat, k, n: nat ensures StartAt(t.out, i, k, n) <==> StartAt(b.out, i, k, n) || (i == |b.out| && k == id && n == s.next) { }
    forall k | k in t.byCall ensures LastStart(t.out, k, t.byCall[k]) {
      if k != id {
        var i: nat :| StartAt(b.out, i, k, b.byCall[k]);
        assert StartAt(t.out, i, k, b.byCall[k]);
      } else {
        forall i: nat, m: nat | StartAt(t.out, i, k, m) ensures m <= s.next {
          if StartAt(b.out, i, k, m) { assert k in b.byCall && m <= b.byCall[k]; }
        }
      }
    }
  }

  lemma BelowNext(s: State)
    requires Mid(s)
    ensures forall k :: k in s.byCall ==> s.byCall[k] < s.next
    ensures Begin(s).next == s.next && Begin(s).byCall == s.byCall && Begin(s).argued == s.argued
  {
    hide Read;
  }

  lemma LedgerStep(rnd: nat -> string, s: State, e: Event)
    requires Mid(s) && Ledger(s) && !e.Completed? && !e.Incomplete? && !e.Failed?
    ensures Ledger(Step(rnd, s, e))
  {
    hide Mid, Ledger, Open, Argue, CallId, CallName, CallArguments, FirstNonEmpty;
    LedgerBegun(s);
    match e
    case TextDelta(delta) => LedgerPlain(Begin(s), Step(rnd, s, e), if delta != "" then ContentChunk(delta) else EmptyChunk);
    case ItemAdded(item, index) => if item.CallItem? { LedgerAdded(rnd, s, item.call, index); }
    case ArgumentsDelta(callId, itemId, delta, arguments, index) =>
      LedgerPiece(rnd, s, callId, itemId, if delta != "" then delta else arguments, index);
    case ItemDone(item, index) => if item.CallItem? { LedgerDone(rnd, s, item.call, index); }
    case _ =>
  }

  lemma LedgerBegun(s: State)
    requires Ledger(s)
    ensures Ledger(Begin(s))
  {
    if !s.started { LedgerPlain(s, Begin(s), RoleChunk); }
  }

  lemma SameLedger(s: State, t: State)
    requires Ledger(s) && t.out == s.out && t.byCall == s.byCall && t.argued == s.argued
    ensures Ledger(t)
  {
  }

  lemma LedgerAdded(rnd: nat -> string, s: State, c: Call, index: int)
    requires Mid(s) && Ledger(s)
    ensures Ledger(ToolAdded(rnd, s, c, index))
  {
    hide Mid, Ledger, Open, CallId, CallName;
    NamedMid(rnd, s, CallId(c));
    var (s1, callId) := Named(rnd, s, CallId(c));
    SameLedger(s, s1);
    if callId in s1.byCall {
      SameLedger(s1, s1.(byIndex := if index >= 0 then s1.byIndex[index := s1.byCall[callId]] else s1.byIndex));
    } else {
      LedgerOpened(s1, callId, CallName(c), index);
    }
  }

  lemma LedgerPiece(rnd: nat -> string, s: State, callId: string, itemId: string, piece: string, index: int)
    requires Mid(s) && Ledger(s)
    ensures Ledger(ToolDelta(rnd, s, callId, itemId, piece, index))
  {
    hide Mid, Ledger, Open, Argue, Resolve, FirstNonEmpty;
    var at := Resolve(s, callId, itemId, index);
    if at.Some? {
      LedgerArgued(s, at.value, piece);
    } else {
      var key := FirstNonEmpty(callId, itemId);
      NamedMid(rnd, s, key);
      var (s1, id) := Named(rnd, s, key);
      SameLedger(s, s1);
      LedgerOpened(s1, id, "", index);
      LedgerArgued(Open(s1, id, "", index), s1.next, piece);
    }
  }

  lemma LedgerDone(rnd: nat -> string, s: State, c: Call, index: int)
    requires Mid(s) && Ledger(s)
    ensures Ledger(ToolDone(rnd, s, c, index))
  {
    hide Mid, Ledger, Open, Argue, Resolve, CallId, CallName, CallArguments;
    var at := Resolve(s, c.callId, "", index);
    if at.Some? {
      LedgerArgued(s, at.value, CallArguments(c));
    } else {
      NamedMid(rnd, s, CallId(c));
      var (s1, id) := Named(rnd, s, CallId(c));
      SameLedger(s, s1);
      LedgerOpened(s1, id, CallName(c), index);
      LedgerArgued(Open(s1, id, CallName(c), index), s1.next, CallArguments(c));
    }
  }

  predicate Last(e: Event)
  {
    e.Completed? || e.Incomplete? || e.Failed?
  }

  lemma {:induction false} RunLedger(rnd: nat -> string, s: State, events: seq<Event>)
    requires Mid(s) && Ledger(s) && forall i :: 0 <= i < |events| ==> !Last(events[i])
    ensures Mid(Run(rnd, s, events)) && Ledger(Run(rnd, s, events))
    decreases |events|
  {
    hide Mid, Ledger, Step;
    MidUndone(s);
    if events != [] {
      StepSound(rnd, s, events[0]);
      LedgerStep(rnd, s, events[0]);
      RunLedger(rnd, Step(rnd, s, events[0]), events[1..]);
    }
  }

  /** The id a piece or a finished call names: its call id, or else its item id. */
  predicate Names(callId: string, itemId: string, id: string)
  {
    id != "" && id == if Trim(callId) != "" then Trim(callId) else Trim(itemId)
  }

  /**
   After any events without a terminal one: a piece of arguments that names a call already
   started goes to that call; the whole arguments of a finished call do so unless a piece
   went there before; and announcing a call again writes nothing and notes its place.
   */
  lemma PiecesFollow(rnd: nat -> string, events: seq<Event>, id: string, n: nat, e: Event)
    requires (forall i :: 0 <= i < |events| ==> !Last(events[i])) && LastStart(Run(rnd, Init, events).out, id, n)
    ensures var s := Run(rnd, Init, events); var t := Step(rnd, s, e);
      && (e.ArgumentsDelta? && Names(e.callId, e.itemId, id) ==>
            var piece := if e.delta != "" then e.delta else e.arguments;
            t.out == s.out + if piece == "" then [] else [ToolArguments(n, piece)])
      && (e.ItemDone? && e.item.CallItem? && Names(e.item.call.callId, "", id) ==>
            var c := e.item.call;
            var whole := if c.arguments != "" then c.arguments else if c.input != "" then c.input else c.fnArguments;
            t.out == s.out + if whole == "" || HasArguments(s.out, n) then [] else [ToolArguments(n, whole)])
      && (e.ItemAdded? && e.item.CallItem? && Names(e.item.call.callId, "", id) ==>
            t.out == s.out && t.byIndex == if e.index >= 0 then s.byIndex[e.index := n] else s.byIndex)
  {
    var s := Run(rnd, Init, events);
    assert Mid(Init) && Ledger(Init);
    RunLedger(rnd, Init, events);
    KnownAs(s, id, n);
    hide Mid, Ledger, Run, LastStart, HasArguments;
    assert s.out + [] == s.out;
    TrimTight(id);
    FollowOne(rnd, s, id, n, e);
  }

  lemma KnownAs(s: State, id: string, n: nat)
    requires Ledger(s) && LastStart(s.out, id, n)
    ensures id in s.byCall && s.byCall[id] == n && (n in s.argued <==> HasArguments(s.out, n))
  {
    var i: nat :| StartAt(s.out, i, id, n);
    assert LastStart(s.out, id, s.byCall[id]);
    var j: nat :| StartAt(s.out, j, id, s.byCall[id]);
  }

  lemma FollowOne(rnd: nat -> string, s: State, id: string, n: nat, e: Event)
    requires id in s.byCall && s.byCall[id] == n
    ensures var t := Step(rnd, s, e);
      && (e.ArgumentsDelta? && Names(e.callId, e.itemId, id) ==>
            var piece := if e.delta != "" then e.delta else e.arguments;
            t.out == s.out + if piece == "" then [] else [ToolArguments(n, piece)])
      && (e.ItemDone? && e.item.CallItem? && Names(e.item.call.callId, "", id) ==>
            var c := e.item.call;
            var whole := if c.arguments != "" then c.arguments else if c.input != "" then c.input else c.fnArguments;
            t.out == s.out + if whole == "" || n in s.argued then [] else [ToolArguments(n, whole)])
      && (e.ItemAdded? && e.item.CallItem? && Names(e.item.call.callId, "", id) ==>
            t.out == s.out && t.byIndex == if e.index >= 0 then s.byIndex[e.index := n] else s.byIndex)
  {
    assert s.out + [] == s.out && Trim("") == "";
    hide Trim, Open, CallName;
  }

  // A call heard of for the first time

  /** The id a call states, or one of its own that looks like a call's; blank without either. */
  predicate OwnId(c: Call, id: string)
  {
    id == if Trim(c.callId) != "" then Trim(c.callId) else if "call" <= c.id || "fc_" <= c.id then c.id else ""
  }

  /** The call is started under the next index, after the role chunk if nothing came before, and found under its id and its place. */
  ghost predicate Begins(s: State, t: State, id: string, name: string, arguments: string, index: int)
  {
    && t.out == (if s.started then s.out else s.out + [RoleChunk]) + [ToolStart(s.next, id, name)]
                + (if arguments == "" then [] else [ToolArguments(s.next, arguments)])
    && t.next == s.next + 1 && t.byCall == s.byCall[id := s.next]
    && t.byIndex == (if index >= 0 then s.byIndex[index := s.next] else s.byIndex)
  }

  /** A stated id is used as it is; without one the next random id is drawn. */
  predicate Drawn(rnd: nat -> string, s: State, t: State, stated: string, id: string)
  {
    if stated != "" then id == stated && t.draws == s.draws else id == "call_" + rnd(s.draws) && t.draws == s.draws + 1
  }

  predicate NewPlace(s: State, index: int)
  {
    index < 0 || index !in s.byIndex
  }

  lemma OpenBegins(s: State, id: string, name: string, index: int)
    ensures Begins(s, Open(s, id, name, index), id, name, "", index) && Open(s, id, name, index).draws == s.draws
  {
  }

  lemma OpenArgued(s: State, id: string, name: string, arguments: string, index: int)
    requires arguments != ""
    ensures var t := Argue(Open(s, id, name, index), s.next, arguments);
            Begins(s, t, id, name, arguments, index) && t.draws == s.draws
  {
    OpenBegins(s, id, name, index);
    var o := Open(s, id, name, index);
    assert o.out + [ToolArguments(s.next, arguments)] ==
           (if s.started then s.out else s.out + [RoleChunk]) + [ToolStart(s.next, id, name)] + [ToolArguments(s.next, arguments)];
  }

  lemma OwnIs(c: Call, stated: string, name: string)
    requires OwnId(c, stated) && Titled(c, name)
    ensures CallId(c) == stated && CallName(c) == name
  {
    hide Trim;
  }

  /** Drawing an id changes nothing but the count of drawn ones. */
  lemma BeginsDrawn(s: State, u: State, t: State, id: string, name: string, arguments: string, index: int)
    requires u == s.(draws := u.draws) && Begins(u, t, id, name, arguments, index)
    ensures Begins(s, t, id, name, arguments, index)
  {
  }

  /** An announced call whose id is new begins with its name. */
  lemma AnnouncedBegins(rnd: nat -> string, s: State, c: Call, index: int, stated: string, name: string)
    requires OwnId(c, stated) && Titled(c, name) && (stated != "" || name != "")
    requires (if stated != "" then stated else "call_" + rnd(s.draws)) !in s.byCall
    ensures var id := if stated != "" then stated else "call_" + rnd(s.draws); var t := Step(rnd, s, ItemAdded(CallItem(c), index));
            Begins(s, t, id, name, "", index) && Drawn(rnd, s, t, stated, id)
  {
    hide Open, Begins, CallId, CallName, OwnId, Titled;
    OwnIs(c, stated, name);
    var (s1, id) := Named(rnd, s, stated);
    OpenBegins(s1, id, name, index);
    BeginsDrawn(s, s1, Open(s1, id, name, index), id, name, "", index);
  }

  /** A piece of arguments that names no call begun and comes at a new place begins one without a name. */
  lemma PieceBegins(rnd: nat -> string, s: State, e: Event, stated: string)
    requires e.ArgumentsDelta? && stated == (if Trim(e.callId) != "" then Trim(e.callId) else Trim(e.itemId))
    requires stated !in s.byCall && NewPlace(s, e.index) && (e.delta != "" || e.arguments != "")
    ensures var id := if stated != "" then stated else "call_" + rnd(s.draws); var t := Step(rnd, s, e);
            Begins(s, t, id, "", if e.delta != "" then e.delta else e.arguments, e.index) && Drawn(rnd, s, t, stated, id)
  {
    hide Open, Argue, Begins, Trim;
    var piece := if e.delta != "" then e.delta else e.arguments;
    var (s1, id) := Named(rnd, s, stated);
    OpenArgued(s1, id, "", piece, e.index);
    BeginsDrawn(s, s1, Argue(Open(s1, id, "", e.index), s1.next, piece), id, "", piece, e.index);
  }

  /** A finished call that was never heard of begins with its name and its whole arguments. */
  lemma DoneBegins(rnd: nat -> string, s: State, c: Call, index: int, stated: string, name: string)
    requires OwnId(c, stated) && Titled(c, name) && (stated != "" || name != "")
    requires (Trim(c.callId) == "" || stated !in s.byCall) && NewPlace(s, index)
    ensures var id := if stated != "" then stated else "call_" + rnd(s.draws); var t := Step(rnd, s, ItemDone(CallItem(c), index));
            var whole := if c.arguments != "" then c.arguments else if c.input != "" then c.input else c.fnArguments;
            Begins(s, t, id, name, whole, index) && Drawn(rnd, s, t, stated, id)
  {
    NotResolved(s, c, index, stated);
    OwnIs(c, stated, name);
    hide Open, Argue, Begins, Resolve, CallId, CallName, OwnId, Titled;
    var (s1, id) := Named(rnd, s, stated);
    var whole := CallArguments(c);
    if whole == "" {
      OpenBegins(s1, id, name, index);
      BeginsDrawn(s, s1, Open(s1, id, name, index), id, name, "", index);
    } else {
      OpenArgued(s1, id, name, whole, index);
      BeginsDrawn(s, s1, Argue(Open(s1, id, name, index), s1.next, whole), id, name, whole, index);
    }
  }

  lemma NotResolved(s: State, c: Call, index: int, stated: string)
    requires OwnId(c, stated) && (Trim(c.callId) == "" || stated !in s.byCall) && NewPlace(s, index)
    ensures Resolve(s, c.callId, "", index).None?
  {
    assert Trim("") == "";
    hide Trim;
  }

  /** What comes at the place of a call and names no other goes to that call. */
  lemma PlaceFollows(rnd: nat -> string, s: State, index: int, e: Event)
    requires index >= 0 && index in s.byIndex
    ensures var n := s.byIndex[index]; var t := Step(rnd, s, e);
      && (e.ArgumentsDelta? && e.index == index && (if Trim(e.callId) != "" then Trim(e.callId) else Trim(e.itemId)) !in s.byCall ==>
            var piece := if e.delta != "" then e.delta else e.arguments;
            t.out == s.out + if piece == "" then [] else [ToolArguments(n, piece)])
      && (e.ItemDone? && e.item.CallItem? && e.index == index && Trim(e.item.call.callId) !in s.byCall
          && (HasTitle(e.item.call) || !OwnId(e.item.call, "")) ==>
            var c := e.item.call;
            var whole := if c.arguments != "" then c.arguments else if c.input != "" then c.input else c.fnArguments;
            t.out == s.out + if whole == "" || n in s.argued then [] else [ToolArguments(n, whole)])
  {
    assert Trim("") == "" && s.out + [] == s.out;
    hide Trim;
  }

  // What a whole body comes to

  /** The call's name: trimmed, unless it only has the nested one. */
  predicate Titled(c: Call, name: string)
  {
    name == if Trim(c.name) != "" then Trim(c.name) else if Trim(c.toolName) != "" then Trim(c.toolName) else c.fnName
  }

  predicate HasTitle(c: Call)
  {
    Trim(c.name) != "" || Trim(c.toolName) != "" || c.fnName != ""
  }

  /** The id it states, or else one of its own that looks like a call's, or else a made-up one. */
  predicate Identifies(c: Call, random: string, id: string)
  {
    id == if Trim(c.callId) != "" then Trim(c.callId)
          else if "call" <= c.id || "fc_" <= c.id then c.id
          else "call_" + random
  }

  predicate Argues(c: Call, arguments: string)
  {
    arguments ==
      if c.arguments != "" then c.arguments else if c.input != "" then c.input
      else if c.fnArguments != "" then c.fnArguments else if c.parameters != "" then c.parameters else "{}"
  }

  function Titles(output: seq<Item>): nat -> bool
  {
    (i: nat) => i < |output| && output[i].CallItem? && HasTitle(output[i].call)
  }

  /** The calls with a name, in order, each with its id and arguments. */
  ghost predicate CallsTold(output: seq<Item>, random: string, calls: seq<ChatCall>, idx: seq<nat>)
  {
    && Picks(|output|, Titles(output), idx) && |calls| == |idx|
    && forall k :: 0 <= k < |idx| ==> idx[k] < |output| && output[idx[k]].CallItem? && CallTold(output[idx[k]].call, random, calls[k])
  }

  predicate CallTold(c: Call, random: string, call: ChatCall)
  {
    Titled(c, call.name) && Identifies(c, random, call.id) && Argues(c, call.arguments)
  }

  lemma CallIs(c: Call, random: string)
    ensures CallName(c) != "" <==> HasTitle(c)
    ensures CallTold(c, random, ChatCall(BatchCallId(c, random), CallName(c), BatchArguments(c)))
  {
    hide Trim;
  }

  lemma {:induction false} CallsTell(output: seq<Item>, random: string) returns (idx: seq<nat>)
    ensures CallsTold(output, random, BatchCalls(output, random), idx)
  {
    hide CallId, CallName, BatchArguments, HasTitle, CallTold, CallsTold;
    idx := [];
    if output == [] {
      NoCallsTold(random);
    } else {
      var front, item := output[..|output| - 1], output[|output| - 1];
      assert output == front + [item];
      idx := CallsTell(front, random);
      if item.CallItem? { CallIs(item.call, random); }
      idx := NextCall(front, item, random, BatchCalls(front, random), idx,
                      if item.CallItem? then ChatCall(BatchCallId(item.call, random), CallName(item.call), BatchArguments(item.call)) else ChatCall("", "", ""));
      assert BatchCalls(front, random) + [] == BatchCalls(front, random);
    }
  }

  lemma NoCallsTold(random: string)
    ensures CallsTold([], random, [], [])
  {
  }

  lemma NextCall(front: seq<Item>, item: Item, random: string, calls: seq<ChatCall>, before: seq<nat>, call: ChatCall) returns (idx: seq<nat>)
    requires CallsTold(front, random, calls, before) && (item.CallItem? ==> CallTold(item.call, random, call))
    ensures CallsTold(front + [item], random, if item.CallItem? && HasTitle(item.call) then calls + [call] else calls, idx)
  {
    hide Picks, CallTold, HasTitle;
    PicksSame(|front|, Titles(front), Titles(front + [item]), before);
    PicksMore(|front|, Titles(front + [item]), before);
    idx := if item.CallItem? && HasTitle(item.call) then before + [|front|] else before;
  }

  /** The texts of the textual parts of all messages, in order. */
  function Words(output: seq<Item>): seq<string>
  {
    if output == [] then [] else Words(output[..|output| - 1]) + if output[|output| - 1].Message? then PartWords(output[|output| - 1].parts) else []
  }

  function PartWords(parts: seq<Part>): seq<string>
  {
    if parts == [] then [] else PartWords(parts[..|parts| - 1]) + if parts[|parts| - 1].textual then [parts[|parts| - 1].text] else []
  }

  lemma {:induction false} ConcatAppend(a: seq<string>, b: seq<string>)
    ensures Concat(a + b) == Concat(a) + Concat(b)
  {
    if a == [] {
      assert a + b == b;
    } else {
      assert (a + b)[0] == a[0] && (a + b)[1..] == a[1..] + b;
      ConcatAppend(a[1..], b);
    }
  }

  lemma ConcatOne(s: string)
    ensures Concat([s]) == s && Concat([]) == ""
  {
    assert [s][1..] == [];
  }

  lemma {:induction false} PartsTell(parts: seq<Part>)
    ensures Texts(parts) == Concat(PartWords(parts))
  {
    if parts != [] {
      PartsTell(parts[..|parts| - 1]);
      ConcatAppend(PartWords(parts[..|parts| - 1]), if parts[|parts| - 1].textual then [parts[|parts| - 1].text] else []);
      ConcatOne(parts[|parts| - 1].text);
    }
  }

  lemma {:induction false} TextTells(output: seq<Item>)
    ensures BatchText(output) == Concat(Words(output))
  {
    hide Texts, PartWords;
    if output != [] {
      var item := output[|output| - 1];
      TextTells(output[..|output| - 1]);
      if item.Message? { PartsTell(item.parts); }
      ConcatAppend(Words(output[..|output| - 1]), if item.Message? then PartWords(item.parts) else []);
      ConcatOne("");
    }
  }

  /**
   A whole body becomes the texts of its messages, unless the response states its text
   itself; its named calls; and the finish reason that goes with them.
   */
  lemma BodyTells(r: Response, random: string) returns (idx: seq<nat>)
    ensures var c := Batch(r, random);
            && c.text == (if Trim(r.outputText) != "" then Trim(r.outputText) else Concat(Words(r.output)))
            && CallsTold(r.output, random, c.calls, idx)
            && (c.finish == "tool_calls" <==> exists i :: 0 <= i < |r.output| && r.output[i].CallItem? && HasTitle(r.output[i].call))
            && (c.finish == "length" <==> r.incomplete && !exists i :: 0 <= i < |r.output| && r.output[i].CallItem? && HasTitle(r.output[i].call))
            && c.finish in ["tool_calls", "length", "stop"]
  {
    hide BatchText, BatchCalls, Trim, HasTitle, CallTold;
    TextTells(r.output);
    idx := CallsTell(r.output, random);
    if idx != [] {
      assert idx[0] in idx;
      assert Titles(r.output)(idx[0]);
    } else {
      forall i: nat ensures !Titles(r.output)(i) { assert i !in idx; }
      forall i | 0 <= i < |r.output| ensures !(r.output[i].CallItem? && HasTitle(r.output[i].call)) { assert !Titles(r.output)(i); }
    }
  }
}
