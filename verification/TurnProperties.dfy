/**
 What holds over every turn of the read loop: each steer request is resolved exactly once,
 responses never cross, and the deadlines are the ones the turn's history earned.
 */
module TurnProperties {
  import opened Events
  import opened ReadLoop

  /** Ids are issued upwards from the prompt's, so a steer in flight has a larger one. */
  ghost predicate LoopInv(p: Params, s: Loop) {
    && p.expectedId < s.nextId
    && (s.pending.Some? ==>
          p.expectedId < s.pending.value.id < s.nextId && s.pending.value.request < s.received)
  }

  lemma HandlingKeepsInv(p: Params, s: Loop, m: Message, later: Time, writeOk: bool)
    requires LoopInv(p, s)
    ensures LoopInv(p, Handle(p, s, m, later, writeOk).loop)
  {
  }

  lemma IterationKeepsInv(p: Params, s: Loop, i: Input)
    requires LoopInv(p, s) && Possible(p, s, i)
    ensures LoopInv(p, Iterate(p, s, i).loop)
  {
    if i.event.Read? && i.event.line.Msg? {
      HandlingKeepsInv(p, Touch(p, s, i.event.at), i.event.line.message, i.event.later, i.event.writeOk);
    }
  }

  // ---- routing ----

  /** A response to the prompt ends the turn and one to the steer never does; none is both. */
  lemma ResponsesNeverCross(p: Params, s: Loop, m: Message, later: Time, writeOk: bool)
    requires LoopInv(p, s)
    ensures !(AnswersSteer(s, m) && Answers(m, p.expectedId))
    ensures Handle(p, s, m, later, writeOk).exit in {Some(PromptResult), Some(PromptError)} <==>
        Answers(m, p.expectedId)
    ensures AnswersSteer(s, m) ==> Handle(p, s, m, later, writeOk).exit.None?
  {
  }

  /** The message an iteration gets to handle: its deadline check passed and a line parsed. */
  ghost predicate Handles(s: Loop, i: Input, m: Message) {
    i.head < NextDeadline(s) && i.event.Read? && i.event.line == Msg(m)
  }

  /**
   A request is acked as delivered exactly when its own response arrives without an error and was
   sent the goose way or reports a recognised outcome.
   */
  lemma SuccessExactly(p: Params, s: Loop, i: Input, r: nat)
    ensures Acked(r, Success) in Iterate(p, s, i).emits <==>
            exists m :: && Handles(s, i, m) && AnswersSteer(s, m) && r == s.pending.value.request
                        && m.error.None?
                        && (s.pending.value.transport.Goose? || m.outcome == Text(INJECTED)
                            || m.outcome == Text(STARTED_NEW_TURN))
  {
    if i.event.Read? && i.event.line.Msg? {
      var m := i.event.line.message;
      assert Handles(s, i, m) <==> i.head < NextDeadline(s);
    }
  }

  // ---- ids of steers ----

  /** Steer calls among `emits` carry strictly increasing ids, from `lo` on and below `hi`. */
  ghost predicate Ascending(emits: seq<Emit>, lo: nat, hi: nat) {
    if emits == [] then lo <= hi
    else if emits[0].Sent? && emits[0].wire.SteerCall? then
      lo <= emits[0].wire.id < hi && Ascending(emits[1..], emits[0].wire.id + 1, hi)
    else Ascending(emits[1..], lo, hi)
  }

  lemma {:induction false} AscendingBelow(emits: seq<Emit>, lo: nat, low: nat, hi: nat)
    requires lo <= low && Ascending(emits, low, hi)
    ensures Ascending(emits, lo, hi)
  {
    if emits != [] && !(emits[0].Sent? && emits[0].wire.SteerCall?) { AscendingBelow(emits[1..], lo, low, hi); }
  }

  lemma {:induction false} AscendingCat(a: seq<Emit>, b: seq<Emit>, lo: nat, mid: nat, hi: nat)
    requires Ascending(a, lo, mid) && Ascending(b, mid, hi)
    ensures Ascending(a + b, lo, hi)
  {
    if a == [] {
      assert a + b == b;
      AscendingBelow(b, lo, mid, hi);
    } else {
      var steers := a[0].Sent? && a[0].wire.SteerCall?;
      AscendingCat(a[1..], b, if steers then a[0].wire.id + 1 else lo, mid, hi);
      assert (a + b)[1..] == a[1..] + b;
      if steers { AscendingFits(b, mid, hi); }
    }
  }

  lemma {:induction false} AscendingFits(emits: seq<Emit>, lo: nat, hi: nat)
    requires Ascending(emits, lo, hi)
    ensures lo <= hi
  {
    if emits != [] && !(emits[0].Sent? && emits[0].wire.SteerCall?) { AscendingFits(emits[1..], lo, hi); }
  }

  lemma HandlingSendsNoSteer(p: Params, s: Loop, m: Message, later: Time, writeOk: bool)
    ensures Ascending(Handle(p, s, m, later, writeOk).emits, s.nextId, Handle(p, s, m, later, writeOk).loop.nextId)
    ensures Handle(p, s, m, later, writeOk).loop.nextId == s.nextId
  {
    var o := Handle(p, s, m, later, writeOk);
    assert |o.emits| <= 1;
    if |o.emits| == 1 { assert o.emits[1..] == []; }
  }

  lemma IterationIds(p: Params, s: Loop, i: Input)
    ensures Ascending(Iterate(p, s, i).emits, s.nextId, Iterate(p, s, i).loop.nextId)
  {
    var o := Iterate(p, s, i);
    if i.head < NextDeadline(s) && i.event.Read? && i.event.line.Msg? {
      HandlingSendsNoSteer(p, Touch(p, s, i.event.at), i.event.line.message, i.event.later, i.event.writeOk);
    } else {
      assert |o.emits| <= 1;
      if |o.emits| == 1 { assert o.emits[1..] == []; }
    }
  }

  /** Over a whole turn steer ids strictly increase above the prompt's: no response can be taken for another's. */
  lemma {:induction false} SteerIdsIncrease(p: Params, s: Loop, script: seq<Input>, clock: Time)
    requires IsScript(p, s, script, clock)
    ensures Ascending(Turn(p, s, script).emits, s.nextId, Turn(p, s, script).loop.nextId)
    decreases |script|
  {
    if script != [] {
      var o := Iterate(p, s, script[0]);
      IterationIds(p, s, script[0]);
      if o.exit.None? {
        SteerIdsIncrease(p, o.loop, script[1..], EndOf(script[0]));
        AscendingCat(o.emits, Turn(p, o.loop, script[1..]).emits, s.nextId, o.loop.nextId,
            Turn(p, s, script).loop.nextId);
      }
    }
  }

  // ---- every request is resolved exactly once ----

  ghost function Resolves(e: Emit, r: nat): nat {
    if (e.Acked? || e.Dropped?) && e.request == r then 1 else 0
  }

  ghost function Resolved(emits: seq<Emit>, r: nat): nat {
    if emits == [] then 0 else Resolves(emits[0], r) + Resolved(emits[1..], r)
  }

  lemma {:induction false} ResolvedCat(a: seq<Emit>, b: seq<Emit>, r: nat)
    ensures Resolved(a + b, r) == Resolved(a, r) + Resolved(b, r)
  {
    if a == [] {
      assert a + b == b;
    } else {
      ResolvedCat(a[1..], b, r);
      assert (a + b)[1..] == a[1..] + b;
    }
  }

  ghost function Waiting(s: Loop, r: nat): nat {
    if s.pending.Some? && s.pending.value.request == r then 1 else 0
  }

  ghost function TakenBetween(s: Loop, t: Loop, r: nat): nat {
    if s.received <= r < t.received then 1 else 0
  }

  /** Requests in play are conserved: taken or waiting before, resolved or waiting after. */
  ghost predicate Conserves(s: Loop, o: Outcome, r: nat) {
    && s.received <= o.loop.received
    && Resolved(o.emits, r) + Waiting(o.loop, r) == Waiting(s, r) + TakenBetween(s, o.loop, r)
    && (o.exit.Some? ==> o.loop.pending.None?)
  }

  lemma ResolvedOne(e: Emit, r: nat)
    ensures Resolved([e], r) == Resolves(e, r)
  {
    assert [e][1..] == [];
  }

  lemma HandlingConserves(p: Params, s: Loop, m: Message, later: Time, writeOk: bool, r: nat)
    requires LoopInv(p, s)
    ensures Conserves(s, Handle(p, s, m, later, writeOk), r)
  {
    var o := Handle(p, s, m, later, writeOk);
    if AnswersSteer(s, m) {
      ResolvedOne(o.emits[0], r);
    } else if Answers(m, p.expectedId) {
      if s.pending.Some? { ResolvedOne(o.emits[0], r); }
    } else if m.call.Named? {
      DispatchConserves(p, s, m, later, writeOk, r);
    }
  }

  lemma DispatchConserves(p: Params, s: Loop, m: Message, later: Time, writeOk: bool, r: nat)
    requires m.call.Named?
    ensures Conserves(s, Dispatch(p, s, m, later, writeOk), r)
  {
    var o := Dispatch(p, s, m, later, writeOk);
    if o.emits != [] { ResolvedOne(o.emits[0], r); }
  }

  lemma IterationConserves(p: Params, s: Loop, i: Input, r: nat)
    requires LoopInv(p, s) && Possible(p, s, i)
    ensures Conserves(s, Iterate(p, s, i), r)
  {
    if i.head < NextDeadline(s) && i.event.Read? && i.event.line.Msg? {
      HandlingConserves(p, Touch(p, s, i.event.at), i.event.line.message, i.event.later, i.event.writeOk, r);
    } else {
      var o := Iterate(p, s, i);
      if o.emits != [] { ResolvedOne(o.emits[0], r); }
    }
  }

  lemma {:induction false} TurnResolves(p: Params, s: Loop, script: seq<Input>, clock: Time, r: nat)
    requires LoopInv(p, s) && IsScript(p, s, script, clock)
    ensures Conserves(s, Turn(p, s, script), r)
    decreases |script|
  {
    if script != [] {
      var o := Iterate(p, s, script[0]);
      IterationKeepsInv(p, s, script[0]);
      IterationConserves(p, s, script[0], r);
      if o.exit.None? {
        TurnResolves(p, o.loop, script[1..], EndOf(script[0]), r);
        ResolvedCat(o.emits, Turn(p, o.loop, script[1..]).emits, r);
      }
    }
  }

  /**
   Over a whole turn, each steer request taken is resolved once, at most one is unresolved at any
   time, and none once the turn is over.
   */
  lemma EachSteerResolvedOnce(p: Params, s: Loop, script: seq<Input>, clock: Time, r: nat)
    requires LoopInv(p, s) && s.received == 0 && s.pending.None? && IsScript(p, s, script, clock)
    ensures var o := Turn(p, s, script);
            && Resolved(o.emits, r) <= 1
            && (Resolved(o.emits, r) == 1 <==> r < o.loop.received && Waiting(o.loop, r) == 0)
            && (o.exit.Some? ==> (Resolved(o.emits, r) == 1 <==> r < o.loop.received))
  {
    TurnResolves(p, s, script, clock, r);
  }

  // ---- how a pending steer is resolved when the turn ends ----

  /** Leaving through a failed permission answer or a failed error reply. */
  ghost predicate LeavesBroken(m: Message, writeOk: bool) {
    && m.call.Named?
    && (if m.call.name == "session/request_permission" then m.id.None? || Permit(m.choices).None? || !writeOk
        else m.call.name !in {"session/update", "_goose/unstable/session/update"} && m.id.Some? && !writeOk)
  }

  /**
   A pending steer is let go without an answer exactly when the iteration leaves through one of those
   two writes; on every other way out it is acked as neutral.
   */
  lemma PendingOnExit(p: Params, s: Loop, i: Input)
    requires LoopInv(p, s) && s.pending.Some?
    ensures var o := Iterate(p, s, i);
            var r := s.pending.value.request;
            && (Dropped(r) in o.emits <==> exists m :: Handles(s, i, m) && LeavesBroken(m, i.event.writeOk))
            && (Dropped(r) in o.emits ==> o.exit in {Some(PermissionRefused), Some(WriteFailed)})
            && (o.exit.Some? && Dropped(r) !in o.emits ==> o.emits == [Acked(r, PromptCompletedNeutral)])
  {
    if i.event.Read? && i.event.line.Msg? {
      var m := i.event.line.message;
      assert Handles(s, i, m) <==> i.head < NextDeadline(s);
    }
  }

  /** The two exits that answer nobody. */
  const SILENT_EXITS: set<Option<Exit>> := {Some(PermissionRefused), Some(WriteFailed)}

  lemma IterationDrops(p: Params, s: Loop, i: Input, r: nat)
    ensures var o := Iterate(p, s, i);
            && (Dropped(r) in o.emits <==> o.exit in SILENT_EXITS && Waiting(s, r) == 1)
            && (o.exit.Some? && o.exit !in SILENT_EXITS && Waiting(s, r) == 1 ==>
                Acked(r, PromptCompletedNeutral) in o.emits)
  {
    if i.head < NextDeadline(s) && i.event.Read? && i.event.line.Msg? {
      HandlingDrops(p, Touch(p, s, i.event.at), i.event.line.message, i.event.later, i.event.writeOk, r);
    }
  }

  lemma HandlingDrops(p: Params, s: Loop, m: Message, later: Time, writeOk: bool, r: nat)
    ensures var o := Handle(p, s, m, later, writeOk);
            && (Dropped(r) in o.emits <==> o.exit in SILENT_EXITS && Waiting(s, r) == 1)
            && (o.exit.Some? && o.exit !in SILENT_EXITS && Waiting(s, r) == 1 ==>
                Acked(r, PromptCompletedNeutral) in o.emits)
  {
  }

  /**
   Over a whole turn: a steer request is dropped unanswered exactly when it is the one in flight as the turn ends
   through one of the two silent exits. On every other way out the request in flight is acked as neutral.
   */
  lemma {:induction false} TurnDropsExactly(p: Params, s: Loop, script: seq<Input>, clock: Time, r: nat)
    requires IsScript(p, s, script, clock) && script != []
    ensures var o := Turn(p, s, script);
            var waiting := Waiting(LastHead(p, s, script), r) == 1;
            && (Dropped(r) in o.emits <==> o.exit in SILENT_EXITS && waiting)
            && (o.exit.Some? && o.exit !in SILENT_EXITS && waiting ==> Acked(r, PromptCompletedNeutral) in o.emits)
    decreases |script|
  {
    IterationDrops(p, s, script[0], r);
    var o := Iterate(p, s, script[0]);
    if o.exit.None? && script[1..] != [] { TurnDropsExactly(p, o.loop, script[1..], EndOf(script[0]), r); }
  }

  /** Such a turn: a steer is in flight when the agent asks for a permission without giving the request an id. */
  lemma SteerIsDropped() returns (p: Params, s: Loop, script: seq<Input>)
    ensures s == Start(p, 0.0, 7200.0, 1, None, Some(7200.0), None, false) && p.expectedId == 0
    ensures IsScript(p, s, script, 0.0) && Dropped(0) in Turn(p, s, script).emits
  {
    p := Params(0, 900.0, 7200.0, true, true);
    s := Start(p, 0.0, 7200.0, 1, None, Some(7200.0), None, false);
    var ask := Message(None, Named("session/request_permission"), None, Absent, OtherUpdate, None);
    var first, second := Input(1.0, SteerRequest(true)), Input(2.0, Read(Msg(ask), 2.0, 2.0, true));
    script := [first, second];
    assert script[1..] == [second] && [second][1..] == [];
    var t := Iterate(p, s, first).loop;
    assert t.pending == Some(Pending(1, AcpExtension, 0));
    assert Iterate(p, t, second).emits == [Dropped(0)];
    assert IsScript(p, t, [second], 1.0);
    assert Turn(p, t, [second]).emits == [Dropped(0)];
  }

  // ---- a turn that is abandoned ----

  lemma AbandonConserves(p: Params, s: Loop, w: Await, r: nat)
    requires CanAwait(p, s, w)
    ensures Conserves(s, Abandoned(p, s, w), r) && Abandoned(p, s, w).loop.pending.None?
  {
    var o := Abandoned(p, s, w);
    if o.emits != [] { ResolvedOne(o.emits[0], r); }
  }

  /**
   A turn abandoned at any point leaves no request unresolved either: each one taken is acked or dropped, exactly
   once, and what is dropped is the request in flight, or the one being written.
   */
  lemma AbandonedTurnResolves(p: Params, s: Loop, script: seq<Input>, clock: Time, w: Await, r: nat)
    requires LoopInv(p, s) && s.received == 0 && s.pending.None? && IsScript(p, s, script, clock)
    requires Turn(p, s, script).exit.None? && CanAwait(p, Turn(p, s, script).loop, w)
    requires w.WritingPrompt? ==> script == []
    ensures var t := Turn(p, s, script);
            var o := Abandoned(p, t.loop, w);
            && Resolved(t.emits + o.emits, r) == (if r < o.loop.received then 1 else 0)
            && (Dropped(r) in o.emits <==> Waiting(t.loop, r) == 1 || (w.WritingSteer? && r == t.loop.received))
  {
    var t := Turn(p, s, script);
    TurnResolves(p, s, script, clock, r);
    AbandonConserves(p, t.loop, w, r);
    ResolvedCat(t.emits, Abandoned(p, t.loop, w).emits, r);
  }

  // ---- deadlines ----

  predicate StartsTool(m: Message) {
    m.call == Named("session/update") && m.update.ToolCall?
  }

  /** When the agent was last heard in this iteration, if at all. */
  function Heard(i: Input): Option<Time> {
    if i.event.Read? && i.event.line.Msg?
    then Some(if StartsTool(i.event.line.message) then i.event.later else i.event.at)
    else None
  }

  /** When a steer was injected into the running turn in this iteration, if one was. */
  function Injected(s: Loop, i: Input): Option<Time> {
    if i.head < NextDeadline(s) && i.event.Read? && i.event.line.Msg? && AnswersSteer(s, i.event.line.message)
       && Injects(s.pending.value.transport, i.event.line.message)
    then Some(i.event.later) else None
  }

  function LastHeard(script: seq<Input>, before: Time): Time {
    if script == [] then before
    else LastHeard(script[1..], if Heard(script[0]).Some? then Heard(script[0]).value else before)
  }

  function LastInjected(p: Params, s: Loop, script: seq<Input>, before: Option<Time>): Option<Time>
    decreases |script|
  {
    if script == [] then before
    else LastInjected(p, Iterate(p, s, script[0]).loop, script[1..],
                      if Injected(s, script[0]).Some? then Injected(s, script[0]) else before)
  }

  function Later(a: Time, b: Time): Time {
    if a < b then b else a
  }

  /** The hard deadline a turn has earned. */
  function Earned(initial: Time, injected: Option<Time>, maxDuration: Time): Time {
    if injected.None? then initial else Later(initial, injected.value + maxDuration)
  }

  /** The deadline algebra at a loop head. */
  ghost predicate OnTime(p: Params, s: Loop, heard: Time, initial: Time, injected: Option<Time>, prompting: bool) {
    && s.lastActivity == heard && s.idle == heard + p.idleTimeout
    && s.hard == Earned(initial, injected, p.maxDuration)
    && (prompting ==> s.currentHard == Some(s.hard))
  }

  lemma IterationOnTime(p: Params, s: Loop, i: Input, heard: Time, initial: Time, injected: Option<Time>,
      prompting: bool)
    requires Possible(p, s, i) && OnTime(p, s, heard, initial, injected, prompting)
    requires Iterate(p, s, i).exit.None? && (injected.Some? ==> injected.value <= i.head)
    ensures OnTime(p, Iterate(p, s, i).loop, if Heard(i).Some? then Heard(i).value else heard, initial,
                   if Injected(s, i).Some? then Injected(s, i) else injected, prompting)
    ensures s.hard <= Iterate(p, s, i).loop.hard && i.head < s.hard
  {
  }

  /**
   At every loop head the idle deadline is one idle timeout after the agent was last heard, and the hard
   deadline is the later of the initial one and one turn length after the last injected steer. The client's
   own record of it agrees during a prompt, and every iteration so far began before it, so an agent that
   never falls silent cannot outrun it.
   */
  lemma {:induction false} TurnOnTime(p: Params, s: Loop, script: seq<Input>, clock: Time,
                                      heard: Time, initial: Time, injected: Option<Time>, prompting: bool)
    requires IsScript(p, s, script, clock) && Turn(p, s, script).exit.None?
    requires OnTime(p, s, heard, initial, injected, prompting) && (injected.Some? ==> injected.value <= clock)
    ensures OnTime(p, Turn(p, s, script).loop, LastHeard(script, heard), initial,
                   LastInjected(p, s, script, injected), prompting)
    ensures s.hard <= Turn(p, s, script).loop.hard
    ensures forall k :: 0 <= k < |script| ==> script[k].head < Turn(p, s, script).loop.hard
    decreases |script|
  {
    if script != [] {
      var i := script[0];
      var t := Iterate(p, s, i).loop;
      IterationOnTime(p, s, i, heard, initial, injected, prompting);
      TurnOnTime(p, t, script[1..], EndOf(i), if Heard(i).Some? then Heard(i).value else heard, initial,
                 if Injected(s, i).Some? then Injected(s, i) else injected, prompting);
      forall k | 0 <= k < |script| ensures script[k].head < Turn(p, s, script).loop.hard {
        if k > 0 { assert script[k] == script[1..][k - 1]; }
      }
    }
  }

  /** At or after the earlier deadline the loop ends, whichever arm was ready: no line is looked at. */
  lemma DeadlineEndsTheLoop(p: Params, s: Loop, i: Input, j: Input)
    requires i.head == j.head && NextDeadline(s) <= i.head
    ensures Iterate(p, s, i) == Iterate(p, s, j)
    ensures Iterate(p, s, i).exit ==
            Some(if s.idle < s.hard then IdleTimeout else HardTimeout(Later(i.head, s.lastActivity) - s.lastActivity))
  {
  }

  /** The loop's state at the head of the last iteration. */
  function LastHead(p: Params, s: Loop, script: seq<Input>): Loop
    requires script != []
    decreases |script|
  {
    var o := Iterate(p, s, script[0]);
    if o.exit.Some? || script[1..] == [] then s else LastHead(p, o.loop, script[1..])
  }

  lemma HardOnlyGrows(p: Params, s: Loop, i: Input)
    ensures s.hard <= Iterate(p, s, i).loop.hard
    ensures Iterate(p, s, i).exit.None? ==> i.head < s.hard
  {
  }

  /**
   However a turn goes, and however busy the agent is: every iteration begins before the hard deadline the turn
   ends with, but for a last one that finds it passed; and a last one that begins at or after the earlier
   deadline is a timeout, whatever line or steer was ready for it.
   */
  lemma {:induction false} DeadlinesCutTheTurn(p: Params, s: Loop, script: seq<Input>, clock: Time)
    requires IsScript(p, s, script, clock)
    ensures var o := Turn(p, s, script);
            && s.hard <= o.loop.hard
            && (forall k :: 0 <= k < |script| ==>
                  script[k].head < o.loop.hard || (k == |script| - 1 && o.exit.Some? && IsTimeout(o.exit.value)))
            && (script != [] && NextDeadline(LastHead(p, s, script)) <= script[|script| - 1].head ==>
                  o.exit.Some? && IsTimeout(o.exit.value))
    decreases |script|
  {
    if script != [] {
      var o := Iterate(p, s, script[0]);
      HardOnlyGrows(p, s, script[0]);
      if o.exit.None? {
        DeadlinesCutTheTurn(p, o.loop, script[1..], EndOf(script[0]));
        assert forall k :: 0 < k < |script| ==> script[k] == script[1..][k - 1];
      } else {
        assert |script| == 1;
        if !(script[0].head < o.loop.hard) { DeadlineEndsTheLoop(p, s, script[0], script[0]); }
      }
    }
  }

  /** One iteration leaves the hard deadline that the injections so far have earned, and acks the one it renews for. */
  lemma IterationEarns(p: Params, s: Loop, i: Input, initial: Time, injected: Option<Time>)
    requires Possible(p, s, i) && s.hard == Earned(initial, injected, p.maxDuration)
    requires injected.Some? ==> injected.value <= i.head
    ensures var o := Iterate(p, s, i);
            && o.loop.hard == Earned(initial, if Injected(s, i).Some? then Injected(s, i) else injected, p.maxDuration)
            && (Injected(s, i).Some? ==> s.pending.Some? && Acked(s.pending.value.request, Success) in o.emits)
            && (Injected(s, i).Some? ==> Injected(s, i).value <= EndOf(i) && o.exit.None?)
  {
  }

  ghost predicate DeliversAny(emits: seq<Emit>) {
    exists r :: Acked(r, Success) in emits
  }

  lemma {:induction false} TurnEarns(p: Params, s: Loop, script: seq<Input>, clock: Time,
                                     initial: Time, injected: Option<Time>)
    requires IsScript(p, s, script, clock) && s.hard == Earned(initial, injected, p.maxDuration)
    requires injected.Some? ==> injected.value <= clock
    ensures Turn(p, s, script).loop.hard == Earned(initial, LastInjected(p, s, script, injected), p.maxDuration)
    ensures LastInjected(p, s, script, injected) != injected ==> DeliversAny(Turn(p, s, script).emits)
    decreases |script|
  {
    if script != [] {
      var o, now := Iterate(p, s, script[0]), Injected(s, script[0]);
      IterationEarns(p, s, script[0], initial, injected);
      if now.Some? { assert DeliversAny(o.emits); }
      if o.exit.None? {
        TurnEarns(p, o.loop, script[1..], EndOf(script[0]), initial, if now.Some? then now else injected);
        if DeliversAny(Turn(p, o.loop, script[1..]).emits) {
          var r :| Acked(r, Success) in Turn(p, o.loop, script[1..]).emits;
          assert Acked(r, Success) in Turn(p, s, script).emits;
        }
      } else {
        assert script[1..] == [];
      }
    }
  }

  lemma {:induction false} NoReceiverNoSteer(p: Params, s: Loop, script: seq<Input>, clock: Time)
    requires IsScript(p, s, script, clock) && !p.receiver && s.pending.None?
    ensures Turn(p, s, script).loop.received == s.received && LastInjected(p, s, script, None) == None
    decreases |script|
  {
    if script != [] {
      var o := Iterate(p, s, script[0]);
      assert o.loop.received == s.received && o.loop.pending.None?;
      if o.exit.None? {
        NoReceiverNoSteer(p, o.loop, script[1..], EndOf(script[0]));
      } else {
        assert script[1..] == [];
      }
    }
  }

  /**
   What bounds a drain: the deadline it was given, or the time it was given after the last steer it delivered, and only
   a receiver left installed lets it take one. Without a receiver it takes no steer and keeps its deadline.
   Every iteration begins before that deadline, but for a last one that times out.
   */
  lemma DrainIsBounded(p: Params, s: Loop, script: seq<Input>, clock: Time)
    requires IsScript(p, s, script, clock) && s.pending.None?
    ensures var o := Turn(p, s, script);
            && o.loop.hard == Earned(s.hard, LastInjected(p, s, script, None), p.maxDuration)
            && (o.loop.hard != s.hard ==> p.receiver && DeliversAny(o.emits))
            && (!p.receiver ==> o.loop.received == s.received)
            && (forall k :: 0 <= k < |script| ==>
                  script[k].head < o.loop.hard || (k == |script| - 1 && o.exit.Some? && IsTimeout(o.exit.value)))
  {
    TurnEarns(p, s, script, clock, s.hard, None);
    DeadlinesCutTheTurn(p, s, script, clock);
    if !p.receiver { NoReceiverNoSteer(p, s, script, clock); }
  }

  // ---- permission requests ----

  /**
   A permission request is open after an abandoned turn exactly when the turn was dropped while answering it:
   that is the request a cancel then answers.
   */
  lemma OpenPermissionExactly(p: Params, s: Loop, script: seq<Input>, clock: Time, w: Await)
    requires IsScript(p, s, script, clock) && s.permission.None?
    requires Turn(p, s, script).exit.None? && CanAwait(p, Turn(p, s, script).loop, w)
    ensures var o := Abandoned(p, Turn(p, s, script).loop, w);
            && (o.loop.permission.Some? <==> w.WritingReply? && w.m.call == Named("session/request_permission"))
            && (o.loop.permission.Some? ==> o.loop.permission == w.m.id && !o.loop.responded)
  {
    NoPermissionLeftOpen(p, s, script, clock);
  }

  ghost predicate FirstAt(choices: seq<Choice>, kind: string, i: nat) {
    i < |choices| && choices[i].kind == Some(kind) && forall j :: 0 <= j < i ==> choices[j].kind != Some(kind)
  }

  lemma {:induction false} FirstOfKindExactly(choices: seq<Choice>, kind: string, i: nat)
    ensures FirstOfKind(choices, kind).None? <==> forall j :: 0 <= j < |choices| ==> choices[j].kind != Some(kind)
    ensures FirstAt(choices, kind, i) ==> FirstOfKind(choices, kind) == Some(choices[i])
  {
    if choices != [] {
      FirstOfKindExactly(choices[1..], kind, if i > 0 then i - 1 else 0);
      assert forall j :: 1 <= j < |choices| ==> choices[j] == choices[1..][j - 1];
      if FirstAt(choices, kind, i) && i > 0 { assert FirstAt(choices[1..], kind, i - 1); }
    }
  }

  /**
   The first option that allows once is chosen whenever one is offered; only without one is a rejection sent,
   and a request that offers neither gets no answer.
   */
  lemma PermitPrefersAllow(choices: seq<Choice>, i: nat)
    ensures FirstAt(choices, "allow_once", i) ==> Permit(Some(choices)) == choices[i].optionId
    ensures FirstAt(choices, "reject_once", i) ==>
              (forall j :: 0 <= j < |choices| ==> choices[j].kind != Some("allow_once")) ==>
              Permit(Some(choices)) == if choices[i].optionId.Some? then choices[i].optionId else Some("reject")
    ensures (forall j :: 0 <= j < |choices| ==> choices[j].kind !in {Some("allow_once"), Some("reject_once")}) ==>
              Permit(Some(choices)).None?
  {
    FirstOfKindExactly(choices, "allow_once", i);
    FirstOfKindExactly(choices, "reject_once", i);
  }

  /** No request for permission is left open at a loop head, so a timeout leaves none to answer. */
  lemma {:induction false} NoPermissionLeftOpen(p: Params, s: Loop, script: seq<Input>, clock: Time)
    requires IsScript(p, s, script, clock) && s.permission.None?
    ensures Turn(p, s, script).exit !in {Some(PermissionRefused), Some(WriteFailed)} ==>
              Turn(p, s, script).loop.permission.None?
    decreases |script|
  {
    if script != [] {
      var o := Iterate(p, s, script[0]);
      assert o.exit !in {Some(PermissionRefused), Some(WriteFailed)} ==> o.loop.permission.None?;
      if o.exit.None? { NoPermissionLeftOpen(p, o.loop, script[1..], EndOf(script[0])); }
    }
  }
}
