/**
 After a delivered steer: when the event it consumed can still be handed out again.
 */
module QueueRedelivery {
  import opened Events
  import opened QueueModel
  import opened QueueLocality
  import opened QueueInvariant
  import opened QueueLedger
  import opened QueueRuns
  import opened QueueScenes

  /** Copies that are not done with: in the tables, or in a batch somebody still has. */
  ghost function Live(s: Queue, l: Ledger, c: Channel, e: Event): nat {
    Held(s, c, e) + l.out + l.orphaned
  }

  ghost function Done(l: Ledger): nat {
    l.settled + l.steered + l.trimmed + l.deadLettered + l.drained + l.carryLost
  }

  lemma DoneOnlyGrows(s: Queue, l: Ledger, act: Act, c: Channel, e: Event)
    requires Permitted(s, l, act, c, e)
    ensures Done(l) <= Done(Booked(l, s, act, c, e))
  {
  }

  /** The event is not accepted again. */
  ghost predicate NotAgain(s: Queue, l: Ledger, acts: seq<Act>, c: Channel, e: Event) {
    IsHistory(s, l, acts, c, e) && EndLedger(s, l, acts, c, e).accepted == l.accepted
  }

  lemma {:induction false} GoneStaysGone(s: Queue, l: Ledger, acts: seq<Act>, c: Channel, e: Event)
    requires Balanced(s, l, c, e) && NotAgain(s, l, acts, c, e) && Live(s, l, c, e) == 0
    ensures HandedOut(s, acts, c, e) == 0
    decreases |acts|
  {
    if acts != [] {
      var t, k := After(s, acts[0]), Booked(l, s, acts[0], c, e);
      DoneOnlyGrows(s, l, acts[0], c, e);
      HandedIsOut(s, l, acts[0], c, e);
      ActBalances(s, l, acts[0], c, e);
      AcceptedOnlyGrows(t, k, acts[1..], c, e);
      GoneStaysGone(t, k, acts[1..], c, e);
    }
  }

  // ---- what an honest caller can still be handed ----

  ghost predicate Carries(b: Batch, c: Channel, e: Event) {
    b.channel == c && (e in b.events || e in b.cancelledEvents)
  }

  /** A flush of the run hands `e` out. */
  ghost predicate HandsOut(m: Moment, run: seq<Step>, c: Channel, e: Event)
    decreases |run|
  {
    && run != []
    && ((BatchOf(m.q, run[0]).Some? && Carries(BatchOf(m.q, run[0]).value, c, e))
        || HandsOut(Stride(m, run[0]), run[1..], c, e))
  }

  ghost predicate NoPush(run: seq<Step>, c: Channel, e: Event) {
    forall i :: 0 <= i < |run| ==> run[i].op != Push(c, e)
  }

  /** No batch still out carries `e`. */
  ghost predicate NoneOut(m: Moment, c: Channel, e: Event) {
    forall b :: b in m.out ==> !Carries(b, c, e)
  }

  lemma CarriesCounted(b: Batch, c: Channel, e: Event)
    ensures Carries(b, c, e) <==> b.channel == c && InBatch(b, e) >= 1
  {
    assert e in b.events <==> e in multiset(b.events);
    assert e in b.cancelledEvents <==> e in multiset(b.cancelledEvents);
  }

  lemma OnlyPushAccepts(s: Queue, step: Step, c: Channel, e: Event)
    requires Permitted(s, OPENED, Call(step, false), c, e) && step.op != Push(c, e)
    ensures Entered(OPENED, s, step, false, c, e).accepted == 0
  {
  }

  /** With no copy in the tables or out, no call but a push of `e` brings one back or hands one out. */
  lemma NothingAppears(m: Moment, step: Step, c: Channel, e: Event)
    requires Held(m.q, c, e) == 0 && NoneOut(m, c, e) && CanStep(m, step) && step.op != Push(c, e)
    ensures Held(Next(m.q, step.op, step.now), c, e) == 0 && NoneOut(Stride(m, step), c, e)
    ensures BatchOf(m.q, step).Some? ==> !Carries(BatchOf(m.q, step).value, c, e)
  {
    if Returns(step.op) {
      CarriesCounted(Load(step.op.batch), c, e);
      assert Load(step.op.batch).events == step.op.batch.events;
    }
    assert Permitted(m.q, OPENED, Call(step, false), c, e);
    CallBalances(m.q, OPENED, step, false, c, e);
    OnlyPushAccepts(m.q, step, c, e);
    HandedIsOut(m.q, OPENED, Call(step, false), c, e);
    if BatchOf(m.q, step).Some? {
      var b := BatchOf(m.q, step).value;
      CarriesCounted(b, c, e);
      assert step.op.pick == Some(b.channel);
      assert !Carries(Load(b), c, e);
    }
  }

  lemma {:induction false} GoneForGood(m: Moment, run: seq<Step>, c: Channel, e: Event)
    requires Held(m.q, c, e) == 0 && NoneOut(m, c, e) && Honest(m, run) && NoPush(run, c, e)
    ensures !HandsOut(m, run, c, e)
    decreases |run|
  {
    if run != [] {
      NothingAppears(m, run[0], c, e);
      assert forall i :: 0 <= i < |run| - 1 ==> run[1..][i] == run[i + 1];
      GoneForGood(Stride(m, run[0]), run[1..], c, e);
    }
  }

  // ---- a copy that is left comes back ----

  lemma HandsFirst(m: Moment, step: Step, rest: seq<Step>, run: seq<Step>, c: Channel, e: Event)
    requires run == [step] + rest && CanStep(m, step) && step.op != Push(c, e)
    requires Honest(Stride(m, step), rest) && NoPush(rest, c, e)
    requires HandsOut(Stride(m, step), rest, c, e)
             || (BatchOf(m.q, step).Some? && Carries(BatchOf(m.q, step).value, c, e))
    ensures Honest(m, run) && NoPush(run, c, e) && HandsOut(m, run, c, e)
  {
    assert run[0] == step && run[1..] == rest;
  }

  /** With no other channel waiting, a completed and unthrottled channel is handed out with its cancelled events. */
  lemma HandsCancelled(s: Queue, c: Channel, now: Time, e: Event)
    requires Inv(s) && Others(s, c) == {} && c !in s.inFlight && !Throttled(s, c, now) && e in At(s.cancelled, c)
    ensures Allowed(s, FlushNext(Some(c)), now)
    ensures Carries(BatchOf(s, Step(FlushNext(Some(c)), now)).value, c, e)
  {
    var x := Expire(s, now);
    ExpiryIsLocal(s, now, c);
    assert At(x.cancelled, c) == At(s.cancelled, c);
    assert x.queues.Keys <= s.queues.Keys + s.withheld.Keys;
    forall d | d in Candidates(x, now) ensures d == c {
      assert d !in Others(s, c);
    }
    assert c in CancelledReady(x);
    if c in Candidates(x, now) {
      assert QueuedBatch(x, c).cancelledEvents == At(s.cancelled, c);
    } else {
      assert Candidates(x, now) == {};
    }
  }

  lemma CompletionFrees(s: Queue, c: Channel, now: Time)
    requires Inv(s)
    ensures var t := Completed(s, c, now);
            && Inv(t) && c !in t.inFlight && Others(t, c) == Others(s, c) && At(t.cancelled, c) == At(s.cancelled, c)
            && (!Throttled(s, c, now) ==> !Throttled(t, c, now))
  {
    CompletionKeepsInv(s, c, now);
  }

  lemma AloneComesBack(m: Moment, c: Channel, e: Event, now: Time) returns (run: seq<Step>)
    requires Inv(m.q) && m.now <= now && e in At(m.q.cancelled, c) && !Throttled(m.q, c, now) && Others(m.q, c) == {}
    ensures Honest(m, run) && NoPush(run, c, e) && HandsOut(m, run, c, e)
  {
    var t, hand := Completed(m.q, c, now), Step(FlushNext(Some(c)), now);
    CompletionFrees(m.q, c, now);
    HandsCancelled(t, c, now, e);
    PlainStride(m, MarkComplete(c), now);
    var n := Moment(t, now, m.out);
    HandsFirst(n, hand, [], [hand], c, e);
    run := [Step(MarkComplete(c), now)] + [hand];
    HandsFirst(m, Step(MarkComplete(c), now), [hand], run, c, e);
  }

  lemma DrainOther(m: Moment, d: Channel, c: Channel, now: Time)
    requires Inv(m.q) && m.now <= now && d in Others(m.q, c)
    ensures var n := Moment(DrainedChannel(m.q, d), now, m.out);
            && CanStep(m, Step(DrainChannel(d), now)) && Stride(m, Step(DrainChannel(d), now)) == n
            && Inv(n.q) && Others(n.q, c) == Others(m.q, c) - {d}
            && At(n.q.cancelled, c) == At(m.q.cancelled, c) && Throttled(n.q, c, now) == Throttled(m.q, c, now)
  {
    DrainSlots(m.q, c, d, now);
    DrainKeepsInv(m.q, d);
    PlainStride(m, DrainChannel(d), now);
  }

  /** A cancelled event is handed out once the agent has left its other channels. */
  lemma {:induction false} CancelledComesBack(m: Moment, c: Channel, e: Event, now: Time) returns (run: seq<Step>)
    requires Inv(m.q) && m.now <= now && e in At(m.q.cancelled, c) && !Throttled(m.q, c, now)
    ensures Honest(m, run) && NoPush(run, c, e) && HandsOut(m, run, c, e)
    decreases Others(m.q, c)
  {
    if Others(m.q, c) == {} {
      run := AloneComesBack(m, c, e, now);
    } else {
      var d :| d in Others(m.q, c);
      DrainOther(m, d, c, now);
      var rest := CancelledComesBack(Moment(DrainedChannel(m.q, d), now, m.out), c, e, now);
      run := [Step(DrainChannel(d), now)] + rest;
      HandsFirst(m, Step(DrainChannel(d), now), rest, run, c, e);
    }
  }

  lemma StoredCarries(s: Queue, b: Batch, e: Event)
    requires Carries(b, b.channel, e)
    ensures e in At(StoredAsCancelled(s, b, Steer).cancelled, b.channel)
  {
    var w := At(s.cancelled, b.channel) + b.cancelledEvents + b.events;
    assert StoredAsCancelled(s, b, Steer).cancelled[b.channel] == w;
  }

  lemma CancelStride(m: Moment, b: Batch)
    requires b in m.out && Loaded(m.out)
    ensures var step := Step(RequeueAsCancelled(b, Steer), m.now);
            && CanStep(m, step)
            && Stride(m, step) == Moment(StoredAsCancelled(m.q, b, Steer), m.now, m.out - multiset{b})
  {
  }

  /** Whoever has a batch with the event in it can return it as cancelled, and it is handed out again. */
  lemma OutstandingComesBack(m: Moment, b: Batch, c: Channel, e: Event, now: Time) returns (run: seq<Step>)
    requires Inv(m.q) && Loaded(m.out) && m.now <= now && !Throttled(m.q, c, now)
    requires b in m.out && Carries(b, c, e)
    ensures Honest(m, run) && NoPush(run, c, e) && HandsOut(m, run, c, e)
  {
    var t := StoredAsCancelled(m.q, b, Steer);
    CancelStride(m, b);
    StoreKeepsInv(m.q, b, Steer);
    StoredCarries(m.q, b, e);
    var rest := CancelledComesBack(Moment(t, m.now, m.out - multiset{b}), c, e, now);
    run := [Step(RequeueAsCancelled(b, Steer), m.now)] + rest;
    HandsFirst(m, Step(RequeueAsCancelled(b, Steer), m.now), rest, run, c, e);
  }

  lemma LateEnough(m: Moment, c: Channel) returns (now: Time)
    ensures m.now <= now && !Throttled(m.q, c, now)
  {
    now := if c in m.q.retryAfter && m.now <= m.q.retryAfter[c] then m.q.retryAfter[c] else m.now;
  }

  lemma LeftoverComesBack(m: Moment, c: Channel, e: Event) returns (run: seq<Step>)
    requires Inv(m.q) && Loaded(m.out) && (e in At(m.q.cancelled, c) || !NoneOut(m, c, e))
    ensures Honest(m, run) && NoPush(run, c, e) && HandsOut(m, run, c, e)
  {
    var now := LateEnough(m, c);
    if e in At(m.q.cancelled, c) {
      run := CancelledComesBack(m, c, e, now);
    } else {
      var b :| b in m.out && Carries(b, c, e);
      run := OutstandingComesBack(m, b, c, e, now);
    }
  }

  /** What a removal leaves of the event: the copies among the cancelled ones. */
  lemma RemovalLeaves(s: Queue, c: Channel, e: Event)
    ensures var t := Removed(s, c, e.id);
            Held(t, c, e) == Times(At(s.cancelled, c), e) && t.cancelled == s.cancelled
  {
    WithoutMembers(At(s.queues, c), e.id);
    WithoutMembers(At(s.withheld, c), e.id);
    var t := Removed(s, c, e.id);
    assert e !in multiset(At(t.queues, c)) && e !in multiset(At(t.withheld, c));
  }

  lemma LeftExactly(n: Moment, c: Channel, e: Event)
    requires Inv(n.q) && Loaded(n.out) && Held(n.q, c, e) == Times(At(n.q.cancelled, c), e)
    ensures (forall run :: Honest(n, run) && NoPush(run, c, e) ==> !HandsOut(n, run, c, e))
            <==> e !in At(n.q.cancelled, c) && NoneOut(n, c, e)
  {
    if e !in At(n.q.cancelled, c) && NoneOut(n, c, e) {
      assert e !in multiset(At(n.q.cancelled, c));
      forall run | Honest(n, run) && NoPush(run, c, e) ensures !HandsOut(n, run, c, e) {
        GoneForGood(n, run, c, e);
      }
    } else {
      var run := LeftoverComesBack(n, c, e);
      assert HandsOut(n, run, c, e);
    }
  }

  /**
   Once a delivered steer has removed an event, no honest caller is handed it again unless it is accepted anew, exactly
   when no copy is left among the cancelled events and no batch still out carries one.
   */
  lemma RemovedStaysGoneExactly(m: Moment, c: Channel, e: Event, now: Time, n: Moment)
    requires Inv(m.q) && Loaded(m.out) && m.now <= now && n == Stride(m, Step(RemoveEvent(c, e.id), now))
    ensures (forall run :: Honest(n, run) && NoPush(run, c, e) ==> !HandsOut(n, run, c, e))
            <==> e !in At(m.q.cancelled, c) && NoneOut(m, c, e)
  {
    RemovalStride(m, c, e, now);
    LeftExactly(n, c, e);
  }

  lemma RemovalStride(m: Moment, c: Channel, e: Event, now: Time)
    requires Inv(m.q) && m.now <= now
    ensures var n := Stride(m, Step(RemoveEvent(c, e.id), now));
            && Inv(n.q) && n.out == m.out && At(n.q.cancelled, c) == At(m.q.cancelled, c)
            && Held(n.q, c, e) == Times(At(n.q.cancelled, c), e)
  {
    PlainStride(m, RemoveEvent(c, e.id), now);
    RemoveKeepsInv(m.q, c, e.id);
    RemovalLeaves(m.q, c, e);
  }

  // ---- a run in which it comes back ----

  const HUNG := Event("hung", 0, 0.0, "")
  const STEERED := Event("steered", 1, 0.0, "")
  const LATE: Time := 8000.0

  function Flying(held: seq<Event>): Scene {
    BLANK.(flight := Some(Flight(0.0 + DEFAULT_IN_FLIGHT_DEADLINE_SECS, 1)), withheld := held)
  }

  lemma OneFlown(e: Event, now: Time)
    ensures var x := BLANK.(queue := [e]);
            && Flown(x, now) == BLANK.(flight := Some(Flight(now + DEFAULT_IN_FLIGHT_DEADLINE_SECS, 1)))
            && SceneBatch(1, x) == Batch(1, [e], [], None)
  {
    assert [e][..1] == [e] && [e][1..] == [] && SortByCreated([e]) == [e];
  }

  /** A turn hangs while a steer for it is awaited. */
  lemma TurnHangs() returns (run: seq<Step>, o: Moment)
    ensures run == [Step(Push(1, HUNG), 0.0)] + [Step(FlushNext(Some(1)), 0.0)]
    ensures Leads(Start(Accumulate), run, o)
    ensures o == Moment(Stage(1, Flying([])), 0.0, multiset{Batch(1, [HUNG], [], None)})
  {
    var m := Start(Accumulate);
    BlankIsEmpty(1);
    OneFlown(HUNG, 0.0);
    assert [] + [HUNG] == [HUNG];
    run, o := PushMore(m, [], m, 1, BLANK, HUNG, 0.0);
    assert run == [Step(Push(1, HUNG), 0.0)];
    run, o := FlushMore(m, run, o, 1, BLANK.(queue := [HUNG]), 0.0);
  }

  lemma SteerAwaits() returns (run: seq<Step>, o: Moment)
    ensures run == [Step(Push(1, HUNG), 0.0)] + [Step(FlushNext(Some(1)), 0.0)] + [Step(Push(1, STEERED), 0.0)]
                   + [Step(MarkSteerPending(1, STEERED.id), 0.0)]
    ensures Leads(Start(Accumulate), run, o)
    ensures o == Moment(Stage(1, Flying([STEERED])), 0.0, multiset{Batch(1, [HUNG], [], None)})
  {
    run, o := TurnHangs();
    var x := Flying([]).(queue := [STEERED]);
    assert [] + [STEERED] == [STEERED];
    run, o := PushMore(Start(Accumulate), run, o, 1, Flying([]), STEERED, 0.0);
    assert IndexOf(x.queue, STEERED.id) == 0 && [STEERED][..0] + [STEERED][1..] == [];
    SceneWithhold(1, x, STEERED.id);
    assert Withholding(x, STEERED.id) == Flying([STEERED]);
    run, o := PlainMore(Start(Accumulate), run, o, MarkSteerPending(1, STEERED.id), 0.0, Stage(1, Flying([STEERED])));
  }

  /** The turn expires, and the event goes back to its queue and out in a batch of its own. */
  lemma SteeredGoesOut() returns (run: seq<Step>, o: Moment)
    ensures run == [Step(Push(1, HUNG), 0.0)] + [Step(FlushNext(Some(1)), 0.0)] + [Step(Push(1, STEERED), 0.0)]
                   + [Step(MarkSteerPending(1, STEERED.id), 0.0)] + [Step(HasFlushableWork, LATE)]
                   + [Step(FlushNext(Some(1)), LATE)]
    ensures Leads(Start(Accumulate), run, o) && o.now == LATE
    ensures o.q == Stage(1, Flown(BLANK.(queue := [STEERED]), LATE))
    ensures o.out == multiset{Batch(1, [HUNG], [], None), Batch(1, [STEERED], [], None)}
  {
    run, o := SteerAwaits();
    var x := BLANK.(queue := [STEERED]);
    SceneExpire(1, Flying([STEERED]), LATE);
    assert [STEERED] + [] == [STEERED] && Lapsed(Flying([STEERED])) == x;
    run, o := PlainMore(Start(Accumulate), run, o, HasFlushableWork, LATE, Stage(1, x));
    OneFlown(STEERED, LATE);
    run, o := FlushMore(Start(Accumulate), run, o, 1, x, LATE);
  }

  /** After the removal the batch is returned, the turn completed, and the event handed out once more. */
  lemma SteeredComesBack(n: Moment) returns (run: seq<Step>, o: Moment)
    requires n.q == Stage(1, Flown(BLANK.(queue := [STEERED]), LATE)) && n.now == LATE
    requires Batch(1, [STEERED], [], None) in n.out
    ensures var b := Batch(1, [STEERED], [], None);
            && run == [Step(RequeuePreserve(b), LATE)] + [Step(MarkComplete(1), LATE)]
            && Leads(n, run, o) && o.q == Stage(1, BLANK.(queue := [STEERED])) && o.now == LATE
  {
    var b, x := Batch(1, [STEERED], [], None), Flown(BLANK.(queue := [STEERED]), LATE);
    OneFlown(STEERED, LATE);
    assert Load(b) == b && [STEERED] + [] == [STEERED] && Cap([STEERED]) == [STEERED];
    run, o := PreserveMore(n, [], n, 1, x, b, LATE);
    assert run == [Step(RequeuePreserve(b), LATE)];
    run, o := CompleteMore(n, run, o, 1, x.(queue := [STEERED]), LATE);
  }

  lemma {:induction false} HandsLater(m: Moment, run: seq<Step>, n: Moment, last: Step, c: Channel, e: Event)
    requires Leads(m, run, n) && BatchOf(n.q, last).Some? && Carries(BatchOf(n.q, last).value, c, e)
    ensures HandsOut(m, run + [last], c, e)
    decreases |run|
  {
    if run == [] {
      assert run + [last] == [last];
    } else {
      assert (run + [last])[0] == run[0] && (run + [last])[1..] == run[1..] + [last];
      HandsLater(Stride(m, run[0]), run[1..], n, last, c, e);
    }
  }

  lemma SteeredHanded(n: Moment) returns (run: seq<Step>)
    requires n.q == Stage(1, Flown(BLANK.(queue := [STEERED]), LATE)) && n.now == LATE
    requires Batch(1, [STEERED], [], None) in n.out
    ensures Honest(n, run) && NoPush(run, 1, STEERED) && HandsOut(n, run, 1, STEERED)
  {
    var o;
    run, o := SteeredComesBack(n);
    var last := Step(FlushNext(Some(1)), LATE);
    OneFlown(STEERED, LATE);
    SceneFlush(1, BLANK.(queue := [STEERED]), LATE);
    HandsLater(n, run, o, last, 1, STEERED);
    OneMore(n, run, o, last);
    run := run + [last];
  }

  lemma RemovedInVain(m: Moment)
    requires m.q == Stage(1, Flown(BLANK.(queue := [STEERED]), LATE)) && m.now == LATE
    ensures Stride(m, Step(RemoveEvent(1, STEERED.id), LATE)) == m
  {
    OneFlown(STEERED, LATE);
    SceneRemove(1, Flown(BLANK.(queue := [STEERED]), LATE), STEERED.id);
    PlainStride(m, RemoveEvent(1, STEERED.id), LATE);
  }

  /**
   An honest run in which a delivered event is delivered again: the turn it steers hangs and expires before the
   acknowledgement, so the event goes out in a batch; then the acknowledgement removes it, in vain, and
   the batch is returned and handed out once more.
   */
  lemma RemovedIsRedelivered() returns (before: seq<Step>, m: Moment, run: seq<Step>)
    ensures before == [Step(Push(1, HUNG), 0.0)] + [Step(FlushNext(Some(1)), 0.0)] + [Step(Push(1, STEERED), 0.0)]
                      + [Step(MarkSteerPending(1, STEERED.id), 0.0)] + [Step(HasFlushableWork, LATE)]
                      + [Step(FlushNext(Some(1)), LATE)]
    ensures Leads(Start(Accumulate), before, m)
    ensures var n := Stride(m, Step(RemoveEvent(1, STEERED.id), LATE));
            Honest(n, run) && NoPush(run, 1, STEERED) && HandsOut(n, run, 1, STEERED)
  {
    before, m := SteeredGoesOut();
    RemovedInVain(m);
    run := SteeredHanded(m);
  }
}
