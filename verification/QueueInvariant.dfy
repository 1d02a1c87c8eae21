/**
 What every transition keeps: the shape of the tables, mutual exclusion of turns on one
 channel, and the agreement of the scheduler's questions with what a flush then does.
 */
module QueueInvariant {
  import opened Events
  import opened QueueModel
  import opened QueueLocality

  ghost predicate Bounded(m: map<Channel, seq<Event>>) {
    forall c :: c in m ==> 1 <= |m[c]| <= 500
  }

  ghost predicate NonEmpty(m: map<Channel, seq<Event>>) {
    forall c :: c in m ==> m[c] != []
  }

  ghost predicate Inv(s: Queue) {
    && s.deadlines.Keys == s.inFlight == s.batchSizes.Keys
    && Bounded(s.queues)
    && NonEmpty(s.withheld)
    && NonEmpty(s.cancelled)
    && s.cancelled.Keys == s.reasons.Keys
    && (forall c :: c in s.retryCounts ==> 1 <= s.retryCounts[c] <= 10)
  }

  /** A returned batch holds at least one event, as every handed-out batch does. */
  ghost predicate ReturnsEvents(op: Op) {
    Returns(op) ==> op.batch.events != []
  }

  lemma RecoverKeepsBounds(q: map<Channel, seq<Event>>, w: map<Channel, seq<Event>>, cs: set<Channel>)
    requires Bounded(q) && NonEmpty(w)
    ensures Bounded(Recover(q, w, cs))
  {
  }

  lemma ExpireKeepsInv(s: Queue, now: Time)
    requires Inv(s)
    ensures Inv(Expire(s, now))
  {
    RecoverKeepsBounds(s.queues, s.withheld, Expired(s, now));
  }

  lemma FlushKeepsInv(s: Queue, pick: Option<Channel>, now: Time)
    requires Inv(s) && PickFits(s, pick, now)
    ensures Inv(FlushedState(s, pick, now))
  {
    if pick.Some? && FromQueue(s, now) {
      var q := At(s.queues, pick.value);
      assert Bounded(Put(s.queues, pick.value, q[Drained(q)..]));
    }
  }

  lemma WithholdKeepsInv(s: Queue, c: Channel, id: string)
    requires Inv(s)
    ensures Inv(Withhold(s, c, id))
  {
    assert Bounded(Withhold(s, c, id).queues);
  }

  lemma ReleaseKeepsInv(s: Queue, c: Channel, id: string)
    requires Inv(s)
    ensures Inv(Release(s, c, id))
  {
    assert Bounded(Release(s, c, id).queues);
  }

  lemma RemoveKeepsInv(s: Queue, c: Channel, id: string)
    requires Inv(s)
    ensures Inv(Removed(s, c, id))
  {
    assert Bounded(Removed(s, c, id).queues);
  }

  lemma FrontLoadKeepsInv(s: Queue, b: Batch)
    requires Inv(s) && b.events != []
    ensures Inv(FrontLoaded(s, b))
  {
    assert Bounded(FrontLoaded(s, b).queues);
  }

  lemma RequeueKeepsInv(s: Queue, b: Batch, jitter: real, now: Time)
    requires Inv(s) && b.events != []
    ensures Inv(Requeued(s, b, jitter, now))
  {
    if !DeadLetters(s, b) { FrontLoadKeepsInv(s, b); }
  }

  lemma StoreKeepsInv(s: Queue, b: Batch, reason: CancelReason)
    requires Inv(s) && b.events != []
    ensures Inv(StoredAsCancelled(s, b, reason))
  {
  }

  lemma PushKeepsInv(s: Queue, c: Channel, e: Event, now: Time)
    requires Inv(s)
    ensures Inv(Next(s, Push(c, e), now))
  {
    assert Bounded(Next(s, Push(c, e), now).queues);
  }

  lemma CompletionKeepsInv(s: Queue, c: Channel, now: Time)
    requires Inv(s)
    ensures Inv(Completed(s, c, now))
  {
  }

  lemma ExtensionKeepsInv(s: Queue, c: Channel, maxTurn: nat, now: Time)
    requires Inv(s)
    ensures Inv(Extended(s, c, maxTurn, now))
  {
  }

  lemma DrainKeepsInv(s: Queue, c: Channel)
    requires Inv(s)
    ensures Inv(DrainedChannel(s, c))
  {
  }

  lemma CompactKeepsInv(s: Queue, now: Time)
    requires Inv(s)
    ensures Inv(Compacted(s, now))
  {
  }

  /** Every call keeps the tables in shape. */
  lemma StepKeepsInv(s: Queue, op: Op, now: Time)
    requires Inv(s) && Allowed(s, op, now) && ReturnsEvents(op)
    ensures Inv(Next(s, op, now))
  {
    match op
    case Push(c, e) => PushKeepsInv(s, c, e, now);
    case FlushNext(pick) =>
      ExpireKeepsInv(s, now);
      FlushKeepsInv(Expire(s, now), pick, now);
    case HasFlushableWork => ExpireKeepsInv(s, now);
    case MarkComplete(c) => CompletionKeepsInv(s, c, now);
    case Requeue(b, jitter) => RequeueKeepsInv(s, b, jitter, now);
    case RequeuePreserve(b) => FrontLoadKeepsInv(s, b);
    case RequeueAsCancelled(b, reason) => StoreKeepsInv(s, b, reason);
    case ExtendDeadline(c, maxTurn) => ExtensionKeepsInv(s, c, maxTurn, now);
    case DrainChannel(c) => DrainKeepsInv(s, c);
    case MarkSteerPending(c, id) => WithholdKeepsInv(s, c, id);
    case ReleaseSteer(c, id) => ReleaseKeepsInv(s, c, id);
    case RemoveEvent(c, id) => RemoveKeepsInv(s, c, id);
    case Compact => CompactKeepsInv(s, now);
  }

  ghost predicate AllReturnEvents(run: seq<Step>) {
    forall i :: 0 <= i < |run| ==> ReturnsEvents(run[i].op)
  }

  /** The tables are in shape at the end of every run. */
  lemma {:induction false} RunKeepsInv(s: Queue, run: seq<Step>, clock: Time)
    requires Inv(s) && IsRun(s, run, clock) && AllReturnEvents(run)
    ensures Inv(Final(s, run))
    decreases |run|
  {
    if run != [] {
      StepKeepsInv(s, run[0].op, run[0].now);
      RunKeepsInv(Next(s, run[0].op, run[0].now), run[1..], run[0].now);
    }
  }

  /** The one return that spoils the tables: an empty batch for a channel with no queue. */
  lemma EmptyReturnLeavesEmptyQueue(s: Queue, b: Batch, now: Time)
    requires Inv(s)
    ensures Inv(Next(s, RequeuePreserve(b), now)) <==> b.events != [] || b.channel in s.queues
  {
    var t := Next(s, RequeuePreserve(b), now);
    assert t.queues[b.channel] == Cap(b.events + At(s.queues, b.channel));
  }

  /**
   What a flush hands out: at least one event (at most 50 when drained from a queue), in
   creation order, and a reason whenever it carries cancelled events.
   */
  lemma HandedBatchShape(s: Queue, step: Step)
    requires Inv(s) && Allowed(s, step.op, step.now)
    requires BatchOf(s, step).Some?
    ensures var b := BatchOf(s, step).value;
            && step.op.pick == Some(b.channel)
            && b.events != []
            && (b.cancelledEvents != [] ==> b.reason.Some?)
            && (FromQueue(Expire(s, step.now), step.now) ==>
                  |b.events| <= 50 && Sorted(b.events))
            && (!FromQueue(Expire(s, step.now), step.now) ==> b.reason.Some?)
  {
    var e := Expire(s, step.now);
    ExpireKeepsInv(s, step.now);
    if FromQueue(e, step.now) {
      var q := At(e.queues, step.op.pick.value);
      SortIsSortedAndStable(q[..Drained(q)], 0);
    }
  }

  // ---- mutual exclusion ----

  /** Throughout the run, no call completes `c`, and none expires it. */
  ghost predicate Undisturbed(s: Queue, run: seq<Step>, c: Channel)
    decreases |run|
  {
    run == [] ||
    (&& run[0].op != MarkComplete(c)
     && !Expires(s, run[0].op, run[0].now, c)
     && Undisturbed(Next(s, run[0].op, run[0].now), run[1..], c))
  }

  lemma OtherCallsKeepSlots(s: Queue, op: Op, now: Time)
    requires !op.FlushNext? && !op.HasFlushableWork? && !op.MarkComplete? && !op.ExtendDeadline?
    ensures Next(s, op, now).inFlight == s.inFlight && Next(s, op, now).deadlines == s.deadlines
  {
    match op
    case Push(_, _) =>
    case Requeue(_, _) =>
    case RequeuePreserve(_) =>
    case RequeueAsCancelled(_, _) =>
    case DrainChannel(_) =>
    case MarkSteerPending(_, _) =>
    case ReleaseSteer(_, _) =>
    case RemoveEvent(_, _) =>
    case Compact =>
  }

  lemma StaysInFlight(s: Queue, op: Op, now: Time, c: Channel)
    requires Inv(s) && Allowed(s, op, now)
    requires c in s.inFlight && op != MarkComplete(c) && !Expires(s, op, now, c)
    ensures op != FlushNext(Some(c))
    ensures c in Next(s, op, now).inFlight
    ensures c in Next(s, op, now).deadlines && s.deadlines[c] <= Next(s, op, now).deadlines[c]
  {
    if op.ExtendDeadline? && op.channel == c {
    } else if op.Compact? || (About(op, c) && !op.FlushNext?) {
      OtherCallsKeepSlots(s, op, now);
    } else {
      if op.FlushNext? { ExpiryIsLocal(s, now, c); }
      CallsAreLocal(s, op, now, c);
    }
  }

  /**
   Until it is completed, or a call comes at or after its deadline, a channel in flight stays
   in flight, is handed out by no flush, and its deadline never moves back.
   */
  lemma {:induction false} TurnsExclude(s: Queue, run: seq<Step>, clock: Time, c: Channel)
    requires Inv(s) && IsRun(s, run, clock) && AllReturnEvents(run)
    requires c in s.inFlight && Undisturbed(s, run, c)
    ensures c in Final(s, run).inFlight
    ensures Inv(Final(s, run)) && s.deadlines[c] <= Final(s, run).deadlines[c]
    ensures forall i :: 0 <= i < |run| ==> run[i].op != FlushNext(Some(c))
    decreases |run|
  {
    if run != [] {
      var t := Next(s, run[0].op, run[0].now);
      StepKeepsInv(s, run[0].op, run[0].now);
      StaysInFlight(s, run[0].op, run[0].now, c);
      TurnsExclude(t, run[1..], run[0].now, c);
      assert forall i :: 1 <= i < |run| ==> run[i] == run[1..][i - 1];
    }
  }

  /** A call takes a channel out of flight exactly by completing it or by finding its deadline passed. */
  lemma LeavesFlightExactly(s: Queue, op: Op, now: Time, c: Channel)
    requires Inv(s) && Allowed(s, op, now) && c in s.inFlight
    ensures (op == MarkComplete(c) || Expires(s, op, now, c)) <==>
            (c !in Next(s, op, now).inFlight || op == FlushNext(Some(c)))
  {
    if op == MarkComplete(c) {
    } else if Expires(s, op, now, c) {
      assert c !in Expire(s, now).inFlight;
    } else {
      StaysInFlight(s, op, now, c);
    }
  }

  // ---- questions agree with actions ----

  lemma RecoverTwice(q: map<Channel, seq<Event>>, w: map<Channel, seq<Event>>, e0: set<Channel>, e1: set<Channel>)
    requires e0 <= e1
    ensures Recover(Recover(q, w, e0), w - e0, e1 - e0) == Recover(q, w, e1)
  {
    assert Recover(Recover(q, w, e0), w - e0, e1 - e0).Keys == Recover(q, w, e1).Keys;
  }

  lemma ExpiredLater(s: Queue, t0: Time, t1: Time)
    requires t0 <= t1
    ensures Expired(s, t0) <= Expired(s, t1)
    ensures Expired(Expire(s, t0), t1) == Expired(s, t1) - Expired(s, t0)
  {
  }

  lemma ExpireSetTwice(s: Queue, e0: set<Channel>, e1: set<Channel>)
    requires e0 <= e1
    ensures ExpireSet(ExpireSet(s, e0), e1 - e0) == ExpireSet(s, e1)
  {
    RecoverTwice(s.queues, s.withheld, e0, e1);
    assert s.inFlight - e0 - (e1 - e0) == s.inFlight - e1;
    assert s.deadlines - e0 - (e1 - e0) == s.deadlines - e1;
    assert s.batchSizes - e0 - (e1 - e0) == s.batchSizes - e1;
    assert s.withheld - e0 - (e1 - e0) == s.withheld - e1;
  }

  /** Expiring at two instants is expiring at the later one. */
  lemma ExpireTwice(s: Queue, t0: Time, t1: Time)
    requires t0 <= t1
    ensures Expire(Expire(s, t0), t1) == Expire(s, t1)
  {
    ExpiredLater(s, t0, t1);
    ExpireSetTwice(s, Expired(s, t0), Expired(s, t1));
  }

  lemma OldestExists(s: Queue, now: Time, cs: set<Channel>) returns (c: Channel)
    requires cs != {} && cs <= Candidates(s, now)
    ensures c in cs && forall d :: d in cs ==> s.queues[c][0].receivedAt <= s.queues[d][0].receivedAt
    decreases cs
  {
    c :| c in cs;
    if cs != {c} {
      var best := OldestExists(s, now, cs - {c});
      if s.queues[best][0].receivedAt < s.queues[c][0].receivedAt { c := best; }
    }
  }

  /**
   The question and the action agree: at one instant, whatever pick the code makes, a flush
   returns a batch exactly when `has_flushable_work` says so; and some pick is always possible.
   */
  lemma WorkAgreesWithFlush(s: Queue, pick: Option<Channel>, now: Time)
    ensures Allowed(s, FlushNext(pick), now) ==>
              (Out(s, HasFlushableWork, now) == Answer(true) <==> Out(s, FlushNext(pick), now).batch.Some?)
    ensures exists p :: Allowed(s, FlushNext(p), now)
    ensures Next(s, HasFlushableWork, now) == Expire(s, now)
  {
    var e := Expire(s, now);
    if Candidates(e, now) != {} {
      var c := OldestExists(e, now, Candidates(e, now));
      assert Allowed(s, FlushNext(Some(c)), now);
    } else if CancelledReady(e) != {} {
      var c :| c in CancelledReady(e);
      assert Allowed(s, FlushNext(Some(c)), now);
    } else {
      assert Allowed(s, FlushNext(None), now);
    }
  }

  /** Once there is work to flush, waiting (asking or not) never makes it go away. */
  lemma WorkStaysReady(s: Queue, t0: Time, t1: Time)
    requires Inv(s) && t0 <= t1
    requires Out(s, HasFlushableWork, t0) == Answer(true)
    ensures Out(s, HasFlushableWork, t1) == Answer(true)
    ensures Out(Next(s, HasFlushableWork, t0), HasFlushableWork, t1) == Answer(true)
  {
    ExpireTwice(s, t0, t1);
    var e0, e1 := Expire(s, t0), Expire(s, t1);
    ExpireKeepsInv(s, t1);
    assert Expired(s, t0) <= Expired(s, t1);
    if Candidates(e0, t0) != {} {
      var c :| c in Candidates(e0, t0);
      assert c in e1.queues && c in Candidates(e1, t1);
    } else {
      var c :| c in CancelledReady(e0);
      assert c in CancelledReady(e1);
    }
  }

  /** Nothing undispatched and nothing in flight means no table holds an event. */
  lemma IdleMeansEmpty(s: Queue)
    requires Inv(s)
    ensures !HasUndispatchedWork(s) && s.inFlight == {} <==>
            s.queues == map[] && s.cancelled == map[] && s.withheld == map[] && s.inFlight == {}
  {
    if !HasUndispatchedWork(s) && s.inFlight == {} {
      assert s.queues.Keys == {} && s.cancelled.Keys == {} && s.withheld.Keys == {};
    }
  }
}
