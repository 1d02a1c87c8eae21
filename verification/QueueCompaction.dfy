/**
 Compaction of expired metadata: a bisimulation between a queue and its compacted form, when compaction
 finds no orphaned retry counter.
 */
module QueueCompaction {
  import opened Events
  import opened QueueModel
  import opened QueueLocality
  import opened QueueInvariant
  import opened QueueRetry
  import opened QueueRuns

  /** A counter compaction deletes: its channel is idle, unthrottled and has nothing queued. */
  ghost predicate Orphan(s: Queue, c: Channel, now: Time) {
    c in s.retryCounts && !Throttled(s, c, now) && At(s.queues, c) == [] && c !in s.inFlight
  }

  ghost predicate SameThrottles(a: map<Channel, Time>, b: map<Channel, Time>, now: Time) {
    forall c :: (c in a && now < a[c]) || (c in b && now < b[c]) ==> c in a && c in b && a[c] == b[c]
  }

  /** Equal but for throttles that have already expired. */
  ghost predicate Alike(s: Queue, t: Queue, now: Time) {
    t == s.(retryAfter := t.retryAfter) && SameThrottles(s.retryAfter, t.retryAfter, now)
  }

  lemma CompactedIsAlike(s: Queue, now: Time)
    requires forall c :: !Orphan(s, c, now)
    ensures Alike(s, Compacted(s, now), now)
  {
    var t := Compacted(s, now);
    assert t.retryCounts == s.retryCounts by {
      forall c | c in s.retryCounts ensures c in t.retryCounts { assert !Orphan(s, c, now); }
    }
  }

  // ---- a bisimulation ----

  lemma ExpireAlike(s: Queue, t: Queue, clock: Time, now: Time)
    requires Alike(s, t, clock) && clock <= now
    ensures Alike(Expire(s, now), Expire(t, now), now)
    ensures Candidates(Expire(s, now), now) == Candidates(Expire(t, now), now)
    ensures CancelledReady(Expire(s, now)) == CancelledReady(Expire(t, now))
  {
    var a, b := Expire(s, now), Expire(t, now);
    assert b == a.(retryAfter := b.retryAfter);
    assert forall c :: Throttled(a, c, now) <==> Throttled(b, c, now);
  }

  lemma PicksAlike(s: Queue, t: Queue, pick: Option<Channel>, now: Time)
    requires Alike(s, t, now)
    requires Candidates(s, now) == Candidates(t, now) && CancelledReady(s) == CancelledReady(t)
    ensures PickFits(s, pick, now) == PickFits(t, pick, now)
    ensures FlushedBatch(s, pick, now) == FlushedBatch(t, pick, now)
    ensures Alike(FlushedState(s, pick, now), FlushedState(t, pick, now), now)
  {
    assert t.queues == s.queues;
    assert forall c :: Ready(s, c, now) <==> c in Candidates(s, now);
    assert forall c :: Ready(t, c, now) <==> c in Candidates(t, now);
  }

  lemma LaterAlike(s: Queue, t: Queue, clock: Time, now: Time)
    requires Alike(s, t, clock) && clock <= now
    ensures Alike(s, t, now)
  {
  }

  lemma CompletedAlike(s: Queue, t: Queue, c: Channel, now: Time)
    requires Alike(s, t, now)
    ensures Alike(Completed(s, c, now), Completed(t, c, now), now)
  {
    assert Throttled(s, c, now) <==> Throttled(t, c, now);
  }

  lemma ReturnedAlike(s: Queue, t: Queue, b: Batch, reason: CancelReason, now: Time)
    requires Alike(s, t, now)
    ensures Alike(FrontLoaded(s, b), FrontLoaded(t, b), now)
    ensures Alike(StoredAsCancelled(s, b, reason), StoredAsCancelled(t, b, reason), now)
  {
  }

  lemma RequeuedAlike(s: Queue, t: Queue, b: Batch, jitter: real, now: Time)
    requires Alike(s, t, now)
    ensures Alike(Requeued(s, b, jitter, now), Requeued(t, b, jitter, now), now)
  {
  }

  lemma DrainedAlike(s: Queue, t: Queue, c: Channel, now: Time)
    requires Alike(s, t, now)
    ensures Alike(DrainedChannel(s, c), DrainedChannel(t, c), now)
  {
  }

  lemma CompactedAlike(s: Queue, t: Queue, now: Time)
    requires Alike(s, t, now)
    ensures Alike(Compacted(s, now), Compacted(t, now), now)
  {
    assert Compacted(s, now).retryAfter == Compacted(t, now).retryAfter;
    assert Compacted(s, now).retryCounts == Compacted(t, now).retryCounts;
  }

  lemma PushedAlike(s: Queue, t: Queue, c: Channel, e: Event, now: Time)
    requires Alike(s, t, now)
    ensures Alike(Pushed(s, c, e), Pushed(t, c, e), now)
  {
  }

  lemma ExtendedAlike(s: Queue, t: Queue, c: Channel, maxTurn: nat, now: Time)
    requires Alike(s, t, now)
    ensures Alike(Extended(s, c, maxTurn, now), Extended(t, c, maxTurn, now), now)
  {
  }

  lemma WithheldAlike(s: Queue, t: Queue, c: Channel, id: string, now: Time)
    requires Alike(s, t, now)
    ensures Alike(Withhold(s, c, id), Withhold(t, c, id), now)
  {
  }

  lemma ReleasedAlike(s: Queue, t: Queue, c: Channel, id: string, now: Time)
    requires Alike(s, t, now)
    ensures Alike(Release(s, c, id), Release(t, c, id), now)
  {
  }

  lemma RemovedAlike(s: Queue, t: Queue, c: Channel, id: string, now: Time)
    requires Alike(s, t, now)
    ensures Alike(Removed(s, c, id), Removed(t, c, id), now)
  {
  }

  lemma FlushCallsAlike(s: Queue, t: Queue, op: Op, now: Time)
    requires Alike(s, t, now) && (op.FlushNext? || op.HasFlushableWork?)
    ensures Allowed(s, op, now) == Allowed(t, op, now) && Out(s, op, now) == Out(t, op, now)
    ensures Alike(Next(s, op, now), Next(t, op, now), now)
  {
    ExpireAlike(s, t, now, now);
    if op.FlushNext? { PicksAlike(Expire(s, now), Expire(t, now), op.pick, now); }
  }

  lemma RetryCallsAlike(s: Queue, t: Queue, op: Op, now: Time)
    requires Alike(s, t, now) && (op.MarkComplete? || op.Requeue? || op.DrainChannel? || op.Compact?)
    ensures Allowed(s, op, now) == Allowed(t, op, now) && Out(s, op, now) == Out(t, op, now)
    ensures Alike(Next(s, op, now), Next(t, op, now), now)
  {
    match op
    case MarkComplete(c) => CompletedAlike(s, t, c, now);
    case Requeue(b, jitter) => RequeuedAlike(s, t, b, jitter, now);
    case DrainChannel(c) => DrainedAlike(s, t, c, now);
    case Compact => CompactedAlike(s, t, now);
  }

  lemma SteerCallsAlike(s: Queue, t: Queue, op: Op, now: Time)
    requires Alike(s, t, now) && (op.MarkSteerPending? || op.ReleaseSteer? || op.RemoveEvent?)
    ensures Allowed(s, op, now) == Allowed(t, op, now) && Out(s, op, now) == Out(t, op, now)
    ensures Alike(Next(s, op, now), Next(t, op, now), now)
  {
    match op
    case MarkSteerPending(c, id) => WithheldAlike(s, t, c, id, now);
    case ReleaseSteer(c, id) => ReleasedAlike(s, t, c, id, now);
    case RemoveEvent(c, id) => RemovedAlike(s, t, c, id, now);
  }

  lemma OtherCallsAlike(s: Queue, t: Queue, op: Op, now: Time)
    requires Alike(s, t, now)
    requires op.Push? || op.RequeuePreserve? || op.RequeueAsCancelled? || op.ExtendDeadline?
    ensures Allowed(s, op, now) == Allowed(t, op, now) && Out(s, op, now) == Out(t, op, now)
    ensures Alike(Next(s, op, now), Next(t, op, now), now)
  {
    match op
    case Push(c, e) => PushedAlike(s, t, c, e, now);
    case RequeuePreserve(b) => ReturnedAlike(s, t, b, Steer, now);
    case RequeueAsCancelled(b, reason) => ReturnedAlike(s, t, b, reason, now);
    case ExtendDeadline(c, maxTurn) => ExtendedAlike(s, t, c, maxTurn, now);
  }

  /** Alike states admit the same calls, give the same answers and stay alike. */
  lemma StepAlike(s: Queue, t: Queue, op: Op, clock: Time, now: Time)
    requires Alike(s, t, clock) && clock <= now
    ensures Allowed(s, op, now) == Allowed(t, op, now) && Out(s, op, now) == Out(t, op, now)
    ensures Alike(Next(s, op, now), Next(t, op, now), now)
  {
    LaterAlike(s, t, clock, now);
    if op.FlushNext? || op.HasFlushableWork? {
      FlushCallsAlike(s, t, op, now);
    } else if op.MarkComplete? || op.Requeue? || op.DrainChannel? || op.Compact? {
      RetryCallsAlike(s, t, op, now);
    } else if op.MarkSteerPending? || op.ReleaseSteer? || op.RemoveEvent? {
      SteerCallsAlike(s, t, op, now);
    } else {
      OtherCallsAlike(s, t, op, now);
    }
  }

  ghost function Outputs(s: Queue, run: seq<Step>): seq<Output>
    decreases |run|
  {
    if run == [] then []
    else [Out(s, run[0].op, run[0].now)] + Outputs(Next(s, run[0].op, run[0].now), run[1..])
  }

  lemma {:induction false} RunsAlike(s: Queue, t: Queue, run: seq<Step>, clock: Time)
    requires Alike(s, t, clock)
    ensures IsRun(s, run, clock) == IsRun(t, run, clock)
    ensures IsRun(s, run, clock) ==> Outputs(s, run) == Outputs(t, run)
    decreases |run|
  {
    if run != [] && clock <= run[0].now {
      StepAlike(s, t, run[0].op, clock, run[0].now);
      RunsAlike(Next(s, run[0].op, run[0].now), Next(t, run[0].op, run[0].now), run[1..], run[0].now);
    }
  }

  /** The two states admit the same runs, with the same answers. */
  ghost predicate Indistinguishable(s: Queue, t: Queue, now: Time) {
    forall run :: && IsRun(s, run, now) == IsRun(t, run, now)
                  && (IsRun(s, run, now) ==> Outputs(s, run) == Outputs(t, run))
  }

  // ---- runs without expiry or withholding have no orphans ----

  ghost predicate TameRun(s: Queue, run: seq<Step>)
    decreases |run|
  {
    run == [] ||
    ((forall c :: Tame(s, run[0].op, run[0].now, c)) && TameRun(Next(s, run[0].op, run[0].now), run[1..]))
  }

  ghost predicate AllAnchored(s: Queue, clock: Time) {
    forall c :: Anchored(s, c, clock)
  }

  lemma {:induction false} TameRunsStayAnchored(s: Queue, run: seq<Step>, clock: Time)
    requires Inv(s) && IsRun(s, run, clock) && AllReturnEvents(run) && TameRun(s, run) && AllAnchored(s, clock)
    ensures Inv(Final(s, run)) && AllAnchored(Final(s, run), EndTime(run, clock))
    decreases |run|
  {
    if run != [] {
      var op, now := run[0].op, run[0].now;
      StepKeepsInv(s, op, now);
      forall c ensures Anchored(Next(s, op, now), c, now) {
        assert Tame(s, op, now, c) && Anchored(s, c, clock);
        StepKeepsAnchor(s, op, now, c, clock);
      }
      TameRunsStayAnchored(Next(s, op, now), run[1..], now);
    }
  }
}
