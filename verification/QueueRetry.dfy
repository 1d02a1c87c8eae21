/**
 Retries of a failing channel: how long they back off, and when the batch is given up.
 */
module QueueRetry {
  import opened Events
  import opened Numbers
  import opened QueueModel
  import opened QueueLocality
  import opened QueueInvariant

  // ---- the backoff schedule ----

  lemma BackoffTable()
    ensures BackoffSecs(1) == 5 && BackoffSecs(2) == 10 && BackoffSecs(3) == 20 && BackoffSecs(4) == 40
    ensures BackoffSecs(5) == 80 && BackoffSecs(6) == 160
    ensures forall n: nat :: n >= 7 ==> BackoffSecs(n) == 300
  {
    assert Pow2(3) == 8;
    assert Pow2(6) == 64;
  }

  /**
   For any jitter in the documented range, each attempt up to the seventh waits strictly longer
   than every earlier one; later ones stay within 240 and 360 seconds.
   */
  lemma DelaysIncrease(i: nat, j: nat, x: real, y: real)
    requires 1 <= i < j && 0.8 <= x <= 1.2 && 0.8 <= y <= 1.2
    ensures j <= 7 ==> RetryDelay(i, x) < RetryDelay(j, y)
    ensures 7 <= j ==> 240.0 <= RetryDelay(j, y) <= 360.0
    ensures 4.0 <= RetryDelay(i, x)
  {
    BackoffTable();
    var a, b := BackoffSecs(i) as real, BackoffSecs(j) as real;
    assert a * 0.8 <= a * x <= a * 1.2;
    assert b * 0.8 <= b * y <= b * 1.2;
    assert i <= 6 || i >= 7;
    assert j <= 7 ==> i in {1, 2, 3, 4, 5, 6} && j in {2, 3, 4, 5, 6, 7};
    assert j <= 7 ==> a * 1.2 < b * 0.8;
  }

  /** The jitter drawn from the nanoseconds of the current second. */
  function Jitter(nanos: nat): real {
    0.8 + nanos as real / U32_MAX as real * 0.4
  }

  /**
   The jitter stays in the documented range but only in the lowest quarter of it, so every
   delay is between 80% and 90% of its nominal value and none is ever longer.
   */
  lemma JitterOnlyShortens(nanos: nat, attempt: nat)
    requires nanos < 1_000_000_000 && 1 <= attempt
    ensures 0.8 <= Jitter(nanos) < 0.9 && (Jitter(nanos) - 0.8) * 4294967295.0 == 0.4 * nanos as real
    ensures 0.8 * BackoffSecs(attempt) as real
        <= RetryDelay(attempt, Jitter(nanos)) < 0.9 * BackoffSecs(attempt) as real
  {
    assert 0.0 <= nanos as real / U32_MAX as real < 0.25;
    BackoffTable();
    var a := BackoffSecs(attempt) as real;
    assert 5.0 <= a;
    assert a * 0.8 <= a * Jitter(nanos) < a * 0.9;
  }

  // ---- a retry count is anchored to pending work ----

  /**
   A counted channel has queued events or a turn in flight, and a throttled one has queued
   events, from `clock` on.
   */
  ghost predicate Anchored(s: Queue, c: Channel, clock: Time) {
    && (c in s.retryCounts ==> At(s.queues, c) != [] || c in s.inFlight)
    && (Throttled(s, c, clock) ==> At(s.queues, c) != [])
  }

  /** The call neither expires `c` nor takes single events out of its queue. */
  ghost predicate Tame(s: Queue, op: Op, now: Time, c: Channel) {
    && !Expires(s, op, now, c)
    && ReturnsEvents(op)
    && !((op.MarkSteerPending? || op.RemoveEvent?) && op.channel == c)
  }

  lemma FlushKeepsAnchor(s: Queue, c: Channel, clock: Time, now: Time)
    requires Anchored(s, c, clock) && clock <= now && PickFits(s, Some(c), now)
    ensures Anchored(FlushedState(s, Some(c), now), c, now)
    ensures Attempts(FlushedState(s, Some(c), now), c) == Attempts(s, c)
  {
    var t := FlushedState(s, Some(c), now);
    if FromQueue(s, now) {
      assert !Throttled(t, c, now);
    } else {
      assert t.queues == s.queues;
    }
  }

  lemma RequeueKeepsAnchor(s: Queue, b: Batch, jitter: real, now: Time)
    requires b.events != []
    ensures Anchored(Requeued(s, b, jitter, now), b.channel, now)
    ensures !DeadLetters(s, b) ==> Attempts(Requeued(s, b, jitter, now), b.channel) == Attempts(s, b.channel) + 1
  {
    if !DeadLetters(s, b) {
      assert At(FrontLoaded(s, b).queues, b.channel) != [];
    }
  }

  lemma PushKeepsAnchor(s: Queue, c: Channel, e: Event, clock: Time, now: Time)
    requires Anchored(s, c, clock) && clock <= now
    ensures Anchored(Pushed(s, c, e), c, now) && Attempts(Pushed(s, c, e), c) == Attempts(s, c)
  {
  }

  lemma ReleaseKeepsAnchor(s: Queue, c: Channel, id: string, clock: Time, now: Time)
    requires Anchored(s, c, clock) && clock <= now
    ensures Anchored(Release(s, c, id), c, now) && Attempts(Release(s, c, id), c) == Attempts(s, c)
  {
  }

  lemma ReturningKeepsAnchor(s: Queue, b: Batch, reason: CancelReason, clock: Time, now: Time)
    requires Anchored(s, b.channel, clock) && clock <= now && b.events != []
    ensures Anchored(FrontLoaded(s, b), b.channel, now)
    ensures Attempts(FrontLoaded(s, b), b.channel) == Attempts(s, b.channel)
    ensures Anchored(StoredAsCancelled(s, b, reason), b.channel, now)
    ensures Attempts(StoredAsCancelled(s, b, reason), b.channel) == Attempts(s, b.channel)
  {
  }

  lemma QueueingKeepsAnchor(s: Queue, op: Op, now: Time, c: Channel, clock: Time)
    requires op.Push? || op.RequeuePreserve? || op.RequeueAsCancelled? || op.ExtendDeadline? || op.ReleaseSteer?
    requires Anchored(s, c, clock) && clock <= now && ReturnsEvents(op) && About(op, c)
    ensures Anchored(Next(s, op, now), c, now) && Attempts(Next(s, op, now), c) == Attempts(s, c)
  {
    match op
    case Push(_, e) => PushKeepsAnchor(s, c, e, clock, now);
    case RequeuePreserve(b) => ReturningKeepsAnchor(s, b, Steer, clock, now);
    case RequeueAsCancelled(b, reason) => ReturningKeepsAnchor(s, b, reason, clock, now);
    case ExtendDeadline(_, _) =>
    case ReleaseSteer(_, id) => ReleaseKeepsAnchor(s, c, id, clock, now);
  }

  lemma ClearingKeepsAnchor(s: Queue, op: Op, now: Time, c: Channel, clock: Time)
    requires (op.MarkComplete? || op.DrainChannel?) && op.channel == c
    requires Anchored(s, c, clock) && clock <= now
    ensures Anchored(Next(s, op, now), c, now)
  {
    match op
    case MarkComplete(_) => CompletionKeepsAnchor(s, now, c, clock);
    case DrainChannel(_) => DrainClearsRetries(s, c);
  }

  lemma CompletionKeepsAnchor(s: Queue, now: Time, c: Channel, clock: Time)
    requires Anchored(s, c, clock) && clock <= now
    ensures Anchored(Completed(s, c, now), c, now)
    ensures Throttled(s, c, now) ==> Attempts(Completed(s, c, now), c) == Attempts(s, c)
    ensures Attempts(s, c) == 0 ==> Attempts(Completed(s, c, now), c) == 0
  {
  }

  lemma DrainClearsRetries(s: Queue, c: Channel)
    ensures c !in DrainedChannel(s, c).retryCounts && c !in DrainedChannel(s, c).retryAfter
  {
  }

  lemma CompactionKeepsAnchor(s: Queue, now: Time, c: Channel, clock: Time)
    requires Anchored(s, c, clock) && clock <= now
    ensures Anchored(Compacted(s, now), c, now) && Attempts(Compacted(s, now), c) == Attempts(s, c)
  {
  }

  lemma SliceKeepsAnchor(s: Queue, t: Queue, c: Channel, clock: Time, now: Time)
    requires SliceOf(s, c) == SliceOf(t, c) && Anchored(s, c, clock) && clock <= now && Counted(s, c) && Counted(t, c)
    ensures Anchored(t, c, now) && Attempts(t, c) == Attempts(s, c)
  {
    assert At(s.queues, c) == At(t.queues, c);
  }

  /** Stored counts are positive. */
  ghost predicate Counted(s: Queue, c: Channel) {
    c in s.retryCounts ==> 1 <= s.retryCounts[c]
  }

  /** Without expiry or single-event removal, retry counts stay anchored. */
  lemma StepKeepsAnchor(s: Queue, op: Op, now: Time, c: Channel, clock: Time)
    requires Inv(s) && Allowed(s, op, now) && Tame(s, op, now, c) && Anchored(s, c, clock) && clock <= now
    ensures Anchored(Next(s, op, now), c, now)
  {
    StepKeepsInv(s, op, now);
    if op.Compact? {
      CompactionKeepsAnchor(s, now, c, clock);
    } else if !About(op, c) {
      CallsAreLocal(s, op, now, c);
      SliceKeepsAnchor(s, Next(s, op, now), c, clock, now);
    } else if op.FlushNext? {
      ExpireKeepsInv(s, now);
      ExpiryIsLocal(s, now, c);
      SliceKeepsAnchor(s, Expire(s, now), c, clock, now);
      FlushKeepsAnchor(Expire(s, now), c, now, now);
    } else if op.Requeue? {
      RequeueKeepsAnchor(s, op.batch, op.jitter, now);
    } else if op.MarkComplete? || op.DrainChannel? {
      ClearingKeepsAnchor(s, op, now, c, clock);
    } else {
      QueueingKeepsAnchor(s, op, now, c, clock);
    }
  }

  // ---- retry runs ----

  /** A failing channel: each turn is completed while its backoff is still running. */
  ghost predicate Failing(s: Queue, step: Step, c: Channel) {
    && Tame(s, step.op, step.now, c)
    && step.op != DrainChannel(c)
    && (step.op == MarkComplete(c) ==> Throttled(s, c, step.now) || Attempts(s, c) == 0)
  }

  ghost predicate FailingRun(s: Queue, run: seq<Step>, c: Channel)
    decreases |run|
  {
    run == [] || (Failing(s, run[0], c) && FailingRun(Next(s, run[0].op, run[0].now), run[1..], c))
  }

  predicate Fails(op: Op, c: Channel) {
    op.Requeue? && op.batch.channel == c
  }

  function Failures(run: seq<Step>, c: Channel): nat {
    if run == [] then 0 else (if Fails(run[0].op, c) then 1 else 0) + Failures(run[1..], c)
  }

  /** No requeue of `c` in the run is dead-lettered. */
  ghost predicate AllRetried(s: Queue, run: seq<Step>, c: Channel)
    decreases |run|
  {
    run == [] ||
    (&& (Fails(run[0].op, c) ==> Out(s, run[0].op, run[0].now) == DeadLetter(None))
     && AllRetried(Next(s, run[0].op, run[0].now), run[1..], c))
  }

  lemma OtherStepsKeepAttempts(s: Queue, step: Step, c: Channel, clock: Time)
    requires Inv(s) && Allowed(s, step.op, step.now) && Failing(s, step, c)
    requires Anchored(s, c, clock) && clock <= step.now && !Fails(step.op, c)
    ensures Attempts(Next(s, step.op, step.now), c) == Attempts(s, c)
  {
    var op, now := step.op, step.now;
    if op.Compact? {
      CompactionKeepsAnchor(s, now, c, clock);
    } else if !About(op, c) {
      CallsAreLocal(s, op, now, c);
    } else if op.FlushNext? {
      ExpireKeepsInv(s, now);
      ExpiryIsLocal(s, now, c);
      SliceKeepsAnchor(s, Expire(s, now), c, clock, now);
      FlushKeepsAnchor(Expire(s, now), c, now, now);
    } else if op.MarkComplete? {
      CompletionKeepsAnchor(s, now, c, clock);
    } else {
      QueueingKeepsAnchor(s, op, now, c, clock);
    }
  }

  lemma {:induction false} AttemptsCountFailures(s: Queue, run: seq<Step>, clock: Time, c: Channel)
    requires Inv(s) && IsRun(s, run, clock) && FailingRun(s, run, c) && AllReturnEvents(run)
    requires Anchored(s, c, clock) && Attempts(s, c) + Failures(run, c) <= MAX_RETRIES
    ensures Attempts(Final(s, run), c) == Attempts(s, c) + Failures(run, c)
    ensures AllRetried(s, run, c)
    decreases |run|
  {
    if run != [] {
      var op, now := run[0].op, run[0].now;
      StepKeepsInv(s, op, now);
      StepKeepsAnchor(s, op, now, c, clock);
      if Fails(op, c) {
        RequeueKeepsAnchor(s, op.batch, op.jitter, now);
      } else {
        OtherStepsKeepAttempts(s, run[0], c, clock);
      }
      AttemptsCountFailures(Next(s, op, now), run[1..], now, c);
    }
  }

  /**
   Whatever pushes, compactions, cancels and other channels' traffic come in between, the first
   ten failures of a channel are retried; the next failure is dead-lettered exactly when ten
   came before it, and then both retry tables forget the channel.
   */
  lemma EleventhFailureIsDeadLettered(s: Queue, run: seq<Step>, clock: Time, c: Channel, last: Step)
    requires Inv(s) && IsRun(s, run, clock) && FailingRun(s, run, c) && AllReturnEvents(run)
    requires Anchored(s, c, clock) && Attempts(s, c) == 0 && Failures(run, c) <= 10
    requires Fails(last.op, c)
    ensures AllRetried(s, run, c)
    ensures var t := Final(s, run);
            var u := Next(t, last.op, last.now);
            && (Out(t, last.op, last.now) == DeadLetter(Some(last.op.batch)) <==> Failures(run, c) == 10)
            && (Failures(run, c) == 10 ==> c !in u.retryCounts && c !in u.retryAfter && u.queues == t.queues)
  {
    AttemptsCountFailures(s, run, clock, c);
  }
}
