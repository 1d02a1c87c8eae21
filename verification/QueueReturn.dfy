/**
 Handing a batch straight back to the queue: what is restored, and what is not.
 */
module QueueReturn {
  import opened Events
  import opened QueueModel
  import opened QueueInvariant
  import opened QueueLedger

  /** The channel is flushed and the batch returned, as when no agent is free to take it. */
  ghost function Bounced(s: Queue, c: Channel, now: Time): Queue {
    FrontLoaded(TakeQueued(s, c, now), QueuedBatch(s, c))
  }

  lemma BouncedQueue(s: Queue, c: Channel, now: Time)
    requires Inv(s) && Ready(s, c, now)
    ensures var q := s.queues[c];
            At(Bounced(s, c, now).queues, c) == SortByCreated(q[..Drained(q)]) + q[Drained(q)..]
    ensures c !in Bounced(s, c, now).cancelled
    ensures At(Bounced(s, c, now).withheld, c) == At(s.withheld, c)
  {
    var q := s.queues[c];
    assert At(TakeQueued(s, c, now).queues, c) == q[Drained(q)..];
  }

  /** What a returned batch leaves out: the cancelled events it carried, and what the cap cuts off. */
  lemma ReturnLeavesOut(t: Queue, b: Batch, e: Event)
    ensures Held(FrontLoaded(t, b), b.channel, e) + Times(b.cancelledEvents, e)
            + Times(Overflow(b.events + At(t.queues, b.channel)), e)
         == Held(t, b.channel, e) + InBatch(b, e)
  {
    CapSplits(b.events + At(t.queues, b.channel), e);
  }

  /** The batch carries nothing cancelled, and fits in front of its queue. */
  predicate Fits(t: Queue, b: Batch) {
    b.cancelledEvents == [] && |b.events| + |At(t.queues, b.channel)| <= MAX_PENDING_PER_CHANNEL
  }

  /**
   Whatever batch is returned, and whenever: every event it carries is back in the queue's tables exactly
   when nothing cancelled had been merged into it and it fits within the cap.
   */
  lemma ReturnRestoresExactly(t: Queue, b: Batch)
    ensures (forall e :: Held(FrontLoaded(t, b), b.channel, e) == Held(t, b.channel, e) + InBatch(b, e)) <==> Fits(t, b)
  {
    var lost := Overflow(b.events + At(t.queues, b.channel));
    forall e ensures Held(FrontLoaded(t, b), b.channel, e) + Times(b.cancelledEvents, e) + Times(lost, e)
                  == Held(t, b.channel, e) + InBatch(b, e) {
      ReturnLeavesOut(t, b, e);
    }
    if b.cancelledEvents != [] {
      SomeTimes(b.cancelledEvents);
      assert Held(FrontLoaded(t, b), b.channel, b.cancelledEvents[0])
           < Held(t, b.channel, b.cancelledEvents[0]) + InBatch(b, b.cancelledEvents[0]);
    } else if lost != [] {
      SomeTimes(lost);
      assert Held(FrontLoaded(t, b), b.channel, lost[0]) < Held(t, b.channel, lost[0]) + InBatch(b, lost[0]);
    }
  }

  lemma SomeTimes(s: seq<Event>)
    requires s != []
    ensures Times(s, s[0]) >= 1
  {
    assert s[0] in multiset(s);
  }

  /** A failed batch that is retried is put back in just the same way. */
  lemma RetryRestoresExactly(t: Queue, b: Batch, jitter: real, now: Time)
    requires !DeadLetters(t, b)
    ensures (forall e :: Held(Requeued(t, b, jitter, now), b.channel, e) == Held(t, b.channel, e) + InBatch(b, e))
            <==> Fits(t, b)
  {
    var u := Requeued(t, b, jitter, now);
    assert u.queues == FrontLoaded(t, b).queues && u.withheld == t.withheld && u.cancelled == t.cancelled;
    assert forall e :: Held(u, b.channel, e) == Held(FrontLoaded(t, b), b.channel, e);
    ReturnRestoresExactly(t, b);
  }

  /** Cancelling the turn instead keeps every event, merged or not, however many there are. */
  lemma CancelRestoresAlways(t: Queue, b: Batch, reason: CancelReason, e: Event)
    ensures Held(StoredAsCancelled(t, b, reason), b.channel, e) == Held(t, b.channel, e) + InBatch(b, e)
  {
  }

  /** A flush moves events from the tables into the batch. */
  lemma FlushConserves(s: Queue, c: Channel, now: Time, e: Event)
    requires PickFits(s, Some(c), now)
    ensures Held(FlushedState(s, Some(c), now), c, e) + InBatch(FlushedBatch(s, Some(c), now).value, e) == Held(s, c, e)
  {
    var q := At(s.queues, c);
    if FromQueue(s, now) {
      CutSplits(q, Drained(q));
      assert At(TakeQueued(s, c, now).queues, c) == q[Drained(q)..];
    }
  }

  /**
   Handing a flushed batch straight back, as when no agent is free to take it, brings back every event
   exactly when it was drained from a queue with nothing merged in, or was a cancelled batch that fits
   within the cap together with what is queued behind its throttle.
   */
  lemma BounceRestoresExactly(s: Queue, c: Channel, now: Time)
    requires Inv(s) && PickFits(s, Some(c), now)
    ensures var t, b := FlushedState(s, Some(c), now), FlushedBatch(s, Some(c), now).value;
            (forall e :: Held(FrontLoaded(t, b), c, e) == Held(s, c, e))
            <==> if FromQueue(s, now) then c !in s.cancelled
                 else |At(s.cancelled, c)| + |At(s.queues, c)| <= MAX_PENDING_PER_CHANNEL
  {
    var t, b := FlushedState(s, Some(c), now), FlushedBatch(s, Some(c), now).value;
    forall e ensures Held(t, c, e) + InBatch(b, e) == Held(s, c, e) {
      FlushConserves(s, c, now, e);
    }
    ReturnRestoresExactly(t, b);
    BounceFits(s, c, now);
    assert b.channel == c;
  }

  lemma BounceFits(s: Queue, c: Channel, now: Time)
    requires Inv(s) && PickFits(s, Some(c), now)
    ensures Fits(FlushedState(s, Some(c), now), FlushedBatch(s, Some(c), now).value)
            <==> if FromQueue(s, now) then c !in s.cancelled
                 else |At(s.cancelled, c)| + |At(s.queues, c)| <= MAX_PENDING_PER_CHANNEL
  {
    var q := At(s.queues, c);
    if FromQueue(s, now) {
      assert At(TakeQueued(s, c, now).queues, c) == q[Drained(q)..];
    }
  }

  lemma SortedIsFixed(s: seq<Event>)
    ensures SortByCreated(s) == s <==> Sorted(s)
  {
    forall k ensures CreatedAt(SortByCreated(s), k) == CreatedAt(s, k) && Sorted(SortByCreated(s)) {
      SortIsSortedAndStable(s, k);
    }
    assert Sorted(SortByCreated(s)) by { SortIsSortedAndStable(s, 0); }
    if Sorted(s) { StableOrderIsUnique(SortByCreated(s), s); }
  }

  lemma FrontFixed(q: seq<Event>, n: nat)
    requires n <= |q|
    ensures SortByCreated(q[..n]) + q[n..] == q <==> Sorted(q[..n])
  {
    var front := SortByCreated(q[..n]);
    SortedIsFixed(q[..n]);
    assert q == q[..n] + q[n..];
    assert |front| == n;
    assert (front + q[n..])[..n] == front;
  }

  /** The queue is back as it was exactly when the events drained were already in creation order. */
  lemma ReturnKeepsOrderExactly(s: Queue, c: Channel, now: Time)
    requires Inv(s) && Ready(s, c, now)
    ensures At(Bounced(s, c, now).queues, c) == s.queues[c] <==> Sorted(s.queues[c][..Drained(s.queues[c])])
  {
    BouncedQueue(s, c, now);
    FrontFixed(s.queues[c], Drained(s.queues[c]));
  }
}
