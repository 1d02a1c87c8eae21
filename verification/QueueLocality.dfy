/**
 Calls are local: one channel's share of the tables changes only through calls about it, its expiry, or
 compaction.
 */
module QueueLocality {
  import opened Events
  import opened QueueModel

  /** One channel's entry in every table. */
  datatype Slice = Slice(
    queue: Option<seq<Event>>,
    withheld: Option<seq<Event>>,
    cancelled: Option<seq<Event>>,
    reason: Option<CancelReason>,
    inFlight: bool,
    deadline: Option<Time>,
    retryAfter: Option<Time>,
    attempts: nat)

  ghost function SliceOf(s: Queue, c: Channel): Slice {
    Slice(Find(s.queues, c), Find(s.withheld, c), Find(s.cancelled, c), Find(s.reasons, c),
          c in s.inFlight, Find(s.deadlines, c), Find(s.retryAfter, c), Attempts(s, c))
  }

  lemma ExpiryIsLocal(s: Queue, now: Time, c: Channel)
    requires c !in Expired(s, now)
    ensures SliceOf(Expire(s, now), c) == SliceOf(s, c)
  {
  }

  lemma TakeIsLocal(s: Queue, d: Channel, now: Time, c: Channel)
    requires d != c
    ensures SliceOf(TakeQueued(s, d, now), c) == SliceOf(s, c)
    ensures SliceOf(TakeCancelled(s, d, now), c) == SliceOf(s, c)
  {
  }

  lemma FlushIsLocal(s: Queue, pick: Option<Channel>, now: Time, c: Channel)
    requires pick != Some(c)
    ensures SliceOf(FlushedState(s, pick, now), c) == SliceOf(s, c)
  {
    if pick.Some? { TakeIsLocal(s, pick.value, now, c); }
  }

  lemma ReturnIsLocal(s: Queue, b: Batch, reason: CancelReason, c: Channel)
    requires b.channel != c
    ensures SliceOf(FrontLoaded(s, b), c) == SliceOf(s, c)
    ensures SliceOf(StoredAsCancelled(s, b, reason), c) == SliceOf(s, c)
  {
  }

  lemma RetryIsLocal(s: Queue, b: Batch, jitter: real, now: Time, c: Channel)
    requires b.channel != c
    ensures SliceOf(Requeued(s, b, jitter, now), c) == SliceOf(s, c)
  {
  }

  lemma CompletionIsLocal(s: Queue, d: Channel, now: Time, c: Channel)
    requires d != c
    ensures SliceOf(Completed(s, d, now), c) == SliceOf(s, c)
  {
  }

  lemma ExtensionIsLocal(s: Queue, d: Channel, maxTurn: nat, now: Time, c: Channel)
    requires d != c
    ensures SliceOf(Extended(s, d, maxTurn, now), c) == SliceOf(s, c)
  {
  }

  lemma DrainIsLocal(s: Queue, d: Channel, c: Channel)
    requires d != c
    ensures SliceOf(DrainedChannel(s, d), c) == SliceOf(s, c)
  {
  }

  lemma SteerIsLocal(s: Queue, d: Channel, id: string, c: Channel)
    requires d != c
    ensures SliceOf(Withhold(s, d, id), c) == SliceOf(s, c)
    ensures SliceOf(Release(s, d, id), c) == SliceOf(s, c)
  {
  }

  lemma RemoveIsLocal(s: Queue, d: Channel, id: string, c: Channel)
    requires d != c
    ensures SliceOf(Removed(s, d, id), c) == SliceOf(s, c)
  {
  }

  lemma CallsAreLocal(s: Queue, op: Op, now: Time, c: Channel)
    requires !About(op, c) && !Expires(s, op, now, c) && !op.Compact?
    ensures SliceOf(Next(s, op, now), c) == SliceOf(s, c)
  {
    match op
    case Push(d, e) =>
    case FlushNext(pick) =>
      ExpiryIsLocal(s, now, c);
      FlushIsLocal(Expire(s, now), pick, now, c);
    case HasFlushableWork => ExpiryIsLocal(s, now, c);
    case MarkComplete(d) => CompletionIsLocal(s, d, now, c);
    case Requeue(b, jitter) => RetryIsLocal(s, b, jitter, now, c);
    case RequeuePreserve(b) => ReturnIsLocal(s, b, Steer, c);
    case RequeueAsCancelled(b, reason) => ReturnIsLocal(s, b, reason, c);
    case ExtendDeadline(d, maxTurn) => ExtensionIsLocal(s, d, maxTurn, now, c);
    case DrainChannel(d) => DrainIsLocal(s, d, c);
    case MarkSteerPending(d, id) => SteerIsLocal(s, d, id, c);
    case ReleaseSteer(d, id) => SteerIsLocal(s, d, id, c);
    case RemoveEvent(d, id) => RemoveIsLocal(s, d, id, c);
  }

  /** Other channels with anything waiting. */
  ghost function Others(s: Queue, c: Channel): set<Channel> {
    s.queues.Keys + s.cancelled.Keys + s.withheld.Keys - {c}
  }

  lemma DrainSlots(s: Queue, c: Channel, d: Channel, now: Time)
    requires d != c
    ensures var t := DrainedChannel(s, d);
            && Others(t, c) == Others(s, c) - {d} && t.inFlight == s.inFlight
            && Attempts(t, c) == Attempts(s, c) && (Throttled(t, c, now) <==> Throttled(s, c, now))
            && t.queues == s.queues - {d} && t.cancelled == s.cancelled - {d}
            && t.reasons == s.reasons - {d} && t.withheld == s.withheld - {d}
  {
  }

  // ---- calls that leave the withheld table alone ----

  lemma WithheldTableKept(s: Queue, op: Op, now: Time)
    requires !op.FlushNext? && !op.HasFlushableWork? && !op.DrainChannel?
    requires !op.MarkSteerPending? && !op.ReleaseSteer? && !op.RemoveEvent?
    ensures Next(s, op, now).withheld == s.withheld
  {
    match op
    case Push(_, _) =>
    case MarkComplete(_) =>
    case Requeue(_, _) =>
    case RequeuePreserve(_) =>
    case RequeueAsCancelled(_, _) =>
    case ExtendDeadline(_, _) =>
    case Compact =>
  }

  lemma FlushKeepsWithheld(s: Queue, pick: Option<Channel>, now: Time)
    ensures FlushedState(s, pick, now).withheld == s.withheld
  {
  }
}
