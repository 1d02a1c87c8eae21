/**
 What each call on the queue does, told from its tables alone: the amounts, bounds and instants are written out
 here, so that every transition is fixed by more than its own definition.
 */
module QueueMeaning {
  import opened Events
  import opened QueueModel
  import opened QueueInvariant
  import opened QueueLedger
  import opened QueueRetry

  /** A new event is refused exactly in drop mode while its channel is in flight; a full queue loses its oldest. */
  lemma PushMeans(s: Queue, c: Channel, e: Event, now: Time)
    ensures var t, refused := Next(s, Push(c, e), now), s.mode == Drop && c in s.inFlight;
            && Out(s, Push(c, e), now) == Answer(!refused)
            && (refused ==> t == s)
            && (!refused ==> t == s.(queues := t.queues) && t.queues.Keys == s.queues.Keys + {c})
            && (!refused ==>
                  At(t.queues, c) == (if |At(s.queues, c)| >= 500 then At(s.queues, c)[1..] else At(s.queues, c)) + [e])
            && (forall d :: d in s.queues && d != c ==> t.queues[d] == s.queues[d])
  {
  }

  /**
   Expiry frees exactly the channels whose deadline has come, and puts what was withheld for them in front of
   their queues, cut at 500; it touches nothing of any other channel.
   */
  lemma ExpiryMeans(s: Queue, now: Time, c: Channel)
    requires Inv(s)
    ensures var e, late := Expire(s, now), c in s.deadlines && s.deadlines[c] <= now;
            var back := At(s.withheld, c) + At(s.queues, c);
            && (c in e.inFlight <==> c in s.inFlight && !late)
            && (c in e.deadlines <==> c in s.deadlines && !late) && (c in e.batchSizes <==> c in s.batchSizes && !late)
            && At(e.queues, c) == (if !late then At(s.queues, c) else if |back| > 500 then back[..500] else back)
            && At(e.withheld, c) == (if late then [] else At(s.withheld, c))
            && (c in e.deadlines ==> e.deadlines[c] == s.deadlines[c])
            && e.retryAfter == s.retryAfter && e.retryCounts == s.retryCounts
            && e.cancelled == s.cancelled && e.reasons == s.reasons
  {
    assert [] + At(s.queues, c) == At(s.queues, c);
  }

  /** A channel with queued events, idle, and not held back by a retry. */
  ghost predicate Servable(e: Queue, d: Channel, now: Time) {
    At(e.queues, d) != [] && d !in e.inFlight && (d in e.retryAfter ==> e.retryAfter[d] <= now)
  }

  /**
   Which channel a flush serves: one whose head is the oldest among all servable queues; only without any, one with
   cancelled events that is idle; and none only when there is neither.
   */
  lemma FlushServes(s: Queue, pick: Option<Channel>, now: Time)
    requires Allowed(s, FlushNext(pick), now)
    ensures var e := Expire(s, now);
            && ((exists d :: Servable(e, d, now)) ==>
                  && pick.Some? && Servable(e, pick.value, now)
                  && forall d :: Servable(e, d, now) ==>
                      e.queues[pick.value][0].receivedAt <= e.queues[d][0].receivedAt)
            && ((forall d :: !Servable(e, d, now)) ==>
                  && (pick.Some? ==> pick.value in e.cancelled && pick.value !in e.inFlight)
                  && (pick.None? ==> forall d :: d in e.cancelled ==> d in e.inFlight))
            && (Out(s, FlushNext(pick), now) == Handed(None) <==> pick.None?)
  {
    var e := Expire(s, now);
    assert forall d :: Servable(e, d, now) <==> d in Candidates(e, now);
    assert forall d :: d in CancelledReady(e) <==> d in e.cancelled && d !in e.inFlight;
  }

  /** And it may serve any such channel: ties, and the choice among cancelled ones, are left to the order of a table. */
  lemma FlushMayServe(s: Queue, c: Channel, now: Time)
    requires var e := Expire(s, now);
             || (Servable(e, c, now) && forall d :: Servable(e, d, now) ==>
                                          e.queues[c][0].receivedAt <= e.queues[d][0].receivedAt)
             || ((forall d :: !Servable(e, d, now)) && c in e.cancelled && c !in e.inFlight)
    ensures Allowed(s, FlushNext(Some(c)), now)
  {
    var e := Expire(s, now);
    assert forall d :: Servable(e, d, now) <==> d in Candidates(e, now);
    assert forall d :: d in CancelledReady(e) <==> d in e.cancelled && d !in e.inFlight;
  }

  /**
   How much a flush takes from a servable channel: the whole queue, or its first 50 events, permuted into creation
   order; the rest stays. What had been cancelled is merged in whole.
   */
  lemma FlushTakesPrefix(s: Queue, c: Channel, now: Time, b: Batch)
    requires Inv(s) && Allowed(s, FlushNext(Some(c)), now) && Servable(Expire(s, now), c, now)
    requires BatchOf(s, Step(FlushNext(Some(c)), now)) == Some(b)
    ensures var q, t := At(Expire(s, now).queues, c), Next(s, FlushNext(Some(c)), now);
            var n := if |q| < 50 then |q| else 50;
            && |b.events| == n && multiset(b.events) == multiset(q[..n]) && Sorted(b.events)
            && At(t.queues, c) == q[n..] && (c in t.queues <==> n < |q|) && Find(t.batchSizes, c) == Some(n)
            && b.channel == c && b.cancelledEvents == At(s.cancelled, c)
            && b.reason == (if c in s.cancelled then Find(s.reasons, c) else None)
  {
    var e := Expire(s, now);
    ExpireKeepsInv(s, now);
    assert c in Candidates(e, now);
    PrefixTaken(e, c, now);
  }

  lemma PrefixTaken(e: Queue, c: Channel, now: Time)
    requires Inv(e) && At(e.queues, c) != []
    ensures var q, t, b := At(e.queues, c), TakeQueued(e, c, now), QueuedBatch(e, c);
            var n := if |q| < 50 then |q| else 50;
            && |b.events| == n && multiset(b.events) == multiset(q[..n]) && Sorted(b.events)
            && At(t.queues, c) == q[n..] && (c in t.queues <==> n < |q|) && Find(t.batchSizes, c) == Some(n)
            && b.reason == (if c in e.cancelled then Find(e.reasons, c) else None)
  {
    var q := At(e.queues, c);
    SortIsSortedAndStable(q[..Drained(q)], 0);
  }

  /** The amounts alone, in any state. */
  lemma ServedAmount(s: Queue, c: Channel, now: Time, b: Batch)
    requires Allowed(s, FlushNext(Some(c)), now) && Servable(Expire(s, now), c, now)
    requires BatchOf(s, Step(FlushNext(Some(c)), now)) == Some(b)
    ensures Served(At(Expire(s, now).queues, c), b.events, At(Next(s, FlushNext(Some(c)), now).queues, c))
  {
    var e := Expire(s, now);
    assert c in Candidates(e, now);
  }

  lemma NoneServable(e: Queue, now: Time)
    ensures Candidates(e, now) == {} <==> forall c :: !Servable(e, c, now)
  {
    assert forall d :: Servable(e, d, now) <==> d in Candidates(e, now);
  }

  /** The whole of a queue, or its first 50 events, is handed out, and the rest is left. */
  ghost predicate Served(q: seq<Event>, events: seq<Event>, left: seq<Event>) {
    var n := if |q| < 50 then |q| else 50;
    |events| == n && multiset(events) == multiset(q[..n]) && left == q[n..]
  }

  /** Without a servable channel a flush hands out all that was cancelled on the one it serves, and no queue changes. */
  lemma FlushTakesCancelled(s: Queue, c: Channel, now: Time)
    requires Inv(s) && Allowed(s, FlushNext(Some(c)), now) && forall d :: !Servable(Expire(s, now), d, now)
    ensures var t := Next(s, FlushNext(Some(c)), now);
            && c in s.cancelled && t.queues == Expire(s, now).queues
            && Find(t.batchSizes, c) == Some(|At(s.cancelled, c)|)
            && BatchOf(s, Step(FlushNext(Some(c)), now)) == Some(Batch(c, At(s.cancelled, c), [], Find(s.reasons, c)))
  {
    var e := Expire(s, now);
    forall d ensures d !in Candidates(e, now) {
      assert !Servable(e, d, now);
    }
    assert Candidates(e, now) == {};
  }

  lemma TakingClaims(e: Queue, c: Channel, now: Time)
    ensures var t := TakeInFlight(e, c, Drained(At(e.queues, c)), now);
            && TakeQueued(e, c, now) == t.(queues := TakeQueued(e, c, now).queues)
            && TakeCancelled(e, c, now) == t.(batchSizes := TakeCancelled(e, c, now).batchSizes)
  {
  }

  /** Either way the channel is in flight from then on, for the whole span, and has nothing cancelled left. */
  lemma FlushClaims(s: Queue, c: Channel, now: Time)
    requires Allowed(s, FlushNext(Some(c)), now)
    ensures var e, t := Expire(s, now), Next(s, FlushNext(Some(c)), now);
            && t.inFlight == e.inFlight + {c} && t.deadlines == e.deadlines[c := now + e.span]
            && t.cancelled == e.cancelled - {c} && t.reasons == e.reasons - {c} && t.withheld == e.withheld
            && t.retryAfter == e.retryAfter && t.retryCounts == e.retryCounts
  {
    var e := Expire(s, now);
    TakingClaims(e, c, now);
    assert Next(s, FlushNext(Some(c)), now) == FlushedState(e, Some(c), now);
  }

  /** Completing frees the slot; the retry history is kept exactly while a backoff is still running. */
  lemma CompletionMeans(s: Queue, c: Channel, now: Time)
    ensures var t, running := Next(s, MarkComplete(c), now), c in s.retryAfter && s.retryAfter[c] > now;
            && t.inFlight == s.inFlight - {c} && t.deadlines == s.deadlines - {c} && t.batchSizes == s.batchSizes - {c}
            && t.retryAfter == (if running then s.retryAfter else s.retryAfter - {c})
            && t.retryCounts == (if running then s.retryCounts else s.retryCounts - {c})
            && t.queues == s.queues && t.withheld == s.withheld && t.cancelled == s.cancelled && t.reasons == s.reasons
  {
    assert s.retryAfter - {} == s.retryAfter && s.retryCounts - {} == s.retryCounts;
  }

  /** Seconds of backoff before failure `n + 1` is tried again. */
  function Waits(n: nat): real {
    if n == 0 then 5.0 else if n == 1 then 10.0 else if n == 2 then 20.0 else if n == 3 then 40.0
    else if n == 4 then 80.0 else if n == 5 then 160.0 else 300.0
  }

  lemma WaitsAreBackoffs(n: nat, jitter: real)
    ensures RetryDelay(n + 1, jitter) == Waits(n) * jitter
  {
    BackoffTable();
    assert BackoffSecs(n + 1) as real == Waits(n);
  }

  lemma RetriedFields(s: Queue, b: Batch, jitter: real, now: Time, n: nat)
    requires n == Attempts(s, b.channel) && n < 10
    ensures Out(s, Requeue(b, jitter), now) == DeadLetter(None)
    ensures Next(s, Requeue(b, jitter), now)
         == s.(queues := FrontLoaded(s, b).queues,
               retryAfter := s.retryAfter[b.channel := now + RetryDelay(n + 1, jitter)],
               retryCounts := s.retryCounts[b.channel := n + 1])
  {
  }

  /** A failed batch goes back in front, cut at 500, and waits the longer the more often it failed. */
  lemma FailureMeans(s: Queue, b: Batch, jitter: real, now: Time)
    requires b.channel in s.retryCounts ==> s.retryCounts[b.channel] < 10
    ensures Out(s, Requeue(b, jitter), now) == DeadLetter(None)
    ensures var c, t, q := b.channel, Next(s, Requeue(b, jitter), now), b.events + At(s.queues, b.channel);
            var n := if c in s.retryCounts then s.retryCounts[c] else 0;
            && t == s.(queues := t.queues, retryAfter := t.retryAfter, retryCounts := t.retryCounts)
            && t.queues == s.queues[c := if |q| > 500 then q[..500] else q]
            && t.retryAfter == s.retryAfter[c := now + Waits(n) * jitter]
            && t.retryCounts == s.retryCounts[c := n + 1]
  {
    var n := Attempts(s, b.channel);
    var wait := RetryDelay(n + 1, jitter);
    WaitsAreBackoffs(n, jitter);
    RetriedFields(s, b, jitter, now, n);
    assert s.retryAfter[b.channel := now + wait] == s.retryAfter[b.channel := now + Waits(n) * jitter];
  }

  /** After ten failures the next is given up, and the channel starts afresh. */
  lemma LastFailureMeans(s: Queue, b: Batch, jitter: real, now: Time)
    requires b.channel in s.retryCounts && s.retryCounts[b.channel] >= 10
    ensures Out(s, Requeue(b, jitter), now) == DeadLetter(Some(b))
    ensures Next(s, Requeue(b, jitter), now)
         == s.(retryAfter := s.retryAfter - {b.channel}, retryCounts := s.retryCounts - {b.channel})
  {
  }

  /** The other two ways of returning a batch. */
  lemma ReturnMeans(s: Queue, b: Batch, reason: CancelReason, now: Time)
    ensures var c, t, q := b.channel, Next(s, RequeuePreserve(b), now), b.events + At(s.queues, b.channel);
            t == s.(queues := s.queues[c := if |q| > 500 then q[..500] else q])
    ensures var c, t := b.channel, Next(s, RequeueAsCancelled(b, reason), now);
            t == s.(cancelled := s.cancelled[c := At(s.cancelled, c) + b.cancelledEvents + b.events],
                    reasons := s.reasons[c := reason])
  {
  }

  /** A steer moves the deadline of a channel in flight to one turn and 100 seconds from now, and never back. */
  lemma ExtensionMeans(s: Queue, c: Channel, maxTurn: nat, now: Time)
    ensures var t, later := Next(s, ExtendDeadline(c, maxTurn), now), now + maxTurn as real + 100.0;
            && t == s.(deadlines := t.deadlines) && t.deadlines.Keys == s.deadlines.Keys
            && (c in s.deadlines ==> t.deadlines[c] == if s.deadlines[c] < later then later else s.deadlines[c])
            && (forall d :: d in s.deadlines && d != c ==> t.deadlines[d] == s.deadlines[d])
  {
  }

  /** Leaving a channel forgets all that waits there, not the turn in flight; queued events are reported in order. */
  lemma DrainMeans(s: Queue, c: Channel, now: Time)
    ensures var t, out := Next(s, DrainChannel(c), now), Out(s, DrainChannel(c), now);
            && out.Dropped? && |out.ids| == |At(s.queues, c)|
            && (forall i :: 0 <= i < |out.ids| ==> out.ids[i] == At(s.queues, c)[i].id)
            && c !in t.queues && c !in t.withheld && c !in t.cancelled && c !in t.reasons
            && c !in t.retryAfter && c !in t.retryCounts
            && t.inFlight == s.inFlight && t.deadlines == s.deadlines && t.batchSizes == s.batchSizes
  {
  }

  /** Withholding takes out the first event with the id, and says whether there was one. */
  lemma WithholdingMeans(s: Queue, c: Channel, id: string, now: Time, i: nat)
    requires i < |At(s.queues, c)| && At(s.queues, c)[i].id == id
    requires forall j :: 0 <= j < i ==> At(s.queues, c)[j].id != id
    ensures var t, q := Next(s, MarkSteerPending(c, id), now), At(s.queues, c);
            && Out(s, MarkSteerPending(c, id), now) == Answer(true)
            && At(t.queues, c) == q[..i] + q[i + 1..] && At(t.withheld, c) == At(s.withheld, c) + [q[i]]
  {
  }

  lemma WithholdingMisses(s: Queue, c: Channel, id: string, now: Time)
    requires forall j :: 0 <= j < |At(s.queues, c)| ==> At(s.queues, c)[j].id != id
    ensures Out(s, MarkSteerPending(c, id), now) == Answer(false) && Next(s, MarkSteerPending(c, id), now) == s
  {
  }

  /** Compaction keeps just the running backoffs, and the counters of channels that are not idle. */
  lemma CompactionMeans(s: Queue, now: Time, c: Channel)
    ensures var t := Next(s, Compact, now);
            && t == s.(retryAfter := t.retryAfter, retryCounts := t.retryCounts)
            && (c in t.retryAfter <==> c in s.retryAfter && s.retryAfter[c] > now)
            && (c in t.retryCounts <==>
                  c in s.retryCounts && (c in t.retryAfter || At(s.queues, c) != [] || c in s.inFlight))
            && (c in t.retryAfter ==> t.retryAfter[c] == s.retryAfter[c])
            && (c in t.retryCounts ==> t.retryCounts[c] == s.retryCounts[c])
  {
  }

  /** There is undispatched work exactly when an event is held anywhere for a channel that is not in flight. */
  lemma UndispatchedMeans(s: Queue)
    requires Inv(s)
    ensures HasUndispatchedWork(s) <==> exists c, e :: c !in s.inFlight && Held(s, c, e) > 0
  {
    if HasUndispatchedWork(s) {
      var c :| c !in s.inFlight && (At(s.queues, c) != [] || At(s.cancelled, c) != [] || At(s.withheld, c) != []);
      var held := At(s.queues, c) + At(s.cancelled, c) + At(s.withheld, c);
      HeldSomewhere(s, c, held[0]);
    } else {
      forall c, e | c !in s.inFlight ensures Held(s, c, e) == 0 {
        assert At(s.queues, c) == [] && At(s.cancelled, c) == [] && At(s.withheld, c) == [];
      }
    }
  }

  lemma HeldSomewhere(s: Queue, c: Channel, e: Event)
    requires e in At(s.queues, c) + At(s.cancelled, c) + At(s.withheld, c)
    ensures Held(s, c, e) > 0
  {
    assert e in multiset(At(s.queues, c)) || e in multiset(At(s.cancelled, c)) || e in multiset(At(s.withheld, c));
  }

  /** There is work to flush exactly when some channel is servable, or has cancelled events and is idle. */
  lemma FlushableMeans(s: Queue, now: Time)
    ensures var e := Expire(s, now);
            && Out(s, HasFlushableWork, now) == Answer((exists d :: Servable(e, d, now))
                                                       || (exists d :: d in e.cancelled && d !in e.inFlight))
            && Next(s, HasFlushableWork, now) == e
  {
    var e := Expire(s, now);
    assert forall d :: Servable(e, d, now) <==> d in Candidates(e, now);
    assert forall d :: d in CancelledReady(e) <==> d in e.cancelled && d !in e.inFlight;
  }

  /** The mode and the span are fixed for the life of a queue; they start as given and as 7300 seconds. */
  lemma SettingsStay(s: Queue, op: Op, now: Time)
    ensures Next(s, op, now).mode == s.mode && Next(s, op, now).span == s.span
    ensures Empty(s.mode).mode == s.mode && Empty(s.mode).span == 7300.0
  {
    match op
    case Push(_, _) =>
    case FlushNext(_) =>
    case HasFlushableWork =>
    case MarkComplete(_) =>
    case Requeue(_, _) =>
    case RequeuePreserve(_) =>
    case RequeueAsCancelled(_, _) =>
    case ExtendDeadline(_, _) =>
    case DrainChannel(_) =>
    case MarkSteerPending(_, _) =>
    case ReleaseSteer(_, _) =>
    case RemoveEvent(_, _) =>
    case Compact =>
  }
}
