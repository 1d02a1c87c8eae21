/**
 The scheduler's queue with the tables it updates in place. Every method is proved to take
 the model's transition: the new tables and the answer are those of `QueueModel`.
 */
module EventQueues {
  import opened Events
  import opened QueueModel
  import opened QueueMeaning

  /** Puts `events` back in front of `q`, last one first, so that their order is kept. */
  method PushFrontAll(q: seq<Event>, events: seq<Event>) returns (r: seq<Event>)
    ensures r == events + q
  {
    r := q;
    var i := |events|;
    while i > 0
      invariant 0 <= i <= |events|
      invariant r == events[i..] + q
    {
      i := i - 1;
      r := [events[i]] + r;
    }
  }

  /** Drops events from the back until the queue is within its cap. */
  method TrimBack(q: seq<Event>) returns (r: seq<Event>)
    ensures r == Cap(q)
  {
    r := q;
    while |r| > MAX_PENDING_PER_CHANNEL
      invariant |r| <= |q| && r == q[..|r|]
      invariant |q| > MAX_PENDING_PER_CHANNEL ==> |r| >= MAX_PENDING_PER_CHANNEL
      invariant |q| <= MAX_PENDING_PER_CHANNEL ==> r == q
      decreases |r|
    {
      r := r[..|r| - 1];
    }
  }

  /** Position of the first event with this id, scanning from the front. */
  method Position(q: seq<Event>, id: string) returns (pos: Option<nat>)
    ensures pos == if IndexOf(q, id) < |q| then Some(IndexOf(q, id)) else None
  {
    var i := 0;
    while i < |q|
      invariant 0 <= i <= |q|
      invariant forall j :: 0 <= j < i ==> q[j].id != id
    {
      if q[i].id == id {
        return Some(i);
      }
      i := i + 1;
    }
    return None;
  }

  class EventQueue {
    var queues: map<Channel, seq<Event>>
    var inFlight: set<Channel>
    var deadlines: map<Channel, Time>
    var batchSizes: map<Channel, nat>
    var retryAfter: map<Channel, Time>
    var retryCounts: map<Channel, nat>
    var mode: DedupMode
    var cancelled: map<Channel, seq<Event>>
    var reasons: map<Channel, CancelReason>
    var withheld: map<Channel, seq<Event>>
    var span: Time

    ghost function View(): Queue
      reads this
    {
      Queue(queues, inFlight, deadlines, batchSizes, retryAfter, retryCounts, mode,
            cancelled, reasons, withheld, span)
    }

    constructor (mode: DedupMode)
      ensures View() == Empty(mode)
    {
      this.mode := mode;
      queues, inFlight, deadlines, batchSizes := map[], {}, map[], map[];
      retryAfter, retryCounts := map[], map[];
      cancelled, reasons, withheld := map[], map[], map[];
      span := DEFAULT_IN_FLIGHT_DEADLINE_SECS;
    }

    method WithInFlightDeadline(maxTurn: nat)
      modifies this
      ensures View() == old(View()).(span := maxTurn as real + IN_FLIGHT_DEADLINE_BUFFER_SECS)
    {
      span := maxTurn as real + IN_FLIGHT_DEADLINE_BUFFER_SECS;
    }

    method ExtendInFlightDeadline(c: Channel, maxTurn: nat, now: Time)
      modifies this
      ensures View() == Next(old(View()), ExtendDeadline(c, maxTurn), now)
    {
      if c in deadlines {
        var later := now + (maxTurn as real + IN_FLIGHT_DEADLINE_BUFFER_SECS);
        if later > deadlines[c] {
          deadlines := deadlines[c := later];
        }
      }
    }

    method Push(c: Channel, e: Event, now: Time) returns (accepted: bool)
      modifies this
      ensures View() == Next(old(View()), Op.Push(c, e), now)
      ensures Answer(accepted) == Out(old(View()), Op.Push(c, e), now)
    {
      if mode.Drop? && c in inFlight {
        return false;
      }
      var q := At(queues, c);
      if |q| >= MAX_PENDING_PER_CHANNEL {
        q := q[1..];
      }
      queues := queues[c := q + [e]];
      return true;
    }

    /** Bulk release of the withheld events of an expired channel. */
    method RecoverWithheld(c: Channel)
      modifies this`queues, this`withheld
      ensures c in old(withheld) ==>
                queues == old(queues)[c := Cap(old(withheld)[c] + At(old(queues), c))]
                    && withheld == old(withheld) - {c}
      ensures c !in old(withheld) ==> queues == old(queues) && withheld == old(withheld)
    {
      if c in withheld {
        var q := PushFrontAll(At(queues, c), withheld[c]);
        withheld := withheld - {c};
        q := TrimBack(q);
        queues := queues[c := q];
      }
    }

    method ExpireChannel(c: Channel)
      modifies this
      ensures View() == ReleaseExpired(old(View()), c)
    {
      batchSizes := batchSizes - {c};
      inFlight := inFlight - {c};
      deadlines := deadlines - {c};
      RecoverWithheld(c);
      assert c !in old(withheld) ==> old(withheld) - {c} == old(withheld);
    }

    /** Expires every in-flight entry past its deadline, in any order. */
    method ExpireInFlight(now: Time)
      modifies this
      ensures View() == Expire(old(View()), now)
    {
      ghost var before := View();
      var todo := set c | c in deadlines && deadlines[c] <= now;
      ghost var done: set<Channel> := {};
      ExpireNone(before);
      while todo != {}
        invariant done + todo == Expired(before, now) && done !! todo
        invariant View() == ExpireSet(before, done)
        decreases todo
      {
        var c :| c in todo;
        ExpireChannel(c);
        ExpireOneMore(before, done, c);
        todo := todo - {c};
        done := done + {c};
      }
      assert done == Expired(before, now);
    }

    /** A ready channel whose head is as old as any; ties go to whichever is met first. */
    method OldestCandidate(now: Time) returns (pick: Option<Channel>)
      ensures Candidates(View(), now) == {} ==> pick.None?
      ensures Candidates(View(), now) != {} ==> pick.Some? && Oldest(View(), pick.value, now)
    {
      pick := None;
      var todo := set c | c in queues && queues[c] != [] && c !in inFlight
          && (c !in retryAfter || retryAfter[c] <= now);
      assert todo == Candidates(View(), now);
      ghost var done: set<Channel> := {};
      while todo != {}
        invariant done + todo == Candidates(View(), now)
        invariant pick.None? <==> done == {}
        invariant pick.Some? ==> pick.value in done
        invariant pick.Some? ==>
            forall d :: d in done ==> queues[pick.value][0].receivedAt <= queues[d][0].receivedAt
        decreases todo
      {
        var c :| c in todo;
        if pick.None? || queues[c][0].receivedAt < queues[pick.value][0].receivedAt {
          pick := Some(c);
        }
        todo := todo - {c};
        done := done + {c};
      }
    }

    method FlushNext(now: Time) returns (r: Option<Batch>)
      modifies this
      ensures var pick := if r.Some? then Some(r.value.channel) else None;
              && Allowed(old(View()), Op.FlushNext(pick), now)
              && View() == Next(old(View()), Op.FlushNext(pick), now)
              && Handed(r) == Out(old(View()), Op.FlushNext(pick), now)
      ensures r.Some? && Servable(Expire(old(View()), now), r.value.channel, now) ==>
              Served(At(Expire(old(View()), now).queues, r.value.channel), r.value.events, At(queues, r.value.channel))
    {
      ExpireInFlight(now);
      NoneServable(View(), now);
      var pick := OldestCandidate(now);
      if pick.None? {
        r := FlushCancelled(now);
      } else {
        r := TakeQueuedBatch(pick.value, now);
        ServedAmount(old(View()), pick.value, now, r.value);
      }
    }

    /** Without a ready queue: any idle channel with cancelled events. */
    method FlushCancelled(now: Time) returns (r: Option<Batch>)
      requires Candidates(View(), now) == {}
      modifies this
      ensures var pick := if r.Some? then Some(r.value.channel) else None;
              && PickFits(old(View()), pick, now)
              && View() == FlushedState(old(View()), pick, now) && r == FlushedBatch(old(View()), pick, now)
    {
      var waiting := set c | c in cancelled && c !in inFlight;
      assert waiting == CancelledReady(View());
      if waiting == {} {
        return None;
      }
      var c :| c in waiting;
      r := TakeCancelledBatch(c, now);
    }

    method TakeCancelledBatch(c: Channel, now: Time) returns (r: Option<Batch>)
      requires c in cancelled
      modifies this
      ensures View() == TakeCancelled(old(View()), c, now)
      ensures r == Some(CancelledBatch(old(View()), c))
    {
      r := Some(Batch(c, cancelled[c], [], Find(reasons, c)));
      Claim(c, |cancelled[c]|, now);
    }

    /** Marks the channel in flight and clears its cancelled batch. */
    method Claim(c: Channel, size: nat, now: Time)
      modifies this
      ensures View() == TakeInFlight(old(View()), c, size, now)
    {
      inFlight := inFlight + {c};
      deadlines := deadlines[c := now + span];
      batchSizes := batchSizes[c := size];
      cancelled := cancelled - {c};
      reasons := reasons - {c};
    }

    /** Takes up to a batch of events off the front of a queue, dropping the queue when emptied. */
    method DrainQueue(c: Channel) returns (events: seq<Event>)
      requires c in queues
      modifies this`queues
      ensures events == SortByCreated(old(queues)[c][..Drained(old(queues)[c])])
      ensures |events| == Drained(old(queues)[c])
      ensures queues == Put(old(queues), c, old(queues)[c][Drained(old(queues)[c])..])
    {
      var q := queues[c];
      var count := if MAX_BATCH_EVENTS <= |q| then MAX_BATCH_EVENTS else |q|;
      events := SortByCreated(q[..count]);
      queues := queues[c := q[count..]];
      if queues[c] == [] {
        queues := queues - {c};
      }
      assert queues == Put(old(queues), c, q[Drained(q)..]);
    }

    /** Drains up to a batch of events from a channel and merges its cancelled ones. */
    method TakeQueuedBatch(c: Channel, now: Time) returns (r: Option<Batch>)
      requires c in queues
      modifies this
      ensures View() == TakeQueued(old(View()), c, now)
      ensures r == Some(QueuedBatch(old(View()), c))
    {
      var events := DrainQueue(c);
      var merged := At(cancelled, c);
      var reason := if merged == [] then None else Find(reasons, c);
      r := Some(Batch(c, events, merged, reason));
      Claim(c, |events|, now);
    }

    method MarkComplete(c: Channel, now: Time)
      modifies this
      ensures View() == Next(old(View()), Op.MarkComplete(c), now)
    {
      inFlight := inFlight - {c};
      deadlines := deadlines - {c};
      batchSizes := batchSizes - {c};
      if c in retryAfter && retryAfter[c] > now {
      } else if c in retryAfter {
        retryAfter := retryAfter - {c};
        retryCounts := retryCounts - {c};
      } else {
        retryCounts := retryCounts - {c};
      }
      assert c !in old(retryAfter) ==> old(retryAfter) - {c} == old(retryAfter);
    }

    /** Returns the batch when its retries are used up, `None` when it was requeued. */
    method Requeue(b: Batch, jitter: real, now: Time) returns (dead: Option<Batch>)
      modifies this
      ensures View() == Next(old(View()), Op.Requeue(b, jitter), now)
      ensures DeadLetter(dead) == Out(old(View()), Op.Requeue(b, jitter), now)
    {
      var c := b.channel;
      var attempt := (if c in retryCounts then retryCounts[c] else 0) + 1;
      retryCounts := retryCounts[c := attempt];
      if attempt > MAX_RETRIES {
        retryCounts := retryCounts - {c};
        retryAfter := retryAfter - {c};
        assert retryCounts == old(retryCounts) - {c};
        return Some(b);
      }
      var delay := RetryDelay(attempt, jitter);
      var q := PushFrontAll(At(queues, c), b.events);
      q := TrimBack(q);
      queues := queues[c := q];
      retryAfter := retryAfter[c := now + delay];
      assert queues == FrontLoaded(old(View()), b).queues;
      return None;
    }

    method RequeuePreserveTimestamps(b: Batch, now: Time)
      modifies this
      ensures View() == Next(old(View()), RequeuePreserve(b), now)
    {
      var q := PushFrontAll(At(queues, b.channel), b.events);
      q := TrimBack(q);
      queues := queues[b.channel := q];
    }

    method RequeueAsCancelled(b: Batch, reason: CancelReason, now: Time)
      modifies this
      ensures View() == Next(old(View()), Op.RequeueAsCancelled(b, reason), now)
    {
      cancelled := cancelled[b.channel := At(cancelled, b.channel) + b.cancelledEvents];
      cancelled := cancelled[b.channel := cancelled[b.channel] + b.events];
      reasons := reasons[b.channel := reason];
    }

    method HasFlushableWork(now: Time) returns (yes: bool)
      modifies this
      ensures View() == Next(old(View()), Op.HasFlushableWork, now)
      ensures Answer(yes) == Out(old(View()), Op.HasFlushableWork, now)
    {
      ExpireInFlight(now);
      var ready := set c | c in queues && queues[c] != [] && c !in inFlight
          && (c !in retryAfter || retryAfter[c] <= now);
      var waiting := set c | c in cancelled && c !in inFlight;
      assert ready == Candidates(View(), now) && waiting == CancelledReady(View());
      return ready != {} || waiting != {};
    }

    method HasUndispatchedWork() returns (yes: bool)
      ensures yes <==> QueueModel.HasUndispatchedWork(View())
    {
      var queued := exists c :: c in queues && queues[c] != [] && c !in inFlight;
      var waiting := exists c :: c in cancelled && c !in inFlight;
      var held := exists c :: c in withheld && withheld[c] != [] && c !in inFlight;
      return queued || waiting || held;
    }

    method DrainChannel(c: Channel, now: Time) returns (ids: seq<string>)
      modifies this
      ensures View() == Next(old(View()), Op.DrainChannel(c), now)
      ensures Dropped(ids) == Out(old(View()), Op.DrainChannel(c), now)
    {
      ids := Ids(At(queues, c));
      queues := queues - {c};
      retryAfter := retryAfter - {c};
      retryCounts := retryCounts - {c};
      cancelled := cancelled - {c};
      reasons := reasons - {c};
      withheld := withheld - {c};
    }

    method MarkNativeSteerPending(c: Channel, id: string, now: Time) returns (found: bool)
      modifies this
      ensures View() == Next(old(View()), MarkSteerPending(c, id), now)
      ensures Answer(found) == Out(old(View()), MarkSteerPending(c, id), now)
    {
      if c !in queues {
        return false;
      }
      var pos := Position(queues[c], id);
      if pos.None? {
        return false;
      }
      var i, e := pos.value, queues[c][pos.value];
      var rest := queues[c][..i] + queues[c][i + 1..];
      queues := Put(queues, c, rest);
      withheld := withheld[c := At(withheld, c) + [e]];
      return true;
    }

    method ReleaseNativeSteer(c: Channel, id: string, now: Time)
      modifies this
      ensures View() == Next(old(View()), ReleaseSteer(c, id), now)
    {
      if c !in withheld {
        return;
      }
      var pos := Position(withheld[c], id);
      if pos.None? {
        return;
      }
      var i, e := pos.value, withheld[c][pos.value];
      var rest := withheld[c][..i] + withheld[c][i + 1..];
      withheld := Put(withheld, c, rest);
      var q := TrimBack([e] + At(queues, c));
      queues := queues[c := q];
    }

    method RemoveEvent(c: Channel, id: string, now: Time)
      modifies this
      ensures View() == Next(old(View()), Op.RemoveEvent(c, id), now)
    {
      if c in withheld {
        var rest := Without(withheld[c], id);
        withheld := if rest == [] then withheld - {c} else withheld[c := rest];
      }
      if c in queues {
        var rest := Without(queues[c], id);
        queues := if rest == [] then queues - {c} else queues[c := rest];
      }
    }

    method CompactExpiredState(now: Time)
      modifies this
      ensures View() == Next(old(View()), Compact, now)
    {
      retryAfter := map c | c in retryAfter && retryAfter[c] > now :: retryAfter[c];
      retryCounts := map c | c in retryCounts && (c in retryAfter || At(queues, c) != [] || c in inFlight) ::
        retryCounts[c];
    }
  }

  lemma ExpireNone(s: Queue)
    ensures ExpireSet(s, {}) == s
  {
    assert ExpireSet(s, {}).queues == s.queues;
  }

  /** One channel's share of the expiry loop. */
  ghost function ReleaseExpired(s: Queue, c: Channel): Queue {
    s.(queues := if c in s.withheld then s.queues[c := Cap(s.withheld[c] + At(s.queues, c))] else s.queues,
       withheld := s.withheld - {c}, inFlight := s.inFlight - {c},
       deadlines := s.deadlines - {c}, batchSizes := s.batchSizes - {c})
  }

  lemma RecoverOneMore(q: map<Channel, seq<Event>>, w: map<Channel, seq<Event>>, done: set<Channel>, c: Channel)
    requires c !in done
    ensures var q' := Recover(q, w, done);
            Recover(q, w, done + {c}) == if c in w then q'[c := Cap(w[c] + At(q', c))] else q'
  {
    var q' := Recover(q, w, done);
    var r := if c in w then q'[c := Cap(w[c] + At(q', c))] else q';
    assert At(q', c) == At(q, c);
    assert Recover(q, w, done + {c}).Keys == r.Keys;
  }

  /** Expiring channels one at a time reaches the state that expires them together. */
  lemma ExpireOneMore(s: Queue, done: set<Channel>, c: Channel)
    requires c !in done
    ensures ReleaseExpired(ExpireSet(s, done), c) == ExpireSet(s, done + {c})
  {
    RecoverOneMore(s.queues, s.withheld, done, c);
    var t := ReleaseExpired(ExpireSet(s, done), c);
    var w := ExpireSet(s, done + {c});
    assert t.inFlight == w.inFlight;
    assert t.deadlines == w.deadlines;
    assert t.batchSizes == w.batchSizes;
    assert t.withheld == w.withheld;
  }
}
