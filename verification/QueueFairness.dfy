/**
 No starvation: while a channel waits to be flushed, the number of batches given to other
 channels is bounded by the events that were ahead of it.
 */
module QueueFairness {
  import opened Events
  import opened QueueModel
  import opened QueueLocality
  import opened QueueInvariant

  // ---- counting events ----

  /** Received no later than `t`, when a `t` is given. */
  predicate Counts(e: Event, t: Option<Time>) {
    t.Some? ==> e.receivedAt <= t.value
  }

  /** Events received no later than `t`, or all of them. */
  function Ahead(s: seq<Event>, t: Option<Time>): nat {
    if s == [] then 0 else (if Counts(s[0], t) then 1 else 0) + Ahead(s[1..], t)
  }

  lemma {:induction false} AheadCat(a: seq<Event>, b: seq<Event>, t: Option<Time>)
    ensures Ahead(a + b, t) == Ahead(a, t) + Ahead(b, t)
  {
    if a == [] {
      assert a + b == b;
    } else {
      AheadCat(a[1..], b, t);
      assert (a + b)[1..] == a[1..] + b;
    }
  }

  lemma AheadCut(s: seq<Event>, i: nat, t: Option<Time>)
    requires i <= |s|
    ensures Ahead(s, t) == Ahead(s[..i], t) + Ahead(s[i..], t)
  {
    AheadCat(s[..i], s[i..], t);
    assert s == s[..i] + s[i..];
  }

  lemma AheadCap(a: seq<Event>, b: seq<Event>, t: Option<Time>)
    ensures Ahead(Cap(a + b), t) <= Ahead(a, t) + Ahead(b, t)
  {
    AheadCat(a, b, t);
    if |a + b| > MAX_PENDING_PER_CHANNEL { AheadCut(a + b, MAX_PENDING_PER_CHANNEL, t); }
  }

  lemma AheadRemove(s: seq<Event>, i: nat, t: Option<Time>)
    requires i < |s|
    ensures Ahead(s[..i] + s[i + 1..], t) + Ahead([s[i]], t) == Ahead(s, t)
  {
    AheadCut(s, i, t);
    AheadCut(s[i..], 1, t);
    AheadCat(s[..i], s[i + 1..], t);
    assert s[i..][..1] == [s[i]] && s[i..][1..] == s[i + 1..];
  }

  lemma {:induction false} AheadWithout(s: seq<Event>, id: string, t: Option<Time>)
    ensures Ahead(Without(s, id), t) <= Ahead(s, t)
  {
    if s != [] {
      AheadWithout(s[1..], id, t);
      if s[0].id != id { assert Without(s, id)[1..] == Without(s[1..], id); }
    }
  }

  // ---- sums over channels ----

  ghost function Sum(m: map<Channel, nat>): nat
    decreases m.Keys
  {
    if m.Keys == {} then 0 else var d :| d in m.Keys; m[d] + Sum(m - {d})
  }

  lemma {:induction false} SumSplit(m: map<Channel, nat>, d: Channel)
    requires d in m
    ensures Sum(m) == m[d] + Sum(m - {d})
    decreases m.Keys
  {
    var e :| e in m.Keys && Sum(m) == m[e] + Sum(m - {e});
    if e != d {
      SumSplit(m - {e}, d);
      SumSplit(m - {d}, e);
      assert m - {e} - {d} == m - {d} - {e};
    }
  }

  lemma {:induction false} SumMonotone(m: map<Channel, nat>, n: map<Channel, nat>)
    requires m.Keys == n.Keys && forall d :: d in m ==> n[d] <= m[d]
    ensures Sum(n) <= Sum(m)
    decreases m.Keys
  {
    if m.Keys != {} {
      var d :| d in m.Keys;
      SumSplit(m, d);
      SumSplit(n, d);
      SumMonotone(m - {d}, n - {d});
    }
  }

  /** All entries but one do not grow, and that one grows by at most `k`. */
  lemma SumBound(m: map<Channel, nat>, n: map<Channel, nat>, d: Channel, k: int)
    requires m.Keys == n.Keys && d in m && n[d] <= m[d] + k
    requires forall e :: e in m && e != d ==> n[e] <= m[e]
    ensures Sum(n) <= Sum(m) + k
  {
    SumSplit(m, d);
    SumSplit(n, d);
    SumMonotone(m - {d}, n - {d});
  }

  // ---- what is ahead of a waiting channel ----

  ghost function Weight(s: Queue, d: Channel, t: Option<Time>): nat {
    Ahead(At(s.queues, d), t) + Ahead(At(s.withheld, d), t)
  }

  ghost function Weights(s: Queue, all: set<Channel>, c: Channel, t: Option<Time>): map<Channel, nat> {
    map d | d in all && d != c :: Weight(s, d, t)
  }

  /** Queued or withheld events of other channels received no later than `t`. */
  ghost function Before(s: Queue, all: set<Channel>, c: Channel, t: Option<Time>): nat {
    Sum(Weights(s, all, c, t))
  }

  /** `c` can be flushed, and its head was received at `t`. */
  ghost predicate Waits(s: Queue, c: Channel, t: Time, now: Time) {
    Ready(s, c, now) && s.queues[c][0].receivedAt == t
  }

  /** Nothing is done to `c` but receiving more events, below its cap. */
  ghost predicate LeavesAlone(s: Queue, op: Op, c: Channel) {
    About(op, c) ==> op.Push? && |At(s.queues, c)| < MAX_PENDING_PER_CHANNEL
  }

  /** Old events a call brings into other channels' queues. */
  ghost function BringsIn(op: Op, c: Channel, t: Option<Time>): nat {
    match op
    case Push(d, e) => if d != c then Ahead([e], t) else 0
    case Requeue(b, _) => if b.channel != c then Ahead(b.events, t) else 0
    case RequeuePreserve(b) => if b.channel != c then Ahead(b.events, t) else 0
    case _ => 0
  }

  lemma ExpiryAddsNothing(s: Queue, now: Time, d: Channel, t: Option<Time>)
    ensures Weight(Expire(s, now), d, t) <= Weight(s, d, t)
  {
    if d in Expired(s, now) && d in s.withheld {
      AheadCap(s.withheld[d], At(s.queues, d), t);
    }
  }

  /** A batch taken for a channel whose head is old enough removes at least one old event. */
  lemma FlushRemoves(s: Queue, d: Channel, now: Time, t: Option<Time>)
    requires Ready(s, d, now) && Counts(s.queues[d][0], t)
    ensures Weight(TakeQueued(s, d, now), d, t) < Weight(s, d, t)
  {
    var q := s.queues[d];
    AheadCut(q, Drained(q), t);
    assert q[..Drained(q)][0] == q[0];
    assert At(TakeQueued(s, d, now).queues, d) == q[Drained(q)..];
  }

  lemma PushAdds(s: Queue, d: Channel, e: Event, t: Option<Time>)
    ensures Weight(Pushed(s, d, e), d, t) <= Weight(s, d, t) + Ahead([e], t)
  {
    var q := At(s.queues, d);
    if |q| >= MAX_PENDING_PER_CHANNEL { AheadCut(q, 1, t); }
    AheadCat(if |q| >= MAX_PENDING_PER_CHANNEL then q[1..] else q, [e], t);
  }

  lemma FrontLoadAdds(s: Queue, b: Batch, t: Option<Time>)
    ensures Weight(FrontLoaded(s, b), b.channel, t) <= Weight(s, b.channel, t) + Ahead(b.events, t)
  {
    AheadCap(b.events, At(s.queues, b.channel), t);
  }

  lemma RequeueAdds(s: Queue, b: Batch, jitter: real, now: Time, t: Option<Time>)
    ensures Weight(Requeued(s, b, jitter, now), b.channel, t) <= Weight(s, b.channel, t) + Ahead(b.events, t)
  {
    FrontLoadAdds(s, b, t);
  }

  lemma WithholdAddsNothing(s: Queue, d: Channel, id: string, t: Option<Time>)
    ensures Weight(Withhold(s, d, id), d, t) <= Weight(s, d, t)
  {
    var q := At(s.queues, d);
    var i := IndexOf(q, id);
    if i < |q| {
      AheadRemove(q, i, t);
      AheadCat(At(s.withheld, d), [q[i]], t);
    }
  }

  lemma ReleaseAddsNothing(s: Queue, d: Channel, id: string, t: Option<Time>)
    ensures Weight(Release(s, d, id), d, t) <= Weight(s, d, t)
  {
    var w := At(s.withheld, d);
    var i := IndexOf(w, id);
    if i < |w| {
      AheadRemove(w, i, t);
      AheadCap([w[i]], At(s.queues, d), t);
    }
  }

  lemma RemoveAddsNothing(s: Queue, d: Channel, id: string, t: Option<Time>)
    ensures Weight(Removed(s, d, id), d, t) <= Weight(s, d, t)
  {
    AheadWithout(At(s.queues, d), id, t);
    AheadWithout(At(s.withheld, d), id, t);
  }

  lemma SliceWeighsSame(s: Queue, u: Queue, d: Channel, t: Option<Time>)
    requires SliceOf(s, d) == SliceOf(u, d)
    ensures Weight(s, d, t) == Weight(u, d, t)
  {
    assert At(s.queues, d) == At(u.queues, d) && At(s.withheld, d) == At(u.withheld, d);
  }

  /** What a call other than a flush adds to one other channel. */
  lemma CallAdds(s: Queue, op: Op, now: Time, c: Channel, d: Channel, t: Option<Time>)
    requires d != c && !op.FlushNext?
    ensures Weight(Next(s, op, now), d, t) <= Weight(s, d, t) + if About(op, d) then BringsIn(op, c, t) else 0
  {
    if op.HasFlushableWork? {
      ExpiryAddsNothing(s, now, d, t);
    } else if op.Compact? {
    } else if !About(op, d) {
      CallsAreLocal(s, op, now, d);
      SliceWeighsSame(s, Next(s, op, now), d, t);
    } else {
      OwnCallAdds(s, op, now, c, d, t);
    }
  }

  lemma OwnCallAdds(s: Queue, op: Op, now: Time, c: Channel, d: Channel, t: Option<Time>)
    requires d != c && !op.FlushNext? && About(op, d)
    ensures Weight(Next(s, op, now), d, t) <= Weight(s, d, t) + BringsIn(op, c, t)
  {
    match op
    case Push(_, e) => PushAdds(s, d, e, t);
    case Requeue(b, jitter) => RequeueAdds(s, b, jitter, now, t);
    case RequeuePreserve(b) => FrontLoadAdds(s, b, t);
    case RequeueAsCancelled(_, _) =>
    case MarkComplete(_) =>
    case ExtendDeadline(_, _) =>
    case DrainChannel(_) =>
    case MarkSteerPending(_, id) => WithholdAddsNothing(s, d, id, t);
    case ReleaseSteer(_, id) => ReleaseAddsNothing(s, d, id, t);
    case RemoveEvent(_, id) => RemoveAddsNothing(s, d, id, t);
  }

  /** A flush that takes from another channel's queue an event that counts leaves fewer of them. */
  lemma FlushTakes(s: Queue, d: Channel, now: Time, all: set<Channel>, c: Channel, t: Option<Time>)
    requires d != c && d in all && Allowed(s, FlushNext(Some(d)), now)
    requires var e := Expire(s, now);
             FromQueue(e, now) && Counts(e.queues[d][0], t)
    ensures Before(Next(s, FlushNext(Some(d)), now), all, c, t) + 1 <= Before(s, all, c, t)
  {
    var e, u := Expire(s, now), Next(s, FlushNext(Some(d)), now);
    forall x | x in all && x != c ensures Weight(u, x, t) <= Weight(s, x, t) + if x == d then -1 else 0 {
      ExpiryAddsNothing(s, now, x, t);
      if x == d {
        FlushRemoves(e, d, now, t);
      } else {
        FlushIsLocal(e, Some(d), now, x);
        SliceWeighsSame(e, u, x, t);
      }
    }
    SumBound(Weights(s, all, c, t), Weights(u, all, c, t), d, -1);
  }

  /** A flush while `c` waits goes to a channel in `all` and takes something that was ahead of `c`. */
  lemma FlushPasses(s: Queue, pick: Option<Channel>, now: Time, all: set<Channel>, c: Channel, t: Time)
    requires Inv(s) && Waits(s, c, t, now) && Allowed(s, FlushNext(pick), now) && pick != Some(c)
    requires pick.Some? ==> pick.value in all
    ensures pick.Some?
    ensures Before(Next(s, FlushNext(pick), now), all, c, Some(t)) + 1 <= Before(s, all, c, Some(t))
  {
    ExpiryIsLocal(s, now, c);
    assert c in Candidates(Expire(s, now), now);
    FlushTakes(s, pick.value, now, all, c, Some(t));
  }

  ghost predicate Within(op: Op, all: set<Channel>) {
    Target(op).Some? ==> Target(op).value in all
  }

  lemma CallBringsIn(s: Queue, op: Op, now: Time, all: set<Channel>, c: Channel, t: Option<Time>)
    requires !op.FlushNext? && Within(op, all)
    ensures Before(Next(s, op, now), all, c, t) <= Before(s, all, c, t) + BringsIn(op, c, t)
  {
    var u := Next(s, op, now);
    forall d | d in all && d != c
      ensures Weight(u, d, t) <= Weight(s, d, t) + if About(op, d) then BringsIn(op, c, t) else 0
    {
      CallAdds(s, op, now, c, d, t);
    }
    if Target(op) in {None, Some(c)} {
      SumMonotone(Weights(s, all, c, t), Weights(u, all, c, t));
    } else {
      SumBound(Weights(s, all, c, t), Weights(u, all, c, t), Target(op).value, BringsIn(op, c, t));
    }
  }

  /** `c` goes on waiting, with the same head. */
  lemma GoesOnWaiting(s: Queue, op: Op, now: Time, c: Channel, t: Time, clock: Time)
    requires Inv(s) && Waits(s, c, t, clock) && clock <= now && LeavesAlone(s, op, c)
    ensures Waits(s, c, t, now) && Waits(Next(s, op, now), c, t, now)
  {
    if op.Compact? || About(op, c) {
    } else {
      CallsAreLocal(s, op, now, c);
      SameSliceWaits(s, Next(s, op, now), c, t, now);
    }
  }

  lemma SameSliceWaits(s: Queue, u: Queue, c: Channel, t: Time, now: Time)
    requires SliceOf(s, c) == SliceOf(u, c) && Waits(s, c, t, now)
    ensures Waits(u, c, t, now)
  {
    assert Find(u.queues, c) == Find(s.queues, c) && Find(u.retryAfter, c) == Find(s.retryAfter, c);
  }

  ghost predicate PassedOver(s: Queue, run: seq<Step>, all: set<Channel>, c: Channel)
    decreases |run|
  {
    run == [] ||
    (&& LeavesAlone(s, run[0].op, c) && Within(run[0].op, all)
     && PassedOver(Next(s, run[0].op, run[0].now), run[1..], all, c))
  }

  function Flushes(run: seq<Step>): nat {
    if run == [] then 0 else (if run[0].op.FlushNext? then 1 else 0) + Flushes(run[1..])
  }

  ghost function BroughtIn(run: seq<Step>, c: Channel, t: Option<Time>): nat {
    if run == [] then 0 else BringsIn(run[0].op, c, t) + BroughtIn(run[1..], c, t)
  }

  /**
   In any run that leaves a waiting channel alone, the flushes that pass it over number at most
   the events ahead of it, queued or withheld, plus old events brought in meanwhile. When pushes
   are newer than its head and nothing old is requeued, the channel is therefore chosen within
   as many flushes as there were events ahead of it.
   */
  lemma {:induction false} NoStarvation(s: Queue, run: seq<Step>, clock: Time, all: set<Channel>, c: Channel, t: Time)
    requires Inv(s) && IsRun(s, run, clock) && AllReturnEvents(run)
    requires Waits(s, c, t, clock) && PassedOver(s, run, all, c)
    ensures Flushes(run) + Before(Final(s, run), all, c, Some(t))
        <= Before(s, all, c, Some(t)) + BroughtIn(run, c, Some(t))
    decreases |run|
  {
    if run != [] {
      var op, now := run[0].op, run[0].now;
      StepKeepsInv(s, op, now);
      GoesOnWaiting(s, op, now, c, t, clock);
      if op.FlushNext? {
        FlushPasses(s, op.pick, now, all, c, t);
      } else {
        CallBringsIn(s, op, now, all, c, Some(t));
      }
      NoStarvation(Next(s, op, now), run[1..], now, all, c, t);
    }
  }

  // ---- channels with nothing but cancelled events ----

  function Cancels(run: seq<Step>): nat {
    if run == [] then 0 else (if run[0].op.RequeueAsCancelled? then 1 else 0) + Cancels(run[1..])
  }

  /** Other channels with cancelled events. */
  ghost function Rivals(s: Queue, c: Channel): set<Channel> {
    s.cancelled.Keys - {c}
  }

  lemma FewerRivals(s: Queue, op: Op, now: Time)
    requires !op.FlushNext? && !op.RequeueAsCancelled?
    ensures Next(s, op, now).cancelled.Keys <= s.cancelled.Keys
  {
    match op
    case Push(_, _) =>
    case HasFlushableWork =>
    case MarkComplete(_) =>
    case Requeue(_, _) =>
    case RequeuePreserve(_) =>
    case ExtendDeadline(_, _) =>
    case DrainChannel(_) =>
    case MarkSteerPending(_, _) =>
    case ReleaseSteer(_, _) =>
    case RemoveEvent(_, _) =>
    case Compact =>
  }

  lemma Smaller(a: set<Channel>, b: set<Channel>)
    requires a <= b
    ensures |a| <= |b|
  {
    assert b == a + (b - a);
  }

  lemma FlushClears(e: Queue, d: Channel, now: Time)
    ensures FlushedState(e, Some(d), now).cancelled == e.cancelled - {d}
  {
  }

  lemma FlushPicks(e: Queue, pick: Option<Channel>, now: Time, c: Channel)
    requires PickFits(e, pick, now) && c in CancelledReady(e)
    ensures pick.Some? && (!FromQueue(e, now) ==> pick.value in e.cancelled)
  {
  }

  /** A flush that passes `c` over serves one of its rivals, or takes from a queue. */
  lemma RivalServed(s: Queue, pick: Option<Channel>, now: Time, c: Channel)
    requires Allowed(s, FlushNext(pick), now) && c in CancelledReady(s) && c !in Expired(s, now) && pick != Some(c)
    ensures |Rivals(Next(s, FlushNext(pick), now), c)| + 1 <= |Rivals(s, c)| + QueueFlush(s, FlushNext(pick), now)
  {
    var e := Expire(s, now);
    assert c in CancelledReady(e);
    FlushPicks(e, pick, now, c);
    FlushClears(e, pick.value, now);
    assert Rivals(Next(s, FlushNext(pick), now), c) == Rivals(s, c) - {pick.value};
    Smaller(Rivals(s, c) - {pick.value}, Rivals(s, c));
  }

  lemma RivalAdded(s: Queue, b: Batch, reason: CancelReason, c: Channel)
    requires b.channel != c
    ensures |Rivals(StoredAsCancelled(s, b, reason), c)| <= |Rivals(s, c)| + 1
  {
    assert Rivals(StoredAsCancelled(s, b, reason), c) == Rivals(s, c) + {b.channel};
  }

  lemma RivalsStep(s: Queue, op: Op, now: Time, c: Channel)
    requires Allowed(s, op, now) && c in CancelledReady(s) && !Expires(s, op, now, c) && !About(op, c)
    ensures |Rivals(Next(s, op, now), c)| + (if op.FlushNext? then 1 else 0)
         <= |Rivals(s, c)| + (if op.RequeueAsCancelled? then 1 else 0) + QueueFlush(s, op, now)
  {
    if op.FlushNext? {
      RivalServed(s, op.pick, now, c);
    } else if op.RequeueAsCancelled? {
      RivalAdded(s, op.batch, op.reason, c);
    } else {
      FewerRivals(s, op, now);
      Smaller(Rivals(Next(s, op, now), c), Rivals(s, c));
    }
  }

  lemma CancelledWaits(s: Queue, op: Op, now: Time, c: Channel)
    requires Inv(s) && c in CancelledReady(s) && !About(op, c)
    ensures !Expires(s, op, now, c) && c in CancelledReady(Next(s, op, now))
  {
    if op.Compact? {
      CompactKeepsInv(s, now);
    } else {
      CallsAreLocal(s, op, now, c);
      assert Find(Next(s, op, now).cancelled, c) == Find(s.cancelled, c);
      assert (c in Next(s, op, now).inFlight) == (c in s.inFlight);
    }
  }

  /** Whether the call hands out a batch drained from a queue. */
  ghost function QueueFlush(s: Queue, op: Op, now: Time): nat {
    if op.FlushNext? && FromQueue(Expire(s, now), now) then 1 else 0
  }

  ghost function QueueFlushes(s: Queue, run: seq<Step>): nat
    decreases |run|
  {
    if run == [] then 0
    else QueueFlush(s, run[0].op, run[0].now) + QueueFlushes(Next(s, run[0].op, run[0].now), run[1..])
  }

  /** No call of the run is about `c`, and all are about channels in `all`. */
  ghost predicate Passes(run: seq<Step>, all: set<Channel>, c: Channel) {
    forall i :: 0 <= i < |run| ==> !About(run[i].op, c) && Within(run[i].op, all)
  }

  /** Flushes while a cancelled channel is ready pass it over only for a rival, or for events in a queue. */
  lemma {:induction false} CancelledIsServed(s: Queue, run: seq<Step>, clock: Time, all: set<Channel>, c: Channel)
    requires Inv(s) && IsRun(s, run, clock) && AllReturnEvents(run)
    requires c in CancelledReady(s) && Passes(run, all, c)
    ensures Flushes(run) + |Rivals(Final(s, run), c)| <= |Rivals(s, c)| + Cancels(run) + QueueFlushes(s, run)
    ensures c in CancelledReady(Final(s, run))
    decreases |run|
  {
    if run != [] {
      var op, now := run[0].op, run[0].now;
      StepKeepsInv(s, op, now);
      CancelledWaits(s, op, now, c);
      RivalsStep(s, op, now, c);
      CancelledIsServed(Next(s, op, now), run[1..], now, all, c);
    }
  }

  /** A flush of a cancelled batch adds nothing to any queue. */
  lemma CancelledFlushAdds(s: Queue, pick: Option<Channel>, now: Time, all: set<Channel>, c: Channel, t: Option<Time>)
    requires !FromQueue(Expire(s, now), now)
    ensures Before(Next(s, FlushNext(pick), now), all, c, t) <= Before(s, all, c, t)
  {
    var e, u := Expire(s, now), Next(s, FlushNext(pick), now);
    assert u.queues == e.queues && u.withheld == e.withheld;
    forall x | x in all && x != c ensures Weight(u, x, t) <= Weight(s, x, t) {
      ExpiryAddsNothing(s, now, x, t);
    }
    SumMonotone(Weights(s, all, c, t), Weights(u, all, c, t));
  }

  /** Each flush from a queue uses up at least one event, queued or withheld before or brought in meanwhile. */
  lemma {:induction false} QueueFlushesUseEvents(s: Queue, run: seq<Step>, clock: Time, all: set<Channel>, c: Channel)
    requires Inv(s) && IsRun(s, run, clock) && AllReturnEvents(run) && Passes(run, all, c)
    ensures QueueFlushes(s, run) + Before(Final(s, run), all, c, None)
        <= Before(s, all, c, None) + BroughtIn(run, c, None)
    decreases |run|
  {
    if run != [] {
      var op, now := run[0].op, run[0].now;
      StepKeepsInv(s, op, now);
      if !op.FlushNext? {
        CallBringsIn(s, op, now, all, c, None);
      } else if FromQueue(Expire(s, now), now) {
        FlushTakes(s, op.pick.value, now, all, c, None);
      } else {
        CancelledFlushAdds(s, op.pick, now, all, c, None);
      }
      QueueFlushesUseEvents(Next(s, op, now), run[1..], now, all, c);
    }
  }

  /**
   How long cancelled events can be passed over: in any run not about their channel, by as many flushes as there
   are rivals, cancels of them, and events queued elsewhere or brought in there meanwhile. Without new
   events and cancels the channel is served in bounded time; with them, for as long as they keep coming.
   */
  lemma CancelledWaitsFor(s: Queue, run: seq<Step>, clock: Time, all: set<Channel>, c: Channel)
    requires Inv(s) && IsRun(s, run, clock) && AllReturnEvents(run)
    requires c in CancelledReady(s) && Passes(run, all, c)
    ensures Flushes(run) <= |Rivals(s, c)| + Cancels(run) + Before(s, all, c, None) + BroughtIn(run, c, None)
    ensures c in CancelledReady(Final(s, run))
  {
    CancelledIsServed(s, run, clock, all, c);
    QueueFlushesUseEvents(s, run, clock, all, c);
  }
}
