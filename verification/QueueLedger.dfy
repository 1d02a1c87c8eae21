/**
 Conservation of events. A ledger follows one event on one channel through a run: how often
 it was accepted, and how often it sits in each cell outside the queue's own tables. The books
 balance at every point of every run, so nothing is lost without a label and nothing is
 handed out twice.
 */
module QueueLedger {
  import opened Events
  import opened QueueModel
  import opened QueueLocality

  datatype Ledger = Ledger(
    accepted: nat,      // pushes that were not dropped
    out: nat,           // in batches handed out and not yet resolved
    orphaned: nat,      // in batches still out when their channel expired
    settled: nat,       // in batches the caller finished with
    steered: nat,       // consumed by a successful steer
    trimmed: nat,       // lost to the per-channel cap
    deadLettered: nat,  // in batches whose retries were used up
    drained: nat,       // dropped because the agent left the channel
    carryLost: nat)     // cancelled events carried by a batch that was requeued

  const OPENED := Ledger(0, 0, 0, 0, 0, 0, 0, 0, 0)

  /** A call on the queue, or the caller finishing with a batch; `late` batches had expired. */
  datatype Act =
    | Call(step: Step, late: bool)
    | Settle(batch: Batch, late: bool)

  ghost function Times(s: seq<Event>, e: Event): nat {
    multiset(s)[e]
  }

  ghost function InBatch(b: Batch, e: Event): nat {
    Times(b.events, e) + Times(b.cancelledEvents, e)
  }

  /** Copies of `e` in the queue's own tables for `c`. */
  ghost function Held(s: Queue, c: Channel, e: Event): nat {
    Times(At(s.queues, c), e) + Times(At(s.withheld, c), e) + Times(At(s.cancelled, c), e)
  }

  ghost predicate Balanced(s: Queue, l: Ledger, c: Channel, e: Event) {
    l.accepted == Held(s, c, e) + l.out + l.orphaned + l.settled + l.steered
                  + l.trimmed + l.deadLettered + l.drained + l.carryLost
  }

  /** A batch can only be given back, once, by whoever was handed it. */
  ghost predicate Holds(l: Ledger, b: Batch, late: bool, c: Channel, e: Event) {
    b.channel == c ==> InBatch(b, e) <= if late then l.orphaned else l.out
  }

  ghost predicate Permitted(s: Queue, l: Ledger, act: Act, c: Channel, e: Event) {
    match act
    case Call(step, late) =>
      Allowed(s, step.op, step.now) && (Returns(step.op) ==> Holds(l, step.op.batch, late, c, e))
    case Settle(b, late) => Holds(l, b, late, c, e)
  }

  ghost function TakeBack(l: Ledger, b: Batch, late: bool, c: Channel, e: Event): Ledger
    requires b.channel == c && Holds(l, b, late, c, e)
  {
    if late then l.(orphaned := l.orphaned - InBatch(b, e)) else l.(out := l.out - InBatch(b, e))
  }

  /** Expiry orphans what is out, and may trim while withheld events go back. */
  ghost function AfterExpiry(l: Ledger, s: Queue, now: Time, c: Channel, e: Event): Ledger {
    if c !in Expired(s, now) then l
    else l.(out := 0, orphaned := l.orphaned + l.out,
            trimmed := l.trimmed
                       + if c in s.withheld then Times(Overflow(s.withheld[c] + At(s.queues, c)), e) else 0)
  }

  ghost function PushEntry(l: Ledger, s: Queue, x: Event, c: Channel, e: Event): Ledger {
    var q := At(s.queues, c);
    if Dropping(s, c) then l
    else l.(accepted := l.accepted + (if x == e then 1 else 0),
            trimmed := l.trimmed + if |q| >= MAX_PENDING_PER_CHANNEL && q[0] == e then 1 else 0)
  }

  /** Requeueing restores a batch's own events; the cancelled ones it carried are gone. */
  ghost function FrontLoadEntry(l: Ledger, s: Queue, b: Batch, late: bool, c: Channel, e: Event): Ledger
    requires b.channel == c && Holds(l, b, late, c, e)
  {
    TakeBack(l, b, late, c, e).(
      trimmed := l.trimmed + Times(Overflow(b.events + At(s.queues, c)), e),
      carryLost := l.carryLost + Times(b.cancelledEvents, e))
  }

  ghost function RequeueEntry(l: Ledger, s: Queue, b: Batch, late: bool, c: Channel, e: Event): Ledger
    requires b.channel == c && Holds(l, b, late, c, e)
  {
    if DeadLetters(s, b) then TakeBack(l, b, late, c, e).(deadLettered := l.deadLettered + InBatch(b, e))
    else FrontLoadEntry(l, s, b, late, c, e)
  }

  ghost function RemoveEntry(l: Ledger, s: Queue, id: string, c: Channel, e: Event): Ledger {
    l.(steered := l.steered + Times(Only(At(s.withheld, c), id), e) + Times(Only(At(s.queues, c), id), e))
  }

  ghost function ReleaseEntry(l: Ledger, s: Queue, id: string, c: Channel, e: Event): Ledger {
    var w := At(s.withheld, c);
    var i := IndexOf(w, id);
    if i == |w| then l else l.(trimmed := l.trimmed + Times(Overflow([w[i]] + At(s.queues, c)), e))
  }

  ghost function FlushEntry(l: Ledger, s: Queue, pick: Option<Channel>, now: Time, c: Channel, e: Event): Ledger {
    if pick != Some(c) then l else l.(out := l.out + InBatch(FlushedBatch(s, pick, now).value, e))
  }

  ghost function Entered(l: Ledger, s: Queue, step: Step, late: bool, c: Channel, e: Event): Ledger
    requires Returns(step.op) ==> Holds(l, step.op.batch, late, c, e)
  {
    match step.op
    case Push(d, x) => if d != c then l else PushEntry(l, s, x, c, e)
    case FlushNext(pick) =>
      FlushEntry(AfterExpiry(l, s, step.now, c, e), Expire(s, step.now), pick, step.now, c, e)
    case HasFlushableWork => AfterExpiry(l, s, step.now, c, e)
    case Requeue(b, _) => if b.channel != c then l else RequeueEntry(l, s, b, late, c, e)
    case RequeuePreserve(b) => if b.channel != c then l else FrontLoadEntry(l, s, b, late, c, e)
    case RequeueAsCancelled(b, _) => if b.channel != c then l else TakeBack(l, b, late, c, e)
    case DrainChannel(d) => if d != c then l else l.(drained := l.drained + Held(s, c, e))
    case RemoveEvent(d, id) => if d != c then l else RemoveEntry(l, s, id, c, e)
    case ReleaseSteer(d, id) => if d != c then l else ReleaseEntry(l, s, id, c, e)
    case _ => l
  }

  ghost function Booked(l: Ledger, s: Queue, act: Act, c: Channel, e: Event): Ledger
    requires Permitted(s, l, act, c, e)
  {
    match act
    case Call(step, late) => Entered(l, s, step, late, c, e)
    case Settle(b, late) =>
      if b.channel != c then l
      else TakeBack(l, b, late, c, e).(settled := l.settled + InBatch(b, e))
  }

  ghost function After(s: Queue, act: Act): Queue {
    if act.Call? then Next(s, act.step.op, act.step.now) else s
  }

  // ---- one step ----

  lemma CapSplits(s: seq<Event>, e: Event)
    ensures Times(Cap(s), e) + Times(Overflow(s), e) == Times(s, e)
  {
    if |s| > MAX_PENDING_PER_CHANNEL { CutSplits(s, MAX_PENDING_PER_CHANNEL); }
  }

  lemma ExpiryBalances(s: Queue, l: Ledger, now: Time, c: Channel, e: Event)
    requires Balanced(s, l, c, e)
    ensures Balanced(Expire(s, now), AfterExpiry(l, s, now, c, e), c, e)
  {
    if c in Expired(s, now) && c in s.withheld {
      CapSplits(s.withheld[c] + At(s.queues, c), e);
    }
  }

  lemma FlushBalances(s: Queue, l: Ledger, pick: Option<Channel>, now: Time, c: Channel, e: Event)
    requires Balanced(s, l, c, e) && PickFits(s, pick, now)
    ensures Balanced(FlushedState(s, pick, now), FlushEntry(l, s, pick, now, c, e), c, e)
  {
    if pick == Some(c) && FromQueue(s, now) {
      var q := At(s.queues, c);
      CutSplits(q, Drained(q));
      assert At(TakeQueued(s, c, now).queues, c) == q[Drained(q)..];
    }
  }

  lemma FrontLoadBalances(s: Queue, l: Ledger, b: Batch, late: bool, c: Channel, e: Event)
    requires Balanced(s, l, c, e) && b.channel == c && Holds(l, b, late, c, e)
    ensures Balanced(FrontLoaded(s, b), FrontLoadEntry(l, s, b, late, c, e), c, e)
  {
    CapSplits(b.events + At(s.queues, c), e);
  }

  lemma RequeueBalances(s: Queue, l: Ledger, b: Batch, jitter: real, now: Time, late: bool, c: Channel, e: Event)
    requires Balanced(s, l, c, e) && b.channel == c && Holds(l, b, late, c, e)
    ensures Balanced(Requeued(s, b, jitter, now), RequeueEntry(l, s, b, late, c, e), c, e)
  {
    FrontLoadBalances(s, l, b, late, c, e);
  }

  lemma StoreBalances(s: Queue, l: Ledger, b: Batch, reason: CancelReason, late: bool, c: Channel, e: Event)
    requires Balanced(s, l, c, e) && b.channel == c && Holds(l, b, late, c, e)
    ensures Balanced(StoredAsCancelled(s, b, reason), TakeBack(l, b, late, c, e), c, e)
  {
  }

  lemma PushBalances(s: Queue, l: Ledger, x: Event, c: Channel, e: Event)
    requires Balanced(s, l, c, e)
    ensures Balanced(Pushed(s, c, x), PushEntry(l, s, x, c, e), c, e)
  {
    var q := At(s.queues, c);
    if |q| >= MAX_PENDING_PER_CHANNEL {
      CutSplits(q, 1);
      assert q[..1] == [q[0]];
    }
  }

  lemma RemoveBalances(s: Queue, l: Ledger, id: string, c: Channel, e: Event)
    requires Balanced(s, l, c, e)
    ensures Balanced(Removed(s, c, id), RemoveEntry(l, s, id, c, e), c, e)
  {
    WithoutSplits(At(s.queues, c), id);
    WithoutSplits(At(s.withheld, c), id);
  }

  lemma ReleaseBalances(s: Queue, l: Ledger, id: string, c: Channel, e: Event)
    requires Balanced(s, l, c, e)
    ensures Balanced(Release(s, c, id), ReleaseEntry(l, s, id, c, e), c, e)
  {
    var w := At(s.withheld, c);
    var i := IndexOf(w, id);
    if i < |w| {
      RemoveAtSplits(w, i);
      CapSplits([w[i]] + At(s.queues, c), e);
    }
  }

  lemma DrainBalances(s: Queue, l: Ledger, c: Channel, e: Event)
    requires Balanced(s, l, c, e)
    ensures Balanced(DrainedChannel(s, c), l.(drained := l.drained + Held(s, c, e)), c, e)
  {
  }

  lemma WithholdBalances(s: Queue, l: Ledger, id: string, c: Channel, e: Event)
    requires Balanced(s, l, c, e)
    ensures Balanced(Withhold(s, c, id), l, c, e)
  {
    var q := At(s.queues, c);
    var i := IndexOf(q, id);
    if i < |q| { RemoveAtSplits(q, i); }
  }

  lemma OtherCallBalances(s: Queue, l: Ledger, step: Step, c: Channel, e: Event)
    requires !About(step.op, c) && !step.op.FlushNext? && !step.op.HasFlushableWork? && !step.op.Compact?
    requires Balanced(s, l, c, e)
    ensures Balanced(Next(s, step.op, step.now), l, c, e)
  {
    CallsAreLocal(s, step.op, step.now, c);
    SameSliceSameHeld(s, Next(s, step.op, step.now), c, e);
  }

  lemma SameSliceSameHeld(s: Queue, t: Queue, c: Channel, e: Event)
    requires SliceOf(s, c) == SliceOf(t, c)
    ensures Held(s, c, e) == Held(t, c, e)
  {
    assert At(s.queues, c) == At(t.queues, c);
    assert At(s.withheld, c) == At(t.withheld, c);
    assert At(s.cancelled, c) == At(t.cancelled, c);
  }

  lemma SlotCallBalances(s: Queue, l: Ledger, step: Step, c: Channel, e: Event)
    requires step.op.MarkComplete? || step.op.ExtendDeadline? || step.op.Compact?
    requires Balanced(s, l, c, e)
    ensures Balanced(Next(s, step.op, step.now), l, c, e)
  {
    SlotCallsKeepEvents(s, step.op, step.now);
  }

  lemma SlotCallsKeepEvents(s: Queue, op: Op, now: Time)
    requires op.MarkComplete? || op.ExtendDeadline? || op.Compact?
    ensures var t := Next(s, op, now);
            t.queues == s.queues && t.withheld == s.withheld && t.cancelled == s.cancelled
  {
  }

  lemma RequeueCallBalances(s: Queue, l: Ledger, step: Step, late: bool, c: Channel, e: Event)
    requires step.op.Requeue? && step.op.batch.channel == c && Holds(l, step.op.batch, late, c, e)
    requires Balanced(s, l, c, e)
    ensures Balanced(Next(s, step.op, step.now), Entered(l, s, step, late, c, e), c, e)
  {
    RequeueBalances(s, l, step.op.batch, step.op.jitter, step.now, late, c, e);
    assert Entered(l, s, step, late, c, e) == RequeueEntry(l, s, step.op.batch, late, c, e);
  }

  lemma PreserveCallBalances(s: Queue, l: Ledger, step: Step, late: bool, c: Channel, e: Event)
    requires step.op.RequeuePreserve? && step.op.batch.channel == c && Holds(l, step.op.batch, late, c, e)
    requires Balanced(s, l, c, e)
    ensures Balanced(Next(s, step.op, step.now), Entered(l, s, step, late, c, e), c, e)
  {
    FrontLoadBalances(s, l, step.op.batch, late, c, e);
    assert Entered(l, s, step, late, c, e) == FrontLoadEntry(l, s, step.op.batch, late, c, e);
  }

  lemma CancelCallBalances(s: Queue, l: Ledger, step: Step, late: bool, c: Channel, e: Event)
    requires step.op.RequeueAsCancelled? && step.op.batch.channel == c && Holds(l, step.op.batch, late, c, e)
    requires Balanced(s, l, c, e)
    ensures Balanced(Next(s, step.op, step.now), Entered(l, s, step, late, c, e), c, e)
  {
    StoreBalances(s, l, step.op.batch, step.op.reason, late, c, e);
    assert Entered(l, s, step, late, c, e) == TakeBack(l, step.op.batch, late, c, e);
  }

  /** Every call keeps the books balanced, for every channel and every event. */
  lemma CallBalances(s: Queue, l: Ledger, step: Step, late: bool, c: Channel, e: Event)
    requires Permitted(s, l, Call(step, late), c, e) && Balanced(s, l, c, e)
    ensures Balanced(Next(s, step.op, step.now), Entered(l, s, step, late, c, e), c, e)
  {
    if step.op.FlushNext? || step.op.HasFlushableWork? {
      ExpiryBalances(s, l, step.now, c, e);
      if step.op.FlushNext? {
        FlushBalances(Expire(s, step.now), AfterExpiry(l, s, step.now, c, e), step.op.pick, step.now, c, e);
      }
    } else if step.op.MarkComplete? || step.op.ExtendDeadline? || step.op.Compact? {
      SlotCallBalances(s, l, step, c, e);
    } else if !About(step.op, c) {
      OtherCallBalances(s, l, step, c, e);
    } else if step.op.Requeue? {
      RequeueCallBalances(s, l, step, late, c, e);
    } else if step.op.RequeuePreserve? {
      PreserveCallBalances(s, l, step, late, c, e);
    } else if step.op.RequeueAsCancelled? {
      CancelCallBalances(s, l, step, late, c, e);
    } else {
      MovementBalances(s, l, step, late, c, e);
    }
  }

  lemma MovementBalances(s: Queue, l: Ledger, step: Step, late: bool, c: Channel, e: Event)
    requires step.op.Push? || step.op.DrainChannel? || step.op.MarkSteerPending? || step.op.ReleaseSteer?
        || step.op.RemoveEvent?
    requires Balanced(s, l, c, e) && step.op.channel == c
    ensures Balanced(Next(s, step.op, step.now), Entered(l, s, step, late, c, e), c, e)
  {
    match step.op
    case Push(_, x) => PushBalances(s, l, x, c, e);
    case DrainChannel(_) => DrainBalances(s, l, c, e);
    case MarkSteerPending(_, id) => WithholdBalances(s, l, id, c, e);
    case ReleaseSteer(_, id) => ReleaseBalances(s, l, id, c, e);
    case RemoveEvent(_, id) => RemoveBalances(s, l, id, c, e);
  }

  // ---- whole runs ----

  ghost predicate IsHistory(s: Queue, l: Ledger, acts: seq<Act>, c: Channel, e: Event)
    decreases |acts|
  {
    acts == [] ||
    (&& Permitted(s, l, acts[0], c, e)
     && IsHistory(After(s, acts[0]), Booked(l, s, acts[0], c, e), acts[1..], c, e))
  }

  ghost function EndState(s: Queue, acts: seq<Act>): Queue
    decreases |acts|
  {
    if acts == [] then s else EndState(After(s, acts[0]), acts[1..])
  }

  ghost function EndLedger(s: Queue, l: Ledger, acts: seq<Act>, c: Channel, e: Event): Ledger
    requires IsHistory(s, l, acts, c, e)
    decreases |acts|
  {
    if acts == [] then l
    else EndLedger(After(s, acts[0]), Booked(l, s, acts[0], c, e), acts[1..], c, e)
  }

  lemma ActBalances(s: Queue, l: Ledger, act: Act, c: Channel, e: Event)
    requires Permitted(s, l, act, c, e) && Balanced(s, l, c, e)
    ensures Balanced(After(s, act), Booked(l, s, act, c, e), c, e)
  {
    if act.Call? { CallBalances(s, l, act.step, act.late, c, e); }
  }

  /** The books balance at the end of every history. */
  lemma {:induction false} HistoryBalances(s: Queue, l: Ledger, acts: seq<Act>, c: Channel, e: Event)
    requires IsHistory(s, l, acts, c, e) && Balanced(s, l, c, e)
    ensures Balanced(EndState(s, acts), EndLedger(s, l, acts, c, e), c, e)
    decreases |acts|
  {
    if acts != [] {
      ActBalances(s, l, acts[0], c, e);
      HistoryBalances(After(s, acts[0]), Booked(l, s, acts[0], c, e), acts[1..], c, e);
    }
  }

  /** From an empty queue: accepted = held + out + resolved + labelled losses, always. */
  lemma NothingLostSilently(mode: DedupMode, acts: seq<Act>, c: Channel, e: Event)
    requires IsHistory(Empty(mode), OPENED, acts, c, e)
    ensures Balanced(EndState(Empty(mode), acts), EndLedger(Empty(mode), OPENED, acts, c, e), c, e)
  {
    HistoryBalances(Empty(mode), OPENED, acts, c, e);
  }

  // ---- nothing is handed out twice ----

  /** Copies of `e` one act hands to a caller. */
  ghost function Handing(s: Queue, act: Act, c: Channel, e: Event): nat {
    if act.Call? && act.step.op == FlushNext(Some(c)) then InBatch(BatchOf(s, act.step).value, e) else 0
  }

  /** Copies of `e` one act gives back to the queue for another delivery. */
  ghost function GivingBack(s: Queue, act: Act, c: Channel, e: Event): nat {
    if act.Call? && Returns(act.step.op) && act.step.op.batch.channel == c
       && !(act.step.op.Requeue? && DeadLetters(s, act.step.op.batch))
    then InBatch(act.step.op.batch, e) else 0
  }

  ghost function HandedOut(s: Queue, acts: seq<Act>, c: Channel, e: Event): nat
    decreases |acts|
  {
    if acts == [] then 0 else Handing(s, acts[0], c, e) + HandedOut(After(s, acts[0]), acts[1..], c, e)
  }

  ghost function GivenBack(s: Queue, acts: seq<Act>, c: Channel, e: Event): nat
    decreases |acts|
  {
    if acts == [] then 0 else GivingBack(s, acts[0], c, e) + GivenBack(After(s, acts[0]), acts[1..], c, e)
  }

  /** Copies that left the queue in a batch and were not given back. */
  ghost function Away(l: Ledger): nat {
    l.out + l.orphaned + l.settled + l.deadLettered
  }

  lemma ActMovesAway(s: Queue, l: Ledger, act: Act, c: Channel, e: Event)
    requires Permitted(s, l, act, c, e)
    ensures Away(Booked(l, s, act, c, e)) + GivingBack(s, act, c, e) == Away(l) + Handing(s, act, c, e)
  {
  }

  lemma {:induction false} AwayBalances(s: Queue, l: Ledger, acts: seq<Act>, c: Channel, e: Event)
    requires IsHistory(s, l, acts, c, e)
    ensures Away(EndLedger(s, l, acts, c, e)) + GivenBack(s, acts, c, e) == Away(l) + HandedOut(s, acts, c, e)
    decreases |acts|
  {
    if acts != [] {
      ActMovesAway(s, l, acts[0], c, e);
      AwayBalances(After(s, acts[0]), Booked(l, s, acts[0], c, e), acts[1..], c, e);
    }
  }

  /**
   No double dispatch: over any history from an empty queue, an event is handed out at most
   once for each time it was accepted or given back.
   */
  lemma HandedOutOncePerAcceptance(mode: DedupMode, acts: seq<Act>, c: Channel, e: Event)
    requires IsHistory(Empty(mode), OPENED, acts, c, e)
    ensures HandedOut(Empty(mode), acts, c, e)
              <= EndLedger(Empty(mode), OPENED, acts, c, e).accepted + GivenBack(Empty(mode), acts, c, e)
  {
    HistoryBalances(Empty(mode), OPENED, acts, c, e);
    AwayBalances(Empty(mode), OPENED, acts, c, e);
  }

  lemma HandedIsOut(s: Queue, l: Ledger, act: Act, c: Channel, e: Event)
    requires Permitted(s, l, act, c, e)
    ensures l.accepted <= Booked(l, s, act, c, e).accepted
    ensures Handing(s, act, c, e) <= Booked(l, s, act, c, e).out
  {
  }

  lemma {:induction false} AcceptedOnlyGrows(s: Queue, l: Ledger, acts: seq<Act>, c: Channel, e: Event)
    requires IsHistory(s, l, acts, c, e)
    ensures l.accepted <= EndLedger(s, l, acts, c, e).accepted
    decreases |acts|
  {
    if acts != [] {
      HandedIsOut(s, l, acts[0], c, e);
      AcceptedOnlyGrows(After(s, acts[0]), Booked(l, s, acts[0], c, e), acts[1..], c, e);
    }
  }
}
