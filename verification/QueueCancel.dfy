/**
 Repeated cancels of one channel: however many turns are cut short, the events they were
 given come back together, in order, with the latest reason.
 */
module QueueCancel {
  import opened Events
  import opened QueueModel
  import opened QueueLocality

  /** The batch of `c` a caller is holding after a step. */
  ghost function HeldNext(s: Queue, step: Step, c: Channel, held: Option<Batch>): Option<Batch> {
    if step.op == FlushNext(Some(c)) then BatchOf(s, step)
    else if step.op.RequeueAsCancelled? && step.op.batch.channel == c then None
    else held
  }

  /**
   Every batch of `c` is cancelled, under whatever reason it was stamped with meanwhile: nothing else is
   done with it, and `c` is not drained.
   */
  ghost predicate Cancels(step: Step, c: Channel, held: Option<Batch>) {
    match step.op
    case FlushNext(pick) => pick == Some(c) ==> held.None?
    case RequeueAsCancelled(b, _) => b.channel == c ==> held.Some? && Load(b) == Load(held.value)
    case Requeue(b, _) => b.channel != c
    case RequeuePreserve(b) => b.channel != c
    case DrainChannel(d) => d != c
    case _ => true
  }

  ghost predicate CancelRounds(s: Queue, run: seq<Step>, c: Channel, held: Option<Batch>)
    decreases |run|
  {
    run == [] ||
    (&& Cancels(run[0], c, held)
     && CancelRounds(Next(s, run[0].op, run[0].now), run[1..], c, HeldNext(s, run[0], c, held)))
  }

  ghost function HeldAfter(s: Queue, run: seq<Step>, c: Channel, held: Option<Batch>): Option<Batch>
    decreases |run|
  {
    if run == [] then held
    else HeldAfter(Next(s, run[0].op, run[0].now), run[1..], c, HeldNext(s, run[0], c, held))
  }

  /** New events of `c` first handed out by this step: those drained from its queue. */
  ghost function Fresh(s: Queue, step: Step, c: Channel): seq<Event> {
    if step.op == FlushNext(Some(c)) && FromQueue(Expire(s, step.now), step.now)
    then QueuedBatch(Expire(s, step.now), c).events else []
  }

  /** E1 ++ E2 ++ ... ++ En: the new events of every round, in order. */
  ghost function AllFresh(s: Queue, run: seq<Step>, c: Channel): seq<Event>
    decreases |run|
  {
    if run == [] then []
    else Fresh(s, run[0], c) + AllFresh(Next(s, run[0].op, run[0].now), run[1..], c)
  }

  ghost function ReasonNext(op: Op, c: Channel, reason: Option<CancelReason>): Option<CancelReason> {
    if op.RequeueAsCancelled? && op.batch.channel == c then Some(op.reason) else reason
  }

  ghost function LastReason(run: seq<Step>, c: Channel, reason: Option<CancelReason>): Option<CancelReason> {
    if run == [] then reason else LastReason(run[1..], c, ReasonNext(run[0].op, c, reason))
  }

  /** Either `told` waits in the cancelled table, with its reason, or it is in the held batch. */
  ghost predicate Remembers(s: Queue, c: Channel, held: Option<Batch>, told: seq<Event>, reason: Option<CancelReason>) {
    match held
    case None => At(s.cancelled, c) == told && Find(s.reasons, c) == (if c in s.cancelled then reason else None)
    case Some(b) => b.cancelledEvents + b.events == told && c !in s.cancelled && c !in s.reasons
  }

  lemma QuietCallsKeepCancelled(s: Queue, op: Op, now: Time, c: Channel)
    requires op != FlushNext(Some(c)) && op != DrainChannel(c)
    requires op.RequeueAsCancelled? ==> op.batch.channel != c
    ensures var t := Next(s, op, now);
            Find(t.cancelled, c) == Find(s.cancelled, c) && Find(t.reasons, c) == Find(s.reasons, c)
  {
    if op.FlushNext? {
      FlushIsLocal(Expire(s, now), op.pick, now, c);
    } else if op.RequeueAsCancelled? {
      ReturnIsLocal(s, op.batch, op.reason, c);
    } else if op.DrainChannel? {
      DrainIsLocal(s, op.channel, c);
    } else {
      CancelledTableKept(s, op, now);
    }
  }

  lemma CancelledTableKept(s: Queue, op: Op, now: Time)
    requires !op.FlushNext? && !op.DrainChannel? && !op.RequeueAsCancelled?
    ensures Next(s, op, now).cancelled == s.cancelled && Next(s, op, now).reasons == s.reasons
  {
    match op
    case Push(_, _) =>
    case HasFlushableWork =>
    case MarkComplete(c) => RetryKeepsCancelled(s, Batch(c, [], [], None), 1.0, c, now);
    case Requeue(b, jitter) => RetryKeepsCancelled(s, b, jitter, 0, now);
    case RequeuePreserve(_) =>
    case ExtendDeadline(_, _) =>
    case MarkSteerPending(c, id) => SteeringKeepsCancelled(s, c, id);
    case ReleaseSteer(c, id) => SteeringKeepsCancelled(s, c, id);
    case RemoveEvent(c, id) => SteeringKeepsCancelled(s, c, id);
    case Compact =>
  }

  lemma RetryKeepsCancelled(s: Queue, b: Batch, jitter: real, c: Channel, now: Time)
    ensures Requeued(s, b, jitter, now).cancelled == s.cancelled && Requeued(s, b, jitter, now).reasons == s.reasons
    ensures Completed(s, c, now).cancelled == s.cancelled && Completed(s, c, now).reasons == s.reasons
  {
  }

  lemma SteeringKeepsCancelled(s: Queue, c: Channel, id: string)
    ensures Withhold(s, c, id).cancelled == s.cancelled && Withhold(s, c, id).reasons == s.reasons
    ensures Release(s, c, id).cancelled == s.cancelled && Release(s, c, id).reasons == s.reasons
    ensures Removed(s, c, id).cancelled == s.cancelled && Removed(s, c, id).reasons == s.reasons
  {
  }

  lemma FlushRemembers(s: Queue, step: Step, c: Channel, told: seq<Event>, reason: Option<CancelReason>)
    requires step.op == FlushNext(Some(c)) && Remembers(s, c, None, told, reason)
    ensures Remembers(Next(s, step.op, step.now), c, BatchOf(s, step), told + Fresh(s, step, c), reason)
  {
    var e := Expire(s, step.now);
    assert At(e.cancelled, c) == told;
    if FromQueue(e, step.now) {
      assert QueuedBatch(e, c).cancelledEvents == told;
    } else {
      assert CancelledBatch(e, c).cancelledEvents + CancelledBatch(e, c).events == told;
    }
  }

  lemma CancelRemembers(s: Queue, b: Batch, h: Batch, r: CancelReason, told: seq<Event>, reason: Option<CancelReason>)
    requires Remembers(s, b.channel, Some(h), told, reason) && Load(b) == Load(h)
    ensures Remembers(StoredAsCancelled(s, b, r), b.channel, None, told, Some(r))
  {
    assert b.events == h.events && b.cancelledEvents == h.cancelledEvents by {
      assert Load(b).events == Load(h).events && Load(b).cancelledEvents == Load(h).cancelledEvents;
    }
    assert [] + b.cancelledEvents + b.events == told;
  }

  lemma StepRemembers(s: Queue, step: Step, c: Channel, held: Option<Batch>,
                      told: seq<Event>, reason: Option<CancelReason>)
    requires Cancels(step, c, held) && Remembers(s, c, held, told, reason)
    ensures Remembers(Next(s, step.op, step.now), c, HeldNext(s, step, c, held), told + Fresh(s, step, c),
                      ReasonNext(step.op, c, reason))
  {
    if step.op == FlushNext(Some(c)) {
      FlushRemembers(s, step, c, told, reason);
    } else if step.op.RequeueAsCancelled? && step.op.batch.channel == c {
      CancelRemembers(s, step.op.batch, held.value, step.op.reason, told, reason);
      assert told + [] == told;
    } else {
      QuietCallsKeepCancelled(s, step.op, step.now, c);
      SameEntriesRemember(s, Next(s, step.op, step.now), c, held, told, reason);
      assert told + [] == told;
    }
  }

  lemma SameEntriesRemember(s: Queue, t: Queue, c: Channel, held: Option<Batch>,
                            told: seq<Event>, reason: Option<CancelReason>)
    requires Find(t.cancelled, c) == Find(s.cancelled, c) && Find(t.reasons, c) == Find(s.reasons, c)
    requires Remembers(s, c, held, told, reason)
    ensures Remembers(t, c, held, told, reason)
  {
    assert At(t.cancelled, c) == At(s.cancelled, c);
  }

  /** `told` followed by the new events of every round. */
  ghost function Told(s: Queue, run: seq<Step>, c: Channel, told: seq<Event>): seq<Event>
    decreases |run|
  {
    if run == [] then told
    else Told(Next(s, run[0].op, run[0].now), run[1..], c, told + Fresh(s, run[0], c))
  }

  lemma {:induction false} ToldIsAllFresh(s: Queue, run: seq<Step>, c: Channel, told: seq<Event>)
    ensures Told(s, run, c, told) == told + AllFresh(s, run, c)
    decreases |run|
  {
    if run == [] {
      assert told + [] == told;
    } else {
      var t, x := Next(s, run[0].op, run[0].now), Fresh(s, run[0], c);
      ToldUnfolds(s, run, c, told, t, x);
      ToldIsAllFresh(t, run[1..], c, told + x);
      CatAssoc(told, x, AllFresh(t, run[1..], c));
    }
  }

  lemma ToldUnfolds(s: Queue, run: seq<Step>, c: Channel, told: seq<Event>, t: Queue, x: seq<Event>)
    requires run != [] && t == Next(s, run[0].op, run[0].now) && x == Fresh(s, run[0], c)
    ensures Told(s, run, c, told) == Told(t, run[1..], c, told + x)
    ensures AllFresh(s, run, c) == x + AllFresh(t, run[1..], c)
  {
  }

  lemma CatAssoc(x: seq<Event>, y: seq<Event>, z: seq<Event>)
    ensures x + y + z == x + (y + z)
  {
  }

  lemma {:induction false} RoundsAccumulate(s: Queue, run: seq<Step>, c: Channel, held: Option<Batch>,
                                            told: seq<Event>, reason: Option<CancelReason>)
    requires CancelRounds(s, run, c, held) && Remembers(s, c, held, told, reason)
    ensures Remembers(Final(s, run), c, HeldAfter(s, run, c, held), Told(s, run, c, told), LastReason(run, c, reason))
    decreases |run|
  {
    if run != [] {
      StepRemembers(s, run[0], c, held, told, reason);
      RoundsAccumulate(Next(s, run[0].op, run[0].now), run[1..], c, HeldNext(s, run[0], c, held),
                       told + Fresh(s, run[0], c), ReasonNext(run[0].op, c, reason));
    }
  }

  /**
   After any number of flush-and-cancel rounds on `c`, with any other traffic in between, the next
   batch of `c` hands out exactly the events of all rounds, in order, with the latest reason:
   as its cancelled events when new ones are merged in, as its own events when there are none.
   */
  lemma CancelledEventsComeBack(s: Queue, run: seq<Step>, c: Channel, step: Step)
    requires c !in s.cancelled && c !in s.reasons
    requires CancelRounds(s, run, c, None) && HeldAfter(s, run, c, None).None?
    requires step.op == FlushNext(Some(c)) && Allowed(Final(s, run), step.op, step.now)
    ensures var t := Final(s, run);
            var b := BatchOf(t, step).value;
            var told := AllFresh(s, run, c);
            if FromQueue(Expire(t, step.now), step.now)
            then b.cancelledEvents == told && (told != [] ==> b.reason == LastReason(run, c, None))
            else b.events == told && b.cancelledEvents == [] && b.reason == LastReason(run, c, None)
  {
    RoundsAccumulate(s, run, c, None, [], None);
    ToldIsAllFresh(s, run, c, []);
    assert [] + AllFresh(s, run, c) == AllFresh(s, run, c);
  }
}
