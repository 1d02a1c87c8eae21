/**
 The event queue as a value: its tables, one function per transition, and runs of transitions.
 `EventQueue` (the class) is proved against these functions; every property of the scheduler
 is proved about them.
 */
module QueueModel {
  import opened Events
  import opened Numbers

  const MAX_PENDING_PER_CHANNEL: nat := 500
  const MAX_BATCH_EVENTS: nat := 50
  const MAX_RETRIES: nat := 10
  const BASE_RETRY_DELAY_SECS: nat := 5
  const MAX_RETRY_DELAY_SECS: nat := 300
  const IN_FLIGHT_DEADLINE_BUFFER_SECS: Time := 100.0
  const DEFAULT_IN_FLIGHT_DEADLINE_SECS: Time := 7300.0

  datatype Queue = Queue(
    queues: map<Channel, seq<Event>>,
    inFlight: set<Channel>,
    deadlines: map<Channel, Time>,
    batchSizes: map<Channel, nat>,
    retryAfter: map<Channel, Time>,
    retryCounts: map<Channel, nat>,
    mode: DedupMode,
    cancelled: map<Channel, seq<Event>>,
    reasons: map<Channel, CancelReason>,
    withheld: map<Channel, seq<Event>>,
    span: Time)

  function Empty(mode: DedupMode): Queue {
    Queue(map[], {}, map[], map[], map[], map[], mode, map[], map[], map[], DEFAULT_IN_FLIGHT_DEADLINE_SECS)
  }

  // ---- capacity ----

  function Cap(s: seq<Event>): seq<Event> {
    if |s| > MAX_PENDING_PER_CHANNEL then s[..MAX_PENDING_PER_CHANNEL] else s
  }

  function Overflow(s: seq<Event>): seq<Event> {
    if |s| > MAX_PENDING_PER_CHANNEL then s[MAX_PENDING_PER_CHANNEL..] else []
  }

  /** Push at the back; a full queue first drops its head. */
  function Enqueued(q: seq<Event>, e: Event): seq<Event> {
    (if |q| >= MAX_PENDING_PER_CHANNEL then q[1..] else q) + [e]
  }

  predicate Dropping(s: Queue, c: Channel) {
    s.mode.Drop? && c in s.inFlight
  }

  function Pushed(s: Queue, c: Channel, e: Event): Queue {
    s.(queues := if Dropping(s, c) then s.queues else s.queues[c := Enqueued(At(s.queues, c), e)])
  }

  // ---- in-flight expiry ----

  function Expired(s: Queue, now: Time): set<Channel> {
    set c | c in s.deadlines && s.deadlines[c] <= now
  }

  /** Queues once the withheld events of every channel in `cs` are back in front, cut at the cap. */
  function Recover(queues: map<Channel, seq<Event>>, withheld: map<Channel, seq<Event>>, cs: set<Channel>)
    : map<Channel, seq<Event>>
  {
    map c | c in queues.Keys + (withheld.Keys * cs) ::
      if c in cs && c in withheld then Cap(withheld[c] + At(queues, c)) else queues[c]
  }

  /** Releases every channel in `cs` and puts its withheld events back. */
  function ExpireSet(s: Queue, cs: set<Channel>): Queue {
    s.(queues := Recover(s.queues, s.withheld, cs),
       inFlight := s.inFlight - cs,
       deadlines := s.deadlines - cs,
       batchSizes := s.batchSizes - cs,
       withheld := s.withheld - cs)
  }

  function Expire(s: Queue, now: Time): Queue {
    ExpireSet(s, Expired(s, now))
  }

  // ---- choosing the next channel ----

  predicate Throttled(s: Queue, c: Channel, now: Time) {
    c in s.retryAfter && now < s.retryAfter[c]
  }

  predicate Ready(s: Queue, c: Channel, now: Time) {
    c in s.queues && s.queues[c] != [] && c !in s.inFlight && !Throttled(s, c, now)
  }

  function Candidates(s: Queue, now: Time): set<Channel> {
    set c | c in s.queues && Ready(s, c, now)
  }

  /** No candidate has an earlier head than `c`. */
  predicate Oldest(s: Queue, c: Channel, now: Time) {
    && Ready(s, c, now)
    && forall d :: d in Candidates(s, now) ==> s.queues[c][0].receivedAt <= s.queues[d][0].receivedAt
  }

  function CancelledReady(s: Queue): set<Channel> {
    set c | c in s.cancelled && c !in s.inFlight
  }

  /** Picks the code may make on an already expired state: ties are broken by table order. */
  predicate PickFits(s: Queue, pick: Option<Channel>, now: Time) {
    if Candidates(s, now) != {} then pick.Some? && Oldest(s, pick.value, now)
    else if CancelledReady(s) != {} then pick.Some? && pick.value in CancelledReady(s)
    else pick.None?
  }

  predicate FromQueue(s: Queue, now: Time) {
    Candidates(s, now) != {}
  }

  function Drained(q: seq<Event>): nat {
    if |q| < MAX_BATCH_EVENTS then |q| else MAX_BATCH_EVENTS
  }

  function QueuedBatch(s: Queue, c: Channel): Batch {
    var q := At(s.queues, c);
    Batch(c, SortByCreated(q[..Drained(q)]), At(s.cancelled, c),
          if At(s.cancelled, c) == [] then None else Find(s.reasons, c))
  }

  function CancelledBatch(s: Queue, c: Channel): Batch {
    Batch(c, At(s.cancelled, c), [], Find(s.reasons, c))
  }

  function TakeInFlight(s: Queue, c: Channel, size: nat, now: Time): Queue {
    s.(inFlight := s.inFlight + {c},
       deadlines := s.deadlines[c := now + s.span],
       batchSizes := s.batchSizes[c := size],
       cancelled := s.cancelled - {c},
       reasons := s.reasons - {c})
  }

  /** State after handing out channel `c` from its queue. */
  function TakeQueued(s: Queue, c: Channel, now: Time): Queue {
    var q := At(s.queues, c);
    TakeInFlight(s, c, Drained(q), now).(queues := Put(s.queues, c, q[Drained(q)..]))
  }

  function TakeCancelled(s: Queue, c: Channel, now: Time): Queue {
    TakeInFlight(s, c, |At(s.cancelled, c)|, now)
  }

  function FlushedBatch(s: Queue, pick: Option<Channel>, now: Time): Option<Batch> {
    if pick.None? then None
    else if FromQueue(s, now) then Some(QueuedBatch(s, pick.value))
    else Some(CancelledBatch(s, pick.value))
  }

  function FlushedState(s: Queue, pick: Option<Channel>, now: Time): Queue {
    if pick.None? then s
    else if FromQueue(s, now) then TakeQueued(s, pick.value, now)
    else TakeCancelled(s, pick.value, now)
  }

  // ---- completion and retries ----

  /** A channel that was requeued is still throttled, and keeps its retry count. */
  function Completed(s: Queue, c: Channel, now: Time): Queue {
    var forget := if Throttled(s, c, now) then {} else {c};
    s.(inFlight := s.inFlight - {c}, deadlines := s.deadlines - {c}, batchSizes := s.batchSizes - {c},
       retryAfter := s.retryAfter - forget, retryCounts := s.retryCounts - forget)
  }

  /** Backoff before jitter. */
  function BackoffSecs(attempt: nat): nat
    requires 1 <= attempt
  {
    Min(BASE_RETRY_DELAY_SECS * Pow2(Min(attempt - 1, 6)), MAX_RETRY_DELAY_SECS)
  }

  function RetryDelay(attempt: nat, jitter: real): Time
    requires 1 <= attempt
  {
    BackoffSecs(attempt) as real * jitter
  }

  function Attempts(s: Queue, c: Channel): nat {
    if c in s.retryCounts then s.retryCounts[c] else 0
  }

  predicate DeadLetters(s: Queue, b: Batch) {
    Attempts(s, b.channel) + 1 > MAX_RETRIES
  }

  /** Events of `b` back in front of its channel's queue, cut at the cap. */
  function FrontLoaded(s: Queue, b: Batch): Queue {
    s.(queues := s.queues[b.channel := Cap(b.events + At(s.queues, b.channel))])
  }

  function Requeued(s: Queue, b: Batch, jitter: real, now: Time): Queue {
    var c, dead := b.channel, DeadLetters(s, b);
    var attempt := Attempts(s, c) + 1;
    s.(queues := if dead then s.queues else FrontLoaded(s, b).queues,
       retryCounts := if dead then s.retryCounts - {c} else s.retryCounts[c := attempt],
       retryAfter := if dead then s.retryAfter - {c} else s.retryAfter[c := now + RetryDelay(attempt, jitter)])
  }

  function StoredAsCancelled(s: Queue, b: Batch, reason: CancelReason): Queue {
    s.(cancelled := s.cancelled[b.channel := At(s.cancelled, b.channel) + b.cancelledEvents + b.events],
       reasons := s.reasons[b.channel := reason])
  }

  function Compacted(s: Queue, now: Time): Queue {
    var after := map c | c in s.retryAfter && now < s.retryAfter[c] :: s.retryAfter[c];
    s.(retryAfter := after,
       retryCounts := map c | c in s.retryCounts && (c in after || At(s.queues, c) != [] || c in s.inFlight) ::
                        s.retryCounts[c])
  }

  // ---- deadlines, draining, steering ----

  function Extended(s: Queue, c: Channel, maxTurn: nat, now: Time): Queue {
    var later := now + (maxTurn as real + IN_FLIGHT_DEADLINE_BUFFER_SECS);
    s.(deadlines := if c in s.deadlines && s.deadlines[c] < later then s.deadlines[c := later] else s.deadlines)
  }

  function DrainedChannel(s: Queue, c: Channel): Queue {
    s.(queues := s.queues - {c}, retryAfter := s.retryAfter - {c}, retryCounts := s.retryCounts - {c},
       cancelled := s.cancelled - {c}, reasons := s.reasons - {c}, withheld := s.withheld - {c})
  }

  function Ids(s: seq<Event>): seq<string> {
    seq(|s|, i requires 0 <= i < |s| => s[i].id)
  }

  function Withhold(s: Queue, c: Channel, id: string): Queue {
    var q := At(s.queues, c);
    var i := IndexOf(q, id);
    s.(queues := if i == |q| then s.queues else Put(s.queues, c, q[..i] + q[i + 1..]),
       withheld := if i == |q| then s.withheld else s.withheld[c := At(s.withheld, c) + [q[i]]])
  }

  function Release(s: Queue, c: Channel, id: string): Queue {
    var w := At(s.withheld, c);
    var i := IndexOf(w, id);
    s.(queues := if i == |w| then s.queues else s.queues[c := Cap([w[i]] + At(s.queues, c))],
       withheld := if i == |w| then s.withheld else Put(s.withheld, c, w[..i] + w[i + 1..]))
  }

  function RemoveId(m: map<Channel, seq<Event>>, c: Channel, id: string): map<Channel, seq<Event>> {
    if c in m then Put(m, c, Without(m[c], id)) else m
  }

  function Removed(s: Queue, c: Channel, id: string): Queue {
    s.(withheld := RemoveId(s.withheld, c, id), queues := RemoveId(s.queues, c, id))
  }

  // ---- queries ----

  predicate WorkReady(s: Queue, now: Time) {
    Candidates(s, now) != {} || CancelledReady(s) != {}
  }

  predicate HasUndispatchedWork(s: Queue) {
    || (exists c :: c in s.queues && s.queues[c] != [] && c !in s.inFlight)
    || (exists c :: c in s.cancelled && c !in s.inFlight)
    || (exists c :: c in s.withheld && s.withheld[c] != [] && c !in s.inFlight)
  }

  // ---- one transition, and runs of them ----

  datatype Op =
    | Push(channel: Channel, event: Event)
    | FlushNext(pick: Option<Channel>)
    | HasFlushableWork
    | MarkComplete(channel: Channel)
    | Requeue(batch: Batch, jitter: real)
    | RequeuePreserve(batch: Batch)
    | RequeueAsCancelled(batch: Batch, reason: CancelReason)
    | ExtendDeadline(channel: Channel, maxTurn: nat)
    | DrainChannel(channel: Channel)
    | MarkSteerPending(channel: Channel, id: string)
    | ReleaseSteer(channel: Channel, id: string)
    | RemoveEvent(channel: Channel, id: string)
    | Compact

  datatype Output =
    | Silent
    | Answer(yes: bool)
    | Handed(batch: Option<Batch>)
    | DeadLetter(returned: Option<Batch>)
    | Dropped(ids: seq<string>)

  /** Which calls can be made, and which picks and jitters the code can produce. */
  predicate Allowed(s: Queue, op: Op, now: Time) {
    match op
    case FlushNext(pick) => PickFits(Expire(s, now), pick, now)
    case Requeue(_, jitter) => 0.8 <= jitter <= 1.2
    case _ => true
  }

  function Next(s: Queue, op: Op, now: Time): Queue {
    match op
    case Push(c, e) => Pushed(s, c, e)
    case FlushNext(pick) => FlushedState(Expire(s, now), pick, now)
    case HasFlushableWork => Expire(s, now)
    case MarkComplete(c) => Completed(s, c, now)
    case Requeue(b, jitter) => Requeued(s, b, jitter, now)
    case RequeuePreserve(b) => FrontLoaded(s, b)
    case RequeueAsCancelled(b, reason) => StoredAsCancelled(s, b, reason)
    case ExtendDeadline(c, maxTurn) => Extended(s, c, maxTurn, now)
    case DrainChannel(c) => DrainedChannel(s, c)
    case MarkSteerPending(c, id) => Withhold(s, c, id)
    case ReleaseSteer(c, id) => Release(s, c, id)
    case RemoveEvent(c, id) => Removed(s, c, id)
    case Compact => Compacted(s, now)
  }

  function Out(s: Queue, op: Op, now: Time): Output {
    match op
    case Push(c, e) => Answer(!Dropping(s, c))
    case FlushNext(pick) => Handed(FlushedBatch(Expire(s, now), pick, now))
    case HasFlushableWork => Answer(WorkReady(Expire(s, now), now))
    case Requeue(b, _) => DeadLetter(if DeadLetters(s, b) then Some(b) else None)
    case DrainChannel(c) => Dropped(Ids(At(s.queues, c)))
    case MarkSteerPending(c, id) => Answer(IndexOf(At(s.queues, c), id) < |At(s.queues, c)|)
    case _ => Silent
  }

  datatype Step = Step(op: Op, now: Time)

  /** `run` is a sequence of possible calls from `s`, made at non-decreasing times from `clock` on. */
  predicate IsRun(s: Queue, run: seq<Step>, clock: Time)
    decreases |run|
  {
    run == [] ||
    (&& clock <= run[0].now
     && Allowed(s, run[0].op, run[0].now)
     && IsRun(Next(s, run[0].op, run[0].now), run[1..], run[0].now))
  }

  function Final(s: Queue, run: seq<Step>): Queue
    decreases |run|
  {
    if run == [] then s else Final(Next(s, run[0].op, run[0].now), run[1..])
  }

  /** The batch a step hands out, if any. */
  function BatchOf(s: Queue, step: Step): Option<Batch> {
    if step.op.FlushNext? then FlushedBatch(Expire(s, step.now), step.op.pick, step.now) else None
  }

  /** The channel a call is about: a flush is about the channel it picked. */
  function Target(op: Op): Option<Channel> {
    match op
    case FlushNext(pick) => pick
    case HasFlushableWork => None
    case Requeue(b, _) => Some(b.channel)
    case RequeuePreserve(b) => Some(b.channel)
    case RequeueAsCancelled(b, _) => Some(b.channel)
    case Compact => None
    case _ => Some(op.channel)
  }

  predicate About(op: Op, c: Channel) {
    Target(op) == Some(c)
  }

  /** The call gives a batch back to the queue. */
  predicate Returns(op: Op) {
    op.Requeue? || op.RequeuePreserve? || op.RequeueAsCancelled?
  }

  /** The call expires in-flight entries, and `c` is one of them. */
  predicate Expires(s: Queue, op: Op, now: Time, c: Channel) {
    (op.FlushNext? || op.HasFlushableWork?) && c in Expired(s, now)
  }
}
