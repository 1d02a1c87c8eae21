/** A queue with one channel, and what each call does to it: the building blocks of concrete runs. */
module QueueScenes {
  import opened Events
  import opened QueueModel
  import opened QueueInvariant
  import opened QueueRuns

  datatype Flight = Flight(deadline: Time, size: nat)

  /** Everything the tables say about the one channel. */
  datatype Scene = Scene(
    queue: seq<Event>,
    cancelled: seq<Event>,
    reason: Option<CancelReason>,
    flight: Option<Flight>,
    throttle: Option<Time>,
    attempts: Option<nat>,
    withheld: seq<Event>)

  const BLANK := Scene([], [], None, None, None, None, [])

  function Entry<T>(c: Channel, v: Option<T>): map<Channel, T> {
    if v.Some? then map[c := v.value] else map[]
  }

  function Table(c: Channel, s: seq<Event>): map<Channel, seq<Event>> {
    if s == [] then map[] else map[c := s]
  }

  function Stage(c: Channel, x: Scene): Queue {
    Queue(Table(c, x.queue),
          if x.flight.Some? then {c} else {},
          if x.flight.Some? then map[c := x.flight.value.deadline] else map[],
          if x.flight.Some? then map[c := x.flight.value.size] else map[],
          Entry(c, x.throttle), Entry(c, x.attempts), Accumulate,
          Table(c, x.cancelled), Entry(c, x.reason), Table(c, x.withheld), DEFAULT_IN_FLIGHT_DEADLINE_SECS)
  }

  lemma BlankIsEmpty(c: Channel)
    ensures Stage(c, BLANK) == Empty(Accumulate)
  {
  }

  lemma ScenePush(c: Channel, x: Scene, e: Event, now: Time)
    requires |x.queue| < MAX_PENDING_PER_CHANNEL
    ensures Next(Stage(c, x), Push(c, e), now) == Stage(c, x.(queue := x.queue + [e]))
  {
  }

  predicate Free(x: Scene, now: Time) {
    x.flight.None? && (x.throttle.Some? ==> x.throttle.value <= now)
  }

  lemma NothingExpires(c: Channel, x: Scene, now: Time)
    requires x.flight.None?
    ensures Expire(Stage(c, x), now) == Stage(c, x)
  {
    assert Expired(Stage(c, x), now) == {};
    assert Expire(Stage(c, x), now).queues == Stage(c, x).queues;
  }

  lemma SceneReady(c: Channel, x: Scene, now: Time)
    requires Free(x, now)
    ensures Candidates(Stage(c, x), now) == if x.queue == [] then {} else {c}
    ensures CancelledReady(Stage(c, x)) == if x.cancelled == [] then {} else {c}
  {
    assert forall d :: Ready(Stage(c, x), d, now) <==> d == c && x.queue != [];
  }

  function SceneBatch(c: Channel, x: Scene): Batch {
    if x.queue != [] then
      Batch(c, SortByCreated(x.queue[..Drained(x.queue)]), x.cancelled, if x.cancelled == [] then None else x.reason)
    else Batch(c, x.cancelled, [], x.reason)
  }

  function Flown(x: Scene, now: Time): Scene {
    Scene(x.queue[Drained(x.queue)..], [], None,
          Some(Flight(now + DEFAULT_IN_FLIGHT_DEADLINE_SECS,
                      if x.queue != [] then Drained(x.queue) else |x.cancelled|)),
          x.throttle, x.attempts, x.withheld)
  }

  lemma SceneTakeQueued(c: Channel, x: Scene, now: Time)
    requires x.flight.None? && x.queue != []
    ensures TakeQueued(Stage(c, x), c, now) == Stage(c, Flown(x, now))
    ensures QueuedBatch(Stage(c, x), c) == SceneBatch(c, x)
  {
    var t, u := TakeQueued(Stage(c, x), c, now), Stage(c, Flown(x, now));
    assert t.queues == u.queues;
    assert t.cancelled == u.cancelled && t.reasons == u.reasons;
    assert t.deadlines == u.deadlines && t.batchSizes == u.batchSizes;
  }

  lemma SceneTakeCancelled(c: Channel, x: Scene, now: Time)
    requires x.flight.None? && x.queue == [] && x.cancelled != []
    ensures TakeCancelled(Stage(c, x), c, now) == Stage(c, Flown(x, now))
    ensures CancelledBatch(Stage(c, x), c) == SceneBatch(c, x)
  {
    var t, u := TakeCancelled(Stage(c, x), c, now), Stage(c, Flown(x, now));
    assert t.cancelled == u.cancelled && t.reasons == u.reasons;
    assert t.deadlines == u.deadlines && t.batchSizes == u.batchSizes;
  }

  lemma SceneFlush(c: Channel, x: Scene, now: Time)
    requires Free(x, now) && (x.queue != [] || x.cancelled != [])
    ensures Allowed(Stage(c, x), FlushNext(Some(c)), now)
    ensures Next(Stage(c, x), FlushNext(Some(c)), now) == Stage(c, Flown(x, now))
    ensures BatchOf(Stage(c, x), Step(FlushNext(Some(c)), now)) == Some(SceneBatch(c, x))
  {
    NothingExpires(c, x, now);
    SceneReady(c, x, now);
    if x.queue != [] {
      SceneTakeQueued(c, x, now);
    } else {
      SceneTakeCancelled(c, x, now);
    }
  }

  lemma CancelTables(c: Channel, x: Scene, b: Batch, w: seq<Event>)
    requires b.channel == c && b.events != [] && w == x.cancelled + b.cancelledEvents + b.events
    ensures Stage(c, x).cancelled[c := At(Stage(c, x).cancelled, c) + b.cancelledEvents + b.events] == Table(c, w)
  {
    assert w[|w| - |b.events|..] == b.events;
    assert At(Stage(c, x).cancelled, c) == x.cancelled;
  }

  lemma SceneCancel(c: Channel, x: Scene, b: Batch, reason: CancelReason, now: Time)
    requires b.channel == c && b.events != []
    ensures Next(Stage(c, x), RequeueAsCancelled(b, reason), now)
         == Stage(c, x.(cancelled := x.cancelled + b.cancelledEvents + b.events, reason := Some(reason)))
  {
    CancelTables(c, x, b, x.cancelled + b.cancelledEvents + b.events);
  }

  lemma FirstBackoff()
    ensures RetryDelay(1, 1.0) == 5.0
  {
    assert BackoffSecs(1) == 5;
  }

  lemma FrontTables(c: Channel, x: Scene, b: Batch)
    requires b.channel == c && b.events != []
    ensures FrontLoaded(Stage(c, x), b) == Stage(c, x.(queue := Cap(b.events + x.queue)))
  {
    assert At(Stage(c, x).queues, c) == x.queue;
    assert b.events + x.queue != [] by { assert (b.events + x.queue)[0] == b.events[0]; }
    MoveIn(c, x.queue, Cap(b.events + x.queue), Stage(c, x).queues);
  }

  lemma SceneRequeue(c: Channel, x: Scene, b: Batch, now: Time)
    requires b.channel == c && b.events != [] && x.attempts.None?
    ensures Next(Stage(c, x), Requeue(b, 1.0), now)
         == Stage(c, x.(queue := Cap(b.events + x.queue), attempts := Some(1), throttle := Some(now + 5.0)))
  {
    FirstBackoff();
    FrontTables(c, x, b);
    assert Attempts(Stage(c, x), c) == 0;
  }

  lemma ScenePreserve(c: Channel, x: Scene, b: Batch, now: Time)
    requires b.channel == c && b.events != []
    ensures Next(Stage(c, x), RequeuePreserve(b), now) == Stage(c, x.(queue := Cap(b.events + x.queue)))
  {
    FrontTables(c, x, b);
  }

  function Landed(x: Scene, now: Time): Scene {
    var throttled := x.throttle.Some? && now < x.throttle.value;
    x.(flight := None, throttle := if throttled then x.throttle else None,
       attempts := if throttled then x.attempts else None)
  }

  lemma SceneComplete(c: Channel, x: Scene, now: Time)
    ensures Next(Stage(c, x), MarkComplete(c), now) == Stage(c, Landed(x, now))
  {
    var t := Next(Stage(c, x), MarkComplete(c), now);
    assert t.inFlight == {} && t.deadlines == map[] && t.batchSizes == map[];
    assert Throttled(Stage(c, x), c, now) <==> x.throttle.Some? && now < x.throttle.value;
  }

  function Lapsed(x: Scene): Scene {
    x.(flight := None, queue := if x.withheld == [] then x.queue else Cap(x.withheld + x.queue), withheld := [])
  }

  lemma SceneRecover(c: Channel, x: Scene)
    ensures Recover(Table(c, x.queue), Table(c, x.withheld), {c}) == Table(c, Lapsed(x).queue)
  {
    if x.withheld != [] { assert (x.withheld + x.queue)[0] == x.withheld[0]; }
  }

  lemma SceneExpire(c: Channel, x: Scene, now: Time)
    requires x.flight.Some? && x.flight.value.deadline <= now
    ensures Next(Stage(c, x), HasFlushableWork, now) == Stage(c, Lapsed(x))
  {
    assert Expired(Stage(c, x), now) == {c};
    SceneRecover(c, x);
    var t := Expire(Stage(c, x), now);
    assert t.inFlight == {} && t.deadlines == map[] && t.batchSizes == map[] && t.withheld == map[];
  }

  lemma MoveOut(c: Channel, q: seq<Event>, i: nat, m: map<Channel, seq<Event>>)
    requires i < |q| && m == Table(c, q)
    ensures Put(m, c, q[..i] + q[i + 1..]) == Table(c, q[..i] + q[i + 1..])
  {
  }

  lemma MoveIn(c: Channel, w: seq<Event>, r: seq<Event>, m: map<Channel, seq<Event>>)
    requires m == Table(c, w) && r != []
    ensures m[c := r] == Table(c, r)
  {
  }

  function Withholding(x: Scene, id: string): Scene
    requires IndexOf(x.queue, id) < |x.queue|
  {
    var i := IndexOf(x.queue, id);
    x.(queue := x.queue[..i] + x.queue[i + 1..], withheld := x.withheld + [x.queue[i]])
  }

  lemma SceneWithhold(c: Channel, x: Scene, id: string)
    requires IndexOf(x.queue, id) < |x.queue|
    ensures Withhold(Stage(c, x), c, id) == Stage(c, Withholding(x, id))
  {
    var i, s := IndexOf(x.queue, id), Stage(c, x);
    assert At(s.queues, c) == x.queue && At(s.withheld, c) == x.withheld;
    MoveOut(c, x.queue, i, s.queues);
    MoveIn(c, x.withheld, x.withheld + [x.queue[i]], s.withheld);
  }

  function Releasing(x: Scene, id: string): Scene
    requires IndexOf(x.withheld, id) < |x.withheld|
  {
    var i := IndexOf(x.withheld, id);
    x.(queue := Cap([x.withheld[i]] + x.queue), withheld := x.withheld[..i] + x.withheld[i + 1..])
  }

  lemma SceneRelease(c: Channel, x: Scene, id: string)
    requires IndexOf(x.withheld, id) < |x.withheld|
    ensures Release(Stage(c, x), c, id) == Stage(c, Releasing(x, id))
  {
    var i, s := IndexOf(x.withheld, id), Stage(c, x);
    assert At(s.queues, c) == x.queue && At(s.withheld, c) == x.withheld;
    MoveOut(c, x.withheld, i, s.withheld);
    MoveIn(c, x.queue, Cap([x.withheld[i]] + x.queue), s.queues);
  }

  lemma SceneRemove(c: Channel, x: Scene, id: string)
    ensures Removed(Stage(c, x), c, id)
         == Stage(c, x.(queue := Without(x.queue, id), withheld := Without(x.withheld, id)))
  {
    assert RemoveId(Table(c, x.queue), c, id) == Table(c, Without(x.queue, id));
    assert RemoveId(Table(c, x.withheld), c, id) == Table(c, Without(x.withheld, id));
  }

  // ---- lengthening a run by one call ----

  lemma PushMore(m: Moment, run: seq<Step>, n: Moment, c: Channel, x: Scene, e: Event, now: Time)
    returns (more: seq<Step>, o: Moment)
    requires Leads(m, run, n) && n.q == Stage(c, x) && n.now <= now && |x.queue| < MAX_PENDING_PER_CHANNEL
    ensures more == run + [Step(Push(c, e), now)] && Leads(m, more, o)
    ensures o == Moment(Stage(c, x.(queue := x.queue + [e])), now, n.out)
  {
    ScenePush(c, x, e, now);
    more, o := PlainMore(m, run, n, Push(c, e), now, Stage(c, x.(queue := x.queue + [e])));
  }

  /** Any call that hands out nothing and returns nothing. */
  lemma PlainMore(m: Moment, run: seq<Step>, n: Moment, op: Op, now: Time, q: Queue)
    returns (more: seq<Step>, o: Moment)
    requires Leads(m, run, n) && n.now <= now && !Returns(op) && !op.FlushNext? && Next(n.q, op, now) == q
    ensures more == run + [Step(op, now)] && Leads(m, more, o) && o == Moment(q, now, n.out)
  {
    PlainStride(n, op, now);
    OneMore(m, run, n, Step(op, now));
    more, o := run + [Step(op, now)], Stride(n, Step(op, now));
  }

  lemma FlushMore(m: Moment, run: seq<Step>, n: Moment, c: Channel, x: Scene, now: Time)
    returns (more: seq<Step>, o: Moment)
    requires Leads(m, run, n) && n.q == Stage(c, x) && n.now <= now
    requires Free(x, now) && (x.queue != [] || x.cancelled != [])
    ensures more == run + [Step(FlushNext(Some(c)), now)] && Leads(m, more, o)
    ensures o == Moment(Stage(c, Flown(x, now)), now, n.out + multiset{Load(SceneBatch(c, x))})
  {
    var step := Step(FlushNext(Some(c)), now);
    SceneFlush(c, x, now);
    OneMore(m, run, n, step);
    more, o := run + [step], Stride(n, step);
  }

  lemma CancelMore(m: Moment, run: seq<Step>, n: Moment, c: Channel, x: Scene, b: Batch, reason: CancelReason,
      now: Time)
    returns (more: seq<Step>, o: Moment)
    requires Leads(m, run, n) && n.q == Stage(c, x) && n.now <= now
    requires b.channel == c && b.events != [] && Load(b) in n.out
    ensures more == run + [Step(RequeueAsCancelled(b, reason), now)] && Leads(m, more, o)
    ensures o == Moment(Stage(c, x.(cancelled := x.cancelled + b.cancelledEvents + b.events, reason := Some(reason))),
                        now, n.out - multiset{Load(b)})
  {
    var step := Step(RequeueAsCancelled(b, reason), now);
    SceneCancel(c, x, b, reason, now);
    OneMore(m, run, n, step);
    more, o := run + [step], Stride(n, step);
  }

  lemma RequeueMore(m: Moment, run: seq<Step>, n: Moment, c: Channel, x: Scene, b: Batch, now: Time)
    returns (more: seq<Step>, o: Moment)
    requires Leads(m, run, n) && n.q == Stage(c, x) && n.now <= now && x.attempts.None?
    requires b.channel == c && b.events != [] && Load(b) in n.out
    ensures more == run + [Step(Requeue(b, 1.0), now)] && Leads(m, more, o)
    ensures o == Moment(Stage(c,
        x.(queue := Cap(b.events + x.queue), attempts := Some(1), throttle := Some(now + 5.0))),
                        now, n.out - multiset{Load(b)})
  {
    var step := Step(Requeue(b, 1.0), now);
    SceneRequeue(c, x, b, now);
    OneMore(m, run, n, step);
    more, o := run + [step], Stride(n, step);
  }

  lemma PreserveMore(m: Moment, run: seq<Step>, n: Moment, c: Channel, x: Scene, b: Batch, now: Time)
    returns (more: seq<Step>, o: Moment)
    requires Leads(m, run, n) && n.q == Stage(c, x) && n.now <= now
    requires b.channel == c && b.events != [] && Load(b) in n.out
    ensures more == run + [Step(RequeuePreserve(b), now)] && Leads(m, more, o)
    ensures o == Moment(Stage(c, x.(queue := Cap(b.events + x.queue))), now, n.out - multiset{Load(b)})
  {
    var step := Step(RequeuePreserve(b), now);
    ScenePreserve(c, x, b, now);
    OneMore(m, run, n, step);
    more, o := run + [step], Stride(n, step);
  }

  lemma CompleteMore(m: Moment, run: seq<Step>, n: Moment, c: Channel, x: Scene, now: Time)
    returns (more: seq<Step>, o: Moment)
    requires Leads(m, run, n) && n.q == Stage(c, x) && n.now <= now
    ensures more == run + [Step(MarkComplete(c), now)] && Leads(m, more, o)
    ensures o == Moment(Stage(c, Landed(x, now)), now, n.out)
  {
    SceneComplete(c, x, now);
    more, o := PlainMore(m, run, n, MarkComplete(c), now, Stage(c, Landed(x, now)));
  }
}
