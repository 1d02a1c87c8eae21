/**
 Steer requests and the events they stand for, from the main loop through a turn and back: each request carries one
 event, which is withheld meanwhile and settled the way its own request was resolved.
 */
module SteerJourneys {
  import opened Events
  import opened QueueModel
  import opened QueueInvariant
  import opened ReadLoop
  import opened TurnProperties
  import opened SteerSettlement

  /**
   The queue, a turn of one channel, and what the main loop keeps of it: the event id of each request sent so far,
   the events still withheld for one, what the read loop has emitted, which requests were settled, and
   whether the turn is over.
   */
  datatype Journey = Journey(
    q: Queue,
    turn: Loop,
    asked: seq<string>,
    held: map<nat, Event>,
    emits: seq<Emit>,
    settled: set<nat>,
    over: bool)

  datatype Move =
    | Ask(id: string)                   // a steer is sent to the read loop and its event withheld
    | Reading(i: Input)                 // an iteration of the read loop
    | Abandon(w: Await)                 // a control signal drops the loop
    | Settle(r: nat, now: Time)         // the watcher of a request reports how it was resolved
    | Scheduling(op: Op, now: Time)     // any other call on the queue

  /** The read loop or its end has resolved the request: answered it, let it go, or never taken it. */
  ghost predicate Answered(j: Journey, r: nat) {
    Resolved(j.emits, r) == 1 || (j.over && j.turn.received <= r)
  }

  ghost predicate IsDelivered(j: Journey, r: nat) {
    Acked(r, Success) in j.emits
  }

  ghost function SettleOp(j: Journey, r: nat, c: Channel): Op
    requires r < |j.asked|
  {
    if IsDelivered(j, r) then RemoveEvent(c, j.asked[r]) else ReleaseSteer(c, j.asked[r])
  }

  ghost predicate CanMove(p: Params, j: Journey, m: Move, c: Channel) {
    match m
    case Ask(id) => !j.over && FirstOf(At(j.q.withheld, c), id).None?
    case Reading(i) =>
      !j.over && Possible(p, j.turn, i) && (i.event.SteerRequest? ==> j.turn.received < |j.asked|)
    case Abandon(w) =>
      !j.over && !w.WritingPrompt? && CanAwait(p, j.turn, w) && (w.WritingSteer? ==> j.turn.received < |j.asked|)
    case Settle(r, _) => r < |j.asked| && r !in j.settled && Answered(j, r)
    case Scheduling(op, now) =>
      && Allowed(j.q, op, now) && ReturnsEvents(op)
      && !((op.MarkSteerPending? || op.ReleaseSteer? || op.RemoveEvent?) && op.channel == c)
  }

  /** A call that takes every withheld event of the channel out of its table. */
  ghost predicate Unholds(q: Queue, op: Op, now: Time, c: Channel) {
    op == DrainChannel(c) || Expires(q, op, now, c)
  }

  ghost function Asked(j: Journey, id: string, c: Channel): Journey {
    var q := At(j.q.queues, c);
    var i := IndexOf(q, id);
    j.(q := Withhold(j.q, c, id), asked := j.asked + [id],
       held := if i < |q| then j.held[|j.asked| := q[i]] else j.held)
  }

  ghost function Settled(j: Journey, r: nat, now: Time, c: Channel): Journey
    requires r < |j.asked|
  {
    j.(q := Next(j.q, SettleOp(j, r, c), now), settled := j.settled + {r},
       held := map h | h in j.held && (h < |j.asked| ==> j.asked[h] != j.asked[r]) :: j.held[h])
  }

  ghost function Moved(p: Params, j: Journey, m: Move, c: Channel): Journey
    requires CanMove(p, j, m, c)
  {
    match m
    case Ask(id) => Asked(j, id, c)
    case Reading(i) =>
      var o := Iterate(p, j.turn, i);
      j.(turn := o.loop, emits := j.emits + o.emits, over := o.exit.Some?)
    case Abandon(w) =>
      var o := Abandoned(p, j.turn, w);
      j.(turn := o.loop, emits := j.emits + o.emits, over := true)
    case Settle(r, now) => Settled(j, r, now, c)
    case Scheduling(op, now) =>
      j.(q := Next(j.q, op, now), held := if Unholds(j.q, op, now, c) then map[] else j.held)
  }

  // ---- what every move keeps ----

  /** The withheld table has the events held, each for its own request and no other. */
  ghost predicate Holding(j: Journey, c: Channel) {
    && (forall h :: h in j.held ==> h < |j.asked| && h !in j.settled)
    && (forall h :: h in j.held ==> FirstOf(At(j.q.withheld, c), j.asked[h]) == Some(j.held[h]))
    && (forall h, k :: h in j.held && k in j.held && h != k ==> j.asked[h] != j.asked[k])
  }

  /** The read loop has taken only requests that were sent, and resolved each but the one in flight. */
  ghost predicate Taking(p: Params, j: Journey) {
    && LoopInv(p, j.turn) && j.turn.received <= |j.asked| && (j.over ==> j.turn.pending.None?)
    && (forall r: nat :: Resolved(j.emits, r) + Waiting(j.turn, r) == if r < j.turn.received then 1 else 0)
  }

  /** Only requests that were sent are ever settled. */
  ghost predicate SettlesSent(j: Journey) {
    forall r :: r in j.settled ==> r < |j.asked|
  }

  ghost predicate OnCourse(p: Params, j: Journey, c: Channel) {
    Inv(j.q) && Holding(j, c) && Taking(p, j)
  }

  lemma {:induction false} NewIsFirst(w: seq<Event>, x: Event)
    requires FirstOf(w, x.id).None?
    ensures FirstOf(w + [x], x.id) == Some(x)
  {
    IndexOfBack(w, x);
  }

  lemma AskTables(s: Queue, c: Channel, id: string)
    ensures var q := At(s.queues, c);
            var i := IndexOf(q, id);
            At(Withhold(s, c, id).withheld, c) == At(s.withheld, c) + if i < |q| then [q[i]] else []
  {
  }

  lemma AskKeepsHolding(p: Params, j: Journey, id: string, c: Channel)
    requires Holding(j, c) && SettlesSent(j) && CanMove(p, j, Ask(id), c)
    ensures Holding(Asked(j, id, c), c)
  {
    var q := At(j.q.queues, c);
    var i := IndexOf(q, id);
    AskTables(j.q, c, id);
    AskKeepsOthers(j, id, c);
    if i < |q| { NewIsFirst(At(j.q.withheld, c), q[i]); }
  }

  lemma AskKeepsOthers(j: Journey, id: string, c: Channel)
    requires Holding(j, c) && FirstOf(At(j.q.withheld, c), id).None?
    ensures forall h :: h in j.held ==>
              FirstOf(At(Withhold(j.q, c, id).withheld, c), j.asked[h]) == Some(j.held[h]) && j.asked[h] != id
  {
    forall h | h in j.held
      ensures FirstOf(At(Withhold(j.q, c, id).withheld, c), j.asked[h]) == Some(j.held[h]) && j.asked[h] != id
    {
      WithholdWindow(j.q, c, id, j.asked[h]);
    }
  }

  lemma SettleKeepsHolding(p: Params, j: Journey, r: nat, now: Time, c: Channel)
    requires Holding(j, c) && CanMove(p, j, Settle(r, now), c)
    ensures Holding(Settled(j, r, now, c), c)
  {
    var n := Settled(j, r, now, c);
    forall h | h in n.held ensures FirstOf(At(n.q.withheld, c), j.asked[h]) == Some(j.held[h]) {
      if IsDelivered(j, r) {
        RemoveStep(j.q, c, j.asked[r], j.asked[h], now);
      } else {
        ReleaseStep(j.q, c, j.asked[r], j.asked[h], now);
      }
    }
  }

  lemma SchedulingKeepsHolding(p: Params, j: Journey, op: Op, now: Time, c: Channel)
    requires Holding(j, c) && CanMove(p, j, Scheduling(op, now), c)
    ensures Holding(Moved(p, j, Scheduling(op, now), c), c)
  {
    if !Unholds(j.q, op, now, c) { WindowKeeps(j.q, op, now, c); }
  }

  lemma EmitsTaken(p: Params, j: Journey, o: Outcome, n: Journey)
    requires Taking(p, j) && LoopInv(p, o.loop) && o.loop.received <= |j.asked|
    requires forall r: nat :: Conserves(j.turn, o, r)
    requires n.turn == o.loop && n.emits == j.emits + o.emits && n.asked == j.asked
    requires n.over ==> o.loop.pending.None?
    ensures Taking(p, n)
  {
    forall r: nat ensures Resolved(n.emits, r) + Waiting(n.turn, r) == if r < n.turn.received then 1 else 0 {
      assert Conserves(j.turn, o, r);
      ResolvedCat(j.emits, o.emits, r);
    }
  }

  lemma ReadingTakes(p: Params, s: Loop, i: Input)
    requires Possible(p, s, i)
    ensures Iterate(p, s, i).loop.received <= s.received + if i.event.SteerRequest? then 1 else 0
  {
  }

  lemma ReadingKeepsTaking(p: Params, j: Journey, i: Input, c: Channel)
    requires Taking(p, j) && CanMove(p, j, Reading(i), c)
    ensures Taking(p, Moved(p, j, Reading(i), c))
  {
    var o := Iterate(p, j.turn, i);
    IterationKeepsInv(p, j.turn, i);
    ReadingTakes(p, j.turn, i);
    forall r: nat ensures Conserves(j.turn, o, r) {
      IterationConserves(p, j.turn, i, r);
    }
    assert Conserves(j.turn, o, 0);
    EmitsTaken(p, j, o, Moved(p, j, Reading(i), c));
  }

  lemma AbandonKeepsTaking(p: Params, j: Journey, w: Await, c: Channel)
    requires Taking(p, j) && CanMove(p, j, Abandon(w), c)
    ensures Taking(p, Moved(p, j, Abandon(w), c))
  {
    var o := Abandoned(p, j.turn, w);
    forall r: nat ensures Conserves(j.turn, o, r) && o.loop.pending.None? {
      AbandonConserves(p, j.turn, w, r);
    }
    assert Conserves(j.turn, o, 0);
    EmitsTaken(p, j, o, Moved(p, j, Abandon(w), c));
  }

  lemma SettleOpKeepsInv(j: Journey, r: nat, now: Time, c: Channel)
    requires Inv(j.q) && r < |j.asked|
    ensures Inv(Next(j.q, SettleOp(j, r, c), now))
  {
    StepKeepsInv(j.q, SettleOp(j, r, c), now);
  }

  lemma MoveKeepsCourse(p: Params, j: Journey, m: Move, c: Channel)
    requires OnCourse(p, j, c) && SettlesSent(j) && CanMove(p, j, m, c)
    ensures OnCourse(p, Moved(p, j, m, c), c) && SettlesSent(Moved(p, j, m, c))
  {
    match m
    case Ask(id) =>
      WithholdKeepsInv(j.q, c, id);
      AskKeepsHolding(p, j, id, c);
    case Reading(i) => ReadingKeepsTaking(p, j, i, c);
    case Abandon(w) => AbandonKeepsTaking(p, j, w, c);
    case Settle(r, now) =>
      SettleOpKeepsInv(j, r, now, c);
      SettleKeepsHolding(p, j, r, now, c);
    case Scheduling(op, now) =>
      StepKeepsInv(j.q, op, now);
      SchedulingKeepsHolding(p, j, op, now, c);
  }

  ghost predicate CanTravel(p: Params, j: Journey, moves: seq<Move>, c: Channel)
    decreases |moves|
  {
    moves == [] || (CanMove(p, j, moves[0], c) && CanTravel(p, Moved(p, j, moves[0], c), moves[1..], c))
  }

  ghost function Travelled(p: Params, j: Journey, moves: seq<Move>, c: Channel): Journey
    requires CanTravel(p, j, moves, c)
    decreases |moves|
  {
    if moves == [] then j else Travelled(p, Moved(p, j, moves[0], c), moves[1..], c)
  }

  lemma {:induction false} TravelKeepsCourse(p: Params, j: Journey, moves: seq<Move>, c: Channel)
    requires OnCourse(p, j, c) && SettlesSent(j) && CanTravel(p, j, moves, c)
    ensures OnCourse(p, Travelled(p, j, moves, c), c) && SettlesSent(Travelled(p, j, moves, c))
    decreases |moves|
  {
    if moves != [] {
      MoveKeepsCourse(p, j, moves[0], c);
      TravelKeepsCourse(p, Moved(p, j, moves[0], c), moves[1..], c);
    }
  }

  // ---- settling ----

  /** Where a turn begins: nothing sent, nothing withheld for it. */
  ghost function Departure(q: Queue, turn: Loop): Journey {
    Journey(q, turn, [], map[], [], {}, false)
  }

  lemma SettledTables(p: Params, j: Journey, r: nat, now: Time, c: Channel)
    requires OnCourse(p, j, c) && CanMove(p, j, Settle(r, now), c)
    ensures var u := Settled(j, r, now, c).q;
            && (IsDelivered(j, r) ==>
                  forall y :: y in At(u.queues, c) || y in At(u.withheld, c) ==> y.id != j.asked[r])
            && (!IsDelivered(j, r) && r in j.held ==> At(u.queues, c) != [] && At(u.queues, c)[0] == j.held[r])
            && (!IsDelivered(j, r) && FirstOf(At(j.q.withheld, c), j.asked[r]).None? ==> u == j.q)
  {
    if IsDelivered(j, r) {
      NoCopyLeft(j.q, c, j.asked[r]);
    } else if r in j.held {
      ReleasedHead(j.q, c, j.asked[r], j.held[r]);
    }
  }

  lemma NoCopyLeft(t: Queue, c: Channel, id: string)
    ensures forall y :: y in At(Removed(t, c, id).queues, c) || y in At(Removed(t, c, id).withheld, c) ==> y.id != id
  {
    forall y ensures y in At(Removed(t, c, id).queues, c) || y in At(Removed(t, c, id).withheld, c) ==> y.id != id {
      DeliveredIsGone(t, c, id, y);
    }
  }

  /**
   A steered event from its request to its end. At any point of any journey: the event of a request that is not settled
   is withheld, unless its channel expired or was drained; the request is resolved in at most one way, and
   settling it that way leaves no copy of its own event in either table if the steer was delivered, that event
   at the head of its channel's queue if it was not, and nothing changed if it is no longer withheld.
   */
  lemma SteerIsSettled(p: Params, q: Queue, turn: Loop, moves: seq<Move>, r: nat, now: Time, c: Channel)
    requires Inv(q) && LoopInv(p, turn) && turn.received == 0 && turn.pending.None?
    requires CanTravel(p, Departure(q, turn), moves, c)
    ensures var j := Travelled(p, Departure(q, turn), moves, c);
            && (r in j.held ==> r < |j.asked| && FirstOf(At(j.q.withheld, c), j.asked[r]) == Some(j.held[r]))
            && Resolved(j.emits, r) <= 1
            && (CanMove(p, j, Settle(r, now), c) ==>
                  var u := Moved(p, j, Settle(r, now), c).q;
                  && (IsDelivered(j, r) ==>
                        forall y :: y in At(u.queues, c) || y in At(u.withheld, c) ==> y.id != j.asked[r])
                  && (!IsDelivered(j, r) && r in j.held ==>
                        At(u.queues, c) != [] && At(u.queues, c)[0] == j.held[r])
                  && (!IsDelivered(j, r) && FirstOf(At(j.q.withheld, c), j.asked[r]).None? ==> u == j.q))
  {
    StartsOnCourse(p, q, turn, c);
    TravelKeepsCourse(p, Departure(q, turn), moves, c);
    var j := Travelled(p, Departure(q, turn), moves, c);
    assert Resolved(j.emits, r) + Waiting(j.turn, r) == if r < j.turn.received then 1 else 0;
    if CanMove(p, j, Settle(r, now), c) { SettledTables(p, j, r, now, c); }
  }

  lemma StartsOnCourse(p: Params, q: Queue, turn: Loop, c: Channel)
    requires Inv(q) && LoopInv(p, turn) && turn.received == 0 && turn.pending.None?
    ensures OnCourse(p, Departure(q, turn), c) && SettlesSent(Departure(q, turn))
  {
    assert forall r: nat :: Resolved([], r) == 0;
  }

  /**
   No event stays withheld: when the turn is over, answered or abandoned, every request that was sent can be
   settled, and once all are, none holds an event.
   */
  lemma EveryRequestCanBeSettled(p: Params, q: Queue, turn: Loop, moves: seq<Move>, c: Channel)
    requires Inv(q) && LoopInv(p, turn) && turn.received == 0 && turn.pending.None?
    requires CanTravel(p, Departure(q, turn), moves, c)
    ensures var j := Travelled(p, Departure(q, turn), moves, c);
            && (j.over ==> forall r :: 0 <= r < |j.asked| ==> Answered(j, r))
            && ((forall r :: 0 <= r < |j.asked| ==> r in j.settled) ==> j.held == map[])
  {
    StartsOnCourse(p, q, turn, c);
    TravelKeepsCourse(p, Departure(q, turn), moves, c);
    var j := Travelled(p, Departure(q, turn), moves, c);
    if j.over {
      forall r | 0 <= r < |j.asked| ensures Answered(j, r) {
        assert Resolved(j.emits, r) + Waiting(j.turn, r) == if r < j.turn.received then 1 else 0;
      }
    }
    if forall r :: 0 <= r < |j.asked| ==> r in j.settled { assert j.held.Keys == {}; }
  }
}
