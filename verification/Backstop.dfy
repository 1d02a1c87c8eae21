/**
 Queue and read loop together: the queue's in-flight backstop is always later than the turn's own
 hard deadline, however many steers renew it, so it never releases a turn that can still be running.
 */
module Backstop {
  import opened Events
  import opened QueueModel
  import opened QueueInvariant
  import opened ReadLoop

  /** `outstanding` holds when each delivered steer was acked, until the main loop has handled it. */
  datatype Joint = Joint(q: Queue, turn: Loop, outstanding: seq<Time>)

  datatype Move =
    | Reading(i: Input)                 // an iteration of the read loop
    | HandlingAck(k: nat, now: Time)    // the main loop extends the deadline for one of the acks, in any order
    | Scheduling(op: Op, now: Time)     // any other call on the queue

  ghost predicate Delivers(p: Params, s: Loop, i: Input) {
    exists r :: Acked(r, Success) in Iterate(p, s, i).emits
  }

  /** Moves while the turn on `c` goes on: it has not left its loop, nor been completed or expired. */
  ghost predicate CanMove(p: Params, j: Joint, m: Move, c: Channel) {
    match m
    case Reading(i) => Possible(p, j.turn, i) && Iterate(p, j.turn, i).exit.None?
    case HandlingAck(k, now) => k < |j.outstanding| && j.outstanding[k] <= now
    case Scheduling(op, now) =>
      Allowed(j.q, op, now) && ReturnsEvents(op) && op != MarkComplete(c) && !Expires(j.q, op, now, c)
  }

  ghost function Moved(p: Params, j: Joint, m: Move, c: Channel, maxTurn: nat): Joint {
    match m
    case Reading(i) =>
      j.(turn := Iterate(p, j.turn, i).loop,
         outstanding := j.outstanding + if Delivers(p, j.turn, i) && i.event.Read? then [i.event.later] else [])
    case HandlingAck(k, now) =>
      j.(q := Extended(j.q, c, maxTurn, now),
         outstanding := if k < |j.outstanding| then j.outstanding[..k] + j.outstanding[k + 1..] else j.outstanding)
    case Scheduling(op, now) => j.(q := Next(j.q, op, now))
  }

  /** The backstop is beyond the turn's hard deadline, or will be once an outstanding ack is handled. */
  ghost predicate Backed(j: Joint, c: Channel, maxTurn: nat) {
    && Inv(j.q) && c in j.q.inFlight
    && (j.turn.hard < j.q.deadlines[c]
        || exists k :: 0 <= k < |j.outstanding| && j.turn.hard <= j.outstanding[k] + maxTurn as real)
  }

  lemma ReadingKeepsBacked(p: Params, j: Joint, i: Input, c: Channel, maxTurn: nat)
    requires p.maxDuration == maxTurn as real && Backed(j, c, maxTurn) && CanMove(p, j, Reading(i), c)
    ensures Backed(Moved(p, j, Reading(i), c, maxTurn), c, maxTurn)
  {
    var n := Moved(p, j, Reading(i), c, maxTurn);
    if n.turn.hard != j.turn.hard {
      RenewalIsDelivered(p, j.turn, i);
      assert n.turn.hard <= n.outstanding[|j.outstanding|] + maxTurn as real;
    } else if !(j.turn.hard < j.q.deadlines[c]) {
      var k :| 0 <= k < |j.outstanding| && j.turn.hard <= j.outstanding[k] + maxTurn as real;
      assert n.outstanding[k] == j.outstanding[k];
    }
  }

  /** The hard deadline moves only for a steer that is acked as delivered in the same iteration. */
  lemma RenewalIsDelivered(p: Params, s: Loop, i: Input)
    requires Iterate(p, s, i).exit.None? && Iterate(p, s, i).loop.hard != s.hard
    ensures Delivers(p, s, i) && i.event.Read?
    ensures Iterate(p, s, i).loop.hard == i.event.later + p.maxDuration
  {
    var o := Iterate(p, s, i);
    assert s.pending.Some? && o.emits == [Acked(s.pending.value.request, Success)];
  }

  lemma HandlingKeepsBacked(p: Params, j: Joint, at: nat, now: Time, c: Channel, maxTurn: nat)
    requires Backed(j, c, maxTurn) && CanMove(p, j, HandlingAck(at, now), c)
    ensures Backed(Moved(p, j, HandlingAck(at, now), c, maxTurn), c, maxTurn)
  {
    var n := Moved(p, j, HandlingAck(at, now), c, maxTurn);
    ExtensionKeepsInv(j.q, c, maxTurn, now);
    if !(j.turn.hard < j.q.deadlines[c]) {
      var k :| 0 <= k < |j.outstanding| && j.turn.hard <= j.outstanding[k] + maxTurn as real;
      if k < at {
        assert n.outstanding[k] == j.outstanding[k];
      } else if k > at {
        assert n.outstanding[k - 1] == j.outstanding[k];
      }
    }
  }

  lemma SchedulingKeepsBacked(p: Params, j: Joint, op: Op, now: Time, c: Channel, maxTurn: nat)
    requires Backed(j, c, maxTurn) && CanMove(p, j, Scheduling(op, now), c)
    ensures Backed(Moved(p, j, Scheduling(op, now), c, maxTurn), c, maxTurn)
  {
    StepKeepsInv(j.q, op, now);
    StaysInFlight(j.q, op, now, c);
  }

  ghost predicate IsJointRun(p: Params, j: Joint, moves: seq<Move>, c: Channel, maxTurn: nat)
    decreases |moves|
  {
    moves == [] ||
    (CanMove(p, j, moves[0], c) && IsJointRun(p, Moved(p, j, moves[0], c, maxTurn), moves[1..], c, maxTurn))
  }

  ghost function JointEnd(p: Params, j: Joint, moves: seq<Move>, c: Channel, maxTurn: nat): Joint
    decreases |moves|
  {
    if moves == [] then j else JointEnd(p, Moved(p, j, moves[0], c, maxTurn), moves[1..], c, maxTurn)
  }

  lemma {:induction false} JointRunKeepsBacked(p: Params, j: Joint, moves: seq<Move>, c: Channel, maxTurn: nat)
    requires p.maxDuration == maxTurn as real && Backed(j, c, maxTurn) && IsJointRun(p, j, moves, c, maxTurn)
    ensures Backed(JointEnd(p, j, moves, c, maxTurn), c, maxTurn)
    decreases |moves|
  {
    if moves != [] {
      match moves[0] {
        case Reading(i) => ReadingKeepsBacked(p, j, i, c, maxTurn);
        case HandlingAck(k, now) => HandlingKeepsBacked(p, j, k, now, c, maxTurn);
        case Scheduling(op, now) => SchedulingKeepsBacked(p, j, op, now, c, maxTurn);
      }
      JointRunKeepsBacked(p, Moved(p, j, moves[0], c, maxTurn), moves[1..], c, maxTurn);
    }
  }

  /** A turn is backed from the start exactly when its prompt is sent within the buffer after its flush. */
  lemma BackedFromTheStart(q: Queue, c: Channel, flushed: Time, prompted: Time, maxTurn: nat, turn: Loop)
    requires Inv(q) && PickFits(q, Some(c), flushed)
    requires q.span == maxTurn as real + 100.0
    requires turn.hard == prompted + maxTurn as real
    ensures Backed(Joint(FlushedState(q, Some(c), flushed), turn, []), c, maxTurn)
            <==> prompted < flushed + 100.0
  {
    FlushKeepsInv(q, Some(c), flushed);
  }

  /**
   For a turn prompted within the buffer after its flush, through any interleaving of reading, ack handling
   and scheduling: with no ack outstanding the backstop is strictly later than the turn's hard deadline, and
   any call that would expire the channel comes after that deadline has passed.
   */
  lemma BackstopOutlivesTheTurn(p: Params, q: Queue, c: Channel, flushed: Time, prompted: Time, maxTurn: nat,
                                turn: Loop, moves: seq<Move>, op: Op, now: Time)
    requires Inv(q) && PickFits(q, Some(c), flushed)
    requires q.span == maxTurn as real + 100.0 && p.maxDuration == maxTurn as real
    requires turn.hard == prompted + maxTurn as real && prompted < flushed + 100.0
    requires IsJointRun(p, Joint(FlushedState(q, Some(c), flushed), turn, []), moves, c, maxTurn)
    ensures var n := JointEnd(p, Joint(FlushedState(q, Some(c), flushed), turn, []), moves, c, maxTurn);
            && c in n.q.inFlight
            && (n.outstanding == [] ==> c in n.q.deadlines && n.turn.hard < n.q.deadlines[c])
            && (n.outstanding == [] && Expires(n.q, op, now, c) ==> n.turn.hard < now)
  {
    BackedFromTheStart(q, c, flushed, prompted, maxTurn, turn);
    JointRunKeepsBacked(p, Joint(FlushedState(q, Some(c), flushed), turn, []), moves, c, maxTurn);
  }
}
