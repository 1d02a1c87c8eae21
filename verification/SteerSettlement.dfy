/**
 What settling does to a withheld event: a delivered steer consumes it, anything else puts it back in front of
 its queue.
 */
module SteerSettlement {
  import opened Events
  import opened QueueModel
  import opened QueueLocality
  import opened QueueInvariant
  import opened QueueLedger

  lemma {:induction false} WithoutOne(s: seq<Event>, i: nat, id: string)
    requires i < |s| && s[i].id == id
    ensures Without(s[..i] + s[i + 1..], id) == Without(s, id)
    decreases i
  {
    if i == 0 {
      assert s[..0] + s[1..] == s[1..];
    } else {
      WithoutOne(s[1..], i - 1, id);
      var r := s[..i] + s[i + 1..];
      assert r[0] == s[0] && r[1..] == s[1..][..i - 1] + s[1..][i..];
    }
  }

  lemma RemoveAfterTaking(m: map<Channel, seq<Event>>, c: Channel, i: nat, id: string)
    requires i < |At(m, c)| && At(m, c)[i].id == id
    ensures RemoveId(Put(m, c, At(m, c)[..i] + At(m, c)[i + 1..]), c, id) == RemoveId(m, c, id)
  {
    var rest := At(m, c)[..i] + At(m, c)[i + 1..];
    WithoutOne(At(m, c), i, id);
    if rest == [] { assert Without(rest, id) == []; }
  }

  lemma RemoveAfterAdding(m: map<Channel, seq<Event>>, c: Channel, e: Event)
    requires NonEmpty(m)
    ensures RemoveId(m[c := At(m, c) + [e]], c, e.id) == RemoveId(m, c, e.id)
  {
    var w := At(m, c) + [e];
    WithoutOne(w, |w| - 1, e.id);
    assert w[..|w| - 1] + w[|w|..] == At(m, c);
  }

  /** A delivered steer leaves the queue as if the event had been taken out of it directly. */
  lemma DeliveredConsumes(s: Queue, c: Channel, id: string)
    requires Inv(s)
    ensures Removed(Withhold(s, c, id), c, id) == Removed(s, c, id)
  {
    var q := At(s.queues, c);
    var i := IndexOf(q, id);
    if i < |q| {
      RemoveAfterTaking(s.queues, c, i, id);
      RemoveAfterAdding(s.withheld, c, q[i]);
    }
  }

  /** And no copy of the event is left to be handed out or released, while every other event stays. */
  lemma DeliveredIsGone(s: Queue, c: Channel, id: string, e: Event)
    ensures var t := Removed(s, c, id);
            && (e in At(t.queues, c) <==> e in At(s.queues, c) && e.id != id)
            && (e in At(t.withheld, c) <==> e in At(s.withheld, c) && e.id != id)
  {
    WithoutMembers(At(s.queues, c), id);
    WithoutMembers(At(s.withheld, c), id);
  }

  lemma IndexOfBack(w: seq<Event>, e: Event)
    requires IndexOf(w, e.id) == |w|
    ensures IndexOf(w + [e], e.id) == |w|
  {
    assert (w + [e])[|w|] == e;
    assert forall j :: 0 <= j < |w| ==> (w + [e])[j] == w[j];
  }

  lemma PutBack(m: map<Channel, seq<Event>>, c: Channel, e: Event)
    requires NonEmpty(m)
    ensures Put(m[c := At(m, c) + [e]], c, At(m, c)) == m
  {
  }

  /** What withholding an event of a queue does to the two tables. */
  lemma WithheldTables(s: Queue, c: Channel, id: string)
    requires IndexOf(At(s.queues, c), id) < |At(s.queues, c)|
    ensures var q, t := At(s.queues, c), Withhold(s, c, id);
            var i := IndexOf(q, id);
            && t == s.(queues := t.queues, withheld := t.withheld)
            && t.withheld == s.withheld[c := At(s.withheld, c) + [q[i]]]
            && At(t.queues, c) == q[..i] + q[i + 1..] && t.queues[c := q] == s.queues[c := q]
  {
  }

  lemma ReleaseTables(t: Queue, c: Channel, id: string, w: seq<Event>, e: Event)
    requires At(t.withheld, c) == w + [e] && IndexOf(w + [e], id) == |w| && |At(t.queues, c)| < MAX_PENDING_PER_CHANNEL
    ensures var u := Release(t, c, id);
            && u == t.(queues := u.queues, withheld := u.withheld)
            && u.withheld == Put(t.withheld, c, w) && u.queues == t.queues[c := [e] + At(t.queues, c)]
  {
    assert (w + [e])[..|w|] == w && (w + [e])[|w| + 1..] == [];
    assert w + [] == w;
  }

  /** The queue after an event was withheld and released again: the event has moved to its front. */
  lemma ReleasedQueue(s: Queue, c: Channel, id: string)
    requires Inv(s) && IndexOf(At(s.queues, c), id) < |At(s.queues, c)|
    requires IndexOf(At(s.withheld, c), id) == |At(s.withheld, c)|
    ensures var q, u := At(s.queues, c), Release(Withhold(s, c, id), c, id);
            var i := IndexOf(q, id);
            && u == s.(queues := u.queues) && u.queues == s.queues[c := [q[i]] + (q[..i] + q[i + 1..])]
  {
    var q, w, t := At(s.queues, c), At(s.withheld, c), Withhold(s, c, id);
    var i := IndexOf(q, id);
    WithheldTables(s, c, id);
    IndexOfBack(w, q[i]);
    ReleaseTables(t, c, id, w, q[i]);
    PutBack(s.withheld, c, q[i]);
    var back := [q[i]] + (q[..i] + q[i + 1..]);
    assert t.queues[c := back] == t.queues[c := q][c := back];
  }

  lemma RotationFixed(q: seq<Event>, i: nat)
    requires i < |q| && forall j :: 0 <= j < i ==> q[j].id != q[i].id
    ensures [q[i]] + (q[..i] + q[i + 1..]) == q <==> i == 0
  {
    var r := [q[i]] + (q[..i] + q[i + 1..]);
    assert r[0] == q[i];
    if i == 0 { assert r == q; }
  }

  lemma SameButQueues(s: Queue, u: Queue)
    requires u == s.(queues := u.queues)
    ensures u == s <==> u.queues == s.queues
  {
  }

  /**
   Released at once, an event takes its old place back exactly when it was the head of its queue: otherwise
   it overtakes those that were in front of it.
   */
  lemma UndeliveredRestoresExactly(s: Queue, c: Channel, id: string)
    requires Inv(s) && IndexOf(At(s.queues, c), id) < |At(s.queues, c)|
    requires IndexOf(At(s.withheld, c), id) == |At(s.withheld, c)|
    ensures var u := Release(Withhold(s, c, id), c, id);
            && (u == s <==> IndexOf(At(s.queues, c), id) == 0)
            && multiset(At(u.queues, c)) == multiset(At(s.queues, c)) && u.withheld == s.withheld
  {
    var q, u := At(s.queues, c), Release(Withhold(s, c, id), c, id);
    var i := IndexOf(q, id);
    var back := [q[i]] + (q[..i] + q[i + 1..]);
    ReleasedQueue(s, c, id);
    SameButQueues(s, u);
    RotationFixed(q, i);
    SetFixed(s.queues, c, back);
    RotationKeepsAll(q, i);
    assert At(u.queues, c) == back;
  }

  lemma RotationKeepsAll(q: seq<Event>, i: nat)
    requires i < |q|
    ensures multiset([q[i]] + (q[..i] + q[i + 1..])) == multiset(q)
  {
    RemoveAtSplits(q, i);
  }

  lemma SetFixed(m: map<Channel, seq<Event>>, c: Channel, r: seq<Event>)
    requires c in m
    ensures m[c := r] == m <==> r == m[c]
  {
    if r == m[c] { assert m[c := r] == m; }
  }

  // ---- releasing after the acknowledgement window ----

  /** The first withheld event with this id. */
  ghost function FirstOf(w: seq<Event>, id: string): Option<Event> {
    if IndexOf(w, id) < |w| then Some(w[IndexOf(w, id)]) else None
  }

  /** The queue after a release: the event in front, and the newest event cut off when it was full. */
  lemma ReleasedHead(t: Queue, c: Channel, id: string, x: Event)
    requires FirstOf(At(t.withheld, c), id) == Some(x)
    ensures At(Release(t, c, id).queues, c) == Cap([x] + At(t.queues, c))
  {
  }

  /** What a release loses: whatever the cap cuts off. */
  lemma ReleaseLeavesOut(t: Queue, c: Channel, id: string, x: Event, e: Event)
    requires FirstOf(At(t.withheld, c), id) == Some(x)
    ensures Held(Release(t, c, id), c, e) + Times(Overflow([x] + At(t.queues, c)), e) == Held(t, c, e)
  {
    var w := At(t.withheld, c);
    var i := IndexOf(w, id);
    ReleaseTakes(t, c, id);
    ReleasedHead(t, c, id, x);
    RemoveAtSplits(w, i);
    CapSplits([x] + At(t.queues, c), e);
    assert Times([x] + At(t.queues, c), e) == Times([x], e) + Times(At(t.queues, c), e);
  }

  /**
   Whatever happened while the acknowledgement was awaited, a release keeps every event exactly when the queue has
   room for one more; a full queue loses its newest event.
   */
  lemma ReleaseRestoresExactly(t: Queue, c: Channel, id: string, x: Event)
    requires Inv(t) && FirstOf(At(t.withheld, c), id) == Some(x)
    ensures (forall e :: Held(Release(t, c, id), c, e) == Held(t, c, e)) <==>
            |At(t.queues, c)| < MAX_PENDING_PER_CHANNEL
    ensures |At(t.queues, c)| == MAX_PENDING_PER_CHANNEL ==>
            var e := At(t.queues, c)[MAX_PENDING_PER_CHANNEL - 1];
            Held(Release(t, c, id), c, e) == Held(t, c, e) - 1
  {
    var q := At(t.queues, c);
    FrontOverflow(x, q);
    if |q| == MAX_PENDING_PER_CHANNEL {
      ReleaseLeavesOut(t, c, id, x, q[MAX_PENDING_PER_CHANNEL - 1]);
    } else {
      forall e ensures Held(Release(t, c, id), c, e) == Held(t, c, e) {
        ReleaseLeavesOut(t, c, id, x, e);
      }
    }
  }

  lemma FrontOverflow(x: Event, q: seq<Event>)
    requires |q| <= MAX_PENDING_PER_CHANNEL
    ensures Overflow([x] + q) == if |q| == MAX_PENDING_PER_CHANNEL then [q[MAX_PENDING_PER_CHANNEL - 1]] else []
  {
  }

  // ---- the whole way of a steered event ----

  lemma {:induction false} FirstAfterRemoval(w: seq<Event>, i: nat, id: string)
    requires i < |w| && w[i].id != id
    ensures FirstOf(w[..i] + w[i + 1..], id) == FirstOf(w, id)
    decreases i
  {
    if i == 0 {
      assert w[..0] + w[1..] == w[1..];
    } else {
      FirstAfterRemoval(w[1..], i - 1, id);
      var r := w[..i] + w[i + 1..];
      assert r[0] == w[0] && r[1..] == w[1..][..i - 1] + w[1..][i..];
    }
  }

  lemma {:induction false} FirstWithout(w: seq<Event>, other: string, id: string)
    requires other != id
    ensures FirstOf(Without(w, other), id) == FirstOf(w, id)
  {
    if w != [] {
      FirstWithout(w[1..], other, id);
      var r := Without(w, other);
      if w[0].id != other { assert r[0] == w[0] && r[1..] == Without(w[1..], other); }
    }
  }

  lemma {:induction false} FirstBeforeMore(w: seq<Event>, e: Event, id: string)
    requires FirstOf(w, id).Some?
    ensures FirstOf(w + [e], id) == FirstOf(w, id)
  {
    if w[0].id != id {
      FirstBeforeMore(w[1..], e, id);
      assert (w + [e])[1..] == w[1..] + [e];
    }
  }

  /** A call made while the acknowledgement is awaited: it neither settles the event itself nor drops or expires `c`. */
  ghost predicate LeavesWithheld(s: Queue, step: Step, c: Channel, id: string) {
    && step.op != ReleaseSteer(c, id) && step.op != RemoveEvent(c, id) && step.op != DrainChannel(c)
    && !Expires(s, step.op, step.now, c)
  }

  lemma WithholdWindow(s: Queue, c: Channel, other: string, id: string)
    requires FirstOf(At(s.withheld, c), id).Some?
    ensures FirstOf(At(Withhold(s, c, other).withheld, c), id) == FirstOf(At(s.withheld, c), id)
  {
    var q := At(s.queues, c);
    if IndexOf(q, other) < |q| { FirstBeforeMore(At(s.withheld, c), q[IndexOf(q, other)], id); }
  }

  lemma ReleaseWindow(s: Queue, c: Channel, other: string, id: string)
    requires other != id
    ensures FirstOf(At(Release(s, c, other).withheld, c), id) == FirstOf(At(s.withheld, c), id)
  {
    ReleaseTakes(s, c, other);
    FirstWithoutOne(At(s.withheld, c), other, id);
  }

  /** A sequence without the first event of this id. */
  function WithoutFirst(w: seq<Event>, id: string): seq<Event> {
    var i := IndexOf(w, id);
    if i < |w| then w[..i] + w[i + 1..] else w
  }

  lemma FirstWithoutOne(w: seq<Event>, other: string, id: string)
    requires other != id
    ensures FirstOf(WithoutFirst(w, other), id) == FirstOf(w, id)
  {
    var i := IndexOf(w, other);
    if i < |w| { FirstAfterRemoval(w, i, id); }
  }

  lemma ReleaseTakes(s: Queue, c: Channel, id: string)
    ensures At(Release(s, c, id).withheld, c) == WithoutFirst(At(s.withheld, c), id)
  {
  }

  lemma RemoveWindow(s: Queue, c: Channel, other: string, id: string)
    requires other != id
    ensures FirstOf(At(Removed(s, c, other).withheld, c), id) == FirstOf(At(s.withheld, c), id)
  {
    FirstWithout(At(s.withheld, c), other, id);
  }

  lemma MarkStep(s: Queue, c: Channel, other: string, id: string, now: Time)
    requires FirstOf(At(s.withheld, c), id).Some?
    ensures FirstOf(At(Next(s, MarkSteerPending(c, other), now).withheld, c), id) == FirstOf(At(s.withheld, c), id)
  {
    WithholdWindow(s, c, other, id);
    assert Next(s, MarkSteerPending(c, other), now) == Withhold(s, c, other);
  }

  lemma ReleaseStep(s: Queue, c: Channel, other: string, id: string, now: Time)
    requires other != id
    ensures FirstOf(At(Next(s, ReleaseSteer(c, other), now).withheld, c), id) == FirstOf(At(s.withheld, c), id)
  {
    ReleaseWindow(s, c, other, id);
    assert Next(s, ReleaseSteer(c, other), now) == Release(s, c, other);
  }

  lemma RemoveStep(s: Queue, c: Channel, other: string, id: string, now: Time)
    requires other != id
    ensures FirstOf(At(Next(s, RemoveEvent(c, other), now).withheld, c), id) == FirstOf(At(s.withheld, c), id)
  {
    RemoveWindow(s, c, other, id);
    assert Next(s, RemoveEvent(c, other), now) == Removed(s, c, other);
  }

  lemma WindowStep(s: Queue, step: Step, c: Channel, id: string)
    requires LeavesWithheld(s, step, c, id) && FirstOf(At(s.withheld, c), id).Some?
    ensures FirstOf(At(Next(s, step.op, step.now).withheld, c), id) == FirstOf(At(s.withheld, c), id)
  {
    var op := step.op;
    if op.MarkSteerPending? && op.channel == c {
      MarkStep(s, c, op.id, id, step.now);
    } else if op.ReleaseSteer? && op.channel == c {
      ReleaseStep(s, c, op.id, id, step.now);
    } else if op.RemoveEvent? && op.channel == c {
      RemoveStep(s, c, op.id, id, step.now);
    } else {
      WindowKeeps(s, op, step.now, c);
    }
  }

  lemma WindowKeeps(s: Queue, op: Op, now: Time, c: Channel)
    requires !Expires(s, op, now, c) && op != DrainChannel(c)
    requires op.MarkSteerPending? || op.ReleaseSteer? || op.RemoveEvent? ==> op.channel != c
    ensures At(Next(s, op, now).withheld, c) == At(s.withheld, c)
  {
    if !About(op, c) && !op.Compact? {
      CallsAreLocal(s, op, now, c);
      assert Find(Next(s, op, now).withheld, c) == Find(s.withheld, c);
    } else if op.FlushNext? {
      ExpiryIsLocal(s, now, c);
      FlushKeepsWithheld(Expire(s, now), op.pick, now);
      assert Find(Expire(s, now).withheld, c) == Find(s.withheld, c);
    } else {
      WithheldTableKept(s, op, now);
    }
  }

  ghost predicate Window(s: Queue, run: seq<Step>, c: Channel, id: string)
    decreases |run|
  {
    run == [] ||
    (LeavesWithheld(s, run[0], c, id) && Window(Next(s, run[0].op, run[0].now), run[1..], c, id))
  }

  lemma {:induction false} WindowHolds(s: Queue, run: seq<Step>, clock: Time, c: Channel, id: string)
    requires Inv(s) && IsRun(s, run, clock) && AllReturnEvents(run)
    requires Window(s, run, c, id) && FirstOf(At(s.withheld, c), id).Some?
    ensures Inv(Final(s, run)) && FirstOf(At(Final(s, run).withheld, c), id) == FirstOf(At(s.withheld, c), id)
    decreases |run|
  {
    if run != [] {
      StepKeepsInv(s, run[0].op, run[0].now);
      WindowStep(s, run[0], c, id);
      WindowHolds(Next(s, run[0].op, run[0].now), run[1..], run[0].now, c, id);
    }
  }

  // ---- a flood of events ----

  /** `n` pushes of one event. */
  function Flood(c: Channel, e: Event, n: nat, now: Time): seq<Step> {
    if n == 0 then [] else [Step(Push(c, e), now)] + Flood(c, e, n - 1, now)
  }

  lemma FloodStep(s: Queue, c: Channel, e: Event)
    requires !Dropping(s, c) && |At(s.queues, c)| < MAX_PENDING_PER_CHANNEL
    ensures var t := Pushed(s, c, e);
            && !Dropping(t, c) && |At(t.queues, c)| == |At(s.queues, c)| + 1 && t.withheld == s.withheld
  {
  }

  lemma {:induction false} FloodFills(s: Queue, c: Channel, e: Event, n: nat, now: Time, id: string)
    requires !Dropping(s, c) && |At(s.queues, c)| + n <= MAX_PENDING_PER_CHANNEL
    ensures IsRun(s, Flood(c, e, n, now), now) && Window(s, Flood(c, e, n, now), c, id)
    ensures AllReturnEvents(Flood(c, e, n, now))
    ensures |At(Final(s, Flood(c, e, n, now)).queues, c)| == |At(s.queues, c)| + n
    decreases n
  {
    var run := Flood(c, e, n, now);
    if n > 0 {
      assert run[0] == Step(Push(c, e), now) && run[1..] == Flood(c, e, n - 1, now);
      FloodStep(s, c, e);
      FloodFills(Pushed(s, c, e), c, e, n - 1, now, id);
      assert forall i :: 1 <= i < |run| ==> run[i] == run[1..][i - 1];
    }
  }

  /** From any state with a withheld event, enough new events in the window make its release lose one of them. */
  lemma FloodedReleaseLoses(s: Queue, c: Channel, id: string, x: Event, e: Event, now: Time) returns (run: seq<Step>)
    requires Inv(s) && FirstOf(At(s.withheld, c), id) == Some(x) && !Dropping(s, c)
    ensures IsRun(s, run, now) && AllReturnEvents(run) && Window(s, run, c, id)
    ensures var t := Final(s, run);
            exists y :: Held(Release(t, c, id), c, y) < Held(t, c, y)
  {
    run := Flood(c, e, MAX_PENDING_PER_CHANNEL - |At(s.queues, c)|, now);
    FloodFills(s, c, e, MAX_PENDING_PER_CHANNEL - |At(s.queues, c)|, now, id);
    WindowHolds(s, run, now, c, id);
    FullReleaseLoses(Final(s, run), c, id, x);
  }

  lemma FullReleaseLoses(t: Queue, c: Channel, id: string, x: Event)
    requires Inv(t) && FirstOf(At(t.withheld, c), id) == Some(x) && |At(t.queues, c)| == MAX_PENDING_PER_CHANNEL
    ensures exists y :: Held(Release(t, c, id), c, y) < Held(t, c, y)
  {
    ReleaseRestoresExactly(t, c, id, x);
  }
}
