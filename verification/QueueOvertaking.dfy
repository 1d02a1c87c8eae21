/**
 What fairness does not cover: a channel with nothing but cancelled events is passed over for as long as other
 channels have new ones.
 */
module QueueOvertaking {
  import opened Events
  import opened QueueModel
  import opened QueueInvariant
  import opened QueueFairness
  import opened QueueRuns
  import opened QueueScenes
  import opened QueueCancelRuns

  /** A new event for channel 2 while channel 1 has cancelled ones: its turn starts and completes. */
  function Detour(e: Event): seq<Step> {
    [Step(Push(2, e), 0.0)] + ([Step(FlushNext(Some(2)), 0.0)] + ([Step(MarkComplete(2), 0.0)] + []))
  }

  function Detours(e: Event, n: nat): seq<Step> {
    if n == 0 then [] else Detour(e) + Detours(e, n - 1)
  }

  function Pushed2(k: nat, e: Event): Queue {
    Stage(1, Rounds(k)).(queues := map[2 := [e]])
  }

  function Flown2(k: nat): Queue {
    Stage(1, Rounds(k)).(inFlight := {2}, deadlines := map[2 := 0.0 + DEFAULT_IN_FLIGHT_DEADLINE_SECS],
                         batchSizes := map[2 := 1])
  }

  lemma PushDetour(k: nat, e: Event)
    ensures Next(Stage(1, Rounds(k)), Push(2, e), 0.0) == Pushed2(k, e)
  {
    assert Enqueued([], e) == [e];
  }

  lemma FlushDetour(k: nat, e: Event)
    ensures Allowed(Pushed2(k, e), FlushNext(Some(2)), 0.0)
    ensures Next(Pushed2(k, e), FlushNext(Some(2)), 0.0) == Flown2(k)
  {
    var s := Pushed2(k, e);
    assert Expired(s, 0.0) == {};
    assert Expire(s, 0.0) == s by { assert Expire(s, 0.0).queues == s.queues; }
    assert Candidates(s, 0.0) == {2} by { assert Ready(s, 2, 0.0); }
    assert [e][1..] == [];
    var t := TakeQueued(s, 2, 0.0);
    assert t.queues == map[] && t.cancelled == s.cancelled && t.reasons == s.reasons;
    assert t.deadlines == Flown2(k).deadlines && t.batchSizes == Flown2(k).batchSizes;
  }

  lemma CompleteDetour(k: nat)
    ensures Next(Flown2(k), MarkComplete(2), 0.0) == Stage(1, Rounds(k))
  {
    var t := Completed(Flown2(k), 2, 0.0);
    assert t.inFlight == {} && t.deadlines == map[] && t.batchSizes == map[] && t.retryAfter == map[];
  }

  lemma DetourLeads(m: Moment, k: nat, e: Event) returns (o: Moment)
    requires m.q == Stage(1, Rounds(k)) && m.now == 0.0
    ensures Leads(m, Detour(e), o) && o.q == m.q && o.now == 0.0
  {
    PushDetour(k, e);
    FlushDetour(k, e);
    CompleteDetour(k);
    var n1 := Moment(Pushed2(k, e), 0.0, m.out);
    PlainStride(m, Push(2, e), 0.0);
    var n2 := Stride(n1, Step(FlushNext(Some(2)), 0.0));
    o := Moment(Stage(1, Rounds(k)), 0.0, n2.out);
    PlainStride(n2, MarkComplete(2), 0.0);
    OneFirst(n2, Step(MarkComplete(2), 0.0), [], o);
    OneFirst(n1, Step(FlushNext(Some(2)), 0.0), [Step(MarkComplete(2), 0.0)] + [], o);
    OneFirst(m, Step(Push(2, e), 0.0), [Step(FlushNext(Some(2)), 0.0)] + ([Step(MarkComplete(2), 0.0)] + []), o);
  }

  lemma {:induction false} FlushesCat(a: seq<Step>, b: seq<Step>)
    ensures Flushes(a + b) == Flushes(a) + Flushes(b)
  {
    if a == [] {
      assert a + b == b;
    } else {
      assert (a + b)[0] == a[0] && (a + b)[1..] == a[1..] + b;
      FlushesCat(a[1..], b);
    }
  }

  lemma DetourFlushes(e: Event)
    ensures Flushes(Detour(e)) == 1 && forall i :: 0 <= i < |Detour(e)| ==> Detour(e)[i].op != FlushNext(Some(1))
  {
    var d := Detour(e);
    var d1 := d[1..];
    var d2 := d1[1..];
    assert d2[1..] == [] && Flushes(d2) == 0;
    assert Flushes(d1) == 1;
  }

  lemma {:induction false} DetoursLead(m: Moment, k: nat, e: Event, n: nat) returns (o: Moment)
    requires m.q == Stage(1, Rounds(k)) && m.now == 0.0
    ensures Leads(m, Detours(e, n), o) && o.q == m.q
    ensures Flushes(Detours(e, n)) == n
    ensures forall i :: 0 <= i < |Detours(e, n)| ==> Detours(e, n)[i].op != FlushNext(Some(1))
    decreases n
  {
    if n == 0 {
      o := m;
    } else {
      var m2 := DetourLeads(m, k, e);
      o := DetoursLead(m2, k, e, n - 1);
      Joined(m, Detour(e), m2, Detours(e, n - 1), o);
      DetourFlushes(e);
      FlushesCat(Detour(e), Detours(e, n - 1));
    }
  }

  /**
   For every `n` there is an honest run from an empty queue that leaves channel 1 idle with cancelled events, and
   a continuation in which `n` flushes, all for events that arrived later, pass it over and leave it as it was.
   */
  lemma NewerTrafficOvertakes(k: nat, n: nat, e: Event) returns (first: seq<Step>, run: seq<Step>, m: Moment, o: Moment)
    requires k > 0
    ensures Leads(Start(Accumulate), first, m) && 1 in CancelledReady(m.q) && !Throttled(m.q, 1, m.now)
    ensures Leads(m, run, o) && o.q == m.q && Flushes(run) == n
    ensures forall i :: 0 <= i < |run| ==> run[i].op != FlushNext(Some(1))
  {
    first := RoundsHappen(k);
    m, run := Resting(k), Detours(e, n);
    o := DetoursLead(m, k, e, n);
    SceneReady(1, Rounds(k), 0.0);
  }
}
