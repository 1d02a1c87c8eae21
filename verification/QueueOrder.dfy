/** Honest runs after which a queue is not in its old order: a batch bounced, and a steer released. */
module QueueOrder {
  import opened Events
  import opened QueueModel
  import opened QueueInvariant
  import opened QueueRuns
  import opened QueueScenes

  /** Two events, the second of which was created before the first. */
  const FIRST := Event("first", 1, 0.0, "")
  const SECOND := Event("second", 0, 0.0, "")

  function Two(a: Event, b: Event): Scene {
    BLANK.(queue := [a, b])
  }

  /** Both have arrived. */
  lemma TwoArrive(a: Event, b: Event) returns (run: seq<Step>, o: Moment)
    ensures Leads(Start(Accumulate), run, o) && o == Moment(Stage(1, Two(a, b)), 0.0, multiset{})
  {
    var m := Start(Accumulate);
    BlankIsEmpty(1);
    assert [] + [a] == [a] && [a] + [b] == [a, b];
    run, o := PushMore(m, [], m, 1, BLANK, a, 0.0);
    run, o := PushMore(m, run, o, 1, BLANK.(queue := [a]), b, 0.0);
  }

  lemma TwoSorted(a: Event, b: Event)
    requires b.createdAt < a.createdAt
    ensures [a, b][..2] == [a, b] && [a, b][2..] == [] && SortByCreated([a, b]) == [b, a] && Cap([b, a] + []) == [b, a]
  {
    assert [a, b][1..] == [b] && [b][1..] == [];
    assert SortByCreated([b]) == [b];
    assert Insert(a, [b]) == [b] + [a];
  }

  lemma TwoFlushed(m: Moment, a: Event, b: Event) returns (run: seq<Step>, o: Moment)
    requires m == Moment(Stage(1, Two(a, b)), 0.0, multiset{}) && b.createdAt < a.createdAt
    ensures run == [Step(FlushNext(Some(1)), 0.0)] && Leads(m, run, o)
    ensures o == Moment(Stage(1, Flown(Two(a, b), 0.0)), 0.0, multiset{Batch(1, [b, a], [], None)})
  {
    TwoSorted(a, b);
    run, o := FlushMore(m, [], m, 1, Two(a, b), 0.0);
    assert SceneBatch(1, Two(a, b)) == Batch(1, [b, a], [], None);
  }

  /** Bounced without a free agent, two events come back the other way round. */
  lemma BounceReorders() returns (before: seq<Step>, m: Moment, run: seq<Step>, o: Moment)
    ensures Leads(Start(Accumulate), before, m) && At(m.q.queues, 1) == [FIRST, SECOND]
    ensures run == [Step(FlushNext(Some(1)), 0.0)] + [Step(RequeuePreserve(Batch(1, [SECOND, FIRST], [], None)), 0.0)]
    ensures Leads(m, run, o) && At(o.q.queues, 1) == [SECOND, FIRST]
  {
    before, m := TwoArrive(FIRST, SECOND);
    TwoSorted(FIRST, SECOND);
    run, o := TwoFlushed(m, FIRST, SECOND);
    var b := Batch(1, [SECOND, FIRST], [], None);
    assert Load(b) == b;
    run, o := PreserveMore(m, run, o, 1, Flown(Two(FIRST, SECOND), 0.0), b, 0.0);
  }

  lemma SecondIsLater()
    ensures IndexOf([FIRST, SECOND], SECOND.id) == 1 && IndexOf([SECOND], SECOND.id) == 0
    ensures Withholding(Two(FIRST, SECOND), SECOND.id) == BLANK.(queue := [FIRST], withheld := [SECOND])
  {
    var q := [FIRST, SECOND];
    assert q[0].id != SECOND.id && q[1].id == SECOND.id;
    var i := IndexOf(q, SECOND.id);
    assert i == 1;
    assert q[..1] + q[2..] == [FIRST] && [] + [SECOND] == [SECOND];
  }

  /** Withheld for a steer that does not land, an event comes back ahead of one that was in front of it. */
  lemma ReleaseOvertakes() returns (before: seq<Step>, m: Moment, run: seq<Step>, o: Moment)
    ensures Leads(Start(Accumulate), before, m) && At(m.q.queues, 1) == [FIRST, SECOND]
    ensures run == [Step(MarkSteerPending(1, SECOND.id), 0.0)] + [Step(ReleaseSteer(1, SECOND.id), 0.0)]
    ensures Leads(m, run, o) && At(o.q.queues, 1) == [SECOND, FIRST]
  {
    before, m := TwoArrive(FIRST, SECOND);
    var x := BLANK.(queue := [FIRST], withheld := [SECOND]);
    SecondMoves(x);
    run, o := PlainMore(m, [], m, MarkSteerPending(1, SECOND.id), 0.0, Stage(1, x));
    run, o := PlainMore(m, run, o, ReleaseSteer(1, SECOND.id), 0.0, Stage(1, Two(SECOND, FIRST)));
  }

  lemma SecondMoves(x: Scene)
    requires x == BLANK.(queue := [FIRST], withheld := [SECOND])
    ensures Next(Stage(1, Two(FIRST, SECOND)), MarkSteerPending(1, SECOND.id), 0.0) == Stage(1, x)
    ensures Next(Stage(1, x), ReleaseSteer(1, SECOND.id), 0.0) == Stage(1, Two(SECOND, FIRST))
  {
    SecondIsLater();
    SceneWithhold(1, Two(FIRST, SECOND), SECOND.id);
    SceneRelease(1, x, SECOND.id);
    assert [SECOND] + [FIRST] == [SECOND, FIRST] && Cap([SECOND, FIRST]) == [SECOND, FIRST];
    assert Releasing(x, SECOND.id) == Two(SECOND, FIRST);
  }
}
