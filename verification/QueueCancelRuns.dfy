/**
 Runs of repeated cancels, made by an honest caller that stamps the reason on each batch before it returns
 it: that there are any, for every number of rounds, and which of them end in a loss.
 */
module QueueCancelRuns {
  import opened Events
  import opened QueueModel
  import opened QueueInvariant
  import opened QueueLedger
  import opened QueueCancel
  import opened QueueRuns
  import opened QueueScenes

  /** The event of round `i`. */
  function Nth(i: nat): Event {
    Event("", i, 0.0, "")
  }

  function Row(n: nat): (r: seq<Event>)
    ensures |r| == n && forall i :: 0 <= i < n ==> r[i] == Nth(i)
  {
    seq(n, i requires 0 <= i < n => Nth(i))
  }

  /** After `n` rounds: `n` cancelled events, and nothing else. */
  function Rounds(n: nat): Scene {
    if n == 0 then BLANK else BLANK.(cancelled := Row(n), reason := Some(Steer))
  }

  function RoundBatch(n: nat): Batch {
    SceneBatch(1, Rounds(n).(queue := [Nth(n)])).(reason := Some(Steer))
  }

  /** One round: an event arrives, its turn starts and is cancelled, and the cancelled turn is completed. */
  function Round(n: nat): seq<Step> {
    [Step(Push(1, Nth(n)), 0.0), Step(FlushNext(Some(1)), 0.0),
     Step(RequeueAsCancelled(RoundBatch(n), Steer), 0.0), Step(MarkComplete(1), 0.0)]
  }

  ghost function Resting(n: nat): Moment {
    Moment(Stage(1, Rounds(n)), 0.0, multiset{})
  }

  lemma RoundBatchOf(n: nat)
    ensures var y := Rounds(n).(queue := [Nth(n)]);
            && Load(RoundBatch(n)) == Load(SceneBatch(1, y)) && RoundBatch(n).events == [Nth(n)]
            && RoundBatch(n).cancelledEvents == Rounds(n).cancelled
            && Flown(y, 0.0).queue == [] && Rounds(n).queue + [Nth(n)] == [Nth(n)]
    ensures Rounds(n).cancelled + RoundBatch(n).events == Row(n + 1)
  {
    var e := Nth(n);
    assert [] + [e] == [e] && [e][1..] == [] && [e][..1] == [e] && SortByCreated([e]) == [e];
  }

  /** The scenes one round goes through. */
  function Arrived(n: nat): Scene {
    Rounds(n).(queue := [Nth(n)])
  }

  function Cut(n: nat): Scene {
    Flown(Arrived(n), 0.0).(cancelled := Row(n + 1), reason := Some(Steer))
  }

  lemma RoundScenes(n: nat)
    ensures Flown(Arrived(n), 0.0).cancelled == [] && Flown(Arrived(n), 0.0).throttle.None?
    ensures [] + RoundBatch(n).cancelledEvents + RoundBatch(n).events == Row(n + 1)
    ensures Landed(Cut(n), 0.0) == Rounds(n + 1)
  {
    RoundBatchOf(n);
  }

  lemma RoundArrives(n: nat) returns (o: Moment)
    ensures Leads(Resting(n), [Step(Push(1, Nth(n)), 0.0)], o)
    ensures o == Moment(Stage(1, Arrived(n)), 0.0, multiset{})
  {
    RoundBatchOf(n);
    var run;
    run, o := PushMore(Resting(n), [], Resting(n), 1, Rounds(n), Nth(n), 0.0);
    assert run == [Step(Push(1, Nth(n)), 0.0)];
  }

  lemma RoundStarts(n: nat) returns (run: seq<Step>, o: Moment)
    ensures run == [Step(Push(1, Nth(n)), 0.0)] + [Step(FlushNext(Some(1)), 0.0)] && Leads(Resting(n), run, o)
    ensures o == Moment(Stage(1, Flown(Arrived(n), 0.0)), 0.0, multiset{Load(RoundBatch(n))})
  {
    RoundBatchOf(n);
    var m := RoundArrives(n);
    run, o := FlushMore(Resting(n), [Step(Push(1, Nth(n)), 0.0)], m, 1, Arrived(n), 0.0);
  }

  lemma RoundIsCut(n: nat) returns (run: seq<Step>, o: Moment)
    ensures run == [Step(Push(1, Nth(n)), 0.0)] + [Step(FlushNext(Some(1)), 0.0)]
                   + [Step(RequeueAsCancelled(RoundBatch(n), Steer), 0.0)]
    ensures Leads(Resting(n), run, o) && o == Moment(Stage(1, Cut(n)), 0.0, multiset{})
  {
    RoundBatchOf(n);
    RoundScenes(n);
    var m;
    run, m := RoundStarts(n);
    run, o := CancelMore(Resting(n), run, m, 1, Flown(Arrived(n), 0.0), RoundBatch(n), Steer, 0.0);
  }

  lemma RoundLeads(n: nat)
    ensures Leads(Resting(n), Round(n), Resting(n + 1))
  {
    RoundScenes(n);
    var run, o := RoundIsCut(n);
    run, o := CompleteMore(Resting(n), run, o, 1, Cut(n), 0.0);
    assert run == Round(n);
  }

  lemma StartRests()
    ensures Resting(0) == Start(Accumulate)
  {
    BlankIsEmpty(1);
  }

  // ---- such runs are runs of cancels ----

  lemma RoundFirst(s: Queue, step: Step, rest: seq<Step>, held: Option<Batch>)
    requires Cancels(step, 1, held)
    requires CancelRounds(Next(s, step.op, step.now), rest, 1, HeldNext(s, step, 1, held))
    ensures CancelRounds(s, [step] + rest, 1, held)
    ensures HeldAfter(s, [step] + rest, 1, held)
         == HeldAfter(Next(s, step.op, step.now), rest, 1, HeldNext(s, step, 1, held))
    ensures AllFresh(s, [step] + rest, 1) == Fresh(s, step, 1) + AllFresh(Next(s, step.op, step.now), rest, 1)
  {
    assert ([step] + rest)[1..] == rest;
  }

  lemma FlushFresh(n: nat)
    ensures var y, step := Rounds(n).(queue := [Nth(n)]), Step(FlushNext(Some(1)), 0.0);
            && BatchOf(Stage(1, y), step) == Some(SceneBatch(1, y)) && Fresh(Stage(1, y), step, 1) == [Nth(n)]
  {
    var y := Rounds(n).(queue := [Nth(n)]);
    RoundBatchOf(n);
    SceneFlush(1, y, 0.0);
    NothingExpires(1, y, 0.0);
    SceneReady(1, y, 0.0);
    SceneTakeQueued(1, y, 0.0);
  }

  lemma RoundEnds(s: Queue, b: Batch, held: Batch)
    requires Load(b) == Load(held)
    ensures var run := [Step(RequeueAsCancelled(b, Steer), 0.0)] + ([Step(MarkComplete(1), 0.0)] + []);
            b.channel == 1 ==>
              CancelRounds(s, run, 1, Some(held)) && HeldAfter(s, run, 1, Some(held)) == None
                  && AllFresh(s, run, 1) == []
  {
    if b.channel == 1 {
      var t := Next(s, RequeueAsCancelled(b, Steer), 0.0);
      RoundFirst(t, Step(MarkComplete(1), 0.0), [], None);
      RoundFirst(s, Step(RequeueAsCancelled(b, Steer), 0.0), [Step(MarkComplete(1), 0.0)] + [], Some(held));
    }
  }

  lemma FreshFold(s: Queue, a: seq<Step>, t: Queue)
    requires a != [] && t == Next(s, a[0].op, a[0].now)
    ensures AllFresh(s, a, 1) == Fresh(s, a[0], 1) + AllFresh(t, a[1..], 1)
  {
  }

  lemma RoundSplits(n: nat)
    ensures var last := [Step(RequeueAsCancelled(RoundBatch(n), Steer), 0.0)] + ([Step(MarkComplete(1), 0.0)] + []);
            Round(n)[0] == Step(Push(1, Nth(n)), 0.0) && Round(n)[1..] == [Step(FlushNext(Some(1)), 0.0)] + last
  {
  }

  lemma RoundCancels(n: nat)
    ensures CancelRounds(Stage(1, Rounds(n)), Round(n), 1, None)
    ensures HeldAfter(Stage(1, Rounds(n)), Round(n), 1, None) == None
    ensures AllFresh(Stage(1, Rounds(n)), Round(n), 1) == [Nth(n)]
  {
    var s, t, run := Stage(1, Rounds(n)), Stage(1, Arrived(n)), Round(n);
    RoundSplits(n);
    RoundBatchOf(n);
    ScenePush(1, Rounds(n), Nth(n), 0.0);
    TurnCancels(n);
    RoundsFold(s, run, None, t, None);
    FreshFold(s, run, t);
  }

  lemma TurnCancels(n: nat)
    ensures var s := Stage(1, Rounds(n).(queue := [Nth(n)]));
            var last := [Step(RequeueAsCancelled(RoundBatch(n), Steer), 0.0)] + ([Step(MarkComplete(1), 0.0)] + []);
            var run := [Step(FlushNext(Some(1)), 0.0)] + last;
            CancelRounds(s, run, 1, None) && HeldAfter(s, run, 1, None) == None && AllFresh(s, run, 1) == [Nth(n)]
  {
    var y, b, flush := Rounds(n).(queue := [Nth(n)]), RoundBatch(n), Step(FlushNext(Some(1)), 0.0);
    var last := [Step(RequeueAsCancelled(b, Steer), 0.0)] + ([Step(MarkComplete(1), 0.0)] + []);
    RoundBatchOf(n);
    FlushFresh(n);
    RoundEnds(Next(Stage(1, y), flush.op, 0.0), b, SceneBatch(1, y));
    RoundFirst(Stage(1, y), flush, last, None);
  }

  /** A run of cancels that leads from `s` to `t`, with these new events, and leaves no batch out. */
  ghost predicate Cancelling(s: Queue, run: seq<Step>, t: Queue, told: seq<Event>) {
    && CancelRounds(s, run, 1, None) && HeldAfter(s, run, 1, None) == None
    && Final(s, run) == t && AllFresh(s, run, 1) == told
  }

  lemma RoundsUnfold(s: Queue, a: seq<Step>, held: Option<Batch>, t: Queue, h: Option<Batch>)
    requires a != [] && CancelRounds(s, a, 1, held)
    requires t == Next(s, a[0].op, a[0].now) && h == HeldNext(s, a[0], 1, held)
    ensures Cancels(a[0], 1, held) && CancelRounds(t, a[1..], 1, h)
    ensures HeldAfter(s, a, 1, held) == HeldAfter(t, a[1..], 1, h) && Final(s, a) == Final(t, a[1..])
  {
  }

  lemma RoundsFold(s: Queue, a: seq<Step>, held: Option<Batch>, t: Queue, h: Option<Batch>)
    requires a != [] && Cancels(a[0], 1, held) && CancelRounds(t, a[1..], 1, h)
    requires t == Next(s, a[0].op, a[0].now) && h == HeldNext(s, a[0], 1, held)
    ensures CancelRounds(s, a, 1, held) && HeldAfter(s, a, 1, held) == HeldAfter(t, a[1..], 1, h)
  {
  }

  lemma {:induction false} RoundsJoin(s: Queue, a: seq<Step>, b: seq<Step>, held: Option<Batch>,
                                      u: Queue, last: Option<Batch>, all: seq<Step>)
    requires CancelRounds(s, a, 1, held) && u == Final(s, a) && last == HeldAfter(s, a, 1, held)
    requires CancelRounds(u, b, 1, last) && all == a + b
    ensures CancelRounds(s, all, 1, held) && HeldAfter(s, all, 1, held) == HeldAfter(u, b, 1, last)
    decreases |a|
  {
    if a == [] {
      assert all == b;
    } else {
      var t, h := Next(s, a[0].op, a[0].now), HeldNext(s, a[0], 1, held);
      RoundsUnfold(s, a, held, t, h);
      assert all[0] == a[0] && all[1..] == a[1..] + b;
      RoundsJoin(t, a[1..], b, h, u, last, all[1..]);
      RoundsFold(s, all, held, t, h);
    }
  }

  lemma {:induction false} FreshJoin(s: Queue, a: seq<Step>, b: seq<Step>)
    ensures Final(s, a + b) == Final(Final(s, a), b)
    ensures AllFresh(s, a + b, 1) == AllFresh(s, a, 1) + AllFresh(Final(s, a), b, 1)
    decreases |a|
  {
    if a == [] {
      assert a + b == b;
    } else {
      var t := Next(s, a[0].op, a[0].now);
      assert (a + b)[0] == a[0] && (a + b)[1..] == a[1..] + b;
      FreshJoin(t, a[1..], b);
      var x, y, z := Fresh(s, a[0], 1), AllFresh(t, a[1..], 1), AllFresh(Final(t, a[1..]), b, 1);
      assert x + (y + z) == x + y + z;
    }
  }

  lemma CancellingJoin(s: Queue, a: seq<Step>, t: Queue, x: seq<Event>, b: seq<Step>, u: Queue, y: seq<Event>)
    requires Cancelling(s, a, t, x) && Cancelling(t, b, u, y)
    ensures Cancelling(s, a + b, u, x + y)
  {
    RoundsJoin(s, a, b, None, t, None, a + b);
    FreshJoin(s, a, b);
  }

  /** Calls after which nobody can say an event was finished with, dropped on purpose or dead-lettered. */
  predicate NoExcuse(op: Op) {
    op.Push? || op.FlushNext? || op.RequeueAsCancelled? || op.RequeuePreserve? || op.MarkComplete?
  }

  predicate Plain(run: seq<Step>) {
    forall i :: 0 <= i < |run| ==> NoExcuse(run[i].op)
  }

  predicate Accepts(run: seq<Step>, e: Event) {
    exists i :: 0 <= i < |run| && run[i].op == Push(1, e)
  }

  /** An honest run of cancels from `m` to `o`, with no other excuse, that accepts all these new events. */
  ghost predicate Story(run: seq<Step>, m: Moment, o: Moment, told: seq<Event>) {
    && Leads(m, run, o) && Cancelling(m.q, run, o.q, told)
    && Plain(run) && forall e :: e in told ==> Accepts(run, e)
  }

  lemma RoundFinal(n: nat)
    ensures Final(Stage(1, Rounds(n)), Round(n)) == Stage(1, Rounds(n + 1))
  {
    RoundLeads(n);
    HonestIsRun(Resting(n), Round(n));
  }

  lemma RoundPlain(n: nat)
    ensures Plain(Round(n)) && Accepts(Round(n), Nth(n))
  {
    assert Round(n)[0].op == Push(1, Nth(n));
  }

  lemma OneRound(n: nat, k: nat) returns (run: seq<Step>)
    requires k == n + 1
    ensures Story(run, Resting(n), Resting(k), [Nth(n)])
  {
    RoundCancels(n);
    RoundLeads(n);
    RoundFinal(n);
    RoundPlain(n);
    run := Round(n);
  }

  lemma StoryJoin(a: seq<Step>, m: Moment, n: Moment, x: seq<Event>, b: seq<Step>, o: Moment, y: seq<Event>,
                  all: seq<Step>, told: seq<Event>)
    requires Story(a, m, n, x) && Story(b, n, o, y) && all == a + b && told == x + y
    ensures Story(all, m, o, told)
  {
    Joined(m, a, n, b, o);
    CancellingJoin(m.q, a, n.q, x, b, o.q, y);
    forall e | e in x + y ensures Accepts(a + b, e) {
      AcceptsJoin(a, b, e);
    }
  }

  lemma AcceptsJoin(a: seq<Step>, b: seq<Step>, e: Event)
    ensures Accepts(a + b, e) <==> Accepts(a, e) || Accepts(b, e)
  {
    if Accepts(a, e) {
      var i :| 0 <= i < |a| && a[i].op == Push(1, e);
      assert (a + b)[i].op == Push(1, e);
    }
    if Accepts(b, e) {
      var i :| 0 <= i < |b| && b[i].op == Push(1, e);
      assert (a + b)[|a| + i].op == Push(1, e);
    }
  }

  lemma RowGrows(n: nat, k: nat)
    requires k == n + 1
    ensures Row(k) == Row(n) + [Nth(n)]
  {
  }

  /**
   For every number of rounds there is a run from an empty queue that an honest caller makes, of the kind
   `CancelledEventsComeBack` is about, with one new event a round.
   */
  lemma {:induction false} RoundsHappen(n: nat) returns (run: seq<Step>)
    ensures Story(run, Start(Accumulate), Resting(n), Row(n))
  {
    if n == 0 {
      run := [];
      StartRests();
    } else {
      var before := RoundsHappen(n - 1);
      var last := OneRound(n - 1, n);
      RowGrows(n - 1, n);
      run := before + last;
      StoryJoin(before, Start(Accumulate), Resting(n - 1), Row(n - 1), last, Resting(n), [Nth(n - 1)], run, Row(n));
    }
  }

  // ---- losses ----

  /** An honest run in which `e` is accepted and then lost without a word: no table and no batch has it. */
  ghost predicate LosesSilently(run: seq<Step>, e: Event) {
    && Honest(Start(Accumulate), run)
    && Accepts(run, e) && Plain(run)
    && Walk(Start(Accumulate), run).out == multiset{}
    && Held(Walk(Start(Accumulate), run).q, 1, e) == 0
  }

  lemma SceneHolds(x: Scene, e: Event)
    ensures Held(Stage(1, x), 1, e) == Times(x.queue, e) + Times(x.withheld, e) + Times(x.cancelled, e)
  {
  }

  lemma SilentLoss(run: seq<Step>, e: Event, tail: seq<Step>, all: seq<Step>, o: Moment)
    requires Leads(Start(Accumulate), all, o) && o.out == multiset{} && Held(o.q, 1, e) == 0
    requires all == run + tail && Plain(run) && Accepts(run, e) && Plain(tail)
    ensures LosesSilently(all, e)
  {
    AcceptsJoin(run, tail, e);
  }

  lemma Returned(run: seq<Step>, n: Moment, x: Scene, b: Batch) returns (more: seq<Step>, o: Moment)
    requires Leads(Start(Accumulate), run, n) && n.q == Stage(1, x) && n.now == 0.0
    requires b.channel == 1 && b.events != [] && n.out == multiset{Load(b)}
    ensures more == run + [Step(RequeuePreserve(b), 0.0)] && Leads(Start(Accumulate), more, o)
    ensures o.out == multiset{} && o.q == Stage(1, x.(queue := Cap(b.events + x.queue)))
  {
    more, o := PreserveMore(Start(Accumulate), run, n, 1, x, b, 0.0);
  }

  lemma HandedOver(run: seq<Step>, n: Moment, x: Scene) returns (more: seq<Step>, o: Moment)
    requires Leads(Start(Accumulate), run, n) && n.q == Stage(1, x) && n.now == 0.0 && n.out == multiset{}
    requires Free(x, 0.0) && (x.queue != [] || x.cancelled != [])
    ensures more == run + [Step(FlushNext(Some(1)), 0.0)] && Leads(Start(Accumulate), more, o)
    ensures o == Moment(Stage(1, Flown(x, 0.0)), 0.0, multiset{Load(SceneBatch(1, x))})
  {
    more, o := FlushMore(Start(Accumulate), run, n, 1, x, 0.0);
  }

  /** A batch is handed out and given straight back. */
  lemma Bounce(run: seq<Step>, n: Moment, x: Scene) returns (tail: seq<Step>, more: seq<Step>, o: Moment)
    requires Leads(Start(Accumulate), run, n) && n.q == Stage(1, x) && n.now == 0.0 && n.out == multiset{}
    requires Free(x, 0.0) && (x.queue != [] || x.cancelled != [])
    ensures more == run + tail && Plain(tail)
    ensures Leads(Start(Accumulate), more, o) && o.out == multiset{}
    ensures o.q == Stage(1, Flown(x, 0.0).(queue := Cap(SceneBatch(1, x).events + Flown(x, 0.0).queue)))
  {
    var b := SceneBatch(1, x);
    BatchHasEvents(x);
    more, o := HandedOver(run, n, x);
    more, o := Returned(more, o, Flown(x, 0.0), b);
    tail := [Step(FlushNext(Some(1)), 0.0), Step(RequeuePreserve(b), 0.0)];
    ThenTwo(run, tail[0], tail[1]);
  }

  lemma BatchHasEvents(x: Scene)
    requires x.queue != [] || x.cancelled != []
    ensures SceneBatch(1, x).channel == 1 && SceneBatch(1, x).events != []
  {
  }

  lemma ThenTwo(run: seq<Step>, a: Step, b: Step)
    ensures run + [a] + [b] == run + [a, b]
  {
  }

  lemma MergedQueue(n: nat)
    ensures var y := Rounds(n).(queue := [Nth(n)]);
            && Cap(SceneBatch(1, y).events + Flown(y, 0.0).queue) == [Nth(n)]
            && Rounds(n).queue + [Nth(n)] == [Nth(n)]
  {
    RoundBatchOf(n);
  }

  /** After `n` rounds one more event arrives. */
  lemma MergedPush(n: nat) returns (run: seq<Step>, o: Moment)
    ensures Leads(Start(Accumulate), run, o) && Plain(run) && forall k :: 0 <= k < n ==> Accepts(run, Nth(k))
    ensures o == Moment(Stage(1, Rounds(n).(queue := [Nth(n)])), 0.0, multiset{})
  {
    var before := RoundsHappen(n);
    MergedQueue(n);
    run, o := PushMore(Start(Accumulate), before, Resting(n), 1, Rounds(n), Nth(n), 0.0);
    forall k | 0 <= k < n ensures Accepts(run, Nth(k)) {
      assert Row(n)[k] == Nth(k);
      AcceptsJoin(before, [Step(Push(1, Nth(n)), 0.0)], Nth(k));
    }
  }

  /** Without a free agent, the first batch after any number of cancelled turns loses every event of those turns. */
  lemma MergedBatchLosesCancelled(n: nat, k: nat) returns (run: seq<Step>)
    requires k < n
    ensures LosesSilently(run, Nth(k))
  {
    var y := Rounds(n).(queue := [Nth(n)]);
    var first, m := MergedPush(n);
    var tail, o;
    tail, run, o := Bounce(first, m, y);
    MergedQueue(n);
    SceneHolds(Flown(y, 0.0).(queue := [Nth(n)]), Nth(k));
    assert Times([Nth(n)], Nth(k)) == 0;
    SilentLoss(first, Nth(k), tail, run, o);
  }

  lemma LastIsCut(n: nat)
    requires MAX_PENDING_PER_CHANNEL < n
    ensures Times(Cap(Row(n) + []), Nth(n - 1)) == 0
  {
    assert Row(n) + [] == Row(n);
    assert forall i :: 0 <= i < MAX_PENDING_PER_CHANNEL ==> Row(n)[i] != Nth(n - 1);
  }

  /** With more cancelled turns of one event each than the cap, a batch with nothing merged in loses the last one. */
  lemma CancelledBatchOverflows(n: nat) returns (run: seq<Step>)
    requires MAX_PENDING_PER_CHANNEL < n
    ensures LosesSilently(run, Nth(n - 1))
  {
    var first := RoundsHappen(n);
    var tail, o;
    tail, run, o := Bounce(first, Resting(n), Rounds(n));
    LastIsCut(n);
    assert Row(n)[n - 1] == Nth(n - 1);
    SceneHolds(Flown(Rounds(n), 0.0).(queue := Cap(Row(n) + [])), Nth(n - 1));
    SilentLoss(first, Nth(n - 1), tail, run, o);
  }
}
