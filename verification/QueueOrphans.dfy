/**
 Orphaned retry counters: what tells a compacted queue from one that was not, and when nothing does.
 */
module QueueOrphans {
  import opened Events
  import opened QueueModel
  import opened QueueLocality
  import opened QueueInvariant
  import opened QueueRetry
  import opened QueueRuns
  import opened QueueScenes
  import opened QueueCompaction

  // ---- telling an orphaned counter apart ----

  function Repeat(step: Step, n: nat): seq<Step> {
    if n == 0 then [] else [step] + Repeat(step, n - 1)
  }

  /** A run of `n` immediate failures is always possible; its last answer tells the count. */
  lemma {:induction false} FailuresTellTheCount(s: Queue, step: Step, n: nat)
    requires step.op.Requeue? && 0.8 <= step.op.jitter <= 1.2 && 1 <= n
    requires Attempts(s, step.op.batch.channel) + n <= MAX_RETRIES + 1
    ensures IsRun(s, Repeat(step, n), step.now)
    ensures |Outputs(s, Repeat(step, n))| == n
    ensures Outputs(s, Repeat(step, n))[n - 1]
              == DeadLetter(if Attempts(s, step.op.batch.channel) + n > MAX_RETRIES then Some(step.op.batch) else None)
    decreases n
  {
    var run, t := Repeat(step, n), Next(s, step.op, step.now);
    assert run[0] == step && run[1..] == Repeat(step, n - 1);
    if n > 1 {
      assert Attempts(t, step.op.batch.channel) == Attempts(s, step.op.batch.channel) + 1;
      FailuresTellTheCount(t, step, n - 1);
    } else {
      assert Repeat(step, 0) == [] && Outputs(t, []) == [];
    }
  }

  /** No honest caller, on either queue, is told anything different by the other. */
  ghost predicate HonestlyIndistinguishable(s: Queue, t: Queue, now: Time) {
    forall run :: Honest(Moment(s, now, multiset{}), run) || Honest(Moment(t, now, multiset{}), run) ==>
      IsRun(s, run, now) && IsRun(t, run, now) && Outputs(s, run) == Outputs(t, run)
  }

  lemma HonestFirst(m: Moment, step: Step, rest: seq<Step>)
    requires CanStep(m, step) && Honest(Stride(m, step), rest)
    ensures Honest(m, [step] + rest)
    ensures Outputs(m.q, [step] + rest) == [Out(m.q, step.op, step.now)] + Outputs(Stride(m, step).q, rest)
  {
    assert ([step] + rest)[1..] == rest;
  }

  lemma PlainFirst(m: Moment, op: Op, now: Time, rest: seq<Step>, run: seq<Step>)
    requires !Returns(op) && !op.FlushNext? && m.now <= now && run == [Step(op, now)] + rest
    requires Honest(Moment(Next(m.q, op, now), now, m.out), rest)
    ensures Honest(m, run)
    ensures Outputs(m.q, run) == [Out(m.q, op, now)] + Outputs(Next(m.q, op, now), rest)
  {
    PlainStride(m, op, now);
    HonestFirst(m, Step(op, now), rest);
  }

  /** No other channel has anything waiting, and `c` is not in flight. */
  ghost predicate Quiet(s: Queue, c: Channel) {
    && s.queues.Keys <= {c} && s.cancelled.Keys <= {c} && s.withheld.Keys <= {c}
    && c !in s.inFlight && s.deadlines.Keys == s.inFlight
  }

  lemma AskTells(m: Moment, c: Channel, now: Time)
    requires Quiet(m.q, c) && NonEmpty(m.q.queues) && m.q.cancelled == map[] && m.now <= now
    ensures Honest(m, [Step(HasFlushableWork, now)])
    ensures Outputs(m.q, [Step(HasFlushableWork, now)]) == [Answer(c in m.q.queues && !Throttled(m.q, c, now))]
  {
    var e := Expire(m.q, now);
    assert e.queues == m.q.queues;
    if c in m.q.queues && !Throttled(m.q, c, now) { assert c in Candidates(e, now); }
    HonestFirst(m, Step(HasFlushableWork, now), []);
    assert [Step(HasFlushableWork, now)] + [] == [Step(HasFlushableWork, now)];
  }

  const ASK_AFTER: Time := 7.0

  function AfterFailure(c: Channel, now: Time): seq<Step> {
    [Step(MarkComplete(c), now)] + [Step(HasFlushableWork, now + ASK_AFTER)]
  }

  /** `c` may be in flight, but nothing else is going on. */
  ghost predicate QuietBut(s: Queue, c: Channel) {
    && s.queues.Keys <= {c} && s.withheld.Keys <= {c} && s.cancelled == map[]
    && s.deadlines.Keys == s.inFlight && NonEmpty(s.queues)
  }

  lemma CompletionSlots(s: Queue, c: Channel, now: Time)
    requires QuietBut(s, c)
    ensures var t := Completed(s, c, now);
            && t == Next(s, MarkComplete(c), now) && Quiet(t, c) && t.queues == s.queues && t.cancelled == map[]
            && (Throttled(s, c, now) ==> (Throttled(t, c, now + ASK_AFTER) <==> Throttled(s, c, now + ASK_AFTER)))
  {
  }

  lemma CompletionTells(m: Moment, c: Channel)
    requires QuietBut(m.q, c) && (c in m.q.queues ==> Throttled(m.q, c, m.now))
    ensures Honest(m, AfterFailure(c, m.now))
    ensures Outputs(m.q, AfterFailure(c, m.now))
         == [Silent, Answer(c in m.q.queues && !Throttled(m.q, c, m.now + ASK_AFTER))]
  {
    var t := Next(m.q, MarkComplete(c), m.now);
    var ask := [Step(HasFlushableWork, m.now + ASK_AFTER)];
    CompletionSlots(m.q, c, m.now);
    AskTells(Moment(t, m.now, m.out), c, m.now + ASK_AFTER);
    PlainFirst(m, MarkComplete(c), m.now, ask, AfterFailure(c, m.now));
  }

  lemma FailureTells(m: Moment, c: Channel, b: Batch)
    requires QuietBut(m.q, c) && m.q.queues == map[] && b.channel == c && |b.events| == 1 && Load(b) in m.out
    ensures var run := [Step(Requeue(b, 1.0), m.now)] + AfterFailure(c, m.now);
            && Honest(m, run) && |Outputs(m.q, run)| == 3
            && Outputs(m.q, run)[2] == Answer(Attempts(m.q, c) == 0)
  {
    var step := Step(Requeue(b, 1.0), m.now);
    var n := Stride(m, step);
    BackoffTable();
    FailureSlots(m.q, b, m.now);
    CompletionTells(n, c);
    HonestFirst(m, step, AfterFailure(c, m.now));
  }

  /** One failure of a lone event: the throttle that follows passes within seven seconds only for a first attempt. */
  lemma FailureSlots(s: Queue, b: Batch, now: Time)
    requires s.queues == map[] && |b.events| == 1
    ensures var c, t := b.channel, Requeued(s, b, 1.0, now);
            && t.inFlight == s.inFlight && t.deadlines == s.deadlines && t.cancelled == s.cancelled
            && t.withheld == s.withheld && t.queues == (if DeadLetters(s, b) then map[] else map[c := b.events])
            && (!DeadLetters(s, b) ==> Throttled(t, c, now))
            && (!DeadLetters(s, b) ==> (Throttled(t, c, now + ASK_AFTER) <==> Attempts(s, c) != 0))
  {
    BackoffTable();
    assert At(s.queues, b.channel) == [] && b.events + [] == b.events;
    var a := Attempts(s, b.channel);
    assert a >= 1 ==> BackoffSecs(a + 1) >= 10 by { if 1 <= a < 6 { assert a + 1 in {2, 3, 4, 5, 6}; } }
  }

  function Probe(c: Channel, e: Event, b: Batch, now: Time): seq<Step> {
    [Step(Push(c, e), now)] + ([Step(FlushNext(Some(c)), now)] + ([Step(Requeue(b, 1.0), now)] + AfterFailure(c, now)))
  }

  lemma HandingTells(m: Moment, c: Channel, e: Event)
    requires Quiet(m.q, c) && m.q.queues == map[c := [e]] && !Throttled(m.q, c, m.now)
    ensures var b := QueuedBatch(m.q, c);
            var run := [Step(FlushNext(Some(c)), m.now)] + ([Step(Requeue(b, 1.0), m.now)] + AfterFailure(c, m.now));
            && Honest(m, run) && |Outputs(m.q, run)| == 4
            && Outputs(m.q, run)[3] == Answer(Attempts(m.q, c) == 0)
  {
    var b, step := QueuedBatch(m.q, c), Step(FlushNext(Some(c)), m.now);
    LoneFlush(m.q, c, e, m.now);
    var n := Stride(m, step);
    FailureTells(n, c, b);
    HonestFirst(m, step, [Step(Requeue(b, 1.0), m.now)] + AfterFailure(c, m.now));
  }

  lemma LonePick(s: Queue, c: Channel, e: Event, now: Time)
    requires Quiet(s, c) && s.queues == map[c := [e]] && !Throttled(s, c, now)
    ensures var x := Expire(s, now);
            && Candidates(x, now) == {c} && x.queues == s.queues && x.cancelled == s.cancelled && x.reasons == s.reasons
            && x.withheld.Keys <= {c} && x.deadlines.Keys == x.inFlight && Attempts(x, c) == Attempts(s, c)
  {
    var x := Expire(s, now);
    assert x.queues == s.queues;
    assert c in Candidates(x, now);
  }

  lemma LoneTake(x: Queue, c: Channel, e: Event, now: Time)
    requires x.queues == map[c := [e]] && x.cancelled.Keys <= {c} && x.withheld.Keys <= {c}
        && x.deadlines.Keys == x.inFlight
    ensures QuietBut(TakeQueued(x, c, now), c) && TakeQueued(x, c, now).queues == map[]
    ensures Attempts(TakeQueued(x, c, now), c) == Attempts(x, c)
    ensures QueuedBatch(x, c).events == [e] && QueuedBatch(x, c).channel == c
  {
    var t := TakeQueued(x, c, now);
    assert [e][..1] == [e] && [e][1..] == [] && SortByCreated([e]) == [e];
    assert t.cancelled == map[] && t.queues == map[];
  }

  /** A queue with a single event, on an idle and unthrottled channel, hands that event out. */
  lemma LoneFlush(s: Queue, c: Channel, e: Event, now: Time)
    requires Quiet(s, c) && s.queues == map[c := [e]] && !Throttled(s, c, now)
    ensures Allowed(s, FlushNext(Some(c)), now)
    ensures BatchOf(s, Step(FlushNext(Some(c)), now)) == Some(QueuedBatch(s, c))
    ensures QueuedBatch(s, c).events == [e] && QueuedBatch(s, c).channel == c
    ensures var t := Next(s, FlushNext(Some(c)), now);
            QuietBut(t, c) && t.queues == map[] && Attempts(t, c) == Attempts(s, c)
  {
    var x := Expire(s, now);
    LonePick(s, c, e, now);
    LoneTake(x, c, e, now);
    assert Oldest(x, c, now);
    assert QueuedBatch(x, c) == QueuedBatch(s, c);
  }

  ghost function ProbeBatch(s: Queue, c: Channel, e: Event): Batch {
    Batch(c, [e], At(s.cancelled, c), if At(s.cancelled, c) == [] then None else Find(s.reasons, c))
  }

  lemma PushSlots(s: Queue, c: Channel, e: Event)
    requires Quiet(s, c) && s.queues == map[]
    ensures var t := Pushed(s, c, e);
            && Quiet(t, c) && t.queues == map[c := [e]] && t.retryAfter == s.retryAfter
            && (forall now :: t == Next(s, Push(c, e), now))
            && Attempts(t, c) == Attempts(s, c) && QueuedBatch(t, c) == ProbeBatch(s, c, e)
  {
    assert Enqueued([], e) == [e];
    assert [e][..1] == [e] && [e][1..] == [] && SortByCreated([e]) == [e];
    assert Pushed(s, c, e).queues == map[c := [e]];
  }

  lemma ProbeTells(m: Moment, c: Channel, e: Event)
    requires Quiet(m.q, c) && m.q.queues == map[] && !Throttled(m.q, c, m.now)
    ensures var run := Probe(c, e, ProbeBatch(m.q, c, e), m.now);
            && Honest(m, run) && |Outputs(m.q, run)| == 5
            && Outputs(m.q, run)[4] == Answer(Attempts(m.q, c) == 0)
  {
    var b := ProbeBatch(m.q, c, e);
    PushSlots(m.q, c, e);
    HandingTells(Moment(Pushed(m.q, c, e), m.now, m.out), c, e);
    PlainFirst(m, Push(c, e), m.now,
               [Step(FlushNext(Some(c)), m.now)] + ([Step(Requeue(b, 1.0), m.now)] + AfterFailure(c, m.now)),
               Probe(c, e, b, m.now));
  }

  /** Two queues that differ in the retry count of an idle channel: one has a count, the other none. */
  ghost predicate Miscounted(s: Queue, t: Queue, c: Channel, now: Time) {
    && Inv(s) && Inv(t) && s.queues == t.queues && s.cancelled == t.cancelled && s.reasons == t.reasons
    && s.withheld == t.withheld && s.inFlight == t.inFlight
    && c !in s.queues && c !in s.inFlight && !Throttled(s, c, now) && !Throttled(t, c, now)
    && 1 <= Attempts(s, c) && Attempts(t, c) == 0
  }

  lemma DrainMiscounted(s: Queue, t: Queue, c: Channel, d: Channel, now: Time)
    requires Miscounted(s, t, c, now) && d != c
    ensures Miscounted(DrainedChannel(s, d), DrainedChannel(t, d), c, now)
  {
    DrainKeepsInv(s, d);
    DrainKeepsInv(t, d);
    DrainSlots(s, c, d, now);
    DrainSlots(t, c, d, now);
  }

  lemma ProbesDiffer(s: Queue, t: Queue, c: Channel, now: Time) returns (run: seq<Step>)
    requires Miscounted(s, t, c, now) && Others(s, c) == {}
    ensures Honest(Moment(s, now, multiset{}), run) && Honest(Moment(t, now, multiset{}), run)
    ensures Outputs(s, run) != Outputs(t, run)
  {
    assert s.queues.Keys == {} && s.queues == map[];
    var e := Event("", 0, now, "");
    ProbeTells(Moment(s, now, multiset{}), c, e);
    ProbeTells(Moment(t, now, multiset{}), c, e);
    run := Probe(c, e, ProbeBatch(s, c, e), now);
  }

  lemma DrainFirst(m: Moment, n: Moment, d: Channel, rest: seq<Step>, run: seq<Step>)
    requires m.now == n.now && run == [Step(DrainChannel(d), m.now)] + rest && m.q.queues == n.q.queues
    requires Honest(Moment(DrainedChannel(m.q, d), m.now, m.out), rest)
    requires Honest(Moment(DrainedChannel(n.q, d), n.now, n.out), rest)
    requires Outputs(DrainedChannel(m.q, d), rest) != Outputs(DrainedChannel(n.q, d), rest)
    ensures Honest(m, run) && Honest(n, run) && Outputs(m.q, run) != Outputs(n.q, run)
  {
    PlainFirst(m, DrainChannel(d), m.now, rest, run);
    PlainFirst(n, DrainChannel(d), m.now, rest, run);
    ConsDiffers(Out(m.q, DrainChannel(d), m.now), Outputs(DrainedChannel(m.q, d), rest),
                Out(n.q, DrainChannel(d), m.now), Outputs(DrainedChannel(n.q, d), rest));
  }

  lemma ConsDiffers(a: Output, x: seq<Output>, b: Output, y: seq<Output>)
    requires x != y
    ensures [a] + x != [b] + y
  {
    assert ([a] + x)[1..] == x && ([b] + y)[1..] == y;
  }

  /**
   An honest caller tells them apart: once the agent has left its other channels, a new event that fails a
   single time is throttled for five seconds with a fresh count, and for at least ten without.
   */
  lemma {:induction false} MiscountShows(s: Queue, t: Queue, c: Channel, now: Time) returns (run: seq<Step>)
    requires Miscounted(s, t, c, now)
    ensures Honest(Moment(s, now, multiset{}), run) && Honest(Moment(t, now, multiset{}), run)
    ensures Outputs(s, run) != Outputs(t, run)
    decreases Others(s, c)
  {
    if Others(s, c) == {} {
      run := ProbesDiffer(s, t, c, now);
    } else {
      var d :| d in Others(s, c);
      DrainMiscounted(s, t, c, d, now);
      DrainSlots(s, c, d, now);
      var rest := MiscountShows(DrainedChannel(s, d), DrainedChannel(t, d), c, now);
      run := [Step(DrainChannel(d), now)] + rest;
      DrainFirst(Moment(s, now, multiset{}), Moment(t, now, multiset{}), d, rest, run);
    }
  }

  /**
   Compaction is invisible exactly when it finds no orphaned counter. Then no run at all can tell; otherwise
   even an honest caller can.
   */
  lemma CompactionInvisibleExactly(s: Queue, now: Time)
    requires Inv(s)
    ensures Indistinguishable(s, Compacted(s, now), now) <==> forall c :: !Orphan(s, c, now)
    ensures HonestlyIndistinguishable(s, Compacted(s, now), now) <==> forall c :: !Orphan(s, c, now)
  {
    var t := Compacted(s, now);
    if forall c :: !Orphan(s, c, now) {
      CompactedIsAlike(s, now);
      forall run ensures IsRun(s, run, now) == IsRun(t, run, now)
          && (IsRun(s, run, now) ==> Outputs(s, run) == Outputs(t, run)) {
        RunsAlike(s, t, run, now);
      }
      IndistinguishableToAll(s, t, now);
    } else {
      var c :| Orphan(s, c, now);
      CompactKeepsInv(s, now);
      var run := MiscountShows(s, t, c, now);
      HonestIsRun(Moment(s, now, multiset{}), run);
      assert !Indistinguishable(s, t, now);
      assert !HonestlyIndistinguishable(s, t, now);
    }
  }

  lemma IndistinguishableToAll(s: Queue, t: Queue, now: Time)
    requires Indistinguishable(s, t, now)
    ensures HonestlyIndistinguishable(s, t, now)
  {
    forall run | Honest(Moment(s, now, multiset{}), run) || Honest(Moment(t, now, multiset{}), run)
      ensures IsRun(s, run, now) && IsRun(t, run, now) && Outputs(s, run) == Outputs(t, run)
    {
      if Honest(Moment(s, now, multiset{}), run) {
        HonestIsRun(Moment(s, now, multiset{}), run);
      } else {
        HonestIsRun(Moment(t, now, multiset{}), run);
      }
    }
  }

  /**
   At any point of any run from an empty queue without in-flight expiry, withholding or
   single-event removal, compacting changes no later answer: no batch, no question, no
   dead-letter decision.
   */
  lemma CompactionIsInvisible(mode: DedupMode, run: seq<Step>, clock: Time, now: Time)
    requires IsRun(Empty(mode), run, clock) && AllReturnEvents(run) && TameRun(Empty(mode), run)
    requires EndTime(run, clock) <= now
    ensures Indistinguishable(Final(Empty(mode), run), Compacted(Final(Empty(mode), run), now), now)
  {
    TameRunsStayAnchored(Empty(mode), run, clock);
    var s := Final(Empty(mode), run);
    forall c ensures !Orphan(s, c, now) { assert Anchored(s, c, EndTime(run, clock)); }
    CompactionInvisibleExactly(s, now);
  }

  // ---- what expiry can leave behind ----

  /** From an empty queue: a turn fails, is completed, is tried again, and never comes back. */
  lemma TurnLost(e: Event) returns (run: seq<Step>, n: Moment)
    ensures Leads(Start(Accumulate), run, n) && n.now == 5.0
    ensures n.q == Stage(1, BLANK.(flight := Some(Flight(5.0 + DEFAULT_IN_FLIGHT_DEADLINE_SECS, 1)),
                                   throttle := Some(5.0), attempts := Some(1)))
  {
    var m := Start(Accumulate);
    BlankIsEmpty(1);
    assert [] + [e] == [e] && [e] + [] == [e] && SortByCreated([e][..1]) == [e] && [e][1..] == [];
    var x := BLANK.(queue := [e]);
    var y := Flown(x, 0.0).(queue := [e], attempts := Some(1), throttle := Some(5.0));
    run, n := PushMore(m, [], m, 1, BLANK, e, 0.0);
    run, n := FlushMore(m, run, n, 1, x, 0.0);
    run, n := RequeueMore(m, run, n, 1, Flown(x, 0.0), SceneBatch(1, x), 0.0);
    run, n := CompleteMore(m, run, n, 1, y, 0.0);
    run, n := FlushMore(m, run, n, 1, Landed(y, 0.0), 5.0);
  }

  /**
   The restriction to runs without expiry is needed: in this run an honest caller retries a turn that then
   expires without being completed, which leaves its retry counter orphaned, and an honest caller can tell
   whether the queue was compacted after it.
   */
  lemma ExpiryOrphansACounter() returns (run: seq<Step>, now: Time)
    ensures Honest(Start(Accumulate), run) && EndTime(run, 0.0) <= now
    ensures var s := Final(Empty(Accumulate), run);
            !HonestlyIndistinguishable(s, Compacted(s, now), now)
  {
    now := 8000.0;
    var n;
    run, n := TurnLost(Event("", 0, 0.0, ""));
    var x := BLANK.(flight := Some(Flight(5.0 + DEFAULT_IN_FLIGHT_DEADLINE_SECS, 1)), throttle := Some(5.0),
        attempts := Some(1));
    SceneExpire(1, x, now);
    var step := Step(HasFlushableWork, now);
    OneMore(Start(Accumulate), run, n, step);
    run := run + [step];
    HonestIsRun(Start(Accumulate), run);
    HonestRunsKeepInv(Start(Accumulate), run);
    var s := Final(Empty(Accumulate), run);
    assert s == Stage(1, Lapsed(x));
    assert Orphan(s, 1, now);
    CompactionInvisibleExactly(s, now);
  }
}
