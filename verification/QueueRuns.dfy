/**
 Runs a caller really makes: it returns only batches it was handed, each of them once, under whatever
 reason it stamped on them meanwhile.
 */
module QueueRuns {
  import opened Events
  import opened QueueModel
  import opened QueueInvariant

  /** A moment of a run: the queue, the last clock reading, and the batches the caller still has. */
  datatype Moment = Moment(q: Queue, now: Time, out: multiset<Batch>)

  ghost function Start(mode: DedupMode): Moment {
    Moment(Empty(mode), 0.0, multiset{})
  }

  ghost predicate CanStep(m: Moment, step: Step) {
    && m.now <= step.now && Allowed(m.q, step.op, step.now)
    && (Returns(step.op) ==> Load(step.op.batch) in m.out)
  }

  ghost function Stride(m: Moment, step: Step): Moment {
    Moment(Next(m.q, step.op, step.now), step.now,
           (if Returns(step.op) then m.out - multiset{Load(step.op.batch)} else m.out)
           + (if BatchOf(m.q, step).Some? then multiset{Load(BatchOf(m.q, step).value)} else multiset{}))
  }

  ghost predicate Honest(m: Moment, run: seq<Step>)
    decreases |run|
  {
    run == [] || (CanStep(m, run[0]) && Honest(Stride(m, run[0]), run[1..]))
  }

  ghost function Walk(m: Moment, run: seq<Step>): Moment
    decreases |run|
  {
    if run == [] then m else Walk(Stride(m, run[0]), run[1..])
  }

  /** An honest run from `m` that ends in `n`. */
  ghost predicate Leads(m: Moment, run: seq<Step>, n: Moment) {
    Honest(m, run) && Walk(m, run) == n
  }

  function EndTime(run: seq<Step>, clock: Time): Time {
    if run == [] then clock else EndTime(run[1..], run[0].now)
  }

  lemma PlainStride(m: Moment, op: Op, now: Time)
    requires !Returns(op) && !op.FlushNext? && m.now <= now
    ensures CanStep(m, Step(op, now)) && Stride(m, Step(op, now)) == Moment(Next(m.q, op, now), now, m.out)
  {
  }

  lemma OneStep(m: Moment, step: Step)
    requires CanStep(m, step)
    ensures Leads(m, [step], Stride(m, step))
  {
    assert [step][1..] == [];
  }

  lemma {:induction false} Joined(m: Moment, a: seq<Step>, n: Moment, b: seq<Step>, o: Moment)
    requires Leads(m, a, n) && Leads(n, b, o)
    ensures Leads(m, a + b, o)
    decreases |a|
  {
    if a == [] {
      assert a + b == b;
    } else {
      assert (a + b)[0] == a[0] && (a + b)[1..] == a[1..] + b;
      Joined(Stride(m, a[0]), a[1..], n, b, o);
    }
  }

  lemma OneFirst(m: Moment, step: Step, rest: seq<Step>, o: Moment)
    requires CanStep(m, step) && Leads(Stride(m, step), rest, o)
    ensures Leads(m, [step] + rest, o)
  {
    assert ([step] + rest)[1..] == rest;
  }

  lemma OneMore(m: Moment, run: seq<Step>, n: Moment, step: Step)
    requires Leads(m, run, n) && CanStep(n, step)
    ensures Leads(m, run + [step], Stride(n, step))
  {
    OneStep(n, step);
    Joined(m, run, n, [step], Stride(n, step));
  }

  lemma {:induction false} HonestIsRun(m: Moment, run: seq<Step>)
    requires Honest(m, run)
    ensures IsRun(m.q, run, m.now)
    ensures Walk(m, run).q == Final(m.q, run) && Walk(m, run).now == EndTime(run, m.now)
    decreases |run|
  {
    if run != [] { HonestIsRun(Stride(m, run[0]), run[1..]); }
  }

  /** The caller's batches hold at least one event each, and are kept without their reasons. */
  ghost predicate Loaded(out: multiset<Batch>) {
    forall b :: b in out ==> b.events != [] && Load(b) == b
  }

  lemma StrideKeepsInv(m: Moment, step: Step)
    requires Inv(m.q) && Loaded(m.out) && CanStep(m, step)
    ensures Inv(Stride(m, step).q) && Loaded(Stride(m, step).out) && ReturnsEvents(step.op)
  {
    if Returns(step.op) { assert Load(step.op.batch).events == step.op.batch.events; }
    StepKeepsInv(m.q, step.op, step.now);
    if BatchOf(m.q, step).Some? { HandedBatchShape(m.q, step); }
  }

  /** Such a run never returns an empty batch, so it keeps the tables in shape throughout. */
  lemma {:induction false} HonestRunsKeepInv(m: Moment, run: seq<Step>)
    requires Inv(m.q) && Loaded(m.out) && Honest(m, run)
    ensures AllReturnEvents(run) && IsRun(m.q, run, m.now) && Inv(Final(m.q, run))
    decreases |run|
  {
    if run != [] {
      StrideKeepsInv(m, run[0]);
      HonestRunsKeepInv(Stride(m, run[0]), run[1..]);
      assert forall i :: 1 <= i < |run| ==> run[i] == run[1..][i - 1];
    }
  }
}
