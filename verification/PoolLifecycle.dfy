/**
 The lifecycle of a lazily started agent pool: which wake may complete, and when the next may start.
 */
module PoolLifecycles {
  import opened Events
  import opened Numbers

  const U64_MAX: nat := 0xFFFF_FFFF_FFFF_FFFF
  const INITIAL_RETRY_DELAY: nat := 5
  const MAX_RETRY_DELAY: nat := 300

  type U32 = n: nat | n <= U32_MAX

  /** Saturating 64-bit arithmetic with the shift written out. */
  function RetryDelay(attempt: U32): nat {
    var exponent := Min(if attempt == 0 then 0 else attempt - 1, 63);
    Min(Min(INITIAL_RETRY_DELAY * Min(Pow2(exponent), U64_MAX), U64_MAX), MAX_RETRY_DELAY)
  }

  lemma {:induction false} Pow2Grows(m: nat, n: nat)
    requires m <= n
    ensures Pow2(m) <= Pow2(n)
    decreases n
  {
    if m < n { Pow2Grows(m, n - 1); }
  }

  /** The saturating form is the exponential schedule, for every attempt number. */
  lemma RetryDelayIsExponential(attempt: U32)
    requires 1 <= attempt
    ensures RetryDelay(attempt) == Min(INITIAL_RETRY_DELAY * Pow2(attempt - 1), MAX_RETRY_DELAY)
  {
    assert Pow2(6) == 64;
    if attempt > 64 {
      Pow2Grows(6, 63);
      Pow2Grows(6, attempt - 1);
    } else if attempt >= 7 {
      Pow2Grows(6, attempt - 1);
    } else {
      Pow2Grows(attempt - 1, 6);
    }
  }

  datatype State<P> =
    | Listening
    | Waking(attempt: U32)
    | Ready(pool: P)
    | Failed(attempt: U32, retryAt: Time, error: string)

  datatype Result<P> = Woke(pool: P) | Broke(error: string)

  datatype Answer = Accepted | WrongAttempt | NotWaking

  /** The token of the wake to start now, if one is due. */
  function DueToken<P>(s: State<P>, pendingWork: bool, now: Time): Option<U32> {
    if !pendingWork then None
    else match s
      case Listening => Some(1)
      case Failed(attempt, retryAt, _) =>
        if retryAt <= now then Some(if attempt == U32_MAX then U32_MAX else attempt + 1) else None
      case _ => None
  }

  function AnswerTo<P>(s: State<P>, token: U32): Answer {
    match s
    case Waking(attempt) => if attempt == token then Accepted else WrongAttempt
    case _ => NotWaking
  }

  function Concluded<P>(token: U32, result: Result<P>, now: Time): State<P> {
    match result
    case Woke(pool) => Ready(pool)
    case Broke(error) => Failed(token, now + RetryDelay(token) as real, error)
  }

  class PoolLifecycle<P> {
    var state: State<P>

    constructor ()
      ensures state == Listening
    {
      state := Listening;
    }

    method StartWakeIfDue(pendingWork: bool, now: Time) returns (token: Option<U32>)
      modifies this
      ensures token == DueToken(old(state), pendingWork, now)
      ensures state == if token.Some? then Waking(token.value) else old(state)
    {
      token := None;
      if !pendingWork {
        return;
      }
      match state {
        case Listening => token := Some(1);
        case Failed(attempt, retryAt, _) =>
          if now >= retryAt {
            token := Some(if attempt == U32_MAX then U32_MAX else attempt + 1);
          }
        case _ =>
      }
      if token.Some? {
        state := Waking(token.value);
      }
    }

    method TakeReady() returns (pool: Option<P>)
      modifies this
      ensures pool == if old(state).Ready? then Some(old(state).pool) else None
      ensures state == if old(state).Ready? then Listening else old(state)
    {
      if state.Ready? {
        pool := Some(state.pool);
        state := Listening;
      } else {
        pool := None;
      }
    }

    method CompleteWake(token: U32, result: Result<P>, now: Time) returns (answer: Answer)
      modifies this
      ensures answer == AnswerTo(old(state), token)
      ensures state == if answer.Accepted? then Concluded(token, result, now) else old(state)
    {
      if !state.Waking? {
        return NotWaking;
      }
      if state.attempt != token {
        return WrongAttempt;
      }
      match result {
        case Woke(pool) => state := Ready(pool);
        case Broke(error) => state := Failed(token, now + RetryDelay(token) as real, error);
      }
      return Accepted;
    }

    method CancelWake(token: U32, error: string, now: Time) returns (cancelled: bool)
      modifies this
      ensures cancelled == AnswerTo(old(state), token).Accepted?
      ensures state == if cancelled then Concluded(token, Broke(error), now) else old(state)
    {
      var answer := CompleteWake(token, Broke(error), now);
      return answer.Accepted?;
    }
  }

  // ---- runs ----

  datatype Call<P> =
    | StartWake(pendingWork: bool)
    | Complete(token: U32, result: Result<P>)
    | TakePool

  datatype Timed<P> = Timed(call: Call<P>, now: Time)

  function After<P>(s: State<P>, t: Timed<P>): State<P> {
    match t.call
    case StartWake(work) =>
      var token := DueToken(s, work, t.now);
      if token.Some? then Waking(token.value) else s
    case Complete(token, result) => if AnswerTo(s, token).Accepted? then Concluded(token, result, t.now) else s
    case TakePool => if s.Ready? then Listening else s
  }

  /** Since the pool last listened: tokens issued, completions accepted, and when each accepted failure came. */
  datatype History = History(issued: seq<U32>, accepted: seq<U32>, failedAt: seq<Time>, startedAt: seq<Time>)

  const FRESH := History([], [], [], [])

  function Recorded<P>(h: History, s: State<P>, t: Timed<P>): History {
    match t.call
    case StartWake(work) =>
      var token := DueToken(s, work, t.now);
      if token.Some? then h.(issued := h.issued + [token.value], startedAt := h.startedAt + [t.now]) else h
    case Complete(token, result) =>
      if !AnswerTo(s, token).Accepted? then h
      else h.(accepted := h.accepted + [token], failedAt := if result.Broke? then h.failedAt + [t.now] else h.failedAt)
    case TakePool => if s.Ready? then FRESH else h
  }

  /** Wake number k carries token k, counting from one, until the counter saturates. */
  ghost predicate CountsUp(tokens: seq<U32>) {
    forall k :: 0 <= k < |tokens| ==> tokens[k] == Min(k + 1, U32_MAX)
  }

  /** Each wake after the first starts no sooner than the delay earned by the failure before it. */
  ghost predicate WaitsBetween(h: History) {
    && |h.startedAt| == |h.issued| && |h.startedAt| <= |h.failedAt| + 1
    && forall k :: 1 <= k < |h.startedAt| ==>
         h.failedAt[k - 1] + RetryDelay(Min(k, U32_MAX)) as real <= h.startedAt[k]
  }

  /** The books of the wake machine. */
  ghost predicate Tallies<P>(s: State<P>, h: History) {
    && CountsUp(h.issued) && WaitsBetween(h)
    && h.accepted <= h.issued
    && match s
       case Listening => h == FRESH
       case Waking(a) => |h.issued| == |h.accepted| + 1 && |h.failedAt| == |h.accepted| && a == h.issued[|h.issued| - 1]
       case Ready(_) => |h.issued| == |h.accepted| == |h.failedAt| + 1
       case Failed(a, retryAt, _) =>
         && |h.issued| == |h.accepted| == |h.failedAt| > 0 && a == h.issued[|h.issued| - 1]
         && retryAt == h.failedAt[|h.failedAt| - 1] + RetryDelay(a) as real
  }

  lemma WakeTallies<P>(s: State<P>, h: History, token: U32, now: Time)
    requires Tallies(s, h) && DueToken(s, true, now) == Some(token)
    ensures Tallies<P>(Waking(token), h.(issued := h.issued + [token], startedAt := h.startedAt + [now]))
  {
    var n := h.(issued := h.issued + [token], startedAt := h.startedAt + [now]);
    assert CountsUp(n.issued);
    assert WaitsBetween(n);
  }

  lemma CallTallies<P>(s: State<P>, h: History, t: Timed<P>)
    requires Tallies(s, h)
    ensures Tallies(After(s, t), Recorded(h, s, t))
  {
    match t.call
    case StartWake(work) =>
      if DueToken(s, work, t.now).Some? { WakeTallies(s, h, DueToken(s, work, t.now).value, t.now); }
    case Complete(token, result) =>
    case TakePool =>
  }

  function StateAfter<P>(s: State<P>, run: seq<Timed<P>>): State<P>
    decreases |run|
  {
    if run == [] then s else StateAfter(After(s, run[0]), run[1..])
  }

  function HistoryAfter<P>(h: History, s: State<P>, run: seq<Timed<P>>): History
    decreases |run|
  {
    if run == [] then h else HistoryAfter(Recorded(h, s, run[0]), After(s, run[0]), run[1..])
  }

  lemma {:induction false} RunTallies<P>(s: State<P>, h: History, run: seq<Timed<P>>)
    requires Tallies(s, h)
    ensures Tallies(StateAfter(s, run), HistoryAfter(h, s, run))
    decreases |run|
  {
    if run != [] {
      CallTallies(s, h, run[0]);
      RunTallies(After(s, run[0]), Recorded(h, s, run[0]), run[1..]);
    }
  }

  /**
   In every run since the pool last listened: tokens are 1, 2, 3, ...; each accepted completion carries the
   token of its own wake, in order, so none is accepted twice; a wake is outstanding exactly while
   waking; and wake k + 1 starts at least min(5 * 2^(k-1), 300) seconds after failure k.
   */
  lemma WakeTokens<P>(run: seq<Timed<P>>, k: nat)
    ensures var s, h := StateAfter(Listening, run), HistoryAfter<P>(FRESH, Listening, run);
            && CountsUp(h.issued) && h.accepted <= h.issued
            && |h.issued| == |h.accepted| + (if s.Waking? then 1 else 0)
            && (s.Waking? ==> s.attempt == h.issued[|h.issued| - 1])
            && (1 <= k < |h.issued| && k <= U32_MAX ==>
                  k <= |h.failedAt| && k < |h.startedAt|
                  && h.failedAt[k - 1] + Min(INITIAL_RETRY_DELAY * Pow2(k - 1), MAX_RETRY_DELAY) as real
                      <= h.startedAt[k])
  {
    RunTallies<P>(Listening, FRESH, run);
    if 1 <= k <= U32_MAX { RetryDelayIsExponential(k); }
  }

  // ---- what the calls mean ----

  /** A wake is due only with work pending: the first when nothing has been tried, the next once the delay is over. */
  lemma WakeDueExactly<P>(s: State<P>, pendingWork: bool, now: Time, token: U32)
    ensures DueToken(s, pendingWork, now) == Some(token) <==>
            && pendingWork
            && (s.Listening? || (s.Failed? && s.retryAt <= now))
            && token == if s.Listening? then 1 else if s.attempt == 4294967295 then 4294967295 else s.attempt + 1
  {
  }

  /** A completion counts exactly for the wake in progress; a failure is retried after the delay it has earned. */
  lemma CompletionExactly<P>(s: State<P>, token: U32, result: Result<P>, now: Time)
    requires 1 <= token
    ensures AnswerTo(s, token) == Accepted <==> s == Waking(token)
    ensures AnswerTo(s, token) == WrongAttempt <==> s.Waking? && s.attempt != token
    ensures result.Woke? ==> Concluded(token, result, now) == State.Ready(result.pool)
    ensures result.Broke? ==>
              var delay := if 5 * Pow2(token - 1) < 300 then 5 * Pow2(token - 1) else 300;
              Concluded(token, result, now) == Failed(token, now + delay as real, result.error)
  {
    RetryDelayIsExponential(token);
  }
}
