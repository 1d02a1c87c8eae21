/**
 The microphone tap of a huddle: samples are gathered in place into frames of 960 and posted whole,
 and push-to-talk throws away only the frame being gathered.
 */
module SttTap {
  import opened Events

  const FRAME: nat := 960

  type Sample = real

  /** What the tap has gathered and posted. */
  datatype Tap = Tap(partial: seq<Sample>, transmitting: bool, frames: seq<seq<Sample>>)

  function Gathered(t: Tap, input: seq<Sample>): seq<Sample> {
    t.partial + input
  }

  /** Writing past the end of a fresh buffer throws. */
  predicate Overruns(t: Tap, input: seq<Sample>) {
    t.transmitting && |Gathered(t, input)| > 2 * FRAME
  }

  function Processed(t: Tap, input: seq<Sample>): Tap {
    var g := Gathered(t, input);
    t.(partial := if !t.transmitting then []
                  else if |g| < FRAME then g
                  else if Overruns(t, input) then []
                  else g[FRAME..],
       frames := if t.transmitting && |g| >= FRAME then t.frames + [g[..FRAME]] else t.frames)
  }

  class SttTapProcessor {
    var buffer: array<Sample>
    var offset: nat
    var transmitting: bool
    var posted: seq<seq<Sample>>

    ghost predicate Valid()
      reads this
    {
      buffer.Length == FRAME && offset <= FRAME
    }

    ghost function View(): Tap
      requires Valid()
      reads this, buffer
    {
      Tap(buffer[..offset], transmitting, posted)
    }

    constructor ()
      ensures Valid() && View() == Tap([], true, []) && fresh(buffer)
    {
      buffer := new Sample[FRAME];
      offset, transmitting, posted := 0, true, [];
    }

    method OnMessage(active: bool)
      requires Valid()
      modifies this`transmitting
      ensures Valid() && View() == old(View()).(transmitting := active)
    {
      transmitting := active;
    }

    /** Copies `samples` into the buffer from `at` on. */
    method Set(samples: seq<Sample>, at: nat)
      requires buffer.Length == FRAME && at + |samples| <= FRAME
      modifies buffer
      ensures buffer[..at + |samples|] == old(buffer[..at]) + samples
    {
      for i := 0 to |samples|
        invariant buffer[..at + i] == old(buffer[..at]) + samples[..i]
      {
        buffer[at + i] := samples[i];
      }
    }

    /** One render call; `thrown` is the range error of an input too long for two frames. */
    method Process(input: Option<seq<Sample>>) returns (thrown: bool)
      requires Valid()
      modifies this, buffer
      ensures Valid() && (buffer == old(buffer) || fresh(buffer))
      ensures input.None? ==> !thrown && View() == old(View())
      ensures input.Some? ==> View() == Processed(old(View()), input.value)
      ensures input.Some? ==> (thrown <==> old(transmitting) && old(offset) + |input.value| > 1920)
    {
      thrown := false;
      if input.None? {
        return;
      }
      if !transmitting {
        offset := 0;
        return;
      }
      ghost var g := Gathered(View(), input.value);
      var remaining := buffer.Length - offset;
      var toCopy := if |input.value| < remaining then |input.value| else remaining;
      Set(input.value[..toCopy], offset);
      offset := offset + toCopy;
      assert buffer[..offset] == g[..offset];
      if offset >= buffer.Length {
        assert buffer[..] == g[..FRAME];
        posted := posted + [buffer[..]];
        buffer := new Sample[FRAME];
        offset := 0;
        if toCopy < |input.value| {
          var leftover := input.value[toCopy..];
          assert leftover == g[FRAME..];
          if |leftover| > buffer.Length {
            assert buffer[..0] == [];
            return true;
          }
          Set(leftover, 0);
          offset := |leftover|;
        }
      }
    }
  }

  // ---- a reference: cutting a recording into frames ----

  function Cut(s: seq<Sample>): seq<seq<Sample>> {
    if |s| < FRAME then [] else [s[..FRAME]] + Cut(s[FRAME..])
  }

  function Remainder(s: seq<Sample>): (r: seq<Sample>)
    ensures |r| < FRAME
  {
    if |s| < FRAME then s else Remainder(s[FRAME..])
  }

  function Flat(frames: seq<seq<Sample>>): seq<Sample> {
    if frames == [] then [] else frames[0] + Flat(frames[1..])
  }

  /** Cutting loses nothing: whole frames, then what is left. */
  lemma {:induction false} CutKeepsAll(s: seq<Sample>)
    ensures Flat(Cut(s)) + Remainder(s) == s
    ensures forall i :: 0 <= i < |Cut(s)| ==> |Cut(s)[i]| == FRAME
  {
    if |s| >= FRAME {
      CutKeepsAll(s[FRAME..]);
      assert Cut(s)[1..] == Cut(s[FRAME..]);
      assert s == s[..FRAME] + (Flat(Cut(s[FRAME..])) + Remainder(s[FRAME..]));
    }
  }

  /** Recording a little more completes at most one frame. */
  lemma {:induction false} CutGrows(s: seq<Sample>, x: seq<Sample>)
    requires |Remainder(s)| + |x| < 2 * FRAME
    ensures var g := Remainder(s) + x;
            && Cut(s + x) == Cut(s) + (if |g| < FRAME then [] else [g[..FRAME]])
            && Remainder(s + x) == if |g| < FRAME then g else g[FRAME..]
  {
    if |s| < FRAME {
      var g := s + x;
      if |g| >= FRAME {
        assert Cut(g[FRAME..]) == [] && Cut(g) == [g[..FRAME]] + [];
      }
    } else {
      CutGrows(s[FRAME..], x);
      assert (s + x)[..FRAME] == s[..FRAME] && (s + x)[FRAME..] == s[FRAME..] + x;
    }
  }

  // ---- whole sessions ----

  datatype Call = Block(samples: seq<Sample>) | NoInput | PushToTalk(active: bool)

  function AfterCall(t: Tap, call: Call): Tap {
    match call
    case Block(samples) => Processed(t, samples)
    case NoInput => t
    case PushToTalk(active) => t.(transmitting := active)
  }

  /** Frames of finished stretches, and the recording of the current one: a muted block ends a stretch. */
  datatype Record = Record(past: seq<seq<Sample>>, current: seq<Sample>)

  function AfterRecorded(r: Record, transmitting: bool, call: Call): Record {
    match call
    case Block(samples) =>
      if transmitting then r.(current := r.current + samples) else Record(r.past + Cut(r.current), [])
    case _ => r
  }

  ghost predicate Agrees(t: Tap, r: Record) {
    t.frames == r.past + Cut(r.current) && t.partial == Remainder(r.current)
  }

  lemma {:induction false} CutLength(s: seq<Sample>)
    ensures FRAME * |Cut(s)| + |Remainder(s)| == |s|
  {
    if |s| >= FRAME { CutLength(s[FRAME..]); }
  }

  /**
   A block leaves the tap in agreement with the recording exactly when it completes less than two frames: two
   whole ones leave a full buffer unposted, and more than that throws and loses what was left over.
   */
  lemma BlockAgreesExactly(t: Tap, r: Record, samples: seq<Sample>)
    requires Agrees(t, r) && t.transmitting
    ensures Agrees(Processed(t, samples), AfterRecorded(r, true, Block(samples)))
            <==> |t.partial| + |samples| < 2 * FRAME
  {
    var u := Processed(t, samples);
    if |t.partial| + |samples| < 2 * FRAME {
      CutGrows(r.current, samples);
      var g := Remainder(r.current) + samples;
      var more := if |g| < FRAME then [] else [g[..FRAME]];
      assert r.past + Cut(r.current) + more == r.past + (Cut(r.current) + more);
    } else {
      CutLength(r.current);
      CutLength(r.current + samples);
      assert |u.frames| == |r.past| + |Cut(r.current)| + 1;
    }
  }

  /** So a block is safe, whatever is buffered, exactly when it is at most one frame long. */
  lemma SafeBlockExactly(samples: seq<Sample>)
    ensures (forall t: Tap :: |t.partial| < FRAME ==> |t.partial| + |samples| < 2 * FRAME) <==> |samples| <= FRAME
  {
    if |samples| > FRAME {
      var t := Tap(seq(FRAME - 1, i => 0.0), true, []);
      assert |t.partial| + |samples| >= 2 * FRAME;
    }
  }

  lemma CallAgrees(t: Tap, r: Record, call: Call)
    requires Agrees(t, r) && (call.Block? ==> |call.samples| <= FRAME)
    ensures Agrees(AfterCall(t, call), AfterRecorded(r, t.transmitting, call))
    ensures call.Block? ==> !Overruns(t, call.samples)
  {
    if call.Block? {
      if t.transmitting {
        BlockAgreesExactly(t, r, call.samples);
      } else {
        assert r.past + Cut(r.current) + Cut([]) == r.past + Cut(r.current);
      }
    }
  }

  function TapAfter(t: Tap, calls: seq<Call>): Tap {
    if calls == [] then t else AfterCall(TapAfter(t, calls[..|calls| - 1]), calls[|calls| - 1])
  }

  function RecordAfter(r: Record, t: Tap, calls: seq<Call>): Record {
    if calls == [] then r
    else AfterRecorded(RecordAfter(r, t, calls[..|calls| - 1]), TapAfter(t, calls[..|calls| - 1]).transmitting,
                       calls[|calls| - 1])
  }

  /**
   Over any session of blocks of at most one frame: what was posted is exactly the recording, stretch by
   stretch, cut into whole frames; what is buffered is the rest of the current stretch; and each muted block
   discards only an unfinished frame.
   */
  lemma {:induction false} SessionAgrees(calls: seq<Call>)
    requires forall i :: 0 <= i < |calls| ==> calls[i].Block? ==> |calls[i].samples| <= FRAME
    ensures Agrees(TapAfter(Tap([], true, []), calls), RecordAfter(Record([], []), Tap([], true, []), calls))
    decreases |calls|
  {
    if calls != [] {
      var n := |calls| - 1;
      SessionAgrees(calls[..n]);
      CallAgrees(TapAfter(Tap([], true, []), calls[..n]), RecordAfter(Record([], []), Tap([], true, []), calls[..n]),
          calls[n]);
    }
  }

  /** Every frame ever posted is whole, whatever the sizes of the blocks. */
  lemma {:induction false} FramesAreWhole(t: Tap, calls: seq<Call>)
    requires forall i :: 0 <= i < |t.frames| ==> |t.frames[i]| == 960
    ensures forall i :: 0 <= i < |TapAfter(t, calls).frames| ==> |TapAfter(t, calls).frames[i]| == 960
    decreases |calls|
  {
    if calls != [] { FramesAreWhole(t, calls[..|calls| - 1]); }
  }

  /** What push-to-talk last said, if anything. */
  function LastSaid(calls: seq<Call>, before: bool): bool {
    if calls == [] then before
    else if calls[|calls| - 1].PushToTalk? then calls[|calls| - 1].active
    else LastSaid(calls[..|calls| - 1], before)
  }

  /** The tap transmits as push-to-talk last said; blocks, and calls without input, leave that alone. */
  lemma {:induction false} TransmitsAsLastSaid(t: Tap, calls: seq<Call>)
    ensures TapAfter(t, calls).transmitting == LastSaid(calls, t.transmitting)
    decreases |calls|
  {
    if calls != [] { TransmitsAsLastSaid(t, calls[..|calls| - 1]); }
  }

  /** A muted block leaves nothing gathered and posts nothing. */
  lemma MutedBlockIsDropped(t: Tap, samples: seq<Sample>)
    requires !t.transmitting
    ensures Processed(t, samples) == t.(partial := [])
  {
  }
}
