/**
 How a turn ends, and what each answer says: every exit of the loop and every message it sends is traced back to the
 line, the clock reading or the failed write that causes it.
 */
module TurnExits {
  import opened Events
  import opened ReadLoop
  import opened TurnProperties

  /** The iteration gets to this message: both deadlines lie ahead as it begins. */
  ghost predicate Gets(s: Loop, i: Input, m: Message) {
    i.head < s.idle && i.head < s.hard && i.event.Read? && i.event.line == Msg(m)
  }

  /** A response: an id and no method. */
  ghost predicate RespondsTo(m: Message, id: nat) {
    m.call == NoMethod && m.id == Some(Num(id))
  }

  ghost predicate SteersWith(s: Loop, id: nat) {
    s.pending.Some? && s.pending.value.id == id
  }

  // ---- the answer to the prompt ----

  /** A result ends the turn as such, an error as an error, and nothing else does either. */
  lemma PromptEndsExactly(p: Params, s: Loop, i: Input)
    ensures Iterate(p, s, i).exit == Some(PromptResult) <==>
            exists m :: Gets(s, i, m) && RespondsTo(m, p.expectedId) && m.error.None? && !SteersWith(s, p.expectedId)
    ensures Iterate(p, s, i).exit == Some(PromptError) <==>
            exists m :: Gets(s, i, m) && RespondsTo(m, p.expectedId) && m.error.Some? && !SteersWith(s, p.expectedId)
  {
    if i.event.Read? && i.event.line.Msg? {
      var m := i.event.line.message;
      assert Gets(s, i, m) <==> i.head < NextDeadline(s);
    }
  }

  /** The last line of a turn answers its prompt in time, with an error or without one. */
  ghost predicate AnsweredAtLast(p: Params, s: Loop, script: seq<Input>, failed: bool) {
    && script != []
    && exists m :: && Gets(LastHead(p, s, script), script[|script| - 1], m)
                   && RespondsTo(m, p.expectedId) && m.error.Some? == failed
  }

  lemma {:induction false} EndsWithLast(p: Params, s: Loop, script: seq<Input>, clock: Time)
    requires IsScript(p, s, script, clock) && script != [] && LoopInv(p, s)
    ensures Turn(p, s, script).exit == Iterate(p, LastHead(p, s, script), script[|script| - 1]).exit
    ensures LoopInv(p, LastHead(p, s, script))
    decreases |script|
  {
    var o := Iterate(p, s, script[0]);
    IterationKeepsInv(p, s, script[0]);
    if o.exit.None? && script[1..] != [] {
      EndsWithLast(p, o.loop, script[1..], EndOf(script[0]));
    }
  }

  /** A whole turn ends in a result, or in an error, exactly when its last line is that answer to its prompt. */
  lemma TurnEndsExactly(p: Params, s: Loop, script: seq<Input>, clock: Time)
    requires IsScript(p, s, script, clock) && LoopInv(p, s)
    ensures Turn(p, s, script).exit == Some(PromptResult) <==> AnsweredAtLast(p, s, script, false)
    ensures Turn(p, s, script).exit == Some(PromptError) <==> AnsweredAtLast(p, s, script, true)
  {
    if script != [] {
      EndsWithLast(p, s, script, clock);
      PromptEndsExactly(p, LastHead(p, s, script), script[|script| - 1]);
    }
  }

  // ---- the other exits ----

  /** A deadline ends the turn, as idle exactly when the idle deadline is the earlier one, and tells the silence. */
  lemma TimeoutExactly(p: Params, s: Loop, i: Input, silence: Time)
    requires Possible(p, s, i)
    ensures var passed := i.head >= s.idle || i.head >= s.hard || i.event.Slept?;
            var at := if i.event.Slept? && i.head < s.idle && i.head < s.hard then i.event.at else i.head;
            && (Iterate(p, s, i).exit == Some(IdleTimeout) <==> passed && s.idle < s.hard)
            && (Iterate(p, s, i).exit == Some(HardTimeout(silence)) <==>
                  passed && s.hard <= s.idle && silence == if at < s.lastActivity then 0.0 else at - s.lastActivity)
  {
  }

  /** The end of the stream, an overlong line and a broken read each have their own exit. */
  lemma StreamEndsExactly(p: Params, s: Loop, i: Input)
    ensures var ready := i.head < s.idle && i.head < s.hard && i.event.Read?;
            && (Iterate(p, s, i).exit == Some(AgentExited) <==> ready && i.event.line == Eof)
            && (Iterate(p, s, i).exit == Some(LineTooLong) <==> ready && i.event.line == TooLong)
            && (Iterate(p, s, i).exit == Some(ReadFailed) <==> ready && i.event.line == Broken)
            && (ready && i.event.line in {Blank, Garbled} ==> Iterate(p, s, i) == Outcome(s, [], None))
  {
  }

  ghost predicate AsksPermission(m: Message) {
    m.call == Named("session/request_permission")
  }

  /** A request for a method the client does not have. */
  ghost predicate AsksUnknown(m: Message) {
    && m.call.Named? && m.id.Some?
    && m.call.name !in {"session/update", "_goose/unstable/session/update", "session/request_permission"}
  }

  /** A permission request is refused exactly when it has no id or no usable option; a write fails for an answer. */
  lemma BrokenExitsExactly(p: Params, s: Loop, i: Input)
    ensures Iterate(p, s, i).exit == Some(PermissionRefused) <==>
            exists m :: Gets(s, i, m) && AsksPermission(m) && (m.id.None? || Permit(m.choices).None?)
    ensures Iterate(p, s, i).exit == Some(WriteFailed) <==>
            exists m :: && Gets(s, i, m) && !i.event.writeOk
                        && ((AsksPermission(m) && m.id.Some? && Permit(m.choices).Some?) || AsksUnknown(m))
  {
    if i.event.Read? && i.event.line.Msg? {
      var m := i.event.line.message;
      assert Gets(s, i, m) <==> i.head < NextDeadline(s);
    }
  }

  // ---- what is sent ----

  /** Permission replies carry the id of their request and the permitted option; only requests get an error reply. */
  lemma RepliesExactly(p: Params, s: Loop, i: Input, to: JsonId, option: string)
    ensures Sent(PermissionReply(to, option)) in Iterate(p, s, i).emits <==>
            exists m :: && Gets(s, i, m) && i.event.writeOk && AsksPermission(m)
                        && m.id == Some(to) && Permit(m.choices) == Some(option)
    ensures Sent(MethodNotFound(to)) in Iterate(p, s, i).emits <==>
            exists m :: Gets(s, i, m) && i.event.writeOk && AsksUnknown(m) && m.id == Some(to)
  {
    if i.event.Read? && i.event.line.Msg? {
      var m := i.event.line.message;
      assert Gets(s, i, m) <==> i.head < NextDeadline(s);
    }
  }

  ghost predicate TakesSteer(s: Loop, i: Input) {
    i.head < s.idle && i.head < s.hard && i.event.SteerRequest?
  }

  /**
   A steer goes out under the next free id: the goose way exactly when a run is known, the extension's way when none
   is but the agent supports it. Otherwise, or when the write fails, the request is refused at once.
   */
  lemma SteerGoesOutExactly(p: Params, s: Loop, i: Input, id: nat, r: nat)
    ensures var sends := TakesSteer(s, i) && i.event.writeOk && id == s.nextId;
            && (Sent(SteerCall(id, Goose)) in Iterate(p, s, i).emits <==> sends && s.runId.Some?)
            && (Sent(SteerCall(id, AcpExtension)) in Iterate(p, s, i).emits <==>
                  sends && s.runId.None? && p.steeringSupported)
    ensures Acked(r, Failed(ExpectedRunIdMissing)) in Iterate(p, s, i).emits <==>
            TakesSteer(s, i) && r == s.received && s.runId.None? && !p.steeringSupported
    ensures Acked(r, Failed(TransportFailed)) in Iterate(p, s, i).emits <==>
            TakesSteer(s, i) && r == s.received && !i.event.writeOk && (s.runId.Some? || p.steeringSupported)
  {
  }

  /** Ids are used up one at a time, by the steers that go out or fail to; requests are counted as they are taken. */
  lemma IdsAreConsecutive(p: Params, s: Loop, i: Input)
    ensures Iterate(p, s, i).loop.nextId
         == s.nextId + (if TakesSteer(s, i) && (s.runId.Some? || p.steeringSupported) then 1 else 0)
    ensures Iterate(p, s, i).loop.received == s.received + (if TakesSteer(s, i) then 1 else 0)
  {
  }

  /** The response to the steer in flight. */
  ghost predicate GetsSteerResponse(s: Loop, i: Input, m: Message) {
    s.pending.Some? && Gets(s, i, m) && RespondsTo(m, s.pending.value.id)
  }

  /** How a rejection is reported. */
  ghost predicate Reports(o: Reported, text: string) {
    match o
    case Absent => text == "<absent>"
    case Text(t) => text == t
    case NotString(json) => text == json
  }

  /** A steer is rejected by the agent's error, with its code or -1, or by an outcome that is not a known one. */
  lemma SteerRejectedExactly(p: Params, s: Loop, i: Input, r: nat, code: int, text: string)
    ensures Acked(r, Failed(AgentError(code))) in Iterate(p, s, i).emits <==>
            exists m :: && GetsSteerResponse(s, i, m) && r == s.pending.value.request && m.error.Some?
                        && code == if m.error.value.code.Some? then m.error.value.code.value else -1
    ensures Acked(r, Failed(OutcomeRejected(text))) in Iterate(p, s, i).emits <==>
            exists m :: && GetsSteerResponse(s, i, m) && r == s.pending.value.request && m.error.None?
                        && s.pending.value.transport == AcpExtension && Reports(m.outcome, text)
                        && m.outcome != Text("injected") && m.outcome != Text("startedNewTurn")
  {
    if i.event.Read? && i.event.line.Msg? {
      var m := i.event.line.message;
      assert Gets(s, i, m) <==> i.head < NextDeadline(s);
    }
  }

  /** And delivered by any other answer: without an error, and goose, or one of the two known outcomes. */
  lemma SteerDeliveredExactly(p: Params, s: Loop, i: Input, r: nat)
    ensures Acked(r, Success) in Iterate(p, s, i).emits <==>
            exists m :: && GetsSteerResponse(s, i, m) && r == s.pending.value.request && m.error.None?
                        && (s.pending.value.transport == Goose || m.outcome == Text("injected")
                            || m.outcome == Text("startedNewTurn"))
  {
    SuccessExactly(p, s, i, r);
    if i.event.Read? && i.event.line.Msg? {
      var m := i.event.line.message;
      assert Gets(s, i, m) <==> i.head < NextDeadline(s);
    }
  }

  // ---- what is remembered ----

  /** A turn begins with both deadlines as the agent's silence and the turn's length set them, and nothing in flight. */
  lemma StartsOnTime(p: Params, now: Time, hard: Time, nextId: nat, runId: Option<string>,
                     permission: Option<JsonId>, responded: bool)
    requires p.expectedId < nextId
    ensures var s := Start(p, now, hard, nextId, runId, Some(hard), permission, responded);
            && OnTime(p, s, now, hard, None, true) && LoopInv(p, s)
            && s.pending.None? && s.received == 0 && s.nextId == nextId && s.runId == runId
            && s.permission == permission && s.responded == responded
  {
  }

  /** The steer that reached the running turn, rather than starting a new one. */
  ghost predicate Injecting(s: Loop, m: Message) {
    s.pending.Some? && m.error.None? && (s.pending.value.transport == Goose || m.outcome == Text("injected"))
  }

  /** Only a steer injected into the running turn renews its hard deadline, and never to an earlier one. */
  lemma RenewalExactly(p: Params, s: Loop, i: Input)
    ensures var renewed := if i.event.Read? then i.event.later + p.maxDuration else s.hard;
            var renews := (exists m :: GetsSteerResponse(s, i, m) && Injecting(s, m)) && s.hard < renewed;
            && Iterate(p, s, i).loop.hard == (if renews then renewed else s.hard)
            && Iterate(p, s, i).loop.currentHard == (if renews then Some(renewed) else s.currentHard)
  {
    if i.event.Read? && i.event.line.Msg? {
      var m := i.event.line.message;
      assert GetsSteerResponse(s, i, m) <==> i.head < NextDeadline(s) && AnswersSteer(s, m);
      assert s.pending.Some? ==> (Injecting(s, m) <==> Injects(s.pending.value.transport, m));
    }
  }

  /** The run to steer is the last the agent reported, unless it said that the run is over. */
  lemma RunExactly(p: Params, s: Loop, i: Input)
    ensures (exists m :: Gets(s, i, m) && m.call == Named("session/update") && m.update == RunCleared) ==>
              Iterate(p, s, i).loop.runId == None
    ensures forall m, run :: Gets(s, i, m) && m.call == Named("session/update") && m.update == RunStarted(run) ==>
              Iterate(p, s, i).loop.runId == Some(run)
    ensures (forall m :: Gets(s, i, m) ==> m.call != Named("session/update") || m.update in {ToolCall, OtherUpdate}) ==>
              Iterate(p, s, i).loop.runId == s.runId
  {
    if i.event.Read? && i.event.line.Msg? {
      var m := i.event.line.message;
      assert Gets(s, i, m) <==> i.head < NextDeadline(s);
    }
  }

  /** A permission request counts as answered exactly from the moment its reply is written. */
  lemma AnsweredExactly(p: Params, s: Loop, i: Input, m: Message)
    requires Gets(s, i, m) && AsksPermission(m) && m.id.Some?
    ensures var o := Iterate(p, s, i).loop;
            var written := Permit(m.choices).Some? && i.event.writeOk;
            && (o.responded <==> written) && o.permission == if written then None else m.id
  {
  }
}
