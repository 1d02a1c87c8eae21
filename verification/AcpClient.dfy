/**
 The protocol client with the fields it updates in place. Its read loop is proved to take the
 iterations of `ReadLoop`, and the calls around it to keep the deadline and the prompt id it leaves behind.
 */
module AcpClients {
  import opened Events
  import opened ReadLoop
  import opened TurnProperties
  import opened TurnExits

  const CLEANUP_SECS: Time := 30.0

  class AcpClient {
    // Fields of the client.
    var nextId: nat
    var lastPromptId: Option<nat>
    var runId: Option<string>
    var currentHard: Option<Time>
    var permission: Option<JsonId>
    var responded: bool
    var steeringSupported: bool
    var receiver: bool
    // Variables of the read loop, live during a turn.
    var idle: Time
    var hard: Time
    var lastActivity: Time
    var pending: Option<Pending>
    var received: nat

    ghost function View(): Loop
      reads this
    {
      Loop(idle, hard, lastActivity, pending, nextId, runId, currentHard, permission, responded, received)
    }

    constructor (steeringSupported: bool)
      ensures View() == Loop(0.0, 0.0, 0.0, None, 0, None, None, None, false, 0)
      ensures this.steeringSupported == steeringSupported && !receiver && lastPromptId.None?
    {
      nextId, lastPromptId, runId, currentHard := 0, None, None, None;
      permission, responded, receiver := None, false, false;
      idle, hard, lastActivity, pending, received := 0.0, 0.0, 0.0, None, 0;
      this.steeringSupported := steeringSupported;
    }

    /** Hands the client the steer receiver of the next turn; there must not be one already. */
    method InstallSteerRx()
      requires !receiver
      modifies this`receiver
      ensures receiver
    {
      receiver := true;
    }

    method ClearSteerRx()
      modifies this`receiver
      ensures !receiver
    {
      receiver := false;
    }

    /** Resolves a pending steer as neutral: the turn it was aimed at is over. */
    method ReleasePending() returns (emits: seq<Emit>)
      modifies this`pending
      ensures emits == Neutral(old(View())) && pending.None?
    {
      emits := [];
      if pending.Some? {
        emits := [Acked(pending.value.request, PromptCompletedNeutral)];
        pending := None;
      }
    }

    /** An early return drops whatever sender was pending. */
    method DropPending() returns (emits: seq<Emit>)
      modifies this`pending
      ensures emits == LetGo(old(View())) && pending.None?
    {
      emits := [];
      if pending.Some? {
        emits := [Dropped(pending.value.request)];
        pending := None;
      }
    }

    method SteerArm(p: Params, writeOk: bool) returns (emits: seq<Emit>)
      requires pending.None? && p.steeringSupported == steeringSupported
      modifies this`pending, this`nextId, this`received
      ensures Stay(View(), emits) == TakeSteer(p, old(View()), writeOk)
    {
      var request := received;
      received := received + 1;
      if runId.None? && !steeringSupported {
        return [Acked(request, Failed(ExpectedRunIdMissing))];
      }
      var transport := if runId.Some? then Goose else AcpExtension;
      var id := nextId;
      nextId := nextId + 1;
      if writeOk {
        pending := Some(Pending(id, transport, request));
        return [Sent(SteerCall(id, transport))];
      }
      return [Acked(request, Failed(TransportFailed))];
    }

    method RouteSteerResponse(p: Params, m: Message, later: Time) returns (emits: seq<Emit>)
      requires pending.Some?
      modifies this`pending, this`hard, this`currentHard
      ensures Stay(View(), emits) == SteerResponse(p, old(View()), m, later)
    {
      var w := pending.value;
      pending := None;
      var ack: Ack;
      if m.error.Some? {
        ack := Failed(AgentError(if m.error.value.code.Some? then m.error.value.code.value else -1));
      } else {
        var outcome: Option<string> := None;
        if w.transport.Goose? {
          outcome := Some(INJECTED);
        } else if m.outcome.Text? && (m.outcome.text == INJECTED || m.outcome.text == STARTED_NEW_TURN) {
          outcome := Some(m.outcome.text);
        }
        if outcome.None? {
          ack := Failed(OutcomeRejected(Describe(m.outcome)));
        } else {
          ack := Success;
          if outcome.value != STARTED_NEW_TURN {
            var renewed := later + p.maxDuration;
            if renewed > hard {
              hard := renewed;
              currentHard := Some(renewed);
            }
          }
        }
      }
      emits := [Acked(w.request, ack)];
    }

    method HandlePermissionRequest(m: Message, writeOk: bool) returns (emits: seq<Emit>, exit: Option<Exit>)
      modifies this`permission, this`responded, this`pending
      ensures Outcome(View(), emits, exit) == AnswerPermission(old(View()), m, writeOk)
    {
      if m.id.None? {
        emits := DropPending();
        return emits, Some(PermissionRefused);
      }
      permission := m.id;
      responded := false;
      var option := Permit(m.choices);
      if option.None? {
        emits := DropPending();
        return emits, Some(PermissionRefused);
      }
      if !writeOk {
        emits := DropPending();
        return emits, Some(WriteFailed);
      }
      responded := true;
      permission := None;
      return [Sent(PermissionReply(m.id.value, option.value))], None;
    }

    method HandleSessionUpdate(p: Params, u: Update, later: Time)
      modifies this`idle, this`lastActivity, this`runId
      ensures View() == ApplyUpdate(p, old(View()), u, later)
    {
      match u
      case ToolCall =>
        idle := later + p.idleTimeout;
        lastActivity := later;
      case RunStarted(id) => runId := Some(id);
      case RunCleared => runId := None;
      case OtherUpdate =>
    }

    method DispatchCall(p: Params, m: Message, later: Time, writeOk: bool)
        returns (emits: seq<Emit>, exit: Option<Exit>)
      requires m.call.Named?
      modifies this`idle, this`lastActivity, this`runId, this`permission, this`responded, this`pending
      ensures Outcome(View(), emits, exit) == Dispatch(p, old(View()), m, later, writeOk)
    {
      emits, exit := [], None;
      var name := m.call.name;
      if name == "session/update" {
        HandleSessionUpdate(p, m.update, later);
      } else if name == "_goose/unstable/session/update" {
      } else if name == "session/request_permission" {
        emits, exit := HandlePermissionRequest(m, writeOk);
      } else if m.id.Some? {
        if writeOk {
          emits := [Sent(MethodNotFound(m.id.value))];
        } else {
          emits := DropPending();
          exit := Some(WriteFailed);
        }
      }
    }

    method HandleMessage(p: Params, m: Message, at: Time, later: Time, writeOk: bool)
      returns (emits: seq<Emit>, exit: Option<Exit>)
      modifies this
      ensures Outcome(View(), emits, exit) == Handle(p, Touch(p, old(View()), at), m, later, writeOk)
      ensures var answers := RespondsTo(m, p.expectedId) && !SteersWith(old(View()), p.expectedId);
              && (exit == Some(PromptResult) <==> answers && m.error.None?)
              && (exit == Some(PromptError) <==> answers && m.error.Some?)
      ensures receiver == old(receiver) && steeringSupported == old(steeringSupported)
          && lastPromptId == old(lastPromptId)
    {
      idle := at + p.idleTimeout;
      lastActivity := at;
      emits, exit := [], None;
      if m.id.Some? && m.call.NoMethod? && pending.Some? && m.id.value == Num(pending.value.id) {
        emits := RouteSteerResponse(p, m, later);
      } else if m.id.Some? && m.call.NoMethod? && m.id.value == Num(p.expectedId) {
        emits := ReleasePending();
        exit := if m.error.Some? then Some(PromptError) else Some(PromptResult);
      } else if m.call.Named? {
        emits, exit := DispatchCall(p, m, later, writeOk);
      }
    }

    /** One pass through the loop. */
    method Once(p: Params, i: Input) returns (emits: seq<Emit>, exit: Option<Exit>)
      requires p.steeringSupported == steeringSupported && Possible(p, View(), i)
      modifies this
      ensures Outcome(View(), emits, exit) == Iterate(p, old(View()), i)
      ensures receiver == old(receiver) && steeringSupported == old(steeringSupported)
          && lastPromptId == old(lastPromptId)
    {
      emits, exit := [], None;
      var idleFirst := idle < hard;
      var next := if idleFirst then idle else hard;
      if i.head >= next || i.event.Slept? {
        var at := if i.head >= next then i.head else i.event.at;
        emits := ReleasePending();
        exit := Some(if idleFirst then IdleTimeout
                     else HardTimeout(if at < lastActivity then 0.0 else at - lastActivity));
        return;
      }
      if i.event.SteerRequest? {
        emits := SteerArm(p, i.event.writeOk);
        return;
      }
      match i.event.line
      case Eof =>
        emits := ReleasePending();
        exit := Some(AgentExited);
      case TooLong =>
        emits := ReleasePending();
        exit := Some(LineTooLong);
      case Broken =>
        emits := ReleasePending();
        exit := Some(ReadFailed);
      case Blank =>
      case Garbled =>
      case Msg(m) =>
        emits, exit := HandleMessage(p, m, i.event.at, i.event.later, i.event.writeOk);
    }

    /** The loop's variables at its start; the steer receiver is taken for this turn only. */
    method Open(p: Params, start: Time, hardDeadline: Time)
      modifies this`receiver, this`pending, this`received, this`idle, this`hard, this`lastActivity
      ensures View() == old(Start(p, start, hardDeadline, nextId, runId, currentHard, permission, responded))
          && !receiver
    {
      receiver := false;
      pending := None;
      received := 0;
      idle := start + p.idleTimeout;
      hard := hardDeadline;
      lastActivity := start;
    }

    /** Reads until the prompt with `p.expectedId` is answered, a deadline passes or the stream breaks. */
    method ReadUntilResponse(p: Params, start: Time, hardDeadline: Time, script: seq<Input>)
      returns (emits: seq<Emit>, exit: Option<Exit>)
      requires p.steeringSupported == steeringSupported && p.receiver == receiver
      requires IsScript(p, Start(p, start, hardDeadline, nextId, runId, currentHard, permission, responded), script,
          start)
      modifies this
      ensures Outcome(View(), emits, exit) ==
              Turn(p, old(Start(p, start, hardDeadline, nextId, runId, currentHard, permission, responded)), script)
      ensures !receiver && steeringSupported == old(steeringSupported) && lastPromptId == old(lastPromptId)
    {
      Open(p, start, hardDeadline);
      emits, exit := [], None;
      ghost var first := View();
      ghost var clock := start;
      var k := 0;
      while k < |script|
        invariant 0 <= k <= |script| && exit.None?
        invariant steeringSupported == old(steeringSupported) && lastPromptId == old(lastPromptId) && !receiver
        invariant IsScript(p, View(), script[k..], clock)
        invariant Turn(p, first, script) == After(emits, Turn(p, View(), script[k..]))
      {
        TurnUnfolds(p, View(), script, k, clock);
        var more;
        more, exit := Once(p, script[k]);
        AfterAfter(emits, more, Turn(p, View(), script[k + 1..]));
        emits := emits + more;
        clock := EndOf(script[k]);
        k := k + 1;
        if exit.Some? {
          return;
        }
      }
      assert script[k..] == [];
    }

    /**
     Sends a prompt and reads to its end. The prompt id and the deadline stay behind exactly
     after a timeout, for the cancel that follows it.
     */
    method SessionPrompt(now: Time, writeOk: bool, start: Time, idleTimeout: Time, maxDuration: Time,
        script: seq<Input>)
      returns (emits: seq<Emit>, exit: Option<Exit>)
      requires now <= start
      requires var p := Params(nextId, idleTimeout, maxDuration, steeringSupported, receiver);
               IsScript(p, Start(p, start, now + maxDuration, nextId + 1, runId, Some(now + maxDuration), permission,
                   responded),
                        script, start)
      modifies this
      ensures writeOk ==>
        var p := Params(old(nextId), idleTimeout, maxDuration, old(steeringSupported), old(receiver));
        var o := Turn(p, old(Start(p, start, now + maxDuration, nextId + 1, runId, Some(now + maxDuration),
            permission, responded)), script);
        var over := exit.Some? && !IsTimeout(exit.value);
        && exit == o.exit && emits == o.emits
        && lastPromptId == (if over then None else Some(p.expectedId))
        && View() == o.loop.(currentHard := if over then None else o.loop.currentHard)
      ensures writeOk ==>
        var p := Params(old(nextId), idleTimeout, maxDuration, old(steeringSupported), old(receiver));
        var first := old(Start(p, start, now + maxDuration, nextId + 1, runId, Some(now + maxDuration), permission,
            responded));
        && (exit == Some(PromptResult) <==> AnsweredAtLast(p, first, script, false))
        && (exit == Some(PromptError) <==> AnsweredAtLast(p, first, script, true))
      ensures !writeOk ==>
        && exit == Some(WriteFailed) && emits == [] && lastPromptId.None?
        && View() == old(View()).(currentHard := None, nextId := old(nextId) + 1)
    {
      var id := nextId;
      BeginPrompt(now, maxDuration);
      if !writeOk {
        ClosePrompt();
        return [], Some(WriteFailed);
      }
      var p := Params(id, idleTimeout, maxDuration, steeringSupported, receiver);
      ghost var first := Start(p, start, now + maxDuration, nextId, runId, currentHard, permission, responded);
      TurnEndsExactly(p, first, script, start);
      emits, exit := ReadUntilResponse(p, start, now + maxDuration, script);
      if exit.Some? && !IsTimeout(exit.value) {
        ClosePrompt();
      }
    }

    /** A dropped loop lets its senders go; a permission request it was answering stays open. */
    method DropLoop(p: Params, w: Await) returns (emits: seq<Emit>)
      requires !w.WritingPrompt? && CanAwait(p, View(), w)
      modifies this`pending, this`received, this`nextId, this`idle, this`lastActivity, this`permission, this`responded
      ensures Stay(View(), emits) == Abandoned(p, old(View()), w)
    {
      match w
      case Selecting => emits := DropPending();
      case WritingSteer =>
        emits := [Dropped(received)];
        received := received + 1;
        nextId := nextId + 1;
      case WritingReply(m, at) =>
        idle := at + p.idleTimeout;
        lastActivity := at;
        if m.call == Named("session/request_permission") {
          permission := m.id;
          responded := false;
        }
        emits := DropPending();
    }

    /**
     A prompt dropped by a control signal. The prompt id and the deadline stay behind, and the steer receiver is left
     installed exactly when the signal came while the prompt itself was being written.
     */
    method DroppedPrompt(now: Time, start: Time, idleTimeout: Time, maxDuration: Time, script: seq<Input>, w: Await)
      returns (emits: seq<Emit>)
      requires now <= start
      requires !w.WritingPrompt? ==>
        var p := Params(nextId, idleTimeout, maxDuration, steeringSupported, receiver);
        var first := Start(p, start, now + maxDuration, nextId + 1, runId, Some(now + maxDuration), permission,
            responded);
        IsScript(p, first, script, start) && Turn(p, first, script).exit.None?
            && CanAwait(p, Turn(p, first, script).loop, w)
      modifies this
      ensures receiver == (old(receiver) && w.WritingPrompt?) && lastPromptId == Some(old(nextId))
      ensures w.WritingPrompt? ==>
        emits == [] && View() == old(View()).(currentHard := Some(now + maxDuration), nextId := old(nextId) + 1)
      ensures !w.WritingPrompt? ==>
        var p := old(Params(nextId, idleTimeout, maxDuration, steeringSupported, receiver));
        var o := Turn(p, old(Start(p, start, now + maxDuration, nextId + 1, runId, Some(now + maxDuration),
                                   permission, responded)), script);
        var d := Abandoned(p, o.loop, w);
        View() == d.loop && emits == o.emits + d.emits
    {
      var p := Params(nextId, idleTimeout, maxDuration, steeringSupported, receiver);
      BeginPrompt(now, maxDuration);
      if w.WritingPrompt? {
        return [];
      }
      var exit, more;
      emits, exit := ReadUntilResponse(p, start, now + maxDuration, script);
      more := DropLoop(p, w);
      emits := emits + more;
    }

    /** Takes the next id for a prompt and records the deadline of its turn. */
    method BeginPrompt(now: Time, maxDuration: Time)
      modifies this`lastPromptId, this`currentHard, this`nextId
      ensures lastPromptId == Some(old(nextId))
      ensures View() == old(View()).(currentHard := Some(now + maxDuration), nextId := old(nextId) + 1)
    {
      currentHard := Some(now + maxDuration);
      lastPromptId := Some(nextId);
      nextId := nextId + 1;
    }

    /** Forgets the prompt in flight and its deadline. */
    method ClosePrompt()
      modifies this`lastPromptId, this`currentHard
      ensures lastPromptId.None? && View() == old(View()).(currentHard := None)
    {
      lastPromptId := None;
      currentHard := None;
    }

    /** The deadline a cancel drains under: what is left of the turn, but at least the cleanup time. */
    method TakeDrainDeadline(now: Time) returns (deadline: Time)
      modifies this`currentHard
      ensures currentHard.None? && now + 30.0 <= deadline
      ensures deadline == match old(currentHard)
                          case Some(d) => if now + 30.0 < d then d else now + 30.0
                          case None => now + 30.0
    {
      var floor := now + CLEANUP_SECS;
      deadline := floor;
      if currentHard.Some? && currentHard.value > floor {
        deadline := currentHard.value;
      }
      currentHard := None;
    }

    /**
     Cancels the prompt in flight and drains its answer until `deadline`. Without one nothing is written; an open
     permission request is answered first, once.
     */
    method CancelWithCleanup(deadline: Time, replyOk: bool, cancelOk: bool, start: Time, script: seq<Input>)
      returns (sent: seq<CancelWire>, result: CancelResult, emits: seq<Emit>)
      requires lastPromptId.Some? ==>
        var p := DrainParams(lastPromptId.value, deadline, start, steeringSupported, receiver);
        IsScript(p, Start(p, start, deadline, nextId, runId, currentHard, None,
            if permission.Some? then false else responded),
                 script, start)
      modifies this
      ensures lastPromptId.None?
      ensures old(lastPromptId).None? ==> result == NoPrompt && sent == [] && View() == old(View())
      ensures old(lastPromptId).Some? ==>
        var ask := old(permission.Some? && !responded);
        var reply := if ask then [PermissionCancelled(old(permission).value)] else [];
        if ask && !replyOk then result == ReplyFailed && sent == [] && View() == old(View())
        else if !cancelOk then
          && result == CancelFailed && sent == reply
          && View() == old(View().(permission := None, responded := if permission.Some? then false else responded))
        else
          var p := old(DrainParams(lastPromptId.value, deadline, start, steeringSupported, receiver));
          var o := Turn(p, old(Start(p, start, deadline, nextId, runId, currentHard, None,
                                     if permission.Some? then false else responded)), script);
          sent == reply + [SessionCancel] && result == Drained(o.exit) && emits == o.emits && View() == o.loop
    {
      sent, emits := [], [];
      if lastPromptId.None? {
        return sent, NoPrompt, emits;
      }
      var id := lastPromptId.value;
      lastPromptId := None;
      if permission.Some? {
        if !responded {
          if !replyOk {
            return sent, ReplyFailed, emits;
          }
          sent := [PermissionCancelled(permission.value)];
        }
        permission := None;
        responded := false;
      }
      if !cancelOk {
        return sent, CancelFailed, emits;
      }
      sent := sent + [SessionCancel];
      var p := DrainParams(id, deadline, start, steeringSupported, receiver);
      var exit;
      emits, exit := ReadUntilResponse(p, start, deadline, script);
      result := Drained(exit);
    }
  }

  datatype CancelWire = PermissionCancelled(id: JsonId) | SessionCancel

  datatype CancelResult = NoPrompt | ReplyFailed | CancelFailed | Drained(exit: Option<Exit>)

  /** The drain waits in silence for the cleanup time, and overall for what is left until its deadline. */
  function DrainParams(id: nat, deadline: Time, start: Time, steeringSupported: bool, receiver: bool): Params {
    Params(id, CLEANUP_SECS, if start < deadline then deadline - start else 0.0, steeringSupported, receiver)
  }

  /** So a drain answers to the prompt it cancels, allows 30 seconds of silence, and renews by what was left. */
  lemma DrainTimes(id: nat, deadline: Time, start: Time, steeringSupported: bool, receiver: bool)
    ensures var p := DrainParams(id, deadline, start, steeringSupported, receiver);
            && p.expectedId == id && p.idleTimeout == 30.0 && p.receiver == receiver
            && p.steeringSupported == steeringSupported && 0.0 <= p.maxDuration
            && (start <= deadline ==> start + p.maxDuration == deadline) && (deadline <= start ==> p.maxDuration == 0.0)
  {
  }

  ghost function After(emits: seq<Emit>, o: Outcome): Outcome {
    Outcome(o.loop, emits + o.emits, o.exit)
  }

  lemma AfterAfter(a: seq<Emit>, b: seq<Emit>, o: Outcome)
    ensures After(a, After(b, o)) == After(a + b, o)
  {
    assert a + (b + o.emits) == a + b + o.emits;
  }

  lemma TurnUnfolds(p: Params, s: Loop, script: seq<Input>, k: nat, clock: Time)
    requires k < |script| && IsScript(p, s, script[k..], clock)
    ensures Possible(p, s, script[k])
    ensures var o := Iterate(p, s, script[k]);
            && Turn(p, s, script[k..]) == (if o.exit.Some? then o else After(o.emits, Turn(p, o.loop, script[k + 1..])))
            && (o.exit.None? ==> IsScript(p, o.loop, script[k + 1..], EndOf(script[k])))
  {
    assert script[k..][0] == script[k] && script[k..][1..] == script[k + 1..];
  }
}
