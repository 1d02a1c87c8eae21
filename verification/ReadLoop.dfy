/**
 One turn of the agent protocol: the loop that reads the agent's lines until the prompt is
 answered, lets at most one steer through at a time, and is bounded by an idle and a hard deadline.
 Each iteration is a function of the loop's state and of what the outside world does.
 */
module ReadLoop {
  import opened Events

  // ---- the wire, as far as the loop looks at it ----

  datatype JsonId = Num(n: nat) | OtherId(text: string)

  datatype Method = NoMethod | NotText | Named(name: string)

  datatype ErrorBody = ErrorBody(code: Option<int>)

  /** `result.outcome` of a response. */
  datatype Reported = Absent | Text(text: string) | NotString(json: string)

  /** What a `session/update` says, as far as the loop reacts to it. */
  datatype Update = ToolCall | RunStarted(runId: string) | RunCleared | OtherUpdate

  datatype Choice = Choice(kind: Option<string>, optionId: Option<string>)

  datatype Message = Message(
    id: Option<JsonId>,
    call: Method,
    error: Option<ErrorBody>,
    outcome: Reported,
    update: Update,
    choices: Option<seq<Choice>>)

  datatype Line = Eof | TooLong | Broken | Blank | Garbled | Msg(message: Message)

  datatype Transport = Goose | AcpExtension

  datatype SteerError =
    | ExpectedRunIdMissing
    | TransportFailed
    | AgentError(code: int)
    | OutcomeRejected(reported: string)

  datatype Ack = Success | Failed(error: SteerError) | PromptCompletedNeutral

  datatype Wire =
    | SteerCall(id: nat, transport: Transport)
    | MethodNotFound(to: JsonId)
    | PermissionReply(to: JsonId, optionId: string)

  /** What an iteration does to the outside; `Dropped` is a steer sender let go without an answer. */
  datatype Emit = Acked(request: nat, ack: Ack) | Dropped(request: nat) | Sent(wire: Wire)

  datatype Exit =
    | PromptResult
    | PromptError
    | IdleTimeout
    | HardTimeout(silence: Time)
    | AgentExited
    | LineTooLong
    | ReadFailed
    | PermissionRefused
    | WriteFailed

  predicate IsTimeout(e: Exit) {
    e.IdleTimeout? || e.HardTimeout?
  }

  // ---- the loop's state ----

  datatype Pending = Pending(id: nat, transport: Transport, request: nat)

  datatype Params = Params(
    expectedId: nat,
    idleTimeout: Time,
    maxDuration: Time,
    steeringSupported: bool,
    receiver: bool)

  datatype Loop = Loop(
    idle: Time,
    hard: Time,
    lastActivity: Time,
    pending: Option<Pending>,
    nextId: nat,
    runId: Option<string>,
    currentHard: Option<Time>,
    permission: Option<JsonId>,
    responded: bool,
    received: nat)  // steer requests taken so far

  datatype Outcome = Outcome(loop: Loop, emits: seq<Emit>, exit: Option<Exit>)

  /** One iteration: the instant of its deadline check, then the arm that was selected. */
  datatype Input = Input(head: Time, event: Arm)

  /** `later` is the second clock reading some branches take; `writeOk` is how any write ends. */
  datatype Arm =
    | Read(line: Line, at: Time, later: Time, writeOk: bool)
    | SteerRequest(writeOk: bool)
    | Slept(at: Time)

  function NextDeadline(s: Loop): Time {
    if s.idle < s.hard then s.idle else s.hard
  }

  /** An arm that can be selected: the steer arm is off while a steer is in flight. */
  predicate Possible(p: Params, s: Loop, i: Input) {
    match i.event
    case Read(_, at, later, _) => i.head <= at <= later
    case SteerRequest(_) => p.receiver && s.pending.None?
    case Slept(at) => NextDeadline(s) <= at
  }

  // ---- leaving the loop ----

  function TimedOut(s: Loop, at: Time): Exit {
    if s.idle < s.hard then IdleTimeout
    else HardTimeout(if at < s.lastActivity then 0.0 else at - s.lastActivity)
  }

  function Neutral(s: Loop): seq<Emit> {
    if s.pending.None? then [] else [Acked(s.pending.value.request, PromptCompletedNeutral)]
  }

  function LetGo(s: Loop): seq<Emit> {
    if s.pending.None? then [] else [Dropped(s.pending.value.request)]
  }

  function Leave(s: Loop, emits: seq<Emit>, exit: Exit): Outcome {
    Outcome(s.(pending := None), emits, Some(exit))
  }

  function Stay(s: Loop, emits: seq<Emit>): Outcome {
    Outcome(s, emits, None)
  }

  // ---- the steer arm ----

  predicate CanSteer(p: Params, s: Loop) {
    s.runId.Some? || p.steeringSupported
  }

  function TransportFor(s: Loop): Transport {
    if s.runId.Some? then Goose else AcpExtension
  }

  function TakeSteer(p: Params, s: Loop, writeOk: bool): Outcome {
    var r, goes := s.received, CanSteer(p, s);
    Stay(s.(received := r + 1,
            nextId := if goes then s.nextId + 1 else s.nextId,
            pending := if goes && writeOk then Some(Pending(s.nextId, TransportFor(s), r)) else s.pending),
         if !goes then [Acked(r, Failed(ExpectedRunIdMissing))]
         else if writeOk then [Sent(SteerCall(s.nextId, TransportFor(s)))]
         else [Acked(r, Failed(TransportFailed))])
  }

  // ---- steer responses ----

  const INJECTED := "injected"
  const STARTED_NEW_TURN := "startedNewTurn"

  /** The recognised outcome of a response without an error, if any. */
  function Recognised(transport: Transport, outcome: Reported): Option<string> {
    if transport.Goose? then Some(INJECTED)
    else if outcome.Text? && outcome.text in {INJECTED, STARTED_NEW_TURN} then Some(outcome.text)
    else None
  }

  function Describe(outcome: Reported): string {
    match outcome
    case Absent => "<absent>"
    case Text(s) => s
    case NotString(json) => json
  }

  function AckFor(transport: Transport, m: Message): Ack {
    match m.error
    case Some(body) => Failed(AgentError(if body.code.Some? then body.code.value else -1))
    case None =>
      if Recognised(transport, m.outcome).Some? then Success else Failed(OutcomeRejected(Describe(m.outcome)))
  }

  /** The steer went into the running turn, which earns it a fresh budget. */
  predicate Injects(transport: Transport, m: Message) {
    m.error.None? && Recognised(transport, m.outcome) == Some(INJECTED)
  }

  function SteerResponse(p: Params, s: Loop, m: Message, later: Time): Outcome
    requires s.pending.Some?
  {
    var w := s.pending.value;
    var renewed := later + p.maxDuration;
    var renews := Injects(w.transport, m) && s.hard < renewed;
    Stay(s.(pending := None,
            hard := if renews then renewed else s.hard,
            currentHard := if renews then Some(renewed) else s.currentHard),
         [Acked(w.request, AckFor(w.transport, m))])
  }

  // ---- notifications and agent requests ----

  function FirstOfKind(choices: seq<Choice>, kind: string): Option<Choice> {
    if choices == [] then None
    else if choices[0].kind == Some(kind) then Some(choices[0])
    else FirstOfKind(choices[1..], kind)
  }

  /** The option to answer a permission request with; none when the request is malformed. */
  function Permit(choices: Option<seq<Choice>>): Option<string> {
    if choices.None? then None
    else
      var allow, reject := FirstOfKind(choices.value, "allow_once"), FirstOfKind(choices.value, "reject_once");
      if allow.Some? then allow.value.optionId
      else if reject.Some? then
        (if reject.value.optionId.Some? then reject.value.optionId else Some("reject"))
      else None
  }

  function AnswerPermission(s: Loop, m: Message, writeOk: bool): Outcome {
    if m.id.None? then Leave(s, LetGo(s), PermissionRefused)
    else
      var asked := s.(permission := m.id, responded := false);
      if Permit(m.choices).None? then Leave(asked, LetGo(s), PermissionRefused)
      else if !writeOk then Leave(asked, LetGo(s), WriteFailed)
      else Stay(s.(permission := None, responded := true),
                [Sent(PermissionReply(m.id.value, Permit(m.choices).value))])
  }

  function ApplyUpdate(p: Params, s: Loop, u: Update, later: Time): Loop {
    s.(idle := if u.ToolCall? then later + p.idleTimeout else s.idle,
       lastActivity := if u.ToolCall? then later else s.lastActivity,
       runId := match u
                case RunStarted(id) => Some(id)
                case RunCleared => None
                case _ => s.runId)
  }

  function Dispatch(p: Params, s: Loop, m: Message, later: Time, writeOk: bool): Outcome
    requires m.call.Named?
  {
    if m.call.name == "session/update" then Stay(ApplyUpdate(p, s, m.update, later), [])
    else if m.call.name == "_goose/unstable/session/update" then Stay(s, [])
    else if m.call.name == "session/request_permission" then AnswerPermission(s, m, writeOk)
    else if m.id.None? then Stay(s, [])
    else if writeOk then Stay(s, [Sent(MethodNotFound(m.id.value))])
    else Leave(s, LetGo(s), WriteFailed)
  }

  // ---- one iteration ----

  predicate Answers(m: Message, id: nat) {
    m.call.NoMethod? && m.id == Some(Num(id))
  }

  predicate AnswersSteer(s: Loop, m: Message) {
    s.pending.Some? && Answers(m, s.pending.value.id)
  }

  function Handle(p: Params, s: Loop, m: Message, later: Time, writeOk: bool): Outcome {
    if AnswersSteer(s, m) then SteerResponse(p, s, m, later)
    else if Answers(m, p.expectedId) then
      Leave(s, Neutral(s), if m.error.Some? then PromptError else PromptResult)
    else if m.call.Named? then Dispatch(p, s, m, later, writeOk)
    else Stay(s, [])
  }

  function Touch(p: Params, s: Loop, at: Time): Loop {
    s.(idle := at + p.idleTimeout, lastActivity := at)
  }

  function Iterate(p: Params, s: Loop, i: Input): Outcome {
    if NextDeadline(s) <= i.head then Leave(s, Neutral(s), TimedOut(s, i.head))
    else
      match i.event
      case SteerRequest(writeOk) => TakeSteer(p, s, writeOk)
      case Slept(at) => Leave(s, Neutral(s), TimedOut(s, at))
      case Read(line, at, later, writeOk) =>
        match line
        case Eof => Leave(s, Neutral(s), AgentExited)
        case TooLong => Leave(s, Neutral(s), LineTooLong)
        case Broken => Leave(s, Neutral(s), ReadFailed)
        case Blank => Stay(s, [])
        case Garbled => Stay(s, [])
        case Msg(m) => Handle(p, Touch(p, s, at), m, later, writeOk)
  }

  // ---- whole turns ----

  function Start(p: Params, now: Time, hard: Time, nextId: nat, runId: Option<string>, currentHard: Option<Time>,
                 permission: Option<JsonId>, responded: bool): Loop {
    Loop(now + p.idleTimeout, hard, now, None, nextId, runId, currentHard, permission, responded, 0)
  }

  /** Iterations that can follow one another from `s`; only the last may leave the loop. */
  predicate IsScript(p: Params, s: Loop, script: seq<Input>, clock: Time)
    decreases |script|
  {
    script == [] ||
    (&& clock <= script[0].head && Possible(p, s, script[0])
     && var o := Iterate(p, s, script[0]);
        if o.exit.Some? then script[1..] == [] else IsScript(p, o.loop, script[1..], EndOf(script[0])))
  }

  /** Last clock reading of an iteration. */
  function EndOf(i: Input): Time {
    if i.event.Read? then i.event.later else i.head
  }

  function Turn(p: Params, s: Loop, script: seq<Input>): Outcome
    decreases |script|
  {
    if script == [] then Stay(s, [])
    else
      var o := Iterate(p, s, script[0]);
      if o.exit.Some? then o
      else
        var rest := Turn(p, o.loop, script[1..]);
        Outcome(rest.loop, o.emits + rest.emits, rest.exit)
  }

  // ---- a turn that is dropped ----

  /** Where a turn stands when a control signal drops it: at the loop's select, or in the middle of a write. */
  datatype Await = WritingPrompt | Selecting | WritingSteer | WritingReply(m: Message, at: Time)

  ghost predicate CanAwait(p: Params, s: Loop, w: Await) {
    match w
    case WritingPrompt => s.received == 0 && s.pending.None?
    case Selecting => true
    case WritingSteer => p.receiver && s.pending.None? && CanSteer(p, s)
    case WritingReply(m, _) =>
      && m.call.Named? && m.id.Some?
      && (if m.call.name == "session/request_permission" then Permit(m.choices).Some?
          else m.call.name !in {"session/update", "_goose/unstable/session/update"})
  }

  /** What is left of the loop: senders in hand are let go, and a permission being answered stays open. */
  function Abandoned(p: Params, s: Loop, w: Await): Outcome {
    match w
    case WritingPrompt => Stay(s, [])
    case Selecting => Stay(s.(pending := None), LetGo(s))
    case WritingSteer => Stay(s.(received := s.received + 1, nextId := s.nextId + 1), [Dropped(s.received)])
    case WritingReply(m, at) =>
      var asked := m.call == Named("session/request_permission");
      Stay(Touch(p, s, at).(pending := None, permission := if asked then m.id else s.permission,
                            responded := if asked then false else s.responded), LetGo(s))
  }
}
