/** A remote AG-UI run as a provider stream: what each decoded event adds, and how the stream ends. */
module RemoteSpec {
  import opened Json
  import opened Wrappers
  import Agui = AguiEvents
  import Spec = AguiSpec

  datatype Failure =
    | InvalidResponse | GenerationFailed | StreamStalled | Authentication | RateLimited | ServerUnavailable

  datatype TransportError =
    | Stalled | BadResponse | DestinationRejected | NotAuthenticated | TooMany | ServerDown | Unavailable | CommitUnknown

  datatype Answer = Data(text: string) | End | Broken(error: TransportError)

  datatype ProjectionKind =
    | ToolResultKind | StepStartedKind | StepFinishedKind | StateKind | MessagesKind | ActivityKind | RawKind | CustomKind

  datatype Projection = Projection(kind: ProjectionKind, key: Option<string>, detail: Option<string>, value: Value)

  datatype Event =
    | ResponseStarted(responseId: string)
    | TextDelta(index: nat, delta: string)
    | ReasoningDelta(index: nat, delta: string)
    | ToolCallCompleted(index: nat, callId: string, name: string, arguments: Value)
    | RemoteProjection(projection: Projection)
    | Interrupted(runId: string, interrupts: seq<Agui.Interrupt>)
    | Completed
    | Failed(failure: Failure)

  datatype Call = Call(index: nat, callId: string, name: string, arguments: Value)

  const MAX_PROJECTIONS: nat := MAX_ITEMS
  const MAX_PROJECTION_BYTES: nat := 8 * 1024 * 1024
  const U32_MAX: nat := 0xFFFF_FFFF

  /** Fixed facts of one session. `admit` is the encoded length of a projection, if it is valid at all. */
  datatype Config = Config(
    context: Spec.Context,
    responseId: string,
    offered: set<string>,
    admit: Projection -> Option<nat>,
    batch: seq<Agui.Interrupt> -> bool)

  datatype Session = Session(
    decoder: Spec.State,
    pending: seq<Event>,
    assistants: set<string>,
    completed: seq<Call>,
    results: set<string>,
    count: nat,
    bytes: nat,
    terminal: bool,
    ended: bool)

  function Initial(state: Value): Session {
    Session(Spec.Start(state), [], {}, [], {}, 0, 0, false, false)
  }

  // ---------------------------------------------------------------------------------------------
  // One decoded event
  // ---------------------------------------------------------------------------------------------

  function Fail(s: Session, failure: Failure): Session {
    s.(pending := [Failed(failure)], terminal := true)
  }

  function Push(s: Session, e: Event): Session {
    s.(pending := s.pending + [e])
  }

  /** Within both budgets, and valid. */
  predicate Affordable(cfg: Config, s: Session, p: Projection) {
    var length := cfg.admit(p);
    length.Some? && s.count + 1 <= MAX_PROJECTIONS && s.bytes + length.value <= MAX_PROJECTION_BYTES
  }

  function PushProjection(cfg: Config, s: Session, p: Projection): Session {
    if Affordable(cfg, s, p)
    then Push(s, RemoteProjection(p)).(count := s.count + 1, bytes := s.bytes + cfg.admit(p).value)
    else Fail(s, InvalidResponse)
  }

  function AllOffered(cfg: Config, calls: seq<Call>): bool {
    forall i :: 0 <= i < |calls| ==> calls[i].name in cfg.offered
  }

  /** The calls the host still has to run, as events. */
  function Released(calls: seq<Call>, results: set<string>): seq<Event> {
    if calls == [] then []
    else
      var call := calls[|calls| - 1];
      Released(calls[..|calls| - 1], results) +
      if call.callId in results then [] else [ToolCallCompleted(call.index, call.callId, call.name, call.arguments)]
  }

  function Complete(cfg: Config, s: Session): Session {
    if AllOffered(cfg, s.completed)
    then s.(pending := s.pending + Released(s.completed, s.results) + [Completed], terminal := true)
    else Fail(s, InvalidResponse)
  }

  predicate Answerable(cfg: Config, s: Session, callId: string) {
    && callId !in s.results
    && exists i :: 0 <= i < |s.completed| && s.completed[i].callId == callId && s.completed[i].name in cfg.offered
  }

  function AcceptToolResult(cfg: Config, s: Session, messageId: string, callId: string, content: string): Session {
    if !Answerable(cfg, s, callId) then Fail(s, InvalidResponse)
    else
      var p := Projection(ToolResultKind, Some(callId), Some(messageId), Str(content));
      var next := PushProjection(cfg, s, p);
      if Affordable(cfg, s, p) then next.(results := s.results + {callId}) else next
  }

  function Accept(cfg: Config, s: Session, e: Agui.Event): Session {
    match e
    case RunStarted => Push(s, ResponseStarted(cfg.responseId))
    case TextStarted(id, role, _) => if role.Assistant? then s.(assistants := s.assistants + {id}) else s
    case TextDelta(id, delta) => if id in s.assistants && delta != "" then Push(s, TextDelta(0, delta)) else s
    case TextEnded(id) => s.(assistants := s.assistants - {id})
    case ReasoningDelta(_, delta) => if delta != "" then Push(s, ReasoningDelta(0, delta)) else s
    case ToolCompleted(id, name, arguments) =>
      var index := if |s.completed| <= U32_MAX then |s.completed| else U32_MAX;
      s.(completed := s.completed + [Call(index, id, name, arguments)])
    case ToolResult(messageId, callId, content) => AcceptToolResult(cfg, s, messageId, callId, content)
    case RunFinished => Complete(cfg, s)
    case RunInterrupted(interrupts) =>
      if cfg.batch(interrupts) then Push(s, Interrupted(cfg.context.runId, interrupts)).(terminal := true)
      else Fail(s, InvalidResponse)
    case RunError(_, _) => Fail(s, GenerationFailed)
    case StepStarted(name) => PushProjection(cfg, s, Projection(StepStartedKind, Some(name), None, Null))
    case StepFinished(name) => PushProjection(cfg, s, Projection(StepFinishedKind, Some(name), None, Null))
    case StateSnapshot(_) => PushProjection(cfg, s, Projection(StateKind, None, None, s.decoder.view.state))
    case StateDelta(_) => PushProjection(cfg, s, Projection(StateKind, None, None, s.decoder.view.state))
    case MessagesSnapshot(messages) => PushProjection(cfg, s, Projection(MessagesKind, None, None, Array(messages)))
    case ActivitySnapshot(id, kind, _, _) => AcceptActivity(cfg, s, id, kind)
    case ActivityDelta(id, kind, _) => AcceptActivity(cfg, s, id, kind)
    case Raw(source, event) => PushProjection(cfg, s, Projection(RawKind, source, None, event))
    case Custom(name, value) => PushProjection(cfg, s, Projection(CustomKind, Some(name), None, value))
    case _ => s
  }

  function AcceptActivity(cfg: Config, s: Session, id: string, kind: string): Session {
    if id in s.decoder.view.activities
    then PushProjection(cfg, s, Projection(ActivityKind, Some(id), Some(kind), s.decoder.view.activities[id].content))
    else Fail(s, InvalidResponse)
  }

  /** Decoded events one by one, until one of them ends the session. */
  function AcceptAll(cfg: Config, s: Session, es: seq<Agui.Event>): Session
    decreases |es|
  {
    if es == [] || s.terminal then s else AcceptAll(cfg, Accept(cfg, s, es[0]), es[1..])
  }

  // ---------------------------------------------------------------------------------------------
  // One call of `next_event`
  // ---------------------------------------------------------------------------------------------

  function FailureOf(e: TransportError): Failure {
    match e
    case Stalled => StreamStalled
    case NotAuthenticated => Authentication
    case TooMany => RateLimited
    case ServerDown => ServerUnavailable
    case _ => InvalidResponse
  }

  predicate IsFatal(a: Answer) {
    a.Broken? && (a.error.Unavailable? || a.error.CommitUnknown?)
  }

  /** What one answer of the transport does to the session. */
  function Receive(cfg: Config, s: Session, a: Answer): Session {
    match a
    case Data(text) =>
      var r := Spec.Ingest(cfg.context, s.decoder, text);
      if r.Err? then Fail(s, InvalidResponse) else AcceptAll(cfg, s.(decoder := r.value.state), r.value.out)
    case End =>
      var r := Spec.Finish(cfg.context, s.decoder);
      if r.Err? then Fail(s.(ended := true), InvalidResponse) else s.(decoder := r.value.state, ended := true)
    case Broken(e) => if IsFatal(a) then s else Fail(s, FailureOf(e))
  }

  datatype Reply = Reply(answer: Result<Option<Event>, TransportError>, session: Session, script: seq<Answer>)

  function First(script: seq<Answer>): Answer {
    if script == [] then End else script[0]
  }

  function Rest(script: seq<Answer>): seq<Answer> {
    if script == [] then [] else script[1..]
  }

  /** One call. `script` is what the transport will still answer; after it, the end of the stream. */
  function NextEvent(cfg: Config, s: Session, script: seq<Answer>): Reply
    decreases |script|, !s.ended
  {
    if s.pending != [] then Reply(Ok(Some(s.pending[0])), s.(pending := s.pending[1..]), script)
    else if s.terminal || s.ended then Reply(Ok(None), s, script)
    else
      var a := First(script);
      if IsFatal(a) then Reply(Err(a.error), s, Rest(script))
      else NextEvent(cfg, Receive(cfg, s, a), Rest(script))
  }
}
