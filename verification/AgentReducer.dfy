/** The agent's pure reducer: which fact is accepted in which phase, and what it asks the host to do. */
module AgentReducer {
  import opened Json
  import opened Wrappers
  import Chunk

  type Text = seq<Chunk.byte>

  datatype Phase =
    | Queued | Preparing | Sampling | AwaitingApproval | AwaitingHuman | ExecutingTools | CommittingResults | Cancelling
    | Succeeded | Failed | Cancelled | Reconciling

  predicate IsFinal(p: Phase) {
    p.Succeeded? || p.Failed? || p.Cancelled? || p.Reconciling?
  }

  datatype Failure =
    | ProviderAuthentication | ProviderRateLimited | ProviderUnavailable | ProviderCommitUnknown
    | ProviderInvalidResponse | ProviderStreamStalled | ProviderGenerationFailed | ProviderTokenBudgetExceeded
    | RunTokenBudgetExceeded | RunCostBudgetUnpriced | RunCostBudgetCurrencyMismatch | RunCostBudgetExceeded
    | ToolStepLimit | ToolLoopUnavailable | ToolDenied | RuntimeLeaseLost | JournalUnknown

  datatype Terminal = Success | Failure(reason: Failure) | Cancellation | Reconciliation(reason: Failure)

  datatype ToolCall = ToolCall(callId: string, name: string, arguments: Value)

  datatype State = State(phase: Phase, toolSteps: nat, pendingTerminal: Option<Terminal>)

  datatype Event =
    | DispatchActivated | ContextPrepared | ContextFailed(failure: Failure)
    | ProviderTextDelta(delta: Text) | ProviderReasoningDelta(delta: Text)
    | ProviderToolCalls(calls: seq<ToolCall>) | ProviderCompleted | ProviderFailed(failure: Failure)
    | ToolResultCommitted | ToolRuntimeUnavailable
    | ApprovalRequired | ApprovalGranted | ApprovalDenied
    | HumanRequired | HumanReleased | RemoteResumeReady | RemoteResumeFailed(failure: Failure)
    | CancelRequested | ChildrenStopped | TerminalCommitted | LeaseLost | JournalCommitUnknown

  datatype Effect =
    | LoadContext | StartProvider | PersistText(delta: Text) | PersistReasoning(delta: Text)
    | InvokeTools(calls: seq<ToolCall>) | AwaitApproval | AwaitHuman | CancelChildren | CommitTerminal(terminal: Terminal)

  datatype Step = Step(state: State, effects: seq<Effect>)

  datatype Violation = Violation

  type Outcome = Result<Step, Violation>

  const TOOL_STEP_CAP: nat := 8
  const U8_MAX: nat := 255

  function Initial(): State {
    State(Queued, 0, None)
  }

  function To(s: State, p: Phase, effects: seq<Effect>): Outcome {
    Ok(Step(s.(phase := p), effects))
  }

  function BeginTerminal(s: State, t: Terminal): Outcome {
    Ok(Step(s.(phase := CommittingResults, pendingTerminal := Some(t)), [CommitTerminal(t)]))
  }

  function FailureTerminal(f: Failure): Terminal {
    if f.ProviderCommitUnknown? || f.RuntimeLeaseLost? || f.JournalUnknown? then Reconciliation(f) else Failure(f)
  }

  predicate WellFormedCalls(calls: seq<ToolCall>) {
    && calls != []
    && (forall i :: 0 <= i < |calls| ==> calls[i].callId != "" && calls[i].name != "" && calls[i].arguments.Object?)
    && (forall i, j :: 0 <= i < j < |calls| ==> calls[i].callId != calls[j].callId)
  }

  function ReduceCalls(s: State, calls: seq<ToolCall>): Outcome {
    if !WellFormedCalls(calls) || |calls| > U8_MAX then Err(Violation)
    else if s.toolSteps + |calls| > TOOL_STEP_CAP then BeginTerminal(s, Failure(ToolStepLimit))
    else Ok(Step(s.(phase := ExecutingTools, toolSteps := s.toolSteps + |calls|), [InvokeTools(calls)]))
  }

  function FinalPhase(t: Terminal): Phase {
    match t
    case Success => Succeeded
    case Failure(_) => Failed
    case Cancellation => Cancelled
    case Reconciliation(_) => Reconciling
  }

  /** Phases in which a run can be cancelled, and in which losing its lease or journal ends it. */
  predicate Cancellable(p: Phase) {
    p.Queued? || p.Preparing? || p.Sampling? || p.AwaitingApproval? || p.AwaitingHuman? || p.ExecutingTools?
  }

  predicate Interruptible(p: Phase) {
    (Cancellable(p) && !p.Queued?) || p.Cancelling?
  }

  function Reduce(s: State, e: Event): Outcome {
    if IsFinal(s.phase) then Err(Violation)
    else
      match e
      case DispatchActivated => if s.phase.Queued? then To(s, Preparing, [LoadContext]) else Err(Violation)
      case ContextPrepared => if s.phase.Preparing? then To(s, Sampling, [StartProvider]) else Err(Violation)
      case ContextFailed(f) => if s.phase.Preparing? then BeginTerminal(s, FailureTerminal(f)) else Err(Violation)
      case ProviderTextDelta(delta) =>
        if s.phase.Sampling? && delta != [] then To(s, Sampling, [PersistText(delta)]) else Err(Violation)
      case ProviderReasoningDelta(delta) =>
        if s.phase.Sampling? && delta != [] then To(s, Sampling, [PersistReasoning(delta)]) else Err(Violation)
      case ProviderToolCalls(calls) => if s.phase.Sampling? then ReduceCalls(s, calls) else Err(Violation)
      case ProviderCompleted => if s.phase.Sampling? then BeginTerminal(s, Success) else Err(Violation)
      case ProviderFailed(f) => if s.phase.Sampling? then BeginTerminal(s, FailureTerminal(f)) else Err(Violation)
      case ToolResultCommitted => if s.phase.ExecutingTools? then To(s, Preparing, [LoadContext]) else Err(Violation)
      case ToolRuntimeUnavailable =>
        if s.phase.ExecutingTools? then BeginTerminal(s, Failure(ToolLoopUnavailable)) else Err(Violation)
      case ApprovalRequired => if s.phase.ExecutingTools? then To(s, AwaitingApproval, [AwaitApproval]) else Err(Violation)
      case ApprovalGranted => if s.phase.AwaitingApproval? then To(s, ExecutingTools, []) else Err(Violation)
      case ApprovalDenied => if s.phase.AwaitingApproval? then BeginTerminal(s, Failure(ToolDenied)) else Err(Violation)
      case HumanRequired =>
        if s.phase.Sampling? || s.phase.ExecutingTools? then To(s, AwaitingHuman, [AwaitHuman]) else Err(Violation)
      case HumanReleased => if s.phase.AwaitingHuman? then To(s, ExecutingTools, []) else Err(Violation)
      case RemoteResumeReady => if s.phase.AwaitingHuman? then To(s, Preparing, [LoadContext]) else Err(Violation)
      case RemoteResumeFailed(f) => if s.phase.AwaitingHuman? then BeginTerminal(s, FailureTerminal(f)) else Err(Violation)
      case CancelRequested => if Cancellable(s.phase) then To(s, Cancelling, [CancelChildren]) else Err(Violation)
      case ChildrenStopped => if s.phase.Cancelling? then BeginTerminal(s, Cancellation) else Err(Violation)
      case LeaseLost => if Interruptible(s.phase) then BeginTerminal(s, Reconciliation(RuntimeLeaseLost)) else Err(Violation)
      case JournalCommitUnknown =>
        if Interruptible(s.phase) then BeginTerminal(s, Reconciliation(JournalUnknown)) else Err(Violation)
      case TerminalCommitted =>
        if s.phase.CommittingResults? && s.pendingTerminal.Some?
        then Ok(Step(s.(phase := FinalPhase(s.pendingTerminal.value), pendingTerminal := None), []))
        else Err(Violation)
  }

  // ---------------------------------------------------------------------------------------------
  // Whole runs of the reducer
  // ---------------------------------------------------------------------------------------------

  /** Facts accepted one after the other; the first refused one ends the run. */
  function ReduceAll(s: State, es: seq<Event>): Outcome {
    if es == [] then Ok(Step(s, []))
    else
      var before :- ReduceAll(s, es[..|es| - 1]);
      var last :- Reduce(before.state, es[|es| - 1]);
      Ok(Step(last.state, before.effects + last.effects))
  }

  predicate Committing(s: State) {
    s.phase.CommittingResults? || IsFinal(s.phase)
  }

  /** How much the emitted effects invoke. */
  function Invoked(effects: seq<Effect>): nat {
    if effects == [] then 0
    else
      var e := effects[|effects| - 1];
      Invoked(effects[..|effects| - 1]) + if e.InvokeTools? then |e.calls| else 0
  }

  predicate NoTerminal(effects: seq<Effect>) {
    forall i :: 0 <= i < |effects| ==> !effects[i].CommitTerminal?
  }

  /** A terminal is asked for once, at the very end, and it is the one being committed. */
  ghost predicate TerminalLast(s: State, effects: seq<Effect>) {
    if Committing(s) then
      && effects != [] && NoTerminal(effects[..|effects| - 1]) && effects[|effects| - 1].CommitTerminal?
      && var t := effects[|effects| - 1].terminal;
         if IsFinal(s.phase) then s.phase == FinalPhase(t) else s.pendingTerminal == Some(t)
    else NoTerminal(effects)
  }

  ghost predicate ReducerInv(s: State, effects: seq<Effect>) {
    s.toolSteps == Invoked(effects) <= TOOL_STEP_CAP && TerminalLast(s, effects)
  }

  lemma {:induction false} InvokedSnoc(effects: seq<Effect>, e: Effect)
    ensures Invoked(effects + [e]) == Invoked(effects) + if e.InvokeTools? then |e.calls| else 0
  {
    assert (effects + [e])[..|effects|] == effects;
  }

  function Invokes(effects: seq<Effect>): nat {
    if effects != [] && effects[0].InvokeTools? then |effects[0].calls| else 0
  }

  /** A step asks for at most one thing: it begins the terminal, or stays on the way, or is the last of all. */
  ghost predicate StepShape(s: State, r: Step) {
    if s.phase.CommittingResults? then
      s.pendingTerminal.Some? && r == Step(State(FinalPhase(s.pendingTerminal.value), s.toolSteps, None), [])
    else
      || (exists t :: r == Step(State(CommittingResults, s.toolSteps, Some(t)), [CommitTerminal(t)]))
      || (&& !Committing(r.state) && |r.effects| <= 1 && (r.effects != [] ==> !r.effects[0].CommitTerminal?)
          && r.state.toolSteps == s.toolSteps + Invokes(r.effects)
            && (r.state.toolSteps == s.toolSteps || r.state.toolSteps <= TOOL_STEP_CAP))
  }

  lemma {:induction false} ReduceShape(s: State, e: Event)
    requires Reduce(s, e).Ok?
    ensures !IsFinal(s.phase) && StepShape(s, Reduce(s, e).value)
  {
  }

  lemma {:induction false} TerminalKept(s: State, effects: seq<Effect>, t: Terminal)
    requires ReducerInv(s, effects) && !Committing(s)
    ensures ReducerInv(State(CommittingResults, s.toolSteps, Some(t)), effects + [CommitTerminal(t)])
  {
    var after := effects + [CommitTerminal(t)];
    InvokedSnoc(effects, CommitTerminal(t));
    assert after[..|after| - 1] == effects;
  }

  lemma {:induction false} ProgressKept(s: State, effects: seq<Effect>, next: State, e: Effect)
    requires ReducerInv(s, effects) && !Committing(s) && !Committing(next) && !e.CommitTerminal?
    requires next.toolSteps == s.toolSteps + Invokes([e]) <= TOOL_STEP_CAP
    ensures ReducerInv(next, effects + [e])
  {
    InvokedSnoc(effects, e);
  }

  lemma {:induction false} ShapeKept(s: State, effects: seq<Effect>, r: Step)
    requires ReducerInv(s, effects) && !IsFinal(s.phase) && StepShape(s, r)
    ensures ReducerInv(r.state, effects + r.effects)
  {
    if r.effects == [] {
      assert effects + r.effects == effects;
    } else if r.effects[0].CommitTerminal? {
      TerminalKept(s, effects, r.effects[0].terminal);
    } else {
      assert r.effects == [r.effects[0]];
      ProgressKept(s, effects, r.state, r.effects[0]);
    }
  }

  /** At most one terminal is ever asked for, it is the last request, and at most eight calls are invoked. */
  lemma {:induction false} ReducerLaw(es: seq<Event>)
    ensures ReduceAll(Initial(), es).Ok? ==>
              ReducerInv(ReduceAll(Initial(), es).value.state, ReduceAll(Initial(), es).value.effects)
  {
    if es != [] {
      var front := es[..|es| - 1];
      ReducerLaw(front);
      var before := ReduceAll(Initial(), front);
      if before.Ok? && Reduce(before.value.state, es[|es| - 1]).Ok? {
        ReduceShape(before.value.state, es[|es| - 1]);
        ShapeKept(before.value.state, before.value.effects, Reduce(before.value.state, es[|es| - 1]).value);
      }
    }
  }

  /** Exactly these facts end a run, each with its own verdict. */
  lemma {:induction false} VerdictOf(s: State, e: Event, t: Terminal)
    ensures (Reduce(s, e).Ok? && Reduce(s, e).value.effects == [CommitTerminal(t)]) <==>
            match e
            case ContextFailed(f) => s.phase.Preparing? && t == FailureTerminal(f)
            case ProviderFailed(f) => s.phase.Sampling? && t == FailureTerminal(f)
            case RemoteResumeFailed(f) => s.phase.AwaitingHuman? && t == FailureTerminal(f)
            case ProviderCompleted => s.phase.Sampling? && t == Success
            case ProviderToolCalls(calls) =>
              s.phase.Sampling? && WellFormedCalls(calls) && TOOL_STEP_CAP < s.toolSteps + |calls| && |calls| <= U8_MAX
              && t == Failure(ToolStepLimit)
            case ToolRuntimeUnavailable => s.phase.ExecutingTools? && t == Failure(ToolLoopUnavailable)
            case ApprovalDenied => s.phase.AwaitingApproval? && t == Failure(ToolDenied)
            case ChildrenStopped => s.phase.Cancelling? && t == Cancellation
            case LeaseLost => Interruptible(s.phase) && t == Reconciliation(RuntimeLeaseLost)
            case JournalCommitUnknown => Interruptible(s.phase) && t == Reconciliation(JournalUnknown)
            case _ => false
  {
  }

  /** A cancelled run was asked to cancel, and then reported that its children had stopped: nothing else came between. */
  lemma {:induction false} CancelledMeansStopped(es: seq<Event>)
    requires ReduceAll(Initial(), es).Ok? && es != []
    requires ReduceAll(Initial(), es).value.state.pendingTerminal == Some(Cancellation)
    ensures |es| >= 2 && es[|es| - 1] == ChildrenStopped && es[|es| - 2] == CancelRequested
  {
    var n := |es| - 1;
    var before := ReduceAll(Initial(), es[..n]).value;
    ReducerLaw(es[..n]);
    VerdictOf(before.state, es[n], Cancellation);
    PendingMeansCommitting(es[..n]);
    assert n > 0;
    var earlier := ReduceAll(Initial(), es[..n][..n - 1]).value;
    assert es[..n][n - 1] == es[n - 1];
  }

  lemma {:induction false} PendingMeansCommitting(es: seq<Event>)
    ensures var r := ReduceAll(Initial(), es);
            r.Ok? ==> (r.value.state.pendingTerminal.Some? <==> r.value.state.phase.CommittingResults?)
  {
    if es != [] {
      PendingMeansCommitting(es[..|es| - 1]);
    }
  }

  /** A run that has lost its lease or its journal is never reported as a success or a clean cancellation. */
  lemma {:induction false} UnknownIsNeverClean(s: State, e: Event)
    requires e.LeaseLost? || e.JournalCommitUnknown?
    ensures Reduce(s, e).Ok? <==> Interruptible(s.phase)
    ensures Reduce(s, e).Ok? ==>
              Reduce(s, e).value.state.pendingTerminal.Some? && Reduce(s, e).value.state.pendingTerminal.value.Reconciliation?
  {
  }
}
