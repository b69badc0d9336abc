/**
 * One run of the built-in agent. Whatever the context source, the provider, the tools, the clock, the
 * caller and the store answer is an arbitrary choice (`*`); a run may stop at any turn of its loops.
 */
module AgentRun {
  import opened Json
  import opened Wrappers
  import opened Agent = AgentReducer
  import opened DurableRun
  import opened RunBinding
  import opened RunCourse
  import Chunk
  import Scheduling

  /** A fact the host has told the reducer, and the state it met. */
  datatype Told = Told(state: State, fact: Agent.Event)

  /**
   * How a run is over: a terminal was attempted, the reducer did not go along with the last fact, or the
   * process stopped. `refused` is the result of a tool that was no reply, if that is what ended the run.
   */
  datatype Ending =
    | Running
    | Attempted(terminal: Terminal, told: Told, refused: Option<ToolOutcome>)
    | Abandoned(told: Told)
    | Halted

  datatype Output = Output(call: ToolCall, outcome: ToolOutcome)

  /** A task of a parallel wave: waiting for its budget, invoked, or joined. */
  datatype Task = Waiting | Working | Joined

  datatype Receipt = Recorded | BudgetExceeded | CostBudgetExceeded | UsageRefused(error: RunError)

  /** How a sampling ends without ending the run. */
  datatype Sampled = Done | Tools(calls: seq<ToolCall>) | AtHuman(protocolRunId: string)

  /** All output the first samplings reported. */
  function Reported(usages: map<nat, nat>, samplings: nat): nat {
    if samplings == 0 then 0
    else Reported(usages, samplings - 1) + if samplings - 1 in usages then usages[samplings - 1] else 0
  }

  /** The first samplings reported no more than their own cap. */
  ghost predicate Capped(usages: map<nat, nat>, starts: seq<Start>, samplings: nat) {
    forall k :: 0 <= k < samplings && k < |starts| && k in usages ==> WithinCap(usages[k], starts[k].request.maxOutput)
  }

  /** All but the last sampling together have stayed within the ceiling of the first request. */
  ghost predicate WithinCeiling(usages: map<nat, nat>, starts: seq<Start>) {
    starts != [] && Ceiling(starts[0].request).Some? ==>
      Reported(usages, |starts| - 1) <= Ceiling(starts[0].request).value
  }

  predicate OnlyAt(before: map<nat, nat>, after: map<nat, nat>, index: nat) {
    after - {index} == before - {index}
  }

  lemma {:induction false} ReportedBelow(usages: map<nat, nat>, cap: nat, samplings: nat)
    requires forall k :: 0 <= k < samplings && k in usages ==> usages[k] <= cap
    ensures Reported(usages, samplings) <= cap * samplings
  {
    if samplings > 0 {
      ReportedBelow(usages, cap, samplings - 1);
      assert cap * samplings == cap * (samplings - 1) + cap;
    }
  }

  /** The run ceiling of the first request covers every sampling that stayed within its cap. */
  lemma {:induction false} CeilingCovers(runId: string, usages: map<nat, nat>, starts: seq<Start>, samplings: nat)
    requires Coherent(runId, starts) && starts != [] && samplings <= SAMPLINGS && samplings <= |starts|
    requires Capped(usages, starts, samplings)
    ensures var ceiling := Ceiling(starts[0].request);
            ceiling.Some? ==> Reported(usages, samplings) <= starts[0].request.maxOutput.value * samplings <= ceiling.value
  {
    if Ceiling(starts[0].request).Some? {
      var cap := starts[0].request.maxOutput.value;
      forall k | 0 <= k < samplings && k in usages ensures usages[k] <= cap {
        assert starts[k].request.maxOutput == starts[0].request.maxOutput;
      }
      ReportedBelow(usages, cap, samplings);
      assert cap * samplings <= cap * SAMPLINGS;
    }
  }

  datatype Config = Config(human: string -> bool, scheduling: string -> Scheduling.ToolScheduling, blank: Text -> bool)

  ghost predicate NoneEnded(log: seq<Entry>) {
    forall i :: 0 <= i < |log| ==> !log[i].Ended?
  }

  /** At most one terminal, and nothing after it. */
  ghost predicate EndsOnce(log: seq<Entry>) {
    log == [] || NoneEnded(log[..|log| - 1])
  }

  /** Each of these invocations has an exchange of its own in the journal, with its call and its reply. */
  ghost predicate Answered(log: seq<Entry>, invoked: seq<Invocation>, recorded: map<nat, nat>, replies: map<nat, string>) {
    && (forall k :: k in replies ==> k < |invoked|)
    && (forall k :: k in recorded ==>
          && k in replies && k < |invoked| && recorded[k] < |log|
          && log[recorded[k]] == Exchanged(Exchange(invoked[k].call, replies[k])))
    && (forall j, k :: j in recorded && k in recorded && recorded[j] == recorded[k] ==> j == k)
  }

  /** Each exchange that the run has put into the journal is the answer to one of its invocations. */
  ghost predicate AllOwned(log: seq<Entry>, origin: nat, recorded: map<nat, nat>) {
    forall i :: origin <= i < |log| && log[i].Exchanged? ==> i in recorded.Values
  }

  lemma {:induction false} OwnedGrows(before: seq<Entry>, after: seq<Entry>, e: Entry, origin: nat, recorded: map<nat, nat>)
    requires AllOwned(before, origin, recorded) && SemanticThen(before, after, e) && !e.Exchanged?
    ensures AllOwned(after, origin, recorded)
  {
    NothingElse(before, after, e);
  }

  lemma {:induction false} NothingElse(before: seq<Entry>, after: seq<Entry>, e: Entry)
    requires SemanticThen(before, after, e)
    ensures before <= after
    ensures forall i :: |before| <= i < |after| ==> after[i].Semantic? || (i == |after| - 1 && after[i] == e)
  {
    if !OnlySemantic(before, after) {
      assert forall i :: 0 <= i < |after| - 1 ==> after[..|after| - 1][i] == after[i];
    }
  }

  lemma {:induction false} OwnedMore(before: seq<Entry>, after: seq<Entry>, e: Entry, origin: nat, recorded: map<nat, nat>,
                                     k: nat)
    requires AllOwned(before, origin, recorded) && SemanticThen(before, after, e)
    requires |before| < |after| && after[|after| - 1] == e
    requires k !in recorded
    ensures AllOwned(after, origin, recorded[k := |after| - 1])
  {
    var more := recorded[k := |after| - 1];
    assert more[k] == |after| - 1;
    NothingElse(before, after, e);
    forall i | i in recorded.Values ensures i in more.Values {
      var j :| j in recorded && recorded[j] == i;
      assert more[j] == i;
    }
  }

  /** No call of a tool is left without an answer, except what waits for a human. */
  ghost predicate AllAnswered(invoked: seq<Invocation>, recorded: map<nat, nat>) {
    forall k :: 0 <= k < |invoked| && !invoked[k].human ==> k in recorded
  }

  ghost predicate HasEnded(log: seq<Entry>, t: Terminal) {
    log != [] && log[|log| - 1] == Ended(t)
  }

  /** What holds of every run at every moment. */
  ghost predicate SafeRun(log: seq<Entry>, invoked: seq<Invocation>, recorded: map<nat, nat>, replies: map<nat, string>,
                          ending: Ending) {
    && EndsOnce(log) && Answered(log, invoked, recorded, replies) && !HasEnded(log, Failure(ToolStepLimit))
    && (HasEnded(log, Cancellation) ==> AllAnswered(invoked, recorded))
    && (log != [] && log[|log| - 1].Ended? ==> ending.Attempted? && ending.terminal == log[|log| - 1].terminal)
  }

  lemma {:induction false} EndedBeforeLast(log: seq<Entry>, i: nat)
    requires i < |log| - 1 && log[i].Ended?
    ensures !EndsOnce(log)
  {
    assert log[..|log| - 1][i] == log[i];
  }

  /** Only the last entry of the journal can be a terminal, so there is at most one. */
  lemma {:induction false} TerminalIsLast(log: seq<Entry>, i: nat)
    requires EndsOnce(log) && i < |log| && log[i].Ended?
    ensures i == |log| - 1
  {
    if i < |log| - 1 {
      EndedBeforeLast(log, i);
    }
  }

  /** In a cancelled run each tool call that began, but for the human ones, was answered in the journal before the end. */
  lemma {:induction false} CancelledAnswersAll(log: seq<Entry>, invoked: seq<Invocation>, recorded: map<nat, nat>,
                                               replies: map<nat, string>, ending: Ending, i: nat, k: nat) returns (j: nat)
    requires SafeRun(log, invoked, recorded, replies, ending) && i < |log| && log[i] == Ended(Cancellation)
    requires k < |invoked| && !invoked[k].human
    ensures j < i && k in replies && log[j] == Exchanged(Exchange(invoked[k].call, replies[k]))
  {
    TerminalIsLast(log, i);
    j := recorded[k];
  }

  /** An ending with a tool call unanswered: reconciliation, or the failure of the tool loop exactly if a result said so. */
  lemma {:induction false} UnansweredEnds(log: seq<Entry>, invoked: seq<Invocation>, recorded: map<nat, nat>,
                                          replies: map<nat, string>, ending: Ending, t: Terminal)
    requires SafeRun(log, invoked, recorded, replies, ending) && Concluded(ending, AllAnswered(invoked, recorded))
    requires HasEnded(log, t) && !AllAnswered(invoked, recorded)
    ensures ending.Attempted? && (t == Failure(ToolLoopUnavailable) <==> ending.refused == Some(ToolUnavailable))
    ensures t == Failure(ToolLoopUnavailable) || t.Reconciliation?
  {
    assert log[|log| - 1] == Ended(t);
  }

  /** A run is without a terminal of its own exactly if the last fact was one the reducer does not go along with. */
  lemma {:induction false} AbandonedExactly(ending: Ending, settled: bool)
    requires Concluded(ending, settled) && !ending.Halted?
    ensures ending.Abandoned? <==> Abandons(ending.told)
    ensures ending.Abandoned? ==>
              var r := Reduce(ending.told.state, ending.told.fact);
              r.Err? || r.value.effects == [Effect.CommitTerminal(Failure(ToolStepLimit))]
  {
    if ending.Abandoned? && ending.told.fact.ProviderToolCalls? {
      assert Reduce(ending.told.state, ending.told.fact) == ReduceCalls(ending.told.state, ending.told.fact.calls);
    }
  }

  lemma {:induction false} OpenStaysSafe(log: seq<Entry>, invoked: seq<Invocation>, recorded: map<nat, nat>,
                                      replies: map<nat, string>, ending: Ending)
    requires NoneEnded(log) && Answered(log, invoked, recorded, replies)
    ensures SafeRun(log, invoked, recorded, replies, ending)
  {
  }

  lemma {:induction false} SemanticOpen(before: seq<Entry>, after: seq<Entry>)
    requires NoneEnded(before) && OnlySemantic(before, after)
    ensures NoneEnded(after)
  {
    forall i | 0 <= i < |after| ensures !after[i].Ended? {
      if i < |before| {
        assert after[i] == before[i];
      }
    }
  }

  lemma {:induction false} RecordOpen(before: seq<Entry>, after: seq<Entry>, e: Entry)
    requires NoneEnded(before) && SemanticThen(before, after, e) && !e.Ended?
    ensures NoneEnded(after) && before <= after
  {
    if OnlySemantic(before, after) {
      SemanticOpen(before, after);
    } else {
      SemanticOpen(before, after[..|after| - 1]);
    }
  }

  lemma {:induction false} AnsweredGrows(before: seq<Entry>, after: seq<Entry>, invoked: seq<Invocation>,
                                         recorded: map<nat, nat>, replies: map<nat, string>)
    requires Answered(before, invoked, recorded, replies) && before <= after
    ensures Answered(after, invoked, recorded, replies)
  {
  }

  /** Committing a terminal keeps a run safe, if a cancellation finds nothing unanswered. */
  lemma {:induction false} TerminalSafe(before: seq<Entry>, after: seq<Entry>, t: Terminal,
                                        invoked: seq<Invocation>, recorded: map<nat, nat>, replies: map<nat, string>,
                                        ending: Ending)
    requires NoneEnded(before) && Answered(before, invoked, recorded, replies) && SemanticThen(before, after, Ended(t))
    requires ending.Attempted? && ending.terminal == t
    requires t == Cancellation ==> AllAnswered(invoked, recorded)
    requires t != Failure(ToolStepLimit)
    ensures SafeRun(after, invoked, recorded, replies, ending)
  {
    if OnlySemantic(before, after) {
      SemanticOpen(before, after);
    } else {
      SemanticOpen(before, after[..|after| - 1]);
      assert before <= after;
    }
    AnsweredGrows(before, after, invoked, recorded, replies);
  }

  // ---------------------------------------------------------------------------------------------
  // Parallel waves
  // ---------------------------------------------------------------------------------------------

  /** Which task made which invocation, since there were `n` of them: no two the same, and no other. */
  ghost predicate Started(calls: seq<ToolCall>, ids: seq<Option<nat>>, invoked: seq<Invocation>, n: nat) {
    && |ids| == |calls| && n <= |invoked|
    && (forall p :: 0 <= p < |ids| && ids[p].Some? ==>
          n <= ids[p].value < |invoked| && invoked[ids[p].value] == Invocation(calls[p], false))
    && (forall p, q :: 0 <= p < q < |ids| && ids[p].Some? ==> ids[p] != ids[q])
    && (forall k :: n <= k < |invoked| ==> Some(k) in ids)
  }

  /** A task that waits has invoked nothing; one that runs has. */
  ghost predicate Tracks(tasks: seq<Task>, ids: seq<Option<nat>>) {
    && |tasks| == |ids|
    && forall p :: 0 <= p < |tasks| ==> (tasks[p].Waiting? ==> ids[p].None?) && (tasks[p].Working? ==> ids[p].Some?)
  }

  /** What is still in flight has not replied. */
  ghost predicate Unreplied(tasks: seq<Task>, ids: seq<Option<nat>>, replies: map<nat, string>) {
    |tasks| == |ids| && forall p :: 0 <= p < |tasks| && !tasks[p].Joined? && ids[p].Some? ==> ids[p].value !in replies
  }

  /** Results stand at the position of their call, whatever the order of completion. */
  ghost predicate Collected(calls: seq<ToolCall>, tasks: seq<Task>, ids: seq<Option<nat>>, outputs: seq<Option<Output>>,
                            replies: map<nat, string>) {
    && |outputs| == |tasks| == |calls| == |ids|
    && forall p :: 0 <= p < |outputs| ==>
         && (outputs[p].Some? <==> tasks[p].Joined?)
         && (outputs[p].Some? ==> outputs[p].value.call == calls[p] && TrueReply(outputs[p].value.outcome, ids[p], replies))
  }

  /** A result that is a reply is the reply of the invocation its task has made. */
  ghost predicate TrueReply(outcome: ToolOutcome, id: Option<nat>, replies: map<nat, string>) {
    outcome.Reply? ==> id.Some? && id.value in replies && replies[id.value] == outcome.content
  }

  lemma {:induction false} StartOne(calls: seq<ToolCall>, ids: seq<Option<nat>>, invoked: seq<Invocation>, n: nat, p: nat)
    requires Started(calls, ids, invoked, n) && p < |ids| && ids[p].None?
    ensures Started(calls, ids[p := Some(|invoked|)], invoked + [Invocation(calls[p], false)], n)
  {
    var after, grown := ids[p := Some(|invoked|)], invoked + [Invocation(calls[p], false)];
    forall k | n <= k < |grown| ensures Some(k) in after {
      if k < |invoked| {
        var q :| 0 <= q < |ids| && ids[q] == Some(k);
        assert after[q] == Some(k);
      } else {
        assert after[p] == Some(k);
      }
    }
  }

  predicate AllJoined(tasks: seq<Task>) {
    forall p :: 0 <= p < |tasks| ==> tasks[p].Joined?
  }

  lemma {:induction false} AnsweredMore(log: seq<Entry>, invoked: seq<Invocation>, more: seq<Invocation>,
                                        recorded: map<nat, nat>, before: map<nat, string>, after: map<nat, string>)
    requires Answered(log, invoked, recorded, before) && invoked <= more && Extends(before, after)
    requires forall k :: k in after ==> k < |more|
    ensures Answered(log, more, recorded, after)
  {
  }

  /** The facts with which the host itself ends a run. */
  predicate Drivable(e: Agent.Event) {
    && !e.ProviderToolCalls? && !e.ProviderReasoningDelta?
    && (e.ContextFailed? || e.ProviderFailed? || e.RemoteResumeFailed? ==> e.failure != ToolStepLimit)
  }

  /** What becomes of a run that is told this fact. */
  function Verdict(s: State, e: Agent.Event, refused: Option<ToolOutcome>): Ending {
    var r := Reduce(s, e);
    if r.Ok? && |r.value.effects| == 1 && r.value.effects[0].CommitTerminal?
    then Attempted(r.value.effects[0].terminal, Told(s, e), refused)
    else Abandoned(Told(s, e))
  }

  /** The same; the depth means nothing, and keeps the verdict folded where it is only passed on. */
  function Conclusion(s: State, e: Agent.Event, refused: Option<ToolOutcome> := None, depth: nat := 3): (r: Ending)
    ensures r.Attempted? || r.Abandoned?
    decreases depth
  {
    if depth > 0 then Conclusion(s, e, refused, depth - 1) else Verdict(s, e, refused)
  }

  lemma {:induction false} ConclusionIs(s: State, e: Agent.Event, refused: Option<ToolOutcome>)
    ensures Conclusion(s, e, refused) == Verdict(s, e, refused)
  {
    assert Conclusion(s, e, refused, 2) == Conclusion(s, e, refused, 1) == Conclusion(s, e, refused, 0);
  }

  /** The state while the children of a cancelled run stop. */
  function Stopping(s: State): State {
    s.(phase := Cancelling)
  }

  /** A cancellation is attempted in every phase before the end, unless a deadline cannot be audited. */
  function CancelEnding(s: State, source: CancellationSource, audited: bool): Ending {
    if source.Deadline? && !audited then Conclusion(s, JournalCommitUnknown)
    else if Cancellable(s.phase) then Attempted(Cancellation, Told(Stopping(s), ChildrenStopped), None)
    else Abandoned(Told(s, CancelRequested))
  }

  // ---------------------------------------------------------------------------------------------
  // Which runs end without a terminal
  // ---------------------------------------------------------------------------------------------

  /** A batch the reducer takes, within the step cap. */
  predicate Runnable(s: State, calls: seq<ToolCall>) {
    WellFormedCalls(calls) && |calls| <= U8_MAX && s.toolSteps + |calls| <= TOOL_STEP_CAP
  }

  /**
   * The facts that leave a run without a terminal: a batch that is malformed or over the step cap, a
   * tool that cannot run while a human decides, and reasoning without text.
   */
  predicate Abandons(t: Told) {
    || (t.fact.ProviderToolCalls? && t.state.phase.Sampling? && !Runnable(t.state, t.fact.calls))
    || (t.fact.ToolRuntimeUnavailable? && t.state.phase.AwaitingHuman?)
    || (t.fact == ProviderReasoningDelta([]) && t.state.phase.Sampling?)
  }

  /** A fact that ends a run, told in a phase where it can arise. */
  predicate Timely(p: Phase, e: Agent.Event) {
    match e
    case ContextFailed(f) => p.Preparing? && f != ToolStepLimit
    case ProviderFailed(f) => p.Sampling? && f != ToolStepLimit
    case ProviderCompleted => p.Sampling?
    case RemoteResumeFailed(f) => p.AwaitingHuman? && f != ToolStepLimit
    case ToolRuntimeUnavailable => p.ExecutingTools? || p.AwaitingHuman?
    case ChildrenStopped => p.Cancelling?
    case LeaseLost => Interruptible(p)
    case JournalCommitUnknown => Interruptible(p)
    case _ => false
  }

  /** A tool result that is no reply is told as what it means; with a call unanswered nothing else is. */
  predicate Candid(p: Phase, e: Agent.Event, refused: Option<ToolOutcome>, settled: bool) {
    && (refused == Some(ToolUnavailable) ==> e.ToolRuntimeUnavailable? && p.ExecutingTools?)
    && (refused.Some? && refused != Some(ToolUnavailable) ==> e.JournalCommitUnknown?)
    && (!settled ==> e.LeaseLost? || e.JournalCommitUnknown? || refused == Some(ToolUnavailable))
  }

  /**
   * Why a run is over. A terminal is the verdict on the last fact. With a tool call unanswered that is
   * reconciliation, unless a tool result said that the tool is unavailable: then, and only then, it is
   * the failure of the tool loop.
   */
  ghost predicate Concluded(ending: Ending, settled: bool) {
    match ending
    case Running => false
    case Halted => true
    case Abandoned(told) => Abandons(told)
    case Attempted(t, told, refused) =>
      && ending == Verdict(told.state, told.fact, refused) && !Abandons(told)
      && (refused == Some(ToolUnavailable) ==> t == Failure(ToolLoopUnavailable))
      && (refused.Some? && refused != Some(ToolUnavailable) ==> t.Reconciliation?)
      && (!settled ==> (t == Failure(ToolLoopUnavailable) <==> refused == Some(ToolUnavailable)))
      && (!settled ==> t == Failure(ToolLoopUnavailable) || t.Reconciliation?)
  }

  /** The same; the depth means nothing, and keeps it folded where it is only passed on. */
  ghost predicate ConcludedTo(ending: Ending, settled: bool, depth: nat := 3)
    decreases depth
  {
    if depth > 0 then ConcludedTo(ending, settled, depth - 1) else Concluded(ending, settled)
  }

  lemma {:induction false} ConcludedIs(ending: Ending, settled: bool)
    ensures ConcludedTo(ending, settled) <==> Concluded(ending, settled)
  {
    assert ConcludedTo(ending, settled, 2) == ConcludedTo(ending, settled, 1) == ConcludedTo(ending, settled, 0);
  }

  lemma {:induction false} TimelyConcludes(s: State, e: Agent.Event, refused: Option<ToolOutcome>, settled: bool)
    requires Timely(s.phase, e) && Candid(s.phase, e, refused, settled)
    ensures Concluded(Conclusion(s, e, refused), settled)
  {
    ConclusionIs(s, e, refused);
  }

  lemma {:induction false} CancelConcludes(s: State, source: CancellationSource, audited: bool, settled: bool)
    requires Cancellable(s.phase) && Interruptible(s.phase) && settled
    ensures Concluded(CancelEnding(s, source, audited), settled)
  {
    TimelyConcludes(s, JournalCommitUnknown, None, settled);
    TimelyConcludes(Stopping(s), ChildrenStopped, None, settled);
  }

  /** How a call that has begun ends the run, or that it goes on with a reply. */
  function FinishedSerial(s: State, human: bool, a: SerialAnswers): Ending {
    match a.second
    case Cancel(source) => if human then CancelEnding(s, source, a.audited) else Conclusion(s, JournalCommitUnknown)
    case LostLease => Conclusion(s, LeaseLost)
    case Proceed =>
      var executing := s.(phase := ExecutingTools);
      match a.outcome
      case Reply(_) => Running
      case ReconciliationRequired => Conclusion(executing, JournalCommitUnknown, Some(ReconciliationRequired))
      case ToolUnavailable => Conclusion(executing, ToolRuntimeUnavailable, Some(ToolUnavailable))
  }

  /** How a call by itself ends the run, or that it goes on with a reply. */
  function SerialEnding(s: State, human: bool, a: SerialAnswers): Ending {
    var waiting := if human then s.(phase := AwaitingHuman) else s;
    match a.first
    case Cancel(source) => CancelEnding(waiting, source, a.audited)
    case LostLease => Conclusion(waiting, LeaseLost)
    case Proceed => if a.budget then FinishedSerial(waiting, human, a) else Conclusion(waiting, ToolRuntimeUnavailable)
  }

  /** The same as a relation; the depth means nothing, and keeps the cases folded where the ending is only passed on. */
  ghost predicate SeriallyEnded(s: State, human: bool, a: SerialAnswers, ending: Ending, depth: nat := 3)
    decreases depth
  {
    if depth > 0 then SeriallyEnded(s, human, a, ending, depth - 1) else ending == SerialEnding(s, human, a)
  }

  lemma {:induction false} SeriallyEndedIs(s: State, human: bool, a: SerialAnswers, ending: Ending)
    ensures SeriallyEnded(s, human, a, ending) <==> ending == SerialEnding(s, human, a)
  {
    assert SeriallyEnded(s, human, a, ending, 2)
        == SeriallyEnded(s, human, a, ending, 1)
        == SeriallyEnded(s, human, a, ending, 0);
  }

  /** A run with a verdict waits for the store, and then ends in the phase of its verdict. */
  lemma {:induction false} Committed(before: State, e: Agent.Event, after: State, t: Terminal)
    requires Reduce(before, e) == Ok(Step(after, [Effect.CommitTerminal(t)]))
    ensures after.phase.CommittingResults?
    ensures var r := Reduce(after, TerminalCommitted);
            r.Ok? && r.value.effects == [] && r.value.state.phase == FinalPhase(t)
  {
  }

  /** What an error of the journal is told as. */
  function LossFact(error: RunError): Agent.Event {
    if error.StaleLease? then LeaseLost else JournalCommitUnknown
  }

  /** The journal could not take what it was given. */
  ghost predicate JournalLost(s: State, ending: Ending) {
    ending == Conclusion(s, LeaseLost, None) || ending == Conclusion(s, JournalCommitUnknown, None)
  }

  /** How a text or a piece of reasoning ends the run. */
  ghost predicate HandledEnd(s: State, event: ProviderEvent, ending: Ending, failed: bool)
    requires event.TextDelta? || event.ReasoningDelta?
  {
    if event.text == [] then ending == Abandoned(Told(s, ProviderReasoningDelta([])))
    else JournalLost(s, ending) && (failed || 0 in event.text)
  }

  function Fails(s: State, f: Failure): Ending {
    Conclusion(s, Agent.ProviderFailed(f))
  }

  /** How a report of usage ends the run, or that it goes on. */
  function UsageEnding(s: State, u: Usage, seen: bool, cap: Option<nat>, receipt: Receipt, audited: bool): Ending {
    if seen || Garbled(u) then Fails(s, ProviderInvalidResponse)
    else match receipt
      case Recorded => if WithinCap(u.output, cap) then Running else Fails(s, ProviderTokenBudgetExceeded)
      case BudgetExceeded => Fails(s, RunTokenBudgetExceeded)
      case CostBudgetExceeded => if audited then Fails(s, RunCostBudgetExceeded) else Conclusion(s, JournalCommitUnknown)
      case UsageRefused(error) => Conclusion(s, LossFact(error))
  }

  /** How an event that is no call and no interrupt ends the run, after what the sampling has gathered. */
  ghost predicate EventEnd(s: State, f: Facts, cap: Option<nat>, event: ProviderEvent, ending: Ending, failed: bool) {
    match event
    case TextDelta(_) => HandledEnd(s, event, ending, failed)
    case ReasoningDelta(_) => HandledEnd(s, event, ending, failed)
    case RemoteProjection(_) => JournalLost(s, ending) && failed
    case UsageReported(u) =>
      exists receipt, audited :: !ending.Running? && ending == UsageEnding(s, u, f.usage.Some?, cap, receipt, audited)
    case Completed =>
      ending == if f.text && Accountable(f, cap) then Conclusion(s, ProviderCompleted) else Fails(s, ProviderInvalidResponse)
    case Failing(x) => ending == Fails(s, StreamReason(x)) || (x.StreamStalled? && ending == Conclusion(s, JournalCommitUnknown))
    case _ => false
  }

  lemma {:induction false} ReportEnds(s: State, f: Facts, cap: Option<nat>, u: Usage, receipt: Receipt, audited: bool,
                                      ending: Ending, failed: bool)
    requires ending == UsageEnding(s, u, f.usage.Some?, cap, receipt, audited) && !ending.Running?
    ensures EventEnd(s, f, cap, UsageReported(u), ending, failed)
  {
  }

  /** How a wake that is no event ends the run. */
  ghost predicate WakeEnd(s: State, wake: Wake, ending: Ending, failed: bool) {
    match wake
    case Stop(source, audited) => ending == CancelEnding(s, source, audited)
    case Expired => ending == Conclusion(s, LeaseLost)
    case ChunkTimer => JournalLost(s, ending) && failed
    case StreamOver => ending == Fails(s, ProviderInvalidResponse)
    case StreamBroken(error) => ending == Fails(s, PortReason(error))
    case _ => false
  }

  /**
   * How a sampling is over, by its last wake and what it had gathered before: with its calls, with a
   * human to ask, or with the end of the run.
   */
  ghost predicate Closes(s: State, f: Facts, cap: Option<nat>, protocolRunId: string, wake: Wake, r: Sampled,
                         ending: Ending, failed: bool) {
    match wake
    case Next(ToolCallCompleted(index, call)) =>
      (HasCall(f.calls, call.callId) || index in f.calls) && r.Done? && ending == Fails(s, ProviderInvalidResponse)
    case Next(Interrupted(id)) =>
      if f.calls == map[] && id == protocolRunId && Accountable(f, cap) then r == AtHuman(id)
      else r.Done? && ending == Fails(s, ProviderInvalidResponse)
    case Next(Completed) =>
      if f.calls == map[] then r.Done? && EventEnd(s, f, cap, Completed, ending, failed)
      else if Accountable(f, cap) then r == Tools(InOrder(f.calls, U32_MAX + 1))
      else r.Done? && ending == Fails(s, ProviderInvalidResponse)
    case Next(event) => r.Done? && EventEnd(s, f, cap, event, ending, failed)
    case _ => r.Done? && WakeEnd(s, wake, ending, failed)
  }

  /** The same; the depth means nothing, and keeps the cases folded where a sampling is only passed on. */
  ghost predicate SampledBy(s: State, f: Facts, cap: Option<nat>, protocolRunId: string, wake: Wake, r: Sampled,
                            ending: Ending, failed: bool, depth: nat := 3)
    decreases depth
  {
    if depth > 0 then SampledBy(s, f, cap, protocolRunId, wake, r, ending, failed, depth - 1)
    else Closes(s, f, cap, protocolRunId, wake, r, ending, failed)
  }

  lemma {:induction false} SampledIs(s: State, f: Facts, cap: Option<nat>, protocolRunId: string, wake: Wake, r: Sampled,
                                     ending: Ending, failed: bool)
    ensures SampledBy(s, f, cap, protocolRunId, wake, r, ending, failed)
       <==> Closes(s, f, cap, protocolRunId, wake, r, ending, failed)
  {
    var closes := Closes(s, f, cap, protocolRunId, wake, r, ending, failed);
    assert SampledBy(s, f, cap, protocolRunId, wake, r, ending, failed, 0) == closes;
    assert SampledBy(s, f, cap, protocolRunId, wake, r, ending, failed, 1) == closes;
    assert SampledBy(s, f, cap, protocolRunId, wake, r, ending, failed, 2) == closes;
  }

  lemma {:induction false} EventCloses(s: State, f: Facts, cap: Option<nat>, protocolRunId: string, event: ProviderEvent,
                                       ending: Ending, failed: bool)
    requires EventEnd(s, f, cap, event, ending, failed) && (event.Completed? ==> f.calls == map[])
    ensures SampledBy(s, f, cap, protocolRunId, Next(event), Done, ending, failed)
  {
    SampledIs(s, f, cap, protocolRunId, Next(event), Done, ending, failed);
  }

  lemma {:induction false} WakeCloses(s: State, f: Facts, cap: Option<nat>, protocolRunId: string, wake: Wake,
                                      ending: Ending, failed: bool)
    requires WakeEnd(s, wake, ending, failed)
    ensures SampledBy(s, f, cap, protocolRunId, wake, Done, ending, failed)
  {
    SampledIs(s, f, cap, protocolRunId, wake, Done, ending, failed);
  }

  lemma {:induction false} CallCloses(s: State, f: Facts, cap: Option<nat>, protocolRunId: string, index: u32, call: ToolCall,
                                      ending: Ending, failed: bool)
    requires (HasCall(f.calls, call.callId) || index in f.calls) && ending == Fails(s, ProviderInvalidResponse)
    ensures SampledBy(s, f, cap, protocolRunId, Next(ToolCallCompleted(index, call)), Done, ending, failed)
  {
    SampledIs(s, f, cap, protocolRunId, Next(ToolCallCompleted(index, call)), Done, ending, failed);
  }

  /** The provider is done with calls outstanding, or asks for a human. */
  function Ends(f: Facts, cap: Option<nat>, protocolRunId: string, event: ProviderEvent): Sampled
    requires event.Completed? || event.Interrupted?
  {
    if !Accountable(f, cap) || (event.Interrupted? && (f.calls != map[] || event.protocolRunId != protocolRunId)) then Done
    else if event.Interrupted? then AtHuman(protocolRunId)
    else Tools(InOrder(f.calls, U32_MAX + 1))
  }

  lemma {:induction false} EndCloses(s: State, f: Facts, cap: Option<nat>, protocolRunId: string, event: ProviderEvent,
                                     ending: Ending, failed: bool)
    requires (event.Completed? && f.calls != map[]) || event.Interrupted?
    requires Ends(f, cap, protocolRunId, event).Done? ==> ending == Fails(s, ProviderInvalidResponse)
    ensures SampledBy(s, f, cap, protocolRunId, Next(event), Ends(f, cap, protocolRunId, event), ending, failed)
  {
    SampledIs(s, f, cap, protocolRunId, Next(event), Ends(f, cap, protocolRunId, event), ending, failed);
  }

  /** What a closed sampling may be passed on as. */
  lemma {:induction false} ClosedWith(s: State, f: Facts, cap: Option<nat>, protocolRunId: string, wake: Wake, r: Sampled,
                                      ending: Ending, failed: bool)
    requires SampledBy(s, f, cap, protocolRunId, wake, r, ending, failed)
    ensures if r.Done? then !ending.Halted? else Accountable(f, cap)
    ensures match r
            case Tools(calls) => wake == Next(Completed) && f.calls != map[] && calls == InOrder(f.calls, U32_MAX + 1)
            case AtHuman(id) => wake.Next? && wake.event.Interrupted?
            case Done => true
  {
    SampledIs(s, f, cap, protocolRunId, wake, r, ending, failed);
  }

  /** The last of these wakes ends the sampling, after what the others have gathered. */
  ghost predicate SampledAll(blank: Text -> bool, s: State, cap: Option<nat>, protocolRunId: string, wakes: seq<Wake>,
                             r: Sampled, ending: Ending, failed: bool)
    requires wakes != []
  {
    var f := Gathered(blank, cap, wakes[..|wakes| - 1]);
    f.Some? && SampledBy(s, f.value, cap, protocolRunId, wakes[|wakes| - 1], r, ending, failed)
  }

  lemma {:induction false} SampledLast(blank: Text -> bool, s: State, cap: Option<nat>, protocolRunId: string, wakes: seq<Wake>,
                                       f: Facts, r: Sampled, ending: Ending, failed: bool)
    requires wakes != [] && Gathered(blank, cap, wakes[..|wakes| - 1]) == Some(f)
    requires SampledBy(s, f, cap, protocolRunId, wakes[|wakes| - 1], r, ending, failed)
    ensures SampledAll(blank, s, cap, protocolRunId, wakes, r, ending, failed)
  {
  }

  /** What a human answer that does not resume the run is told as. */
  function ResumeFact(answer: Result<Resume, InterruptError>): Agent.Event {
    match answer
    case Err(StaleInterrupt) => LeaseLost
    case Err(InterruptUnknown) => JournalCommitUnknown
    case Err(CoordinatorUnavailable) => RemoteResumeFailed(ProviderUnavailable)
    case _ => RemoteResumeFailed(ProviderInvalidResponse)
  }

  ghost predicate ControlEnd(s: State, control: Control, audited: bool, ending: Ending) {
    match control
    case Proceed => false
    case Cancel(source) => ending == CancelEnding(s, source, audited)
    case LostLease => ending == Conclusion(s, LeaseLost)
  }

  ghost predicate HumanEnd(s: State, control: Control, answer: Result<Resume, InterruptError>, audited: bool, ending: Ending) {
    if control.Proceed? then ending == Conclusion(s, ResumeFact(answer)) else ControlEnd(s, control, audited, ending)
  }

  /** How a context that cannot be loaded, or is not admitted, ends the run. */
  ghost predicate LoadEnd(s: State, lease: Lease, b: Bindings, control: Control, answer: Result<Request, ContextError>,
                          audited: bool, ending: Ending) {
    if !control.Proceed? then ControlEnd(s, control, audited, ending)
    else if answer.Err? then ending == Conclusion(s, ContextFailed(ContextReason(answer.error)))
    else
      var bound := Bind(lease, b, answer.value);
      bound.Err? &&
      ending == Conclusion(s, if CostFailure(bound.error.failure) && !audited then JournalCommitUnknown
                              else ContextFailed(bound.error.failure))
  }

  ghost predicate StartEnd(s: State, control: Control, answer: Result<(), PortError>, audited: bool, ending: Ending) {
    if !control.Proceed? then ControlEnd(s, control, audited, ending)
    else answer.Err? && ending == Fails(s, PortReason(answer.error))
  }

  class Run {
    const config: Config
    const journal: DurableTextRun
    /** How often a loop is woken before the process stops. */
    const turns: nat
    var state: State
    ghost var invoked: seq<Invocation>
    ghost var recorded: map<nat, nat>
    ghost var replies: map<nat, string>
    ghost var usages: map<nat, nat>
    ghost var starts: seq<Start>
    /** What has happened to this run, and what the journal held before. */
    ghost var history: seq<Happening>
    ghost const base: seq<Item>
    ghost const origin: nat
    /** The last thing the world has said, and how much it has said. */
    ghost var news: News
    ghost var beats: nat
    ghost var ending: Ending

    constructor (config: Config, journal: DurableTextRun, turns: nat)
      requires journal.Valid() && journal.Synced() && NoneEnded(journal.store.log) && !journal.store.failed
      ensures this.config == config && this.journal == journal && this.turns == turns
      ensures base == journal.Account() && origin == |journal.store.log| && history == []
      ensures state == Initial() && invoked == [] && recorded == map[] && replies == map[] && usages == map[] && starts == []
      ensures Live() && Settled() && In(Queued)
    {
      this.config, this.journal, this.turns := config, journal, turns;
      base, origin := journal.Account(), |journal.store.log|;
      state, invoked, recorded, replies := Initial(), [], map[], map[];
      usages, starts, history, news, beats, ending := map[], [], [], Silence, 0, Running;
      new;
      assert base + [] == base;
      KeptIs();
    }

    /**
     * Unless an append has failed: the journal was given just what has happened, and then the terminal
     * if there is one; and each exchange answers an invocation.
     */
    ghost predicate Faithful()
      reads this`ending, this`history, this`recorded, journal, journal.store, journal.accumulator
      requires journal.Valid()
    {
      !journal.store.failed ==>
        var given := base + Meant(history);
        AllOwned(journal.store.log, origin, recorded) &&
        if ending.Attempted? then
          && HasEnded(journal.store.log, ending.terminal)
          && Items(journal.store.log) == journal.Account() == given + [Whole(Ended(ending.terminal))]
        else journal.Account() == given
    }

    /** The world's last word is why the reducer is told this; or the samplings are used up. */
    ghost predicate Justified(e: Agent.Event)
      reads this`news, this`starts
    {
      Explains(news, e) || (|starts| == SAMPLINGS && e == ContextFailed(ProviderInvalidResponse))
    }

    /** The run has ended for a reason the world gave, or because it waited for as long as it may. */
    ghost predicate Explained()
      reads this`ending, this`news, this`starts, this`beats
    {
      match ending
      case Running => true
      case Attempted(_, told, _) => Justified(told.fact)
      case Abandoned(told) => Justified(told.fact)
      case Halted => turns <= beats
    }

    /** What holds of the run and its journal at every moment. */
    ghost predicate Guarded()
      reads this`ending, this`invoked, this`recorded, this`replies, this`history, this`news, this`starts, this`beats,
            journal, journal.store, journal.accumulator
      requires journal.Valid()
    {
      SafeRun(journal.store.log, invoked, recorded, replies, ending) && Faithful() && Explained()
    }

    /** The same, folded. */
    ghost predicate GuardedTo(depth: nat)
      reads this`ending, this`invoked, this`recorded, this`replies, this`history, this`news, this`starts, this`beats,
            journal, journal.store, journal.accumulator
      requires journal.Valid()
      decreases depth
    {
      if depth > 0 then GuardedTo(depth - 1) else Guarded()
    }

    lemma GuardedIs()
      requires journal.Valid()
      ensures GuardedTo(3) <==> Guarded()
    {
      assert GuardedTo(2) == GuardedTo(1) == GuardedTo(0);
    }

    ghost predicate Safe()
      reads this`ending, this`invoked, this`recorded, this`replies, this`history, this`news, this`starts, this`beats,
            journal, journal.store, journal.accumulator
    {
      journal.Valid() && GuardedTo(3)
    }

    /** What holds of the journal while nothing has ended the run. */
    ghost predicate Kept()
      reads this`ending, this`invoked, this`recorded, this`replies, this`history, journal, journal.store, journal.accumulator
      requires journal.Valid()
    {
      && Faithful()
      && NoneEnded(journal.store.log) && Answered(journal.store.log, invoked, recorded, replies)
    }

    ghost predicate KeptTo(depth: nat)
      reads this`ending, this`invoked, this`recorded, this`replies, this`history, journal, journal.store, journal.accumulator
      requires journal.Valid()
      decreases depth
    {
      if depth > 0 then KeptTo(depth - 1) else Kept()
    }

    lemma KeptIs()
      requires journal.Valid()
      ensures KeptTo(3) <==> Kept()
    {
      assert KeptTo(2) == KeptTo(1) == KeptTo(0);
    }

    /** Nothing has ended the run yet. */
    ghost predicate Open()
      reads this`ending, this`invoked, this`recorded, this`replies, this`history, journal, journal.store, journal.accumulator
    {
      journal.Valid() && ending.Running? && KeptTo(3)
    }

    /** A run that nothing has ended yet is as it should be. */
    lemma OpenIsSafe()
      requires Open()
      ensures Safe()
    {
      KeptIs();
      GuardedIs();
      OpenStaysSafe(journal.store.log, invoked, recorded, replies, ending);
    }

    /** Still running, and no append is in doubt. */
    ghost predicate Live()
      reads this`ending, this`invoked, this`recorded, this`replies, this`history, journal, journal.store, journal.accumulator
    {
      Open() && journal.Synced() && !journal.store.failed
    }

    ghost predicate Settled()
      reads this
    {
      AllAnswered(invoked, recorded)
    }

    /** Everything given so far is in the journal. */
    ghost predicate Durable()
      reads this, journal, journal.store, journal.accumulator
      requires journal.Valid()
    {
      Items(journal.store.log) == base + Meant(history)
    }

    /** The run is over, and it is known why. */
    ghost predicate Over()
      reads this
    {
      ConcludedTo(ending, Settled())
    }

    ghost predicate In(p: Phase)
      reads this
    {
      state.phase == p
    }

    /** Where the history has brought the run. */
    ghost predicate At(c: Course)
      reads this
    {
      CourseOf(history) == c
    }

    /** The one terminal of this run. It is the last entry of the journal, unless an append has failed. */
    method CommitTerminal(t: Terminal, ghost told: Told, ghost refused: Option<ToolOutcome>)
      requires Open() && (t == Cancellation ==> Settled()) && t != Failure(ToolStepLimit)
      requires Justified(told.fact)
      modifies this`state, this`ending, journal, journal.store, journal.accumulator
      ensures Safe() && ending == Attempted(t, told, refused)
      ensures SemanticThen(old(journal.store.log), journal.store.log, Ended(t))
      ensures old(journal.store.failed) ==> journal.store.failed
      ensures state == old(state)
              || (HasEnded(journal.store.log, t) && Reduce(old(state), TerminalCommitted) == Ok(Step(state, [])))
      ensures !journal.store.failed && Reduce(old(state), TerminalCommitted).Ok? ==>
                Reduce(old(state), TerminalCommitted).value.state == state
    {
      var receipt := AttemptFinish(t, told, refused);
      if receipt.Ok? {
        var next := Reduce(state, TerminalCommitted);
        if next.Ok? {
          state := next.value.state;
        }
      }
    }

    method AttemptFinish(t: Terminal, ghost told: Told, ghost refused: Option<ToolOutcome>)
      returns (receipt: Result<nat, RunError>)
      requires Open() && (t == Cancellation ==> Settled()) && t != Failure(ToolStepLimit)
      requires Justified(told.fact)
      modifies this`ending, journal, journal.store, journal.accumulator
      ensures Safe() && ending == Attempted(t, told, refused)
      ensures SemanticThen(old(journal.store.log), journal.store.log, Ended(t))
      ensures old(journal.store.failed) ==> journal.store.failed
      ensures (receipt.Ok? ==> HasEnded(journal.store.log, t)) && (receipt.Err? ==> journal.store.failed)
    {
      ghost var before := journal.store.log;
      KeptIs();
      ending := Attempted(t, told, refused);
      receipt := journal.Finish(t);
      TerminalSafe(before, journal.store.log, t, invoked, recorded, replies, ending);
      if receipt.Ok? && !journal.store.failed {
        OwnedGrows(before, journal.store.log, Ended(t), origin, recorded);
      }
      GuardedIs();
    }

    /** The reducer has not gone along with this: the run ends where it stands. */
    ghost method Abandon(told: Told)
      requires Open() && Justified(told.fact)
      modifies this`ending
      ensures Safe() && ending == Abandoned(told)
    {
      KeptIs();
      OpenStaysSafe(journal.store.log, invoked, recorded, replies, Abandoned(told));
      ending := Abandoned(told);
      GuardedIs();
    }

    /** The process stops. */
    ghost method Halt()
      requires Open() && turns <= beats
      modifies this`ending
      ensures Safe() && Over() && ending.Halted?
    {
      KeptIs();
      OpenStaysSafe(journal.store.log, invoked, recorded, replies, Halted);
      ending := Halted;
      ConcludedIs(ending, Settled());
      GuardedIs();
    }

    /** A fact that ends the run. A fact the reducer refuses ends it without a terminal. */
    method DriveTerminal(e: Agent.Event, ghost refused: Option<ToolOutcome> := None)
      requires Open() && (e.ChildrenStopped? ==> Settled()) && Drivable(e) && Justified(e)
      modifies this`state, this`ending, journal, journal.store, journal.accumulator
      ensures Safe() && ending == Conclusion(old(state), e, refused)
      ensures ending.Attempted? ==> SemanticThen(old(journal.store.log), journal.store.log, Ended(ending.terminal))
      ensures ending.Attempted? ==>
                state.phase.CommittingResults?
                  || (state.phase == FinalPhase(ending.terminal) && HasEnded(journal.store.log, ending.terminal))
      ensures ending.Attempted? && !journal.store.failed ==> state.phase == FinalPhase(ending.terminal)
      ensures old(journal.store.failed) ==> journal.store.failed
      ensures ending.Abandoned? ==> journal.store.log == old(journal.store.log)
    {
      ghost var told := Told(state, e);
      ConclusionIs(state, e, refused);
      var next := Reduce(state, e);
      if next.Err? {
        Abandon(told);
        return;
      }
      ghost var before := state;
      state := next.value.state;
      var effects := next.value.effects;
      if |effects| != 1 || !effects[0].CommitTerminal? {
        Abandon(told);
        return;
      }
      assert effects == [Effect.CommitTerminal(effects[0].terminal)];
      VerdictOf(before, e, effects[0].terminal);
      Committed(before, e, state, effects[0].terminal);
      CommitTerminal(effects[0].terminal, told, refused);
    }

    /** The same for a fact that arises in its phase: the run is over, and it is known why. */
    method EndWith(e: Agent.Event, ghost refused: Option<ToolOutcome> := None)
      requires Open() && Timely(state.phase, e) && Candid(state.phase, e, refused, Settled())
      requires Justified(e)
      modifies this`state, this`ending, journal, journal.store, journal.accumulator
      ensures Safe() && Over() && ending == Conclusion(old(state), e, refused)
      ensures ending.Attempted? && !journal.store.failed ==> state.phase == FinalPhase(ending.terminal)
      ensures old(journal.store.failed) ==> journal.store.failed
    {
      TimelyConcludes(state, e, refused, Settled());
      ConcludedIs(Conclusion(state, e, refused), Settled());
      DriveTerminal(e, refused);
    }

    /** Accept a fact that asks for exactly this; anything else ends the run where it stands. */
    method Advance(e: Agent.Event, effects: seq<Effect>) returns (ok: bool)
      requires Open()
      requires Reduce(state, e).Err? || Reduce(state, e).value.effects != effects ==> Abandons(Told(state, e)) && Justified(e)
      modifies this`state, this`ending
      ensures Safe() && (ok ==> Open() && Reduce(old(state), e) == Ok(Step(state, effects)))
      ensures ok <==> Reduce(old(state), e).Ok? && Reduce(old(state), e).value.effects == effects
      ensures !ok ==> Over() && ending == Abandoned(Told(old(state), e))
    {
      var next := Reduce(state, e);
      ok := next.Ok? && next.value.effects == effects;
      OpenIsSafe();
      if !ok {
        Abandon(Told(state, e));
        ConcludedIs(ending, Settled());
      }
      if next.Ok? {
        state := next.value.state;
      }
    }

    /** The same for a fact that is never refused in its phase; the host looks all the same. */
    method Take(e: Agent.Event, effects: seq<Effect>)
      requires Open() && Reduce(state, e).Ok? && Reduce(state, e).value.effects == effects
      modifies this`state
      ensures Open() && Reduce(old(state), e) == Ok(Step(state, effects))
    {
      state := Reduce(state, e).value.state;
    }

    /** The world says something. */
    ghost method Hear(said: News)
      requires Live()
      modifies this`news, this`beats
      ensures Live() && news == said && beats == old(beats) + 1
    {
      news, beats := said, beats + 1;
    }

    /** Something has happened that the journal is owed nothing for. */
    ghost method Note(h: Happening)
      requires Live() && Worth(h) == []
      modifies this`history
      ensures Live() && history == old(history) + [h] && CourseOf(history) == After(CourseOf(old(history)), h)
    {
      KeptIs();
      MeantMore(base, history, h);
      CourseSnoc(history, h);
      history := history + [h];
      KeptIs();
    }

    /** Cancel a run whose children have stopped; nothing may be unanswered. */
    method CancelAndCommit(source: CancellationSource, audited: bool)
      requires Open() && Settled() && Cancellable(state.phase) && Interruptible(state.phase)
      requires Justified(StopFact(source, audited))
      modifies this`state, this`ending, journal, journal.store, journal.accumulator
      ensures Safe() && Over() && ending == CancelEnding(old(state), source, audited)
    {
      if source.Deadline? && !audited {
        EndWith(JournalCommitUnknown);
        return;
      }
      Take(CancelRequested, [CancelChildren]);
      EndWith(ChildrenStopped);
    }

    /** A tool was stopped mid-flight: whether it had an effect is not known. */
    method ToolInterrupted(source: CancellationSource)
      requires Open() && Interruptible(state.phase) && Justified(JournalCommitUnknown)
      modifies this`state, this`ending, journal, journal.store, journal.accumulator
      ensures Safe() && Over() && ending == Conclusion(old(state), JournalCommitUnknown)
    {
      var audited := *;
      if source.Deadline? && !audited {
        EndWith(JournalCommitUnknown);
        return;
      }
      EndWith(JournalCommitUnknown);
    }

    method JournalFailure(error: RunError)
      requires Open() && Interruptible(state.phase) && Justified(LossFact(error))
      modifies this`state, this`ending, journal, journal.store, journal.accumulator
      ensures Safe() && Over() && ending == Conclusion(old(state), LossFact(error))
      ensures old(journal.store.failed) ==> journal.store.failed
    {
      match error
      case StaleLease => EndWith(LeaseLost);
      case _ => EndWith(JournalCommitUnknown);
    }

    // -------------------------------------------------------------------------------------------
    // Tools
    // -------------------------------------------------------------------------------------------

    /** The reply of invocation `k` becomes durable, or the run ends; `valid` says whether it makes an exchange at all. */
    method AppendToolReply(call: ToolCall, content: string, valid: bool, ghost k: nat) returns (ok: bool)
      requires Live() && In(ExecutingTools) && k < |invoked| && invoked[k].call == call && k !in recorded
      requires k in replies && replies[k] == content
      modifies this`state, this`ending, this`recorded, this`history, this`news, this`beats,
               journal, journal.store, journal.accumulator
      ensures Safe() && (!ok ==> Over() && JournalLost(old(state), ending) && (valid ==> journal.store.failed))
      ensures ok ==> valid && Live() && Durable() && state == old(state) && recorded.Keys == old(recorded).Keys + {k}
      ensures history == old(history) + if valid then [Replied(Exchange(call, content))] else []
    {
      OpenIsSafe();
      Hear(Appending(valid));
      if !valid {
        JournalFailure(InvalidInput);
        return false;
      }
      var receipt := AppendExchange(Exchange(call, content), k);
      OpenIsSafe();
      if receipt.Err? {
        JournalFailure(receipt.error);
        return false;
      }
      return true;
    }

    /** The exchange goes to the journal; once it is known to be there, it answers invocation `k`. */
    method AppendExchange(exchange: Exchange, ghost k: nat) returns (receipt: Result<(), RunError>)
      requires Live() && k < |invoked| && invoked[k].call == exchange.call && k !in recorded
      requires k in replies && replies[k] == exchange.content
      modifies this`recorded, this`history, journal, journal.store, journal.accumulator
      ensures Open() && history == old(history) + [Replied(exchange)]
      ensures if receipt.Ok? then Live() && Durable() && recorded.Keys == old(recorded).Keys + {k}
              else journal.store.failed && recorded == old(recorded)
    {
      ghost var before := journal.store.log;
      KeptIs();
      MeantMore(base, history, Replied(exchange));
      history := history + [Replied(exchange)];
      var written := journal.AppendToolExchange(exchange);
      RecordOpen(before, journal.store.log, Exchanged(exchange));
      AnsweredGrows(before, journal.store.log, invoked, recorded, replies);
      if written.Err? {
        receipt := Err(written.error);
      } else {
        ExchangeIsNew(before, journal.store.log, invoked, recorded, replies, k);
        OwnedMore(before, journal.store.log, Exchanged(exchange), origin, recorded, k);
        recorded := recorded[k := |journal.store.log| - 1];
        receipt := Ok(());
      }
      KeptIs();
    }

    /** Wait for the budget of one call; the run ends if there is none, or if it is stopped meanwhile. */
    method AcquireSerial(answers: SerialAnswers) returns (ok: bool)
      requires Live() && Settled() && (In(ExecutingTools) || In(AwaitingHuman)) && news.Invoking? && news.answers == answers
      modifies this`state, this`ending, journal, journal.store, journal.accumulator
      ensures Safe() && (ok <==> answers.first.Proceed? && answers.budget) && (ok ==> Live() && state == old(state))
      ensures !ok ==>
                Over() && ending == match answers.first
                                    case Cancel(source) => CancelEnding(old(state), source, answers.audited)
                                    case LostLease => Conclusion(old(state), LeaseLost)
                                    case Proceed => Conclusion(old(state), ToolRuntimeUnavailable)
    {
      ok := false;
      OpenIsSafe();
      match answers.first
      case Proceed =>
        if answers.budget {
          return true;
        }
        EndWith(ToolRuntimeUnavailable);
      case Cancel(source) =>
        CancelAndCommit(source, answers.audited);
      case LostLease =>
        EndWith(LeaseLost);
    }

    /** A call that was stopped: a human one is cancelled, any other is in doubt. */
    method StopSerial(waitsForHuman: bool, control: Control, audited: bool)
      requires Open() && (if waitsForHuman then In(AwaitingHuman) && Settled() else In(ExecutingTools)) && !control.Proceed?
      requires Justified(if control.LostLease? then LeaseLost
                         else if waitsForHuman then StopFact(control.source, audited) else JournalCommitUnknown)
      modifies this`state, this`ending, journal, journal.store, journal.accumulator
      ensures Safe() && Over()
      ensures ending == if control.LostLease? then Conclusion(old(state), LeaseLost)
                        else if waitsForHuman then CancelEnding(old(state), control.source, audited)
                        else Conclusion(old(state), JournalCommitUnknown)
    {
      match control
      case Cancel(source) =>
        if waitsForHuman {
          CancelAndCommit(source, audited);
        } else {
          ToolInterrupted(source);
        }
      case LostLease =>
        EndWith(LeaseLost);
    }

    /** The result of a call; one that is no reply ends the run. */
    method TakeOutcome(outcome: ToolOutcome) returns (content: Option<string>)
      requires Live() && In(ExecutingTools)
      requires forall e :: OutcomeEnds(outcome, e) ==> Justified(e)
      modifies this`state, this`ending, journal, journal.store, journal.accumulator
      ensures Safe()
      ensures match outcome
              case Reply(text) => content == Some(text) && Live() && state == old(state)
              case ReconciliationRequired =>
                content.None? && Over() && ending == Conclusion(old(state), JournalCommitUnknown, Some(ReconciliationRequired))
              case ToolUnavailable =>
                content.None? && Over() && ending == Conclusion(old(state), ToolRuntimeUnavailable, Some(ToolUnavailable))
    {
      content := None;
      OpenIsSafe();
      match outcome
      case Reply(text) => content := Some(text);
      case ReconciliationRequired => EndWith(JournalCommitUnknown, Some(ReconciliationRequired));
      case ToolUnavailable => EndWith(ToolRuntimeUnavailable, Some(ToolUnavailable));
    }

    /** One call by itself, whatever the world answers. */
    method InvokeSerial(call: ToolCall, answers: SerialAnswers) returns (content: Option<string>, ghost k: nat)
      requires Live() && Settled() && In(ExecutingTools)
      modifies this`state, this`ending, this`invoked, this`replies, this`news, this`beats,
               journal, journal.store, journal.accumulator
      ensures Safe() && SeriallyEnded(old(state), config.human(call.name), answers, ending)
      ensures content.None? ==> Over()
      ensures content.Some? ==>
                && Live() && state == old(state) && k == |old(invoked)|
                && answers.outcome == Reply(content.value) && replies == old(replies)[k := content.value]
                && answers.first.Proceed? && answers.budget
      ensures invoked == old(invoked)
                         + if answers.first.Proceed? && answers.budget then [Invocation(call, config.human(call.name))] else []
      ensures Extends(old(replies), replies)
    {
      k := |invoked|;
      content := None;
      OpenIsSafe();
      var waitsForHuman := config.human(call.name);
      Hear(Invoking(waitsForHuman, answers));
      RequireHuman(waitsForHuman);
      var budget := AcquireSerial(answers);
      if budget {
        content := BeginSerial(call, waitsForHuman, answers);
      }
      SeriallyEndedIs(old(state), waitsForHuman, answers, ending);
    }

    /** What a human decides waits for one. */
    method RequireHuman(waitsForHuman: bool)
      requires Live() && (In(ExecutingTools) || In(Sampling))
      modifies this`state
      ensures Live() && state == if waitsForHuman then old(state).(phase := AwaitingHuman) else old(state)
    {
      if waitsForHuman {
        Take(HumanRequired, [Effect.AwaitHuman]);
      }
    }

    /** One more call has begun. */
    ghost method Begin(call: ToolCall, human: bool)
      requires Open()
      modifies this`invoked
      ensures Open() && invoked == old(invoked) + [Invocation(call, human)]
    {
      KeptIs();
      AnsweredMore(journal.store.log, invoked, invoked + [Invocation(call, human)], recorded, replies, replies);
      invoked := invoked + [Invocation(call, human)];
      KeptIs();
    }

    /** Invocation `k` has replied. */
    ghost method Hark(k: nat, content: string)
      requires Open() && k < |invoked| && k !in replies
      modifies this`replies
      ensures Open() && replies == old(replies)[k := content]
    {
      KeptIs();
      AnsweredMore(journal.store.log, invoked, invoked, recorded, replies, replies[k := content]);
      replies := replies[k := content];
      KeptIs();
    }

    /** Only calls that have begun can have replied, and only those that have replied are answered. */
    lemma RepliesBegun()
      requires Open()
      ensures (forall k :: k in replies ==> k < |invoked|) && (forall k :: k in recorded ==> k in replies)
    {
      KeptIs();
    }

    /** The call begins, and what it replies is its reply. */
    method BeginSerial(call: ToolCall, waitsForHuman: bool, answers: SerialAnswers) returns (content: Option<string>)
      requires news == Invoking(waitsForHuman, answers) && answers.first.Proceed? && answers.budget
      requires Live() && Settled() && (if waitsForHuman then In(AwaitingHuman) else In(ExecutingTools))
      modifies this`state, this`ending, this`invoked, this`replies, journal, journal.store, journal.accumulator
      ensures Safe() && ending == FinishedSerial(old(state), waitsForHuman, answers) && (content.None? ==> Over())
      ensures content.Some? ==>
                && Live() && state == old(state).(phase := ExecutingTools)
                && answers.outcome == Reply(content.value) && replies == old(replies)[|old(invoked)| := content.value]
      ensures invoked == old(invoked) + [Invocation(call, waitsForHuman)] && Extends(old(replies), replies)
    {
      ghost var k := |invoked|;
      RepliesBegun();
      Begin(call, waitsForHuman);
      OpenIsSafe();
      content := FinishSerial(waitsForHuman, answers);
      if content.Some? {
        Hark(k, content.value);
        OpenIsSafe();
      }
    }

    /** The call has begun: what becomes of it. */
    method FinishSerial(waitsForHuman: bool, answers: SerialAnswers) returns (content: Option<string>)
      requires news == Invoking(waitsForHuman, answers) && answers.first.Proceed? && answers.budget
      requires Live() && (if waitsForHuman then In(AwaitingHuman) && Settled() else In(ExecutingTools))
      modifies this`state, this`ending, journal, journal.store, journal.accumulator
      ensures Safe() && (content.None? ==> Over())
      ensures content.Some? ==>
                Live() && state == old(state).(phase := ExecutingTools) && answers.outcome == Reply(content.value)
      ensures ending == FinishedSerial(old(state), waitsForHuman, answers)
    {
      content := None;
      if !answers.second.Proceed? {
        StopSerial(waitsForHuman, answers.second, answers.audited);
        return;
      }
      if waitsForHuman {
        Take(HumanReleased, []);
      }
      content := TakeOutcome(answers.outcome);
    }

    /** These calls have been run: each invoked once, and answered with its reply, in order. */
    ghost predicate RanAll(calls: seq<ToolCall>, ids: seq<nat>, n: nat, before: seq<Happening>)
      reads this
    {
      && Ran(config.human, calls, ids, invoked, n) && history == before + Replies(calls, ids, replies)
      && forall p :: 0 <= p < |ids| ==> ids[p] in recorded && ids[p] in replies
    }

    method ExecuteSerial(call: ToolCall) returns (ok: bool)
      requires Live() && Settled() && In(ExecutingTools)
      modifies this`state, this`ending, this`invoked, this`recorded, this`replies, this`history, this`news, this`beats,
               journal, journal.store, journal.accumulator
      ensures Safe() && (!ok ==> Over()) && Extends(old(replies), replies) && old(invoked) <= invoked
      ensures Answering(old(history), history, [call])
      ensures ok ==>
                && Live() && Settled() && state == old(state) && Durable()
                && invoked == old(invoked) + [Invocation(call, config.human(call.name))]
                && |old(invoked)| in replies && recorded.Keys == old(recorded).Keys + {|old(invoked)|}
                && history == old(history) + [Replied(Exchange(call, replies[|old(invoked)|]))]
    {
      var answers: SerialAnswers, valid: bool := *, *;
      RepliesBegun();
      var content, k := InvokeSerial(call, answers);
      if content.None? {
        return false;
      }
      ok := AppendToolReply(call, content.value, valid, k);
      AnsweredOne(old(history), call, content.value);
    }

    /** Some of the waiting tasks get their budget and invoke their tool. */
    method StartSome(calls: seq<ToolCall>, tasks: seq<Task>, budgets: seq<bool>, ghost ids: seq<Option<nat>>, ghost n: nat)
      returns (after: seq<Task>, started: bool, ghost ids': seq<Option<nat>>)
      requires Open() && Started(calls, ids, invoked, n) && Tracks(tasks, ids) && Unreplied(tasks, ids, replies)
      modifies this`invoked
      ensures Open() && old(invoked) <= invoked && Started(calls, ids', invoked, n) && Tracks(after, ids')
      ensures Unreplied(after, ids', replies)
      ensures if started then |invoked| > |old(invoked)| else invoked == old(invoked)
      ensures forall p :: 0 <= p < |tasks| ==> (after[p].Joined? <==> tasks[p].Joined?) && (ids[p].Some? ==> ids'[p] == ids[p])
      ensures forall p :: 0 <= p < |tasks| && tasks[p].Waiting? ==> (ids'[p].Some? <==> p < |budgets| && budgets[p])
    {
      after, started, ids' := tasks, false, ids;
      for p := 0 to |tasks|
        invariant Open() && old(invoked) <= invoked && Started(calls, ids', invoked, n) && Tracks(after, ids')
        invariant Unreplied(after, ids', replies)
        invariant if started then |invoked| > |old(invoked)| else invoked == old(invoked)
        invariant |after| == |tasks|
        invariant forall q :: 0 <= q < |tasks| ==>
                  (after[q].Joined? <==> tasks[q].Joined?) && (ids[q].Some? ==> ids'[q] == ids[q])
        invariant forall q :: p <= q < |tasks| ==> after[q] == tasks[q] && ids'[q] == ids[q]
        invariant forall q :: 0 <= q < p && tasks[q].Waiting? ==> (ids'[q].Some? <==> q < |budgets| && budgets[q])
      {
        if after[p].Waiting? && p < |budgets| && budgets[p] {
          StartOne(calls, ids', invoked, n, p);
          RepliesBegun();
          ids' := ids'[p := Some(|invoked|)];
          Begin(calls[p], false);
          after := after[p := Working];
          started := true;
        }
      }
    }

    /** Stop what is still in flight; if nothing was ever invoked this is a clean cancellation. */
    method AbortWave(calls: seq<ToolCall>, tasks: seq<Task>, everStarted: bool, source: CancellationSource, audited: bool,
                     ghost ids: seq<Option<nat>>, ghost n: nat)
      requires Open() && In(ExecutingTools) && Started(calls, ids, invoked, n) && Tracks(tasks, ids)
      requires Unreplied(tasks, ids, replies)
      requires Justified(JournalCommitUnknown) && Justified(StopFact(source, audited))
      requires n <= |invoked| && AllAnswered(invoked[..n], recorded) && (!everStarted ==> |invoked| == n)
      modifies this`state, this`ending, this`invoked, journal, journal.store, journal.accumulator
      ensures Safe() && old(invoked) <= invoked && Over()
      ensures ending == if everStarted || invoked != old(invoked) then Conclusion(old(state), JournalCommitUnknown)
                        else CancelEnding(old(state), source, audited)
    {
      var budgets: seq<bool> := *;
      var _, late, _ := StartSome(calls, tasks, budgets, ids, n);
      if everStarted || late {
        ToolInterrupted(source);
      } else {
        assert invoked == invoked[..n];
        CancelAndCommit(source, audited);
      }
    }

    /** Stop what is still in flight after losing the lease or a task; never a clean cancellation. */
    method FailWave(calls: seq<ToolCall>, tasks: seq<Task>, e: Agent.Event, ghost ids: seq<Option<nat>>, ghost n: nat)
      requires Open() && In(ExecutingTools) && Started(calls, ids, invoked, n) && Tracks(tasks, ids)
      requires Unreplied(tasks, ids, replies) && (e.LeaseLost? || e.JournalCommitUnknown?) && Justified(e)
      modifies this`state, this`ending, this`invoked, journal, journal.store, journal.accumulator
      ensures Safe() && old(invoked) <= invoked && Over() && ending == Conclusion(old(state), e)
    {
      var budgets: seq<bool> := *;
      var _, _, _ := StartSome(calls, tasks, budgets, ids, n);
      EndWith(e);
    }

    /** One finished task; a task that never got its budget has no other result than that. */
    method JoinOne(calls: seq<ToolCall>, tasks: seq<Task>, outputs: seq<Option<Output>>, p: nat, outcome: ToolOutcome,
                   ghost ids: seq<Option<nat>>, ghost n: nat)
      returns (tasks': seq<Task>, outputs': seq<Option<Output>>)
      requires Open() && Started(calls, ids, invoked, n) && Tracks(tasks, ids) && Unreplied(tasks, ids, replies)
      requires Collected(calls, tasks, ids, outputs, replies) && p < |tasks| && !tasks[p].Joined?
      modifies this`replies
      ensures Open() && Extends(old(replies), replies) && Tracks(tasks', ids) && Unreplied(tasks', ids, replies)
      ensures Collected(calls, tasks', ids, outputs', replies)
      ensures tasks' == tasks[p := Joined]
      ensures outputs' == outputs[p := Some(Output(calls[p], if tasks[p].Waiting? then ToolUnavailable else outcome))]
      ensures replies == if tasks[p].Working? && outcome.Reply? then old(replies)[ids[p].value := outcome.content]
                         else old(replies)
    {
      tasks' := tasks[p := Joined];
      outputs' := outputs[p := Some(Output(calls[p], if tasks[p].Waiting? then ToolUnavailable else outcome))];
      if tasks[p].Working? && outcome.Reply? {
        JoinReplied(calls, tasks, ids, outputs, invoked, n, replies, p, outcome.content);
        Hark(ids[p].value, outcome.content);
      }
    }

    /** One turn of the wait for a wave: some tasks begin, and then one thing happens. */
    method WaveTurn(calls: seq<ToolCall>, tasks: seq<Task>, slots: seq<Option<Output>>, everStarted: bool,
                    ghost ids: seq<Option<nat>>, ghost n: nat)
      returns (on: bool, tasks': seq<Task>, slots': seq<Option<Output>>, ever: bool, ghost ids': seq<Option<nat>>)
      requires Live() && In(ExecutingTools)
      requires Started(calls, ids, invoked, n) && Tracks(tasks, ids) && Unreplied(tasks, ids, replies)
      requires Collected(calls, tasks, ids, slots, replies)
      requires n <= |invoked| && AllAnswered(invoked[..n], recorded) && (!everStarted ==> |invoked| == n)
      modifies this`state, this`ending, this`invoked, this`replies, this`news, this`beats,
               journal, journal.store, journal.accumulator
      ensures Safe() && old(invoked) <= invoked && Extends(old(replies), replies) && (!on ==> Over())
      ensures beats == old(beats) + 1
      ensures on ==>
                && Live() && state == old(state) && Started(calls, ids', invoked, n) && Tracks(tasks', ids')
                && Unreplied(tasks', ids', replies)
                && Collected(calls, tasks', ids', slots', replies) && (!ever ==> |invoked| == n)
    {
      var started, budgets: seq<bool> := false, *;
      on, slots' := false, slots;
      tasks', started, ids' := StartSome(calls, tasks, budgets, ids, n);
      ever := everStarted || started;
      assert invoked[..n] == old(invoked)[..n];
      OpenIsSafe();
      var control: Control, panicked: bool, audited: bool := *, *, *;
      on := AttendWave(calls, tasks', ever, control, panicked, audited, ids', n);
      if on {
        var p: nat, outcome: ToolOutcome := *, *;
        if p < |tasks'| && !tasks'[p].Joined? {
          tasks', slots' := JoinOne(calls, tasks', slots', p, outcome, ids', n);
        }
        OpenIsSafe();
      }
    }

    /** While a wave is in flight the run may be cancelled, may lose its lease, or a task may panic. */
    method AttendWave(calls: seq<ToolCall>, tasks: seq<Task>, ever: bool, control: Control, panicked: bool, audited: bool,
                      ghost ids: seq<Option<nat>>, ghost n: nat) returns (on: bool)
      requires Live() && In(ExecutingTools)
      requires Started(calls, ids, invoked, n) && Tracks(tasks, ids) && Unreplied(tasks, ids, replies)
      requires n <= |invoked| && AllAnswered(invoked[..n], recorded) && (!ever ==> |invoked| == n)
      modifies this`state, this`ending, this`invoked, this`news, this`beats, journal, journal.store, journal.accumulator
      ensures Safe() && old(invoked) <= invoked && (!on ==> Over()) && beats == old(beats) + 1
      ensures (on <==> control.Proceed? && !panicked) && (on ==> Live() && state == old(state) && invoked == old(invoked))
    {
      Hear(Turning(control, panicked, audited));
      on := false;
      match control
      case Cancel(source) =>
        AbortWave(calls, tasks, ever, source, audited, ids, n);
      case LostLease =>
        FailWave(calls, tasks, LeaseLost, ids, n);
      case Proceed =>
        if panicked {
          FailWave(calls, tasks, JournalCommitUnknown, ids, n);
        } else {
          OpenIsSafe();
          on := true;
        }
    }

    /** Calls that may overlap. */
    method InvokeParallel(calls: seq<ToolCall>) returns (outputs: Option<seq<Output>>, ghost ids: seq<Option<nat>>)
      requires Live() && Settled() && In(ExecutingTools)
      modifies this`state, this`ending, this`invoked, this`replies, this`news, this`beats,
               journal, journal.store, journal.accumulator
      ensures Safe() && old(invoked) <= invoked && Extends(old(replies), replies) && (outputs.None? ==> Over())
      ensures outputs.Some? ==>
                && Live() && state == old(state) && Started(calls, ids, invoked, |old(invoked)|) && |outputs.value| == |calls|
                && forall p :: 0 <= p < |calls| ==>
                     outputs.value[p].call == calls[p] && TrueReply(outputs.value[p].outcome, ids[p], replies)
    {
      outputs := None;
      var joined, slots;
      joined, slots, ids := AwaitWave(calls);
      if !joined {
        return;
      }
      var late: Control := *;
      Hear(Turning(late, false, true));
      if late.Cancel? {
        ToolInterrupted(late.source);
        return;
      }
      OpenIsSafe();
      outputs := Some(seq(|slots|, p requires 0 <= p < |slots| && slots[p].Some? => slots[p].value));
    }

    /** Wait until every task of the wave has been joined, or the run is over. */
    method AwaitWave(calls: seq<ToolCall>) returns (joined: bool, slots: seq<Option<Output>>, ghost ids: seq<Option<nat>>)
      requires Live() && Settled() && In(ExecutingTools)
      modifies this`state, this`ending, this`invoked, this`replies, this`news, this`beats,
               journal, journal.store, journal.accumulator
      ensures Safe() && old(invoked) <= invoked && Extends(old(replies), replies) && (!joined ==> Over())
      ensures joined ==>
                && Live() && state == old(state) && Started(calls, ids, invoked, |old(invoked)|) && |slots| == |calls|
                && forall p :: 0 <= p < |calls| ==>
                     slots[p].Some? && slots[p].value.call == calls[p] && TrueReply(slots[p].value.outcome, ids[p], replies)
    {
      ghost var n := |invoked|;
      assert invoked[..n] == invoked;
      var tasks: seq<Task> := seq(|calls|, _ => Waiting);
      slots := seq(|calls|, _ => None);
      var everStarted, left := false, turns;
      ids := seq(|calls|, _ => None);
      joined := false;
      while !AllJoined(tasks)
        invariant Live() && state == old(state) && old(invoked) <= invoked && recorded == old(recorded)
        invariant Extends(old(replies), replies)
        invariant Started(calls, ids, invoked, n) && Tracks(tasks, ids) && Unreplied(tasks, ids, replies)
        invariant Collected(calls, tasks, ids, slots, replies)
        invariant (!everStarted ==> |invoked| == n) && 0 <= left <= turns && turns - left <= beats
        decreases left
      {
        OpenIsSafe();
        if left == 0 {
          Halt();
          return;
        }
        left := left - 1;
        var on;
        on, tasks, slots, everStarted, ids := WaveTurn(calls, tasks, slots, everStarted, ids, n);
        if !on {
          return;
        }
      }
      OpenIsSafe();
      joined := true;
    }

    /** One result of a parallel wave; a result that is no reply ends the run. */
    method AnswerOne(output: Output, valid: bool, ghost id: Option<nat>) returns (ok: bool)
      requires Live() && In(ExecutingTools) && TrueReply(output.outcome, id, replies)
      requires id.Some? ==> id.value < |invoked| && invoked[id.value].call == output.call && id.value !in recorded
      modifies this`state, this`ending, this`recorded, this`history, this`news, this`beats,
               journal, journal.store, journal.accumulator
      ensures Safe() && (!ok ==> Over()) && Answering(old(history), history, [output.call])
      ensures ok ==>
                && Live() && Durable() && state == old(state) && id.Some? && recorded.Keys == old(recorded).Keys + {id.value}
                && output.outcome.Reply? && history == old(history) + [Replied(Exchange(output.call, output.outcome.content))]
      ensures output.outcome.ToolUnavailable? ==>
                ending == Conclusion(old(state), ToolRuntimeUnavailable, Some(ToolUnavailable)) && recorded == old(recorded)
    {
      Hear(Resulting(output.outcome));
      var content := TakeOutcome(output.outcome);
      if content.None? {
        return false;
      }
      ok := AppendToolReply(output.call, content.value, valid, id.value);
      AnsweredOne(old(history), output.call, content.value);
    }

    /** The first `p` calls of a wave have been answered. */
    ghost predicate AnsweredUpTo(calls: seq<ToolCall>, ids: seq<Option<nat>>, p: nat, order: seq<nat>, before: seq<Happening>)
      reads this
    {
      && p <= |calls| == |ids| && |order| == p
      && (forall q :: 0 <= q < p ==> ids[q] == Some(order[q]) && order[q] in recorded && order[q] in replies)
      && (forall q :: p <= q < |calls| && ids[q].Some? ==> ids[q].value !in recorded)
      && history == before + Replies(calls[..p], order, replies)
    }

    /** Answer the results of a parallel wave in the order of its calls. */
    method AnswerAll(calls: seq<ToolCall>, outputs: seq<Output>, ghost ids: seq<Option<nat>>, ghost n: nat)
      returns (ok: bool, ghost order: seq<nat>)
      requires Live() && In(ExecutingTools) && calls != [] && |outputs| == |calls| && Started(calls, ids, invoked, n)
      requires forall p :: 0 <= p < |calls| ==> outputs[p].call == calls[p] && TrueReply(outputs[p].outcome, ids[p], replies)
      requires forall p :: 0 <= p < |calls| && ids[p].Some? ==> ids[p].value !in recorded
      modifies this`state, this`ending, this`recorded, this`history, this`news, this`beats,
               journal, journal.store, journal.accumulator
      ensures Safe() && (!ok ==> Over()) && Answering(old(history), history, calls)
      ensures ok ==> Live() && Durable() && state == old(state) && AnsweredUpTo(calls, ids, |calls|, order, old(history))
      ensures ok ==> forall k :: k in old(recorded) ==> k in recorded
    {
      OpenIsSafe();
      order := [];
      assert history == old(history) + Replies(calls[..0], order, replies);
      for p := 0 to |calls|
        invariant Live() && Safe() && state == old(state) && (p > 0 ==> Durable())
        invariant forall k :: k in old(recorded) ==> k in recorded
        invariant AnsweredUpTo(calls, ids, p, order, old(history)) && Answering(old(history), history, calls)
      {
        var answered;
        answered, order := AnswerNext(calls, outputs[p], ids, n, p, order, old(history));
        if !answered {
          return false, [];
        }
      }
      return true, order;
    }

    /** Answer the next result, after those before it have been answered. */
    method AnswerNext(calls: seq<ToolCall>, output: Output, ghost ids: seq<Option<nat>>, ghost n: nat, ghost p: nat,
                      ghost order: seq<nat>, ghost before: seq<Happening>)
      returns (ok: bool, ghost order': seq<nat>)
      requires Live() && In(ExecutingTools) && Started(calls, ids, invoked, n) && p < |calls|
      requires output.call == calls[p] && TrueReply(output.outcome, ids[p], replies)
      requires AnsweredUpTo(calls, ids, p, order, before)
      modifies this`state, this`ending, this`recorded, this`history, this`news, this`beats,
               journal, journal.store, journal.accumulator
      ensures Safe() && (!ok ==> Over()) && Answering(before, history, calls)
      ensures ok ==> Live() && Durable() && state == old(state) && AnsweredUpTo(calls, ids, p + 1, order', before)
      ensures ok ==> forall k :: k in old(recorded) ==> k in recorded
    {
      var valid := *;
      ok := AnswerOne(output, valid, ids[p]);
      OneMoreAnswered(calls, p, order, replies, before, old(history), history);
      order' := order;
      if ok {
        StartedOnce(calls, ids, invoked, n, p);
        NextReply(calls, p, order, ids[p].value, replies);
        Associative(before, Replies(calls[..p], order, replies), [Replied(Exchange(calls[p], replies[ids[p].value]))]);
        order' := order + [ids[p].value];
      }
    }

    method ExecuteParallel(calls: seq<ToolCall>) returns (ok: bool, ghost order: seq<nat>)
      requires Live() && Settled() && In(ExecutingTools) && calls != []
      requires forall p :: 0 <= p < |calls| ==> !config.human(calls[p].name)
      modifies this`state, this`ending, this`invoked, this`recorded, this`replies, this`history, this`news, this`beats,
               journal, journal.store, journal.accumulator
      ensures Safe() && (!ok ==> Over()) && Extends(old(replies), replies) && old(invoked) <= invoked
      ensures Answering(old(history), history, calls)
      ensures ok ==> Live() && Settled() && state == old(state) && Durable() && RanAll(calls, order, |old(invoked)|, old(history))
      ensures ok ==> forall k :: k in old(recorded) ==> k in recorded
    {
      RepliesBegun();
      var outputs, ids := InvokeParallel(calls);
      if outputs.None? {
        return false, [];
      }
      ok, order := AnswerAll(calls, outputs.value, ids, |old(invoked)|);
      if ok {
        assert calls[..|calls|] == calls;
        WaveSettled(calls, ids, old(invoked), invoked, old(recorded), recorded);
        WaveRan(config.human, calls, ids, order, invoked, |old(invoked)|);
      }
    }

    method ExecuteWave(calls: seq<ToolCall>, parallel: bool) returns (ok: bool, ghost order: seq<nat>)
      requires Live() && Settled() && In(ExecutingTools) && calls != []
      requires parallel ==> forall p :: 0 <= p < |calls| ==> !config.human(calls[p].name)
      modifies this`state, this`ending, this`invoked, this`recorded, this`replies, this`history, this`news, this`beats,
               journal, journal.store, journal.accumulator
      ensures Safe() && (!ok ==> Over()) && Extends(old(replies), replies) && old(invoked) <= invoked
      ensures Answering(old(history), history, calls)
      ensures ok ==> Live() && Settled() && state == old(state) && Durable() && RanAll(calls, order, |old(invoked)|, old(history))
      ensures ok ==> forall k :: k in old(recorded) ==> k in recorded
    {
      if parallel && |calls| > 1 {
        ok, order := ExecuteParallel(calls);
      } else {
        ok, order := ExecuteSerially(calls);
      }
    }

    /** One call after the other. */
    method ExecuteSerially(calls: seq<ToolCall>) returns (ok: bool, ghost order: seq<nat>)
      requires Live() && Settled() && In(ExecutingTools) && calls != []
      modifies this`state, this`ending, this`invoked, this`recorded, this`replies, this`history, this`news, this`beats,
               journal, journal.store, journal.accumulator
      ensures Safe() && (!ok ==> Over()) && Extends(old(replies), replies) && old(invoked) <= invoked
      ensures Answering(old(history), history, calls)
      ensures ok ==> Live() && Settled() && state == old(state) && Durable() && RanAll(calls, order, |old(invoked)|, old(history))
      ensures ok ==> forall k :: k in old(recorded) ==> k in recorded
    {
      OpenIsSafe();
      order := [];
      assert history == old(history) + Replies(calls[..0], order, replies);
      for i := 0 to |calls|
        invariant Live() && Safe() && Settled() && state == old(state) && (i > 0 ==> Durable())
        invariant Extends(old(replies), replies) && old(invoked) <= invoked
        invariant RanAll(calls[..i], order, |old(invoked)|, old(history))
        invariant forall k :: k in old(recorded) ==> k in recorded
      {
        var answered;
        answered, order := ExecuteNext(calls, i, order, |old(invoked)|, old(history));
        if !answered {
          return false, [];
        }
      }
      assert calls[..|calls|] == calls;
      return true, order;
    }

    /** The next call, after those before it have been run. */
    method ExecuteNext(calls: seq<ToolCall>, i: nat, ghost order: seq<nat>, ghost n: nat, ghost before: seq<Happening>)
      returns (ok: bool, ghost order': seq<nat>)
      requires Live() && Settled() && In(ExecutingTools) && i < |calls| && RanAll(calls[..i], order, n, before)
      modifies this`state, this`ending, this`invoked, this`recorded, this`replies, this`history, this`news, this`beats,
               journal, journal.store, journal.accumulator
      ensures Safe() && (!ok ==> Over()) && Extends(old(replies), replies) && old(invoked) <= invoked
      ensures Answering(before, history, calls)
      ensures ok ==> Live() && Settled() && state == old(state) && Durable() && RanAll(calls[..i + 1], order', n, before)
      ensures ok ==> forall k :: k in old(recorded) ==> k in recorded
    {
      ok := ExecuteSerial(calls[i]);
      OneMoreAnswered(calls, i, order, old(replies), before, old(history), history);
      order' := order + [|old(invoked)|];
      if ok {
        assert calls[..i + 1] == calls[..i] + [calls[i]];
        RanOne(config.human, calls[i], old(invoked), replies);
        RanMore(calls[..i], [calls[i]], order, [|old(invoked)|], n, old(invoked), old(replies), before, old(history));
      }
    }

    /** What was run first, and what was run after it, has been run. */
    lemma RanMore(first: seq<ToolCall>, rest: seq<ToolCall>, x: seq<nat>, y: seq<nat>, n: nat, begun: seq<Invocation>,
                  replied: map<nat, string>, before: seq<Happening>, middle: seq<Happening>)
      requires Ran(config.human, first, x, begun, n) && middle == before + Replies(first, x, replied)
      requires forall p :: 0 <= p < |x| ==> x[p] in recorded && x[p] in replied
      requires RanAll(rest, y, |begun|, middle) && begun <= invoked && Extends(replied, replies)
      ensures RanAll(first + rest, x + y, n, before)
    {
      RanJoin(config.human, first, rest, x, y, begun, invoked, n);
      RepliesJoin(first, rest, x, y, replied, replies);
      Associative(before, Replies(first, x, replied), Replies(rest, y, replies));
    }

    /** All the calls of one sampling, wave by wave: each invoked once and answered with its reply, in their order. */
    method ExecuteTools(calls: seq<ToolCall>) returns (ok: bool, ghost order: seq<nat>)
      requires Live() && Settled() && In(ExecutingTools)
      modifies this`state, this`ending, this`invoked, this`recorded, this`replies, this`history, this`news, this`beats,
               journal, journal.store, journal.accumulator
      ensures Safe() && (!ok ==> Over()) && Extends(old(replies), replies) && old(invoked) <= invoked
      ensures Answering(old(history), history, calls)
      ensures ok ==> Live() && Settled() && state == old(state) && RanAll(calls, order, |old(invoked)|, old(history))
      ensures ok && calls != [] ==> Durable()
    {
      OpenIsSafe();
      var scheduled := seq(|calls|, i requires 0 <= i < |calls| =>
        Scheduling.Call(i, config.human(calls[i].name), config.scheduling(calls[i].name)));
      var waves := Scheduling.ScheduleToolWaves(scheduled);
      assert Members(calls, scheduled) == calls;
      ok, order := ExecuteWaves(calls, scheduled, waves);
    }

    /** The waves one after the other. */
    method ExecuteWaves(calls: seq<ToolCall>, ghost scheduled: seq<Scheduling.Call>, waves: seq<Scheduling.Wave>)
      returns (ok: bool, ghost order: seq<nat>)
      requires Live() && Settled() && In(ExecutingTools) && Schedules(config, calls, scheduled)
      requires Scheduling.Flatten(waves) == scheduled && Scheduling.WellFormedAll(waves) && Members(calls, scheduled) == calls
      modifies this`state, this`ending, this`invoked, this`recorded, this`replies, this`history, this`news, this`beats,
               journal, journal.store, journal.accumulator
      ensures Safe() && (!ok ==> Over()) && Extends(old(replies), replies) && old(invoked) <= invoked
      ensures Answering(old(history), history, calls)
      ensures ok ==> Live() && Settled() && state == old(state) && RanAll(calls, order, |old(invoked)|, old(history))
      ensures ok && calls != [] ==> Durable()
    {
      OpenIsSafe();
      order := [];
      ghost var done: seq<Scheduling.Call> := [];
      assert Members(calls, done) == [] && history == old(history) + Replies([], order, replies);
      for w := 0 to |waves|
        invariant Live() && Safe() && Settled() && state == old(state) && (w > 0 ==> Durable())
        invariant Extends(old(replies), replies) && old(invoked) <= invoked
        invariant done == Scheduling.Flatten(waves[..w]) && InBatch(calls, done)
        invariant RanAll(Members(calls, done), order, |old(invoked)|, old(history))
      {
        WaveIsReady(config, calls, scheduled, waves, w);
        DoneWave(calls, scheduled, waves, w, done);
        var executed;
        executed, order := ExecuteNextWave(calls, waves[w], done, order, |old(invoked)|, old(history));
        if !executed {
          return false, [];
        }
        done := done + waves[w].calls;
      }
      assert waves[..|waves|] == waves;
      RepliesAnswer(old(history), calls, order, replies);
      return true, order;
    }

    /** The next wave, after those before it have been run. */
    method ExecuteNextWave(calls: seq<ToolCall>, wave: Scheduling.Wave, ghost done: seq<Scheduling.Call>, ghost order: seq<nat>,
                           ghost n: nat, ghost before: seq<Happening>)
      returns (ok: bool, ghost order': seq<nat>)
      requires Live() && Settled() && In(ExecutingTools) && Follows(calls, done, wave) && Ready(config, calls, wave)
      requires RanAll(Members(calls, done), order, n, before)
      modifies this`state, this`ending, this`invoked, this`recorded, this`replies, this`history, this`news, this`beats,
               journal, journal.store, journal.accumulator
      ensures Safe() && (!ok ==> Over()) && Extends(old(replies), replies) && old(invoked) <= invoked
      ensures Answering(before, history, calls)
      ensures ok ==> Live() && Settled() && state == old(state) && Durable()
      ensures ok ==> InBatch(calls, done + wave.calls) && RanAll(Members(calls, done + wave.calls), order', n, before)
    {
      ghost var first, next := Members(calls, done), Members(calls, wave.calls);
      ghost var ids;
      ok, ids := ExecuteWave(Members(calls, wave.calls), wave.parallel);
      AnsweredThen(calls, first, next, order, old(replies), before, old(history), history);
      order' := order + ids;
      if ok {
        RanMore(first, next, order, ids, n, old(invoked), old(replies), before, old(history));
      }
    }

    // -------------------------------------------------------------------------------------------
    // Sampling
    // -------------------------------------------------------------------------------------------

    /** Text; an empty one is passed over. */
    method HandleText(text: Utf8Text) returns (over: bool)
      requires Live() && Settled() && In(Sampling) && news == Waking(Next(TextDelta(text)))
      modifies this`state, this`ending, this`history, journal, journal.store, journal.accumulator
      ensures Safe() && history == old(history) + [Woke(Next(TextDelta(text)))]
      ensures over ==> Over() && HandledEnd(old(state), TextDelta(text), ending, journal.store.failed)
      ensures !over ==> Live() && state == old(state) && 0 !in text
    {
      if text == [] {
        Note(Woke(Next(TextDelta(text))));
        OpenIsSafe();
        return false;
      }
      over := HandleDelta(TextDelta(text));
    }

    /** Text and reasoning, in the phase and with the effect the reducer allows. */
    method HandleDelta(event: ProviderEvent) returns (over: bool)
      requires Live() && Settled() && In(Sampling) && news == Waking(Next(event))
      requires (event.TextDelta? && event.text != []) || event.ReasoningDelta?
      modifies this`state, this`ending, this`history, journal, journal.store, journal.accumulator
      ensures Safe() && history == old(history) + [Woke(Next(event))]
      ensures over ==> Over() && HandledEnd(old(state), event, ending, journal.store.failed)
      ensures !over ==> Live() && state == old(state) && event.text != [] && 0 !in event.text
    {
      var e := if event.TextDelta? then ProviderTextDelta(event.text) else ProviderReasoningDelta(event.text);
      var effect := if event.TextDelta? then PersistText(event.text) else PersistReasoning(event.text);
      if event.text == [] {
        Note(Woke(Next(event)));
      }
      var accepted := Advance(e, [effect]);
      if !accepted {
        return true;
      }
      over := PushDelta(event);
    }

    /** The text goes to the journal. */
    method PushDelta(event: ProviderEvent) returns (over: bool)
      requires Live() && Settled() && In(Sampling) && news == Waking(Next(event))
      requires (event.TextDelta? || event.ReasoningDelta?) && event.text != []
      modifies this`state, this`ending, this`history, journal, journal.store, journal.accumulator
      ensures Safe() && history == old(history) + [Woke(Next(event))]
      ensures over ==> Over() && JournalLost(old(state), ending) && (journal.store.failed || 0 in event.text)
      ensures !over ==> Live() && state == old(state) && 0 !in event.text
    {
      var r := WriteDelta(event);
      OpenIsSafe();
      if r.Err? {
        JournalFailure(r.error);
        return true;
      }
      return false;
    }

    method WriteDelta(event: ProviderEvent) returns (r: Result<(), RunError>)
      requires Live() && (event.TextDelta? || event.ReasoningDelta?)
      modifies this`history, journal, journal.store, journal.accumulator
      ensures Open() && history == old(history) + [Woke(Next(event))]
      ensures if r.Ok? then Live() && 0 !in event.text else journal.store.failed || 0 in event.text
    {
      ghost var before := journal.store.log;
      KeptIs();
      MeantMore(base, history, Woke(Next(event)));
      history := history + [Woke(Next(event))];
      var now: nat := *;
      if event.TextDelta? {
        r := journal.Push(event.text, now);
      } else {
        r := journal.PushReasoning(event.text, now);
      }
      SemanticOpen(before, journal.store.log);
      AnsweredGrows(before, journal.store.log, invoked, recorded, replies);
      if !journal.store.failed {
        OwnedGrows(before, journal.store.log, Ended(Cancellation), origin, recorded);
      }
      KeptIs();
    }

    method HandleProjection(projection: Value) returns (over: bool)
      requires Live() && Settled() && In(Sampling) && news == Waking(Next(RemoteProjection(projection)))
      modifies this`state, this`ending, this`history, journal, journal.store, journal.accumulator
      ensures Safe() && history == old(history) + [Woke(Next(RemoteProjection(projection)))]
      ensures over ==> Over() && JournalLost(old(state), ending) && journal.store.failed
      ensures !over ==> Live() && state == old(state)
    {
      ghost var before := journal.store.log;
      KeptIs();
      MeantMore(base, history, Woke(Next(RemoteProjection(projection))));
      history := history + [Woke(Next(RemoteProjection(projection)))];
      var receipt := journal.AppendRemoteProjection(projection);
      RecordOpen(before, journal.store.log, Projected(projection));
      AnsweredGrows(before, journal.store.log, invoked, recorded, replies);
      if !journal.store.failed {
        OwnedGrows(before, journal.store.log, Projected(projection), origin, recorded);
      }
      KeptIs();
      OpenIsSafe();
      if receipt.Err? {
        JournalFailure(receipt.error);
        return true;
      }
      return false;
    }

    /** The timer of the gathered text: what is due goes to the journal. */
    method FlushTimer(now: nat) returns (over: bool)
      requires Live() && Settled() && In(Sampling) && news == Waking(ChunkTimer)
      modifies this`state, this`ending, journal, journal.store, journal.accumulator
      ensures Safe()
      ensures over ==> Over() && JournalLost(old(state), ending) && journal.store.failed
      ensures !over ==> Live() && state == old(state) && journal.pendingDurable == []
      ensures !over ==> journal.accumulator.View() == Chunk.DueResult(old(journal.accumulator.View()), now).state
    {
      ghost var before := journal.store.log;
      KeptIs();
      var r := journal.FlushDue(now);
      SemanticOpen(before, journal.store.log);
      AnsweredGrows(before, journal.store.log, invoked, recorded, replies);
      if !journal.store.failed {
        OwnedGrows(before, journal.store.log, Ended(Cancellation), origin, recorded);
      }
      KeptIs();
      OpenIsSafe();
      if r.Err? {
        JournalFailure(r.error);
        return true;
      }
      return false;
    }

    /** Usage is recorded at most once a sampling; what the runtime answers decides whether the run goes on. */
    method HandleUsage(usage: Usage, seen: bool, cap: Option<nat>, index: nat, receipt: Receipt, audited: bool)
      returns (over: bool)
      requires Live() && Settled() && In(Sampling) && (!seen ==> index !in usages)
      requires news == Waking(Next(UsageReported(usage)))
      modifies this`state, this`ending, this`usages, journal, journal.store, journal.accumulator
      ensures Safe() && ending == UsageEnding(old(state), usage, seen, cap, receipt, audited)
      ensures over ==> Over() && !ending.Running?
      ensures !over ==> Live() && state == old(state) && !seen && !Garbled(usage) && WithinCap(usage.output, cap)
      ensures usages == if seen || Garbled(usage) then old(usages) else old(usages)[index := usage.output]
    {
      OpenIsSafe();
      if seen || usage.input + usage.output > U64_MAX || usage.total < usage.input + usage.output {
        EndWith(Agent.ProviderFailed(ProviderInvalidResponse));
        return true;
      }
      usages := usages[index := usage.output];
      over := TakeReceipt(usage, cap, receipt, audited);
    }

    /** What the runtime says to recorded usage. */
    method TakeReceipt(usage: Usage, cap: Option<nat>, receipt: Receipt, audited: bool) returns (over: bool)
      requires Live() && Settled() && In(Sampling) && news == Waking(Next(UsageReported(usage))) && !Garbled(usage)
      modifies this`state, this`ending, journal, journal.store, journal.accumulator
      ensures Safe() && ending == UsageEnding(old(state), usage, false, cap, receipt, audited)
      ensures over ==> Over() && !ending.Running?
      ensures !over ==> Live() && state == old(state) && WithinCap(usage.output, cap)
    {
      OpenIsSafe();
      var exceeded := cap.Some? && usage.output > cap.value;
      match receipt
      case Recorded =>
        if exceeded {
          EndWith(Agent.ProviderFailed(ProviderTokenBudgetExceeded));
        }
        return exceeded;
      case BudgetExceeded =>
        EndWith(Agent.ProviderFailed(RunTokenBudgetExceeded));
        return true;
      case CostBudgetExceeded =>
        if audited {
          EndWith(Agent.ProviderFailed(RunCostBudgetExceeded));
        } else {
          EndWith(JournalCommitUnknown);
        }
        return true;
      case UsageRefused(error) =>
        if error.StaleLease? {
          EndWith(LeaseLost);
        } else {
          EndWith(JournalCommitUnknown);
        }
        return true;
    }

    /** The provider is done: only an answer with text, and with usage where it is capped, succeeds. */
    method HandleCompleted(textSeen: bool, usageSeen: bool, cap: Option<nat>)
      requires Live() && Settled() && In(Sampling) && news == Waking(Next(Completed))
      modifies this`state, this`ending, journal, journal.store, journal.accumulator
      ensures Safe() && Over()
      ensures ending == Conclusion(old(state),
                          if textSeen && (cap.Some? ==> usageSeen) then ProviderCompleted
                          else Agent.ProviderFailed(ProviderInvalidResponse))
    {
      if !textSeen || (cap.Some? && !usageSeen) {
        EndWith(Agent.ProviderFailed(ProviderInvalidResponse));
      } else {
        EndWith(ProviderCompleted);
      }
    }

    /** The provider has failed; a stall is audited first. */
    method HandleFailing(failure: StreamFailure)
      requires Live() && Settled() && In(Sampling) && news == Waking(Next(Failing(failure)))
      modifies this`state, this`ending, journal, journal.store, journal.accumulator
      ensures Safe() && Over()
      ensures ending == Conclusion(old(state), Agent.ProviderFailed(StreamReason(failure)))
              || (failure.StreamStalled? && ending == Conclusion(old(state), JournalCommitUnknown))
    {
      var audited := *;
      if failure.StreamStalled? && !audited {
        EndWith(JournalCommitUnknown);
      } else {
        EndWith(Agent.ProviderFailed(StreamReason(failure)));
      }
    }

    /** The variables of the sampling loop say what it has gathered. */
    ghost predicate Tallies(f: Facts, index: nat, usageSeen: bool, textSeen: bool, cap: Option<nat>)
      reads this
    {
      && f.text == textSeen && (usageSeen <==> index in usages)
      && f.usage == (if index in usages then Some(usages[index]) else None)
      && (index in usages ==> WithinCap(usages[index], cap))
    }

    /** Text, reasoning, a projection, or what is only noted. */
    method HandleSpeech(event: ProviderEvent, textSeen: bool, cap: Option<nat>, ghost f: Facts)
      returns (over: bool, textSeen': bool)
      requires Live() && Settled() && In(Sampling) && news == Waking(Next(event)) && f.text == textSeen
      requires event.Noted? || event.TextDelta? || event.ReasoningDelta? || event.RemoteProjection?
      modifies this`state, this`ending, this`history, journal, journal.store, journal.accumulator
      ensures Safe() && history == old(history) + [Woke(Next(event))]
      ensures over ==> Over() && EventEnd(old(state), f, cap, event, ending, journal.store.failed)
      ensures !over ==> Live() && state == old(state) && Gather(config.blank, cap, f, Next(event)) == Some(f.(text := textSeen'))
    {
      over, textSeen' := false, textSeen;
      match event
      case Noted =>
        Note(Woke(Next(event)));
        OpenIsSafe();
      case TextDelta(text) =>
        textSeen' := textSeen || (text != [] && !config.blank(text));
        over := HandleText(text);
      case ReasoningDelta(text) =>
        over := HandleDelta(event);
      case RemoteProjection(projection) =>
        over := HandleProjection(projection);
    }

    /** A report of usage. */
    method HandleReport(usage: Usage, usageSeen: bool, cap: Option<nat>, index: nat, ghost f: Facts) returns (over: bool)
      requires Live() && Settled() && In(Sampling) && news == Waking(Next(UsageReported(usage)))
      requires Tallies(f, index, usageSeen, f.text, cap)
      modifies this`state, this`ending, this`usages, this`history, journal, journal.store, journal.accumulator
      ensures Safe() && history == old(history) + [Woke(Next(UsageReported(usage)))] && OnlyAt(old(usages), usages, index)
      ensures over ==> Over() && EventEnd(old(state), f, cap, UsageReported(usage), ending, journal.store.failed)
      ensures !over ==>
                && Live() && state == old(state) && Tallies(f.(usage := Some(usage.output)), index, true, f.text, cap)
                && Gather(config.blank, cap, f, Next(UsageReported(usage))) == Some(f.(usage := Some(usage.output)))
    {
      Note(Woke(Next(UsageReported(usage))));
      var receipt: Receipt, audited: bool := *, *;
      over := HandleUsage(usage, usageSeen, cap, index, receipt, audited);
      if over {
        ReportEnds(old(state), f, cap, usage, receipt, audited, ending, journal.store.failed);
      }
    }

    /** An event that is no call and ends no sampling with calls or an interrupt. */
    method HandleEvent(event: ProviderEvent, usageSeen: bool, textSeen: bool, cap: Option<nat>, index: nat, ghost f: Facts)
      returns (over: bool, usageSeen': bool, textSeen': bool)
      requires Live() && Settled() && In(Sampling) && news == Waking(Next(event))
      requires !event.ToolCallCompleted? && !event.Interrupted? && Tallies(f, index, usageSeen, textSeen, cap)
      modifies this`state, this`ending, this`usages, this`history, journal, journal.store, journal.accumulator
      ensures Safe() && history == old(history) + [Woke(Next(event))] && OnlyAt(old(usages), usages, index)
      ensures over ==> Over() && EventEnd(old(state), f, cap, event, ending, journal.store.failed)
      ensures !over ==>
                && Live() && state == old(state)
                && var g := Gather(config.blank, cap, f, Next(event));
                   g.Some? && g.value.calls == f.calls && Tallies(g.value, index, usageSeen', textSeen', cap)
    {
      usageSeen', textSeen' := usageSeen, textSeen;
      if event.UsageReported? {
        over := HandleReport(event.usage, usageSeen, cap, index, f);
        usageSeen' := true;
      } else if event.Completed? {
        Note(Woke(Next(event)));
        HandleCompleted(textSeen, usageSeen, cap);
        over := true;
      } else if event.Failing? {
        Note(Woke(Next(event)));
        HandleFailing(event.failure);
        over := true;
      } else {
        over, textSeen' := HandleSpeech(event, textSeen, cap, f);
      }
    }

    /** One more call of the sampling; its index and its id must be new. */
    method Collect(index: u32, call: ToolCall, pendingTools: map<nat, ToolCall>)
      returns (fits: bool, pendingTools': map<nat, ToolCall>)
      requires Live() && Settled() && In(Sampling) && news == Waking(Next(ToolCallCompleted(index, call)))
      modifies this`state, this`ending, this`history, journal, journal.store, journal.accumulator
      ensures Safe() && history == old(history) + [Woke(Next(ToolCallCompleted(index, call)))]
      ensures fits <==> !HasCall(pendingTools, call.callId) && index !in pendingTools
      ensures fits ==> Live() && state == old(state) && pendingTools' == pendingTools[index := call]
      ensures !fits ==> Over() && ending == Fails(old(state), ProviderInvalidResponse)
    {
      Note(Woke(Next(ToolCallCompleted(index, call))));
      fits, pendingTools' := !HasCall(pendingTools, call.callId) && index !in pendingTools, pendingTools;
      if fits {
        pendingTools' := pendingTools[index := call];
        OpenIsSafe();
      } else {
        EndWith(Agent.ProviderFailed(ProviderInvalidResponse));
      }
    }

    /** The sampling wants its calls run, or a human asked; both need usage where output is capped. */
    method EndSampling(event: ProviderEvent, pendingTools: map<nat, ToolCall>, usageSeen: bool, cap: Option<nat>,
                       protocolRunId: string, ghost f: Facts) returns (r: Sampled)
      requires Live() && Settled() && In(Sampling) && news == Waking(Next(event))
      requires (event.Completed? && pendingTools != map[]) || event.Interrupted?
      requires f.calls == pendingTools && f.usage.Some? == usageSeen
      modifies this`state, this`ending, this`history, journal, journal.store, journal.accumulator
      ensures Safe() && history == old(history) + [Woke(Next(event))] && (r.Done? ==> Over())
      ensures !r.Done? ==> Live() && state == old(state)
      ensures SampledBy(old(state), f, cap, protocolRunId, Next(event), r, ending, journal.store.failed)
    {
      Note(Woke(Next(event)));
      var foreign := event.Interrupted? && (pendingTools != map[] || event.protocolRunId != protocolRunId);
      if foreign || (cap.Some? && !usageSeen) {
        EndWith(Agent.ProviderFailed(ProviderInvalidResponse));
        r := Done;
      } else {
        OpenIsSafe();
        r := if event.Interrupted? then AtHuman(protocolRunId) else Tools(InOrder(pendingTools, U32_MAX + 1));
      }
      EndCloses(old(state), f, cap, protocolRunId, event, ending, journal.store.failed);
    }

    /** One event of the session: the sampling goes on with what it has gathered, or it ends. */
    method TakeEvent(event: ProviderEvent, cap: Option<nat>, index: nat, protocolRunId: string, pendingTools: map<nat, ToolCall>,
                     usageSeen: bool, textSeen: bool, ghost f: Facts)
      returns (r: Option<Sampled>, pendingTools': map<nat, ToolCall>, usageSeen': bool, textSeen': bool)
      requires Live() && Settled() && In(Sampling) && news == Waking(Next(event))
      requires f.calls == pendingTools && Tallies(f, index, usageSeen, textSeen, cap)
      modifies this`state, this`ending, this`usages, this`history, journal, journal.store, journal.accumulator
      ensures Safe() && history == old(history) + [Woke(Next(event))] && OnlyAt(old(usages), usages, index)
      ensures r.None? ==>
                && Live() && state == old(state)
                && var g := Gather(config.blank, cap, f, Next(event));
                   g.Some? && g.value.calls == pendingTools' && Tallies(g.value, index, usageSeen', textSeen', cap)
      ensures r.Some? && !r.value.Done? ==> Live() && state == old(state) && Tallies(f, index, usageSeen, textSeen, cap)
      ensures r.Some? ==>
                && (r.value.Done? ==> Over())
                && SampledBy(old(state), f, cap, protocolRunId, Next(event), r.value, ending, journal.store.failed)
    {
      r, pendingTools', usageSeen', textSeen' := None, pendingTools, usageSeen, textSeen;
      if event.ToolCallCompleted? {
        var fits;
        fits, pendingTools' := Collect(event.index, event.call, pendingTools);
        if !fits {
          r := Some(Done);
          CallCloses(old(state), f, cap, protocolRunId, event.index, event.call, ending, journal.store.failed);
        }
      } else if (event.Completed? && pendingTools != map[]) || event.Interrupted? {
        var sampled := EndSampling(event, pendingTools, usageSeen, cap, protocolRunId, f);
        r := Some(sampled);
      } else {
        var over;
        over, usageSeen', textSeen' := HandleEvent(event, usageSeen, textSeen, cap, index, f);
        if over {
          r := Some(Done);
          EventCloses(old(state), f, cap, protocolRunId, event, ending, journal.store.failed);
        }
      }
    }

    /** What wakes the loop and is no event of the session. */
    method TakeWake(wake: Wake) returns (over: bool)
      requires Live() && Settled() && In(Sampling) && news == Waking(wake) && !wake.Next?
      modifies this`state, this`ending, this`history, journal, journal.store, journal.accumulator
      ensures Safe() && history == old(history) + [Woke(wake)]
      ensures over ==> Over() && WakeEnd(old(state), wake, ending, journal.store.failed)
      ensures !over ==> Live() && state == old(state) && (wake.Renewed? || wake.ChunkTimer?)
    {
      Note(Woke(wake));
      OpenIsSafe();
      over := true;
      match wake
      case Stop(source, audited) =>
        CancelAndCommit(source, audited);
      case Renewed =>
        over := false;
      case Expired =>
        EndWith(LeaseLost);
      case ChunkTimer =>
        var now: nat := *;
        over := FlushTimer(now);
      case StreamOver =>
        EndWith(Agent.ProviderFailed(ProviderInvalidResponse));
      case StreamBroken(error) =>
        EndWith(Agent.ProviderFailed(PortReason(error)));
    }

    /** Where a sampling that is over has brought the run. */
    ghost predicate Leads(r: Sampled)
      reads this
    {
      match r
      case Tools(calls) => At(Owing(calls)) && calls != []
      case AtHuman(id) => At(FRESH)
      case Done => !At(Astray)
    }

    /** The loop is woken once. */
    method SampleTurn(wake: Wake, cap: Option<nat>, index: nat, protocolRunId: string, pendingTools: map<nat, ToolCall>,
                      usageSeen: bool, textSeen: bool, ghost f: Facts)
      returns (r: Option<Sampled>, pendingTools': map<nat, ToolCall>, usageSeen': bool, textSeen': bool)
      requires Live() && Settled() && In(Sampling) && f.calls == pendingTools && Tallies(f, index, usageSeen, textSeen, cap)
      requires At(Listening(pendingTools)) && forall i :: i in pendingTools ==> i <= U32_MAX
      modifies this`state, this`ending, this`usages, this`history, this`news, this`beats,
               journal, journal.store, journal.accumulator
      ensures Safe() && history == old(history) + [Woke(wake)] && OnlyAt(old(usages), usages, index)
      ensures news == Waking(wake) && beats == old(beats) + 1 && !ending.Halted?
      ensures r.None? ==>
                && Live() && state == old(state) && At(Listening(pendingTools'))
                && (forall i :: i in pendingTools' ==> i <= U32_MAX)
                && var g := Gather(config.blank, cap, f, wake);
                   g.Some? && g.value.calls == pendingTools' && Tallies(g.value, index, usageSeen', textSeen', cap)
      ensures r.Some? && !r.value.Done? ==>
                Live() && state == old(state) && Tallies(f, index, usageSeen, textSeen, cap) && Accountable(f, cap)
      ensures r.Some? ==>
                && (r.value.Done? ==> Over()) && Leads(r.value) && (r.value.Tools? ==> wake == Next(Completed))
                && SampledBy(old(state), f, cap, protocolRunId, wake, r.value, ending, journal.store.failed)
    {
      CourseSnoc(history, Woke(wake));
      WakeCourse(pendingTools, wake);
      Hear(Waking(wake));
      r, pendingTools', usageSeen', textSeen' := Attend(wake, cap, index, protocolRunId, pendingTools, usageSeen, textSeen, f);
      if r.None? {
        GatherCourse(config.blank, cap, f, wake);
      } else {
        ClosedWith(old(state), f, cap, protocolRunId, wake, r.value, ending, journal.store.failed);
        if r.value.Tools? {
          InOrderNotEmpty(pendingTools);
        }
      }
    }

    /** An event, or another wake. */
    method Attend(wake: Wake, cap: Option<nat>, index: nat, protocolRunId: string, pendingTools: map<nat, ToolCall>,
                  usageSeen: bool, textSeen: bool, ghost f: Facts)
      returns (r: Option<Sampled>, pendingTools': map<nat, ToolCall>, usageSeen': bool, textSeen': bool)
      requires Live() && Settled() && In(Sampling) && news == Waking(wake)
      requires f.calls == pendingTools && Tallies(f, index, usageSeen, textSeen, cap)
      modifies this`state, this`ending, this`usages, this`history, journal, journal.store, journal.accumulator
      ensures Safe() && history == old(history) + [Woke(wake)] && OnlyAt(old(usages), usages, index)
      ensures r.None? ==>
                && Live() && state == old(state)
                && var g := Gather(config.blank, cap, f, wake);
                   g.Some? && g.value.calls == pendingTools' && Tallies(g.value, index, usageSeen', textSeen', cap)
      ensures r.Some? && !r.value.Done? ==> Live() && state == old(state) && Tallies(f, index, usageSeen, textSeen, cap)
      ensures r.Some? ==>
                && (r.value.Done? ==> Over())
                && SampledBy(old(state), f, cap, protocolRunId, wake, r.value, ending, journal.store.failed)
    {
      if wake.Next? {
        r, pendingTools', usageSeen', textSeen' :=
          TakeEvent(wake.event, cap, index, protocolRunId, pendingTools, usageSeen, textSeen, f);
      } else {
        pendingTools', usageSeen', textSeen' := pendingTools, usageSeen, textSeen;
        var over := TakeWake(wake);
        r := None;
        if over {
          r := Some(Done);
          WakeCloses(old(state), f, cap, protocolRunId, wake, ending, journal.store.failed);
        }
      }
    }

    /** One provider session, until it asks for tools, asks for a human, or ends the run. */
    method Sample(cap: Option<nat>, index: nat, protocolRunId: string) returns (r: Sampled, ghost wakes: seq<Wake>)
      requires Live() && Settled() && In(Sampling) && index !in usages && At(FRESH)
      modifies this`state, this`ending, this`usages, this`history, this`news, this`beats,
               journal, journal.store, journal.accumulator
      ensures Safe() && OnlyAt(old(usages), usages, index) && history == old(history) + Woken(wakes)
      ensures (r.Done? ==> Over()) && Leads(r)
      ensures ending.Halted? ==> r.Done? && Gathered(config.blank, cap, wakes).Some?
      ensures !ending.Halted? ==>
                && wakes != [] && news == Waking(wakes[|wakes| - 1]) && (r.Tools? ==> wakes[|wakes| - 1] == Next(Completed))
                && SampledAll(config.blank, old(state), cap, protocolRunId, wakes, r, ending, journal.store.failed)
      ensures !r.Done? ==> Live() && state == old(state) && (cap.Some? ==> index in usages && usages[index] <= cap.value)
    {
      var usageSeen, textSeen, left := false, false, turns;
      var pendingTools: map<nat, ToolCall> := map[];
      ghost var f := NOTHING;
      wakes := [];
      assert history == old(history) + Woken(wakes);
      while true
        invariant Live() && Settled() && state == old(state) && Tallies(f, index, usageSeen, textSeen, cap)
        invariant f.calls == pendingTools && Gathered(config.blank, cap, wakes) == Some(f) && At(Listening(pendingTools))
        invariant OnlyAt(old(usages), usages, index) && history == old(history) + Woken(wakes)
        invariant 0 <= left <= turns && turns - left <= beats && forall i :: i in pendingTools ==> i <= U32_MAX
        decreases left
      {
        if left == 0 {
          Halt();
          return Done, wakes;
        }
        left := left - 1;
        var wake: Wake := *;
        OneMoreWake(config.blank, cap, old(history), wakes, wake);
        wakes := wakes + [wake];
        var sampled;
        sampled, pendingTools, usageSeen, textSeen :=
          SampleTurn(wake, cap, index, protocolRunId, pendingTools, usageSeen, textSeen, f);
        if sampled.Some? {
          SampledLast(config.blank, old(state), cap, protocolRunId, wakes, f, sampled.value, ending, journal.store.failed);
          return sampled.value, wakes;
        }
        f := Gather(config.blank, cap, f, wake).value;
      }
    }

    // -------------------------------------------------------------------------------------------
    // The run
    // -------------------------------------------------------------------------------------------

    /** A remote run has asked a human: wait for the answer, which must resume that very run. */
    method AwaitHuman(protocolRunId: string, control: Control, answer: Result<Resume, InterruptError>, audited: bool)
      returns (resume: Option<Resume>)
      requires Live() && Settled() && In(Sampling)
      modifies this`state, this`ending, this`news, this`beats, journal, journal.store, journal.accumulator
      ensures Safe() && (resume.None? ==> Over()) && (resume.Some? ==> Live() && In(Preparing))
      ensures resume == if control.Proceed? && answer.Ok? && answer.value.parent == protocolRunId
                        then Some(answer.value) else None
      ensures resume.None? ==> HumanEnd(old(state).(phase := AwaitingHuman), control, answer, audited, ending)
    {
      resume := None;
      RequireHuman(true);
      OpenIsSafe();
      Hear(Deciding(control, answer, audited));
      match control {
        case Cancel(source) =>
          CancelAndCommit(source, audited);
          return;
        case LostLease =>
          EndWith(LeaseLost);
          return;
        case Proceed =>
      }
      resume := TakeAnswer(protocolRunId, answer);
    }

    /** What the coordinator answers; only a resume of this very remote run goes on. */
    method TakeAnswer(protocolRunId: string, answer: Result<Resume, InterruptError>) returns (resume: Option<Resume>)
      requires Live() && Settled() && In(AwaitingHuman) && news.Deciding? && news.control.Proceed? && news.resume == answer
      modifies this`state, this`ending, journal, journal.store, journal.accumulator
      ensures Safe() && (resume.None? ==> Over() && ending == Conclusion(old(state), ResumeFact(answer)))
      ensures resume == if answer.Ok? && answer.value.parent == protocolRunId then Some(answer.value) else None
      ensures resume.Some? ==> Live() && In(Preparing)
    {
      resume := None;
      if answer.Err? {
        match answer.error {
          case StaleInterrupt => EndWith(LeaseLost);
          case InterruptUnknown => EndWith(JournalCommitUnknown);
          case CoordinatorUnavailable => EndWith(RemoteResumeFailed(ProviderUnavailable));
          case _ => EndWith(RemoteResumeFailed(ProviderInvalidResponse));
        }
        return;
      }
      if answer.value.parent != protocolRunId {
        EndWith(RemoteResumeFailed(ProviderInvalidResponse));
        return;
      }
      Take(RemoteResumeReady, [LoadContext]);
      OpenIsSafe();
      return Some(answer.value);
    }

    /** Put the calls of one sampling to the reducer; it takes exactly a runnable batch. */
    method TakeBatch(calls: seq<ToolCall>) returns (ok: bool)
      requires Live() && Settled() && In(Sampling) && news == Waking(Next(Completed))
      modifies this`state, this`ending
      ensures Safe() && (ok <==> Runnable(old(state), calls)) && (ok ==> Live() && In(ExecutingTools))
      ensures !ok ==> Over() && ending == Abandoned(Told(old(state), ProviderToolCalls(calls)))
    {
      ok := Advance(ProviderToolCalls(calls), [InvokeTools(calls)]);
    }

    /**
     * Run the calls of one sampling, and say that their results are durable: each call invoked exactly
     * once, and answered in the journal with its reply, in order. A batch the reducer does not take ends
     * the run.
     */
    method RunTools(calls: seq<ToolCall>) returns (ok: bool, ghost order: seq<nat>)
      requires Live() && Settled() && In(Sampling) && news == Waking(Next(Completed))
      modifies this`state, this`ending, this`invoked, this`recorded, this`replies, this`history, this`news, this`beats,
               journal, journal.store, journal.accumulator
      ensures Safe() && (!ok ==> Over()) && Extends(old(replies), replies) && old(invoked) <= invoked
      ensures Answering(old(history), history, calls)
      ensures ok ==>
                && Live() && Settled() && In(Preparing) && Durable()
                && Runnable(old(state), calls) && RanAll(calls, order, |old(invoked)|, old(history))
      ensures !Runnable(old(state), calls) ==>
                && ending == Abandoned(Told(old(state), ProviderToolCalls(calls)))
                && journal.store.log == old(journal.store.log) && invoked == old(invoked)
    {
      order := [];
      var accepted := TakeBatch(calls);
      if !accepted {
        return false, [];
      }
      var executed;
      executed, order := ExecuteTools(calls);
      if !executed {
        return false, [];
      }
      Take(ToolResultCommitted, [LoadContext]);
      OpenIsSafe();
      ok := true;
    }

    /** A request the bindings refuse ends the run; a cost refusal is audited first. */
    method Refuse(failure: Failure, audited: bool)
      requires Live() && Settled() && In(Preparing) && failure != ToolStepLimit
      requires Justified(ContextFailed(failure)) && (CostFailure(failure) ==> Justified(JournalCommitUnknown))
      modifies this`state, this`ending, journal, journal.store, journal.accumulator
      ensures Safe() && Over()
      ensures ending == Conclusion(old(state),
                          if CostFailure(failure) && !audited then JournalCommitUnknown else ContextFailed(failure))
    {
      if (failure.RunCostBudgetUnpriced? || failure.RunCostBudgetCurrencyMismatch?) && !audited {
        EndWith(JournalCommitUnknown);
      } else {
        EndWith(ContextFailed(failure));
      }
    }

    /** Load the next request, and admit it under what earlier samplings have fixed. */
    method Prepare(bindings: RunBindings, control: Control, answer: Result<Request, ContextError>, audited: bool)
      returns (request: Option<Request>)
      requires Live() && Settled() && In(Preparing)
      modifies this`state, this`ending, this`news, this`beats, bindings, journal, journal.store, journal.accumulator
      ensures Safe() && (request.None? ==> Over())
      ensures request.Some? <==> control.Proceed? && answer.Ok? && Bind(bindings.lease, old(bindings.B()), answer.value).Ok?
      ensures request.Some? ==>
                && Live() && state == old(state)
                && Bind(bindings.lease, old(bindings.B()), answer.value) == Ok((bindings.B(), request.value))
      ensures request.None? ==> LoadEnd(old(state), bindings.lease, old(bindings.B()), control, answer, audited, ending)
    {
      OpenIsSafe();
      request := None;
      Hear(Loading(control, answer, RefusalOf(bindings.lease, bindings.B(), answer), audited));
      match control {
        case Cancel(source) =>
          CancelAndCommit(source, audited);
          return;
        case LostLease =>
          EndWith(LeaseLost);
          return;
        case Proceed =>
      }
      if answer.Err? {
        EndWith(ContextFailed(ContextReason(answer.error)));
        return;
      }
      var admitted := bindings.Admit(answer.value);
      if admitted.Err? {
        RefusedNotStepLimit(bindings.lease, old(bindings.B()), answer.value);
        Refuse(admitted.error.failure, audited);
        return;
      }
      OpenIsSafe();
      return Some(admitted.value);
    }

    /** Start one provider session and sample it. */
    method StartAndSample(request: Request, index: nat, protocolRunId: string, ghost resumed: Option<Resume>,
                          control: Control, answer: Result<(), PortError>, audited: bool)
      returns (r: Sampled)
      requires Live() && Settled() && In(Preparing) && index !in usages && At(FRESH)
      modifies this`state, this`ending, this`usages, this`starts, this`history, this`news, this`beats,
               journal, journal.store, journal.accumulator
      ensures Safe() && (r.Done? ==> Over()) && (!r.Done? ==> Live() && In(Sampling))
      ensures OnlyAt(old(usages), usages, index) && starts == old(starts) + [Start(request, resumed)]
      ensures !r.Done? && request.maxOutput.Some? ==> index in usages && usages[index] <= request.maxOutput.value
      ensures !(control.Proceed? && answer.Ok?) ==>
                r.Done? && history == old(history) && StartEnd(old(state).(phase := Sampling), control, answer, audited, ending)
      ensures Leads(r) && (r.Tools? ==> news == Waking(Next(Completed))) && (r.AtHuman? ==> r.protocolRunId == protocolRunId)
    {
      var ok := StartSession(request, resumed, control, answer, audited);
      if !ok {
        return Done;
      }
      ghost var wakes;
      r, wakes := Sample(request.maxOutput, index, protocolRunId);
    }

    /** The context is prepared: the provider may start. */
    method Dispatch()
      requires Live() && In(Preparing)
      modifies this`state
      ensures Live() && state == old(state).(phase := Sampling)
    {
      Take(ContextPrepared, [StartProvider]);
    }

    /** Ask the provider for a session. */
    method StartSession(request: Request, ghost resumed: Option<Resume>, control: Control, answer: Result<(), PortError>,
                        audited: bool) returns (ok: bool)
      requires Live() && Settled() && In(Preparing)
      modifies this`state, this`ending, this`starts, this`news, this`beats, journal, journal.store, journal.accumulator
      ensures Safe() && (ok <==> control.Proceed? && answer.Ok?) && (ok ==> Live() && In(Sampling))
      ensures starts == old(starts) + [Start(request, resumed)]
      ensures !ok ==> Over() && StartEnd(old(state).(phase := Sampling), control, answer, audited, ending)
    {
      starts := starts + [Start(request, resumed)];
      ok := false;
      Dispatch();
      OpenIsSafe();
      Hear(Opening(control, answer, audited));
      match control {
        case Cancel(source) =>
          CancelAndCommit(source, audited);
          return;
        case LostLease =>
          EndWith(LeaseLost);
          return;
        case Proceed =>
      }
      if answer.Err? {
        EndWith(Agent.ProviderFailed(PortReason(answer.error)));
        return;
      }
      OpenIsSafe();
      return true;
    }

    /** The samplings so far, and their usage, under the bindings of the first. */
    ghost predicate Accounted(lease: Lease)
      reads this
    {
      Coherent(lease.runId, starts) && forall k :: k in usages ==> k < |starts|
    }

    /** What follows a sampling that did not end the run: its calls are run, or a human is waited for. */
    method Continue(sampled: Sampled, bindings: RunBindings) returns (again: bool, ghost order: seq<nat>)
      requires Live() && Settled() && In(Sampling) && !sampled.Done?
      requires Leads(sampled) && (sampled.Tools? ==> news == Waking(Next(Completed)))
      modifies this`state, this`ending, this`invoked, this`recorded, this`replies, this`history, this`news, this`beats,
               bindings, journal, journal.store, journal.accumulator
      ensures Safe() && (!again ==> Over() && !At(Astray)) && (again ==> Live() && Settled() && In(Preparing) && At(FRESH))
      ensures bindings.B() == old(bindings.B()).(resume := bindings.B().resume)
      ensures sampled.AtHuman? ==> history == old(history) && invoked == old(invoked)
      ensures sampled.AtHuman? && again ==> bindings.B().resume.Some? && bindings.B().resume.value.parent == sampled.protocolRunId
      ensures sampled.Tools? ==> Answering(old(history), history, sampled.calls) && bindings.B() == old(bindings.B())
      ensures sampled.Tools? && again ==> Durable() && RanAll(sampled.calls, order, |old(invoked)|, old(history))
    {
      order := [];
      match sampled
      case AtHuman(protocolRunId) =>
        var control: Control, answer: Result<Resume, InterruptError>, audited: bool := *, *, *;
        var resume := AwaitHuman(protocolRunId, control, answer, audited);
        again := resume.Some?;
        if again {
          bindings.pendingRemoteResume := resume;
        }
      case Tools(calls) =>
        again, order := RunTools(calls);
        AnsweringCourse(old(history), history, calls);
    }

    /** Load and bind a request, and sample the provider with it. */
    method LoadAndSample(bindings: RunBindings, samplingIndex: nat) returns (sampled: Sampled)
      requires Live() && Settled() && In(Preparing) && samplingIndex == |starts| && Capped(usages, starts, |starts|)
      requires Accounted(bindings.lease) && Reflects(bindings.lease, bindings.B(), starts) && At(FRESH)
      modifies this`state, this`ending, this`usages, this`starts, this`history, this`news, this`beats,
               bindings, journal, journal.store, journal.accumulator
      ensures Safe() && Accounted(bindings.lease) && samplingIndex <= |starts| <= samplingIndex + 1 && (sampled.Done? ==> Over())
      ensures Capped(usages, starts, samplingIndex)
      ensures !sampled.Done? ==>
                Live() && In(Sampling) && |starts| == samplingIndex + 1 && Reflects(bindings.lease, bindings.B(), starts)
                && Capped(usages, starts, |starts|)
      ensures Leads(sampled) && (sampled.Tools? ==> news == Waking(Next(Completed)))
    {
      ghost var before := bindings.B();
      var control: Control, answer: Result<Request, ContextError>, audited: bool := *, *, *;
      var request := Prepare(bindings, control, answer, audited);
      if request.None? {
        return Done;
      }
      BindCoherent(bindings.lease, before, starts, answer.value);
      var control': Control, answer': Result<(), PortError>, audited': bool := *, *, *;
      sampled := StartAndSample(request.value, samplingIndex, bindings.currentProtocolRunId, before.resume,
        control', answer', audited');
      UsageBelow(old(usages), usages, samplingIndex);
      CappedKept(old(usages), usages, old(starts), starts, samplingIndex);
    }

    /** One turn of the run loop: load, bind, sample, and then tools or a human. */
    method Turn(bindings: RunBindings, samplingIndex: nat) returns (again: bool)
      requires Live() && Settled() && In(Preparing) && samplingIndex == |starts| && Capped(usages, starts, |starts|)
      requires Accounted(bindings.lease) && Reflects(bindings.lease, bindings.B(), starts) && At(FRESH)
      modifies this, bindings, journal, journal.store, journal.accumulator
      ensures Safe() && Accounted(bindings.lease) && samplingIndex <= |starts| <= samplingIndex + 1
      ensures Capped(usages, starts, samplingIndex) && (!again ==> Over() && !At(Astray))
      ensures again ==>
                Live() && Settled() && In(Preparing) && |starts| == samplingIndex + 1 && At(FRESH)
                && Reflects(bindings.lease, bindings.B(), starts) && Capped(usages, starts, |starts|)
    {
      var sampled := LoadAndSample(bindings, samplingIndex);
      if sampled.Done? {
        return false;
      }
      ghost var order;
      again, order := Continue(sampled, bindings);
    }

    /** The samplings are used up. */
    method UsedUp()
      requires Live() && Settled() && In(Preparing) && |starts| == SAMPLINGS
      modifies this`state, this`ending, journal, journal.store, journal.accumulator
      ensures Safe() && Over() && ending == Conclusion(old(state), ContextFailed(ProviderInvalidResponse))
    {
      EndWith(ContextFailed(ProviderInvalidResponse));
    }

    /** The run leaves the queue, once that is audited. */
    method Activate(audited: bool) returns (ok: bool)
      requires Live() && Settled() && In(Queued)
      modifies this`state, this`ending, this`news, this`beats, journal, journal.store, journal.accumulator
      ensures Safe() && ok == audited && (ok ==> Live() && In(Preparing)) && (!ok ==> Over())
      ensures !ok ==> ending == Conclusion(old(state).(phase := Preparing), JournalCommitUnknown)
    {
      Take(DispatchActivated, [LoadContext]);
      OpenIsSafe();
      Hear(Activation(audited));
      if audited {
        OpenIsSafe();
      } else {
        EndWith(JournalCommitUnknown);
      }
      ok := audited;
    }

    /** Turn after turn, until the run is over. */
    method RunLoop(bindings: RunBindings)
      requires Live() && Settled() && In(Preparing) && At(FRESH)
      requires starts == [] && usages == map[] && bindings.B() == Unbound(bindings.lease)
      modifies this, bindings, journal, journal.store, journal.accumulator
      ensures Safe() && Over() && Accounted(bindings.lease) && |starts| <= SAMPLINGS && !At(Astray)
      ensures WithinCeiling(usages, starts)
    {
      OpenIsSafe();
      UnboundReflects(bindings.lease);
      var samplingIndex := 0;
      while true
        invariant Live() && Safe() && Settled() && In(Preparing) && At(FRESH)
        invariant samplingIndex == |starts| <= SAMPLINGS && Capped(usages, starts, |starts|)
        invariant Accounted(bindings.lease) && Reflects(bindings.lease, bindings.B(), starts)
        decreases SAMPLINGS - samplingIndex
      {
        if samplingIndex > TOOL_STEP_CAP {
          UsedUp();
          CeilingKept(bindings.lease.runId, usages, starts, samplingIndex);
          return;
        }
        var again := Turn(bindings, samplingIndex);
        if !again {
          CeilingKept(bindings.lease.runId, usages, starts, samplingIndex);
          return;
        }
        OpenIsSafe();
        samplingIndex := samplingIndex + 1;
      }
    }

    /**
     * A whole run. However it goes: at most one terminal, nothing after it, and it is known why the run
     * is over, for which the world's last word is the reason. Unless an append has failed, the journal
     * holds just what has happened, in order, and then the terminal: every text, every projection, and
     * for each call of each sampling, in turn and before anything else, its reply. A tool call without
     * its answer in the journal means reconciliation, or the failure of the tool loop exactly if a tool
     * result said so. No terminal is attempted exactly after a batch, a result or a piece of reasoning
     * that the reducer does not take. At most nine provider sessions, all under what the first one
     * fixed; usage is counted at most once for each, and all but the last stay within the run ceiling
     * together.
     */
    method Execute(bindings: RunBindings)
      requires Live() && Settled() && In(Queued) && history == []
      requires starts == [] && usages == map[] && bindings.B() == Unbound(bindings.lease)
      modifies this, bindings, journal, journal.store, journal.accumulator
      ensures Safe() && Over() && Accounted(bindings.lease) && |starts| <= SAMPLINGS && !At(Astray)
      ensures WithinCeiling(usages, starts)
    {
      var audited := *;
      var activated := Activate(audited);
      if activated {
        RunLoop(bindings);
      }
    }
  }

  lemma {:induction false} ReportedMore(usages: map<nat, nat>, m: nat, n: nat)
    requires m <= n
    ensures Reported(usages, m) <= Reported(usages, n)
  {
    if m < n {
      ReportedMore(usages, m, n - 1);
    }
  }

  /** All but the last sampling together stay within the ceiling, if all before `samplings` stayed within their cap. */
  lemma {:induction false} CeilingKept(runId: string, usages: map<nat, nat>, starts: seq<Start>, samplings: nat)
    requires Coherent(runId, starts) && samplings <= |starts| <= samplings + 1 && |starts| <= SAMPLINGS
    requires Capped(usages, starts, samplings)
    ensures WithinCeiling(usages, starts)
  {
    if starts != [] {
      CeilingCovers(runId, usages, starts, samplings);
      ReportedMore(usages, |starts| - 1, samplings);
    }
  }

  /** A new sampling says nothing about the usage of earlier ones. */
  lemma {:induction false} CappedKept(before: map<nat, nat>, after: map<nat, nat>, was: seq<Start>,
                                      starts: seq<Start>, index: nat)
    requires OnlyAt(before, after, index) && was <= starts && index == |was| && Capped(before, was, index)
    ensures Capped(after, starts, index)
    ensures |starts| == index + 1 && (index in after ==> WithinCap(after[index], starts[index].request.maxOutput)) ==>
              Capped(after, starts, |starts|)
  {
    forall k | 0 <= k < index && k in after ensures k in before && after[k] == before[k] {
      assert k in after - {index};
      assert (after - {index})[k] == (before - {index})[k];
    }
  }

  /** Usage of the current sampling comes on top of that of earlier ones. */
  lemma {:induction false} UsageBelow(before: map<nat, nat>, after: map<nat, nat>, index: nat)
    requires OnlyAt(before, after, index) && forall k :: k in before ==> k < index
    ensures forall k :: k in after ==> k <= index
  {
    forall k | k in after ensures k <= index {
      if k != index {
        assert k in after - {index};
      }
    }
  }

  /** A refused request is never refused for the number of tool calls. */
  lemma {:induction false} RefusedNotStepLimit(lease: Lease, b: Bindings, q: Request)
    ensures Bind(lease, b, q).Err? ==> Bind(lease, b, q).error.failure != ToolStepLimit
  {
  }

  /** Once every task of a wave is answered, so is every invocation. */
  lemma {:induction false} WaveSettled(calls: seq<ToolCall>, ids: seq<Option<nat>>, before: seq<Invocation>,
                                       after: seq<Invocation>, was: map<nat, nat>, recorded: map<nat, nat>)
    requires AllAnswered(before, was) && before <= after && Started(calls, ids, after, |before|)
    requires forall k :: k in was ==> k in recorded
    requires forall p :: 0 <= p < |ids| && ids[p].Some? ==> ids[p].value in recorded
    ensures AllAnswered(after, recorded)
  {
    forall k | 0 <= k < |after| && !after[k].human ensures k in recorded {
      if k < |before| {
        assert after[k] == before[k];
      } else {
        assert Some(k) in ids;
      }
    }
  }

  /** The reply of a task that is joined is the reply of its own invocation, and of no other. */
  lemma {:induction false} JoinReplied(calls: seq<ToolCall>, tasks: seq<Task>, ids: seq<Option<nat>>,
                                       outputs: seq<Option<Output>>,
                                       invoked: seq<Invocation>, n: nat, replies: map<nat, string>, p: nat, content: string)
    requires Started(calls, ids, invoked, n) && Tracks(tasks, ids) && Unreplied(tasks, ids, replies)
    requires Collected(calls, tasks, ids, outputs, replies) && p < |tasks| && tasks[p].Working?
    ensures var after := replies[ids[p].value := content];
            && Extends(replies, after) && Unreplied(tasks[p := Joined], ids, after)
            && Collected(calls, tasks[p := Joined], ids, outputs[p := Some(Output(calls[p], Reply(content)))], after)
  {
    forall q | 0 <= q < |ids| && q != p && ids[q].Some? ensures ids[q] != ids[p] {
      assert if q < p then ids[q] != ids[p] else ids[p] != ids[q];
    }
  }

  /** Once every call of a wave has been answered in turn, each has been invoked exactly once. */
  lemma {:induction false} WaveRan(human: string -> bool, calls: seq<ToolCall>, ids: seq<Option<nat>>, order: seq<nat>,
                                   invoked: seq<Invocation>, n: nat)
    requires Started(calls, ids, invoked, n) && |order| == |calls|
    requires forall p :: 0 <= p < |calls| ==> ids[p] == Some(order[p]) && !human(calls[p].name)
    ensures Ran(human, calls, order, invoked, n)
  {
    forall k | n <= k < |invoked| ensures k in order {
      assert Some(k) in ids;
      var p :| 0 <= p < |ids| && ids[p] == Some(k);
      assert order[p] == k;
    }
    forall p, q | 0 <= p < q < |order| ensures order[p] != order[q] {
      assert ids[p] != ids[q];
    }
  }

  /** One call alone has been run. */
  lemma {:induction false} RanOne(human: string -> bool, call: ToolCall, before: seq<Invocation>, replies: map<nat, string>)
    ensures Ran(human, [call], [|before|], before + [Invocation(call, human(call.name))], |before|)
    ensures Replies([call], [|before|], replies) == [Replied(Exchange(call, ReplyOf(replies, |before|)))]
  {
    assert |before| in [|before|];
  }

  /** One call alone has been answered, or nothing has. */
  lemma {:induction false} AnsweredOne(before: seq<Happening>, call: ToolCall, content: string)
    ensures Answering(before, before, [call])
    ensures Answering(before, before + [Replied(Exchange(call, content))], [call])
  {
    assert AnswersAt(before + [Replied(Exchange(call, content))], |before|, [call][0]);
  }

  /** No other task has made the invocation of task `p`. */
  lemma {:induction false} StartedOnce(calls: seq<ToolCall>, ids: seq<Option<nat>>, invoked: seq<Invocation>, n: nat, p: nat)
    requires Started(calls, ids, invoked, n) && p < |ids| && ids[p].Some?
    ensures forall q :: 0 <= q < |ids| && q != p ==> ids[q] != ids[p]
  {
    forall q | 0 <= q < |ids| && q != p ensures ids[q] != ids[p] {
      assert ids[q].Some? && q < p ==> ids[q] != ids[p];
    }
  }

  /** The replies to one more call. */
  lemma {:induction false} NextReply(calls: seq<ToolCall>, p: nat, order: seq<nat>, k: nat, replies: map<nat, string>)
    requires p < |calls| && |order| == p && k in replies
    ensures Replies(calls[..p + 1], order + [k], replies)
         == Replies(calls[..p], order, replies) + [Replied(Exchange(calls[p], replies[k]))]
  {
  }

  lemma {:induction false} OneMoreAnswered(calls: seq<ToolCall>, p: nat, order: seq<nat>, replies: map<nat, string>,
                                           before: seq<Happening>, middle: seq<Happening>, after: seq<Happening>)
    requires p < |calls| && |order| == p && middle == before + Replies(calls[..p], order, replies)
    requires Answering(middle, after, [calls[p]])
    ensures Answering(before, after, calls)
  {
    AnsweredThen(calls, calls[..p], [calls[p]], order, replies, before, middle, after);
  }

  /** After the first calls have been answered, some of the next have been. */
  lemma {:induction false} AnsweredThen(calls: seq<ToolCall>, first: seq<ToolCall>, next: seq<ToolCall>, order: seq<nat>,
                                        replies: map<nat, string>, before: seq<Happening>, middle: seq<Happening>,
                                        after: seq<Happening>)
    requires first + next <= calls && |order| == |first| && middle == before + Replies(first, order, replies)
    requires Answering(middle, after, next)
    ensures Answering(before, after, calls)
  {
    RepliesAnswer(before, first, order, replies);
    AnsweringJoin(before, middle, after, first, next);
    AnsweringMore(before, after, first + next, calls[|first + next|..]);
    assert calls == first + next + calls[|first + next|..];
  }

  /** These scheduled calls are calls of the batch. */
  predicate InBatch(calls: seq<ToolCall>, scheduled: seq<Scheduling.Call>) {
    forall i :: 0 <= i < |scheduled| ==> scheduled[i].id < |calls|
  }

  /** The calls that a wave stands for. */
  function Members(calls: seq<ToolCall>, scheduled: seq<Scheduling.Call>): (r: seq<ToolCall>)
    requires InBatch(calls, scheduled)
    ensures |r| == |scheduled|
  {
    seq(|scheduled|, i requires 0 <= i < |scheduled| => calls[scheduled[i].id])
  }

  /** The calls as they are handed to the scheduler. */
  ghost predicate Schedules(config: Config, calls: seq<ToolCall>, scheduled: seq<Scheduling.Call>) {
    && |scheduled| == |calls|
    && forall i :: 0 <= i < |calls| ==>
         scheduled[i] == Scheduling.Call(i, config.human(calls[i].name), config.scheduling(calls[i].name))
  }

  /** A wave that may be executed: not empty, and if its calls may overlap none of them waits for a human. */
  ghost predicate Ready(config: Config, calls: seq<ToolCall>, wave: Scheduling.Wave)
    requires InBatch(calls, wave.calls)
  {
    && wave.calls != []
    && (wave.parallel ==> forall p :: 0 <= p < |wave.calls| ==> !config.human(Members(calls, wave.calls)[p].name))
  }

  /** The calls of this wave come next in the batch. */
  ghost predicate Follows(calls: seq<ToolCall>, done: seq<Scheduling.Call>, wave: Scheduling.Wave) {
    && InBatch(calls, done) && InBatch(calls, wave.calls) && InBatch(calls, done + wave.calls)
    && Members(calls, done + wave.calls) == Members(calls, done) + Members(calls, wave.calls) <= calls
  }

  /** A scheduled wave is not empty, and if its calls may overlap none of them waits for a human. */
  lemma {:induction false} WaveIsReady(config: Config, calls: seq<ToolCall>, scheduled: seq<Scheduling.Call>,
                                       waves: seq<Scheduling.Wave>, w: nat)
    requires Schedules(config, calls, scheduled) && Scheduling.Flatten(waves) == scheduled && w < |waves|
    requires Scheduling.WellFormedAll(waves)
    ensures InBatch(calls, waves[w].calls) && Ready(config, calls, waves[w])
  {
    WaveIsScheduled(waves, w);
    assert waves[w] in waves && Scheduling.WellFormed(waves[w]);
    forall p | 0 <= p < |waves[w].calls|
      ensures waves[w].calls[p].id < |calls|
      ensures waves[w].parallel ==> !config.human(calls[waves[w].calls[p].id].name)
    {
      var c := waves[w].calls[p];
      var i :| 0 <= i < |scheduled| && scheduled[i] == c;
      if waves[w].parallel {
        assert Scheduling.Concurrent(c);
      }
    }
  }

  /** The waves so far are a prefix of the batch. */
  lemma {:induction false} FlattenPrefix(waves: seq<Scheduling.Wave>, w: nat)
    requires w <= |waves|
    ensures Scheduling.Flatten(waves[..w]) <= Scheduling.Flatten(waves)
  {
    if w < |waves| {
      FlattenPrefix(waves[..|waves| - 1], w);
      assert waves[..|waves| - 1][..w] == waves[..w];
    } else {
      assert waves[..w] == waves;
    }
  }

  /** One more wave is done: its calls follow those done before, in the order of the batch. */
  lemma {:induction false} DoneWave(calls: seq<ToolCall>, scheduled: seq<Scheduling.Call>, waves: seq<Scheduling.Wave>, w: nat,
                                    done: seq<Scheduling.Call>)
    requires w < |waves| && done == Scheduling.Flatten(waves[..w]) && Scheduling.Flatten(waves) == scheduled
    requires |scheduled| == |calls| && forall i :: 0 <= i < |calls| ==> scheduled[i].id == i
    requires InBatch(calls, done) && InBatch(calls, waves[w].calls)
    ensures done + waves[w].calls == Scheduling.Flatten(waves[..w + 1]) && Follows(calls, done, waves[w])
  {
    assert waves[..w + 1][..w] == waves[..w];
    FlattenPrefix(waves, w + 1);
    var all := done + waves[w].calls;
    forall i | 0 <= i < |all| ensures all[i].id == i {
      assert all[i] == scheduled[i];
    }
  }

  /** The calls of a wave are calls of the batch. */
  lemma {:induction false} WaveIsScheduled(waves: seq<Scheduling.Wave>, w: nat)
    requires w < |waves|
    ensures forall i :: 0 <= i < |waves[w].calls| ==> waves[w].calls[i] in Scheduling.Flatten(waves)
  {
    var n := |waves| - 1;
    if w < n {
      WaveIsScheduled(waves[..n], w);
    }
  }

  lemma {:induction false} ExchangeIsNew(before: seq<Entry>, after: seq<Entry>, invoked: seq<Invocation>,
                                         recorded: map<nat, nat>, replies: map<nat, string>, k: nat)
    requires Answered(before, invoked, recorded, replies) && before <= after && |before| < |after|
    requires k < |invoked| && k !in recorded && k in replies
    requires after[|after| - 1] == Exchanged(Exchange(invoked[k].call, replies[k]))
    ensures Answered(after, invoked, recorded[k := |after| - 1], replies)
  {
  }
}
