/** What a remote run delivers is what its decoded events mean: nothing lost, added or reordered. */
module RemoteMeaning {
  import opened Json
  import opened Wrappers
  import opened RemoteSpec
  import opened RemoteLaws
  import Agui = AguiEvents
  import Spec = AguiSpec
  import Laws = AguiLaws

  // ---------------------------------------------------------------------------------------------
  // The meaning of a decoded trace
  // ---------------------------------------------------------------------------------------------

  /** What the host may see before the end. */
  datatype Line = Opened(responseId: string) | Said(delta: string) | Thought(delta: string) | Shown(projection: Projection)

  /** The last start of this message as the assistant's has no end after it. */
  ghost predicate Speaks(trace: seq<Agui.Event>, id: string) {
    exists i :: 0 <= i < |trace| && StartsSpeech(trace[i], id) && NoEndAfter(trace, i, id)
  }

  predicate StartsSpeech(e: Agui.Event, id: string) {
    e.TextStarted? && e.id == id && e.role.Assistant?
  }

  predicate NoEndAfter(trace: seq<Agui.Event>, i: nat, id: string) {
    forall j :: i < j < |trace| ==> trace[j] != Agui.TextEnded(id)
  }

  function LineIf(b: bool, line: Line): seq<Line> {
    if b then [line] else []
  }

  function Show(kind: ProjectionKind, key: Option<string>, detail: Option<string>, value: Value): seq<Line> {
    [Shown(Projection(kind, key, detail, value))]
  }

  predicate IsSnapshot(e: Agui.Event) {
    e.StateSnapshot? || e.StateDelta? || e.ActivitySnapshot? || e.ActivityDelta?
  }

  /** What `e` shows of the state its consumer then knows. */
  function Knowledge(v: Agui.View, e: Agui.Event): seq<Line>
    requires IsSnapshot(e)
  {
    if e.StateSnapshot? || e.StateDelta? then Show(StateKind, None, None, v.state)
    else if e.messageId in v.activities then
      Show(ActivityKind, Some(e.messageId), Some(e.activityType), v.activities[e.messageId].content)
    else []
  }

  /** What one more event means after `before`; the state shown is the one after it. */
  ghost function LinesOf(cfg: Config, state: Value, before: seq<Agui.Event>, e: Agui.Event): seq<Line> {
    match e
    case RunStarted => [Opened(cfg.responseId)]
    case TextDelta(id, delta) => LineIf(Speaks(before, id) && delta != "", Said(delta))
    case ReasoningDelta(_, delta) => LineIf(delta != "", Thought(delta))
    case ToolResult(messageId, callId, content) => Show(ToolResultKind, Some(callId), Some(messageId), Str(content))
    case StepStarted(name) => Show(StepStartedKind, Some(name), None, Null)
    case StepFinished(name) => Show(StepFinishedKind, Some(name), None, Null)
    case MessagesSnapshot(messages) => Show(MessagesKind, None, None, Array(messages))
    case Raw(source, event) => Show(RawKind, source, None, event)
    case Custom(name, value) => Show(CustomKind, Some(name), None, value)
    case _ =>
      if IsSnapshot(e) then Knowledge(Agui.AbsorbAll(cfg.context.lib, Agui.Initial(state), before + [e]), e) else []
  }

  ghost function Meaning(cfg: Config, state: Value, trace: seq<Agui.Event>): seq<Line> {
    if trace == [] then []
    else
      var front := trace[..|trace| - 1];
      Meaning(cfg, state, front) + LinesOf(cfg, state, front, trace[|trace| - 1])
  }

  function CallsOf(trace: seq<Agui.Event>): seq<Call> {
    if trace == [] then []
    else
      var before, e := CallsOf(trace[..|trace| - 1]), trace[|trace| - 1];
      if e.ToolCompleted? then before + [Call(IndexOf(|before|), e.id, e.name, e.arguments)] else before
  }

  ghost function ResultsOf(trace: seq<Agui.Event>): set<string> {
    set i | 0 <= i < |trace| && trace[i].ToolResult? :: trace[i].callId
  }

  // ---------------------------------------------------------------------------------------------
  // The account of what is delivered
  // ---------------------------------------------------------------------------------------------

  function LineOf(e: Event): seq<Line> {
    match e
    case ResponseStarted(id) => [Opened(id)]
    case TextDelta(_, delta) => [Said(delta)]
    case ReasoningDelta(_, delta) => [Thought(delta)]
    case RemoteProjection(p) => [Shown(p)]
    case _ => []
  }

  function Lines(es: seq<Event>): seq<Line> {
    if es == [] then [] else Lines(es[..|es| - 1]) + LineOf(es[|es| - 1])
  }

  /** What the session remembers of the trace. */
  ghost predicate Books(s: Session, trace: seq<Agui.Event>) {
    && s.completed == CallsOf(trace) && s.results == ResultsOf(trace)
    && forall id :: id in s.assistants <==> Speaks(trace, id)
  }

  /** All of the meaning, or the part that was delivered before a failure. */
  ghost predicate Account(cfg: Config, state: Value, s: Session, d: seq<Event>, trace: seq<Agui.Event>) {
    var es := d + s.pending;
    if HasFailed(es) then s.terminal && Lines(es) <= Meaning(cfg, state, trace)
    else Lines(es) == Meaning(cfg, state, trace) && Books(s, trace)
  }

  // ---------------------------------------------------------------------------------------------
  // One more event
  // ---------------------------------------------------------------------------------------------

  lemma {:induction false} LinesSnoc(es: seq<Event>, e: Event)
    ensures Lines(es + [e]) == Lines(es) + LineOf(e)
  {
    assert (es + [e])[..|es|] == es;
  }

  lemma {:induction false} LinesPrefix(a: seq<Event>, b: seq<Event>)
    ensures Lines(a) <= Lines(a + b)
  {
    if b == [] {
      assert a + b == a;
    } else {
      var front, e := b[..|b| - 1], b[|b| - 1];
      LinesPrefix(a, front);
      assert b == front + [e];
      Associative(a, front, [e]);
      LinesSnoc(a + front, e);
    }
  }

  lemma {:induction false} MeaningSnoc(cfg: Config, state: Value, trace: seq<Agui.Event>, e: Agui.Event)
    ensures Meaning(cfg, state, trace + [e]) == Meaning(cfg, state, trace) + LinesOf(cfg, state, trace, e)
  {
    assert (trace + [e])[..|trace|] == trace;
  }

  lemma {:induction false} MeaningPrefix(cfg: Config, state: Value, a: seq<Agui.Event>, b: seq<Agui.Event>)
    ensures Meaning(cfg, state, a) <= Meaning(cfg, state, a + b)
  {
    if b == [] {
      assert a + b == a;
    } else {
      var front, e := b[..|b| - 1], b[|b| - 1];
      MeaningPrefix(cfg, state, a, front);
      MeaningSnoc(cfg, state, a + front, e);
      assert a + b == (a + front) + [e];
    }
  }

  lemma {:induction false} SpeaksSnoc(trace: seq<Agui.Event>, e: Agui.Event, id: string)
    ensures Speaks(trace + [e], id) <==> StartsSpeech(e, id) || (Speaks(trace, id) && e != Agui.TextEnded(id))
  {
    var all := trace + [e];
    if Speaks(all, id) {
      var i :| 0 <= i < |all| && StartsSpeech(all[i], id) && NoEndAfter(all, i, id);
      if i < |trace| {
        assert forall j :: i < j < |trace| ==> trace[j] == all[j];
        assert NoEndAfter(trace, i, id) && all[|trace|] == e;
      }
    }
    if StartsSpeech(e, id) {
      assert all[|trace|] == e && NoEndAfter(all, |trace|, id);
    } else if Speaks(trace, id) && e != Agui.TextEnded(id) {
      var i :| 0 <= i < |trace| && StartsSpeech(trace[i], id) && NoEndAfter(trace, i, id);
      assert all[i] == trace[i] && NoEndAfter(all, i, id);
    }
  }

  lemma {:induction false} BooksSnoc(trace: seq<Agui.Event>, e: Agui.Event)
    ensures CallsOf(trace + [e]) ==
            if e.ToolCompleted? then CallsOf(trace) + [Call(IndexOf(|CallsOf(trace)|), e.id, e.name, e.arguments)]
            else CallsOf(trace)
    ensures ResultsOf(trace + [e]) == if e.ToolResult? then ResultsOf(trace) + {e.callId} else ResultsOf(trace)
  {
    var all := trace + [e];
    assert all[..|trace|] == trace;
    forall id ensures id in ResultsOf(all) <==> id in ResultsOf(trace) || (e.ToolResult? && id == e.callId) {
      if id in ResultsOf(trace) {
        var i :| 0 <= i < |trace| && trace[i].ToolResult? && trace[i].callId == id;
        assert all[i] == trace[i];
      }
      if e.ToolResult? && id == e.callId {
        assert all[|trace|] == e;
      }
    }
  }

  /** An event that the session keeps no book of. */
  predicate Unbooked(e: Agui.Event) {
    !e.TextStarted? && !e.TextEnded? && !e.ToolCompleted? && !e.ToolResult?
  }

  lemma {:induction false} UnbookedBooks(s: Session, trace: seq<Agui.Event>, e: Agui.Event)
    requires Books(s, trace) && Unbooked(e)
    ensures Books(s, trace + [e])
  {
    BooksSnoc(trace, e);
    forall id ensures Speaks(trace + [e], id) <==> Speaks(trace, id) {
      SpeaksSnoc(trace, e, id);
    }
  }

  /** No failure is pending on a session that goes on. */
  lemma {:induction false} NotFailed(cfg: Config, s: Session, d: seq<Event>)
    requires Kept(cfg, s, d) && !s.terminal
    ensures !HasFailed(d + s.pending)
  {
    var es := d + s.pending;
    assert es != [] ==> !IsTerminal(es[|es| - 1]);
  }

  lemma {:induction false} FailLines(d: seq<Event>, pending: seq<Event>, f: Failure)
    ensures Lines(d + [Failed(f)]) <= Lines(d + pending) && HasFailed(d + [Failed(f)])
  {
    LinesPrefix(d, pending);
    LinesSnoc(d, Failed(f));
    var none: seq<Line> := [];
    assert Lines(d) + none == Lines(d);
  }

  lemma {:induction false} FailMeans(cfg: Config, state: Value, s: Session, d: seq<Event>, trace: seq<Agui.Event>,
                                     more: seq<Agui.Event>, f: Failure)
    requires Kept(cfg, s, d) && !s.terminal && Account(cfg, state, s, d, trace)
    ensures Account(cfg, state, Fail(s, f), d, trace + more)
  {
    NotFailed(cfg, s, d);
    FailLines(d, s.pending, f);
    MeaningPrefix(cfg, state, trace, more);
  }

  /** One event that says one thing. */
  lemma {:induction false} PushMeans(cfg: Config, state: Value, s: Session, t: Session, d: seq<Event>,
                                     trace: seq<Agui.Event>, e: Agui.Event, ev: Event)
    requires Kept(cfg, s, d) && !s.terminal && Account(cfg, state, s, d, trace)
    requires t.pending == s.pending + [ev] && !ev.Failed? && Books(t, trace + [e])
    requires LinesOf(cfg, state, trace, e) == LineOf(ev)
    ensures Account(cfg, state, t, d, trace + [e])
  {
    NotFailed(cfg, s, d);
    Associative(d, s.pending, [ev]);
    LinesSnoc(d + s.pending, ev);
    MeaningSnoc(cfg, state, trace, e);
  }

  /** One event that says nothing. */
  lemma {:induction false} SilentMeans(cfg: Config, state: Value, s: Session, t: Session, d: seq<Event>,
                                       trace: seq<Agui.Event>, e: Agui.Event)
    requires Kept(cfg, s, d) && !s.terminal && Account(cfg, state, s, d, trace)
    requires t.pending == s.pending && Books(t, trace + [e]) && LinesOf(cfg, state, trace, e) == []
    ensures Account(cfg, state, t, d, trace + [e])
  {
    NotFailed(cfg, s, d);
    MeaningSnoc(cfg, state, trace, e);
  }

  lemma {:induction false} ShownMeans(cfg: Config, state: Value, s: Session, d: seq<Event>, trace: seq<Agui.Event>,
                                      e: Agui.Event, p: Projection)
    requires Kept(cfg, s, d) && !s.terminal && Account(cfg, state, s, d, trace) && Books(s, trace + [e])
    requires LinesOf(cfg, state, trace, e) == [Shown(p)] && Affordable(cfg, s, p)
    ensures Account(cfg, state, PushProjection(cfg, s, p), d, trace + [e])
  {
    assert LineOf(RemoteProjection(p)) == [Shown(p)];
    PushMeans(cfg, state, s, PushProjection(cfg, s, p), d, trace, e, RemoteProjection(p));
  }

  lemma {:induction false} ProjectionMeans(cfg: Config, state: Value, s: Session, d: seq<Event>,
                                           trace: seq<Agui.Event>, e: Agui.Event, p: Projection)
    requires Kept(cfg, s, d) && !s.terminal && Account(cfg, state, s, d, trace)
    requires Unbooked(e) && LinesOf(cfg, state, trace, e) == [Shown(p)]
    ensures Account(cfg, state, PushProjection(cfg, s, p), d, trace + [e])
  {
    NotFailed(cfg, s, d);
    if Affordable(cfg, s, p) {
      UnbookedBooks(s, trace, e);
      ShownMeans(cfg, state, s, d, trace, e, p);
    } else {
      FailMeans(cfg, state, s, d, trace, [e], InvalidResponse);
    }
  }

  lemma {:induction false} ResultBooks(s: Session, trace: seq<Agui.Event>, e: Agui.Event, t: Session)
    requires Books(s, trace) && (e.ToolResult? || e.ToolCompleted?) && t.assistants == s.assistants
    requires t.results == if e.ToolResult? then s.results + {e.callId} else s.results
    requires t.completed ==
             if e.ToolCompleted? then s.completed + [Call(IndexOf(|s.completed|), e.id, e.name, e.arguments)] else s.completed
    ensures Books(t, trace + [e])
  {
    BooksSnoc(trace, e);
    forall id ensures Speaks(trace + [e], id) <==> Speaks(trace, id) {
      SpeaksSnoc(trace, e, id);
    }
  }

  lemma {:induction false} ToolResultMeans(cfg: Config, state: Value, s: Session, d: seq<Event>,
                                           trace: seq<Agui.Event>, e: Agui.Event)
    requires Kept(cfg, s, d) && !s.terminal && Account(cfg, state, s, d, trace) && e.ToolResult?
    ensures Account(cfg, state, Accept(cfg, s, e), d, trace + [e])
  {
    NotFailed(cfg, s, d);
    AcceptCall(cfg, s, e);
    var p := Projection(ToolResultKind, Some(e.callId), Some(e.messageId), Str(e.content));
    if Answerable(cfg, s, e.callId) && Affordable(cfg, s, p) {
      var t := PushProjection(cfg, s, p).(results := s.results + {e.callId});
      ResultBooks(s, trace, e, t);
      PushMeans(cfg, state, s, t, d, trace, e, RemoteProjection(p));
    } else {
      FailMeans(cfg, state, s, d, trace, [e], InvalidResponse);
    }
  }

  lemma {:induction false} ToolCompletedMeans(cfg: Config, state: Value, s: Session, d: seq<Event>,
                                              trace: seq<Agui.Event>, e: Agui.Event)
    requires Kept(cfg, s, d) && !s.terminal && Account(cfg, state, s, d, trace) && e.ToolCompleted?
    ensures Account(cfg, state, Accept(cfg, s, e), d, trace + [e])
  {
    NotFailed(cfg, s, d);
    AcceptCall(cfg, s, e);
    ResultBooks(s, trace, e, Accept(cfg, s, e));
    SilentMeans(cfg, state, s, Accept(cfg, s, e), d, trace, e);
  }

  lemma {:induction false} BracketBooks(cfg: Config, s: Session, trace: seq<Agui.Event>, e: Agui.Event)
    requires Books(s, trace) && (e.TextStarted? || e.TextEnded?)
    ensures Books(Accept(cfg, s, e), trace + [e])
  {
    BooksSnoc(trace, e);
    forall id ensures id in Accept(cfg, s, e).assistants <==> Speaks(trace + [e], id) {
      SpeaksSnoc(trace, e, id);
    }
  }

  lemma {:induction false} TextBracketMeans(cfg: Config, state: Value, s: Session, d: seq<Event>,
                                            trace: seq<Agui.Event>, e: Agui.Event)
    requires Kept(cfg, s, d) && !s.terminal && Account(cfg, state, s, d, trace) && (e.TextStarted? || e.TextEnded?)
    ensures Account(cfg, state, Accept(cfg, s, e), d, trace + [e])
  {
    NotFailed(cfg, s, d);
    BracketBooks(cfg, s, trace, e);
    SilentMeans(cfg, state, s, Accept(cfg, s, e), d, trace, e);
  }

  lemma {:induction false} StartMeans(cfg: Config, state: Value, s: Session, d: seq<Event>, trace: seq<Agui.Event>, e: Agui.Event)
    requires Kept(cfg, s, d) && !s.terminal && Account(cfg, state, s, d, trace) && e.RunStarted?
    ensures Account(cfg, state, Accept(cfg, s, e), d, trace + [e])
  {
    NotFailed(cfg, s, d);
    UnbookedBooks(s, trace, e);
    PushMeans(cfg, state, s, Accept(cfg, s, e), d, trace, e, ResponseStarted(cfg.responseId));
  }

  lemma {:induction false} TextDeltaMeans(cfg: Config, state: Value, s: Session, d: seq<Event>,
                                          trace: seq<Agui.Event>, e: Agui.Event)
    requires Kept(cfg, s, d) && !s.terminal && Account(cfg, state, s, d, trace) && e.TextDelta?
    ensures Account(cfg, state, Accept(cfg, s, e), d, trace + [e])
  {
    NotFailed(cfg, s, d);
    UnbookedBooks(s, trace, e);
    if e.id in s.assistants && e.delta != "" {
      PushMeans(cfg, state, s, Accept(cfg, s, e), d, trace, e, TextDelta(0, e.delta));
    } else {
      SilentMeans(cfg, state, s, s, d, trace, e);
    }
  }

  lemma {:induction false} ReasoningDeltaMeans(cfg: Config, state: Value, s: Session, d: seq<Event>,
                                               trace: seq<Agui.Event>, e: Agui.Event)
    requires Kept(cfg, s, d) && !s.terminal && Account(cfg, state, s, d, trace) && e.ReasoningDelta?
    ensures Account(cfg, state, Accept(cfg, s, e), d, trace + [e])
  {
    NotFailed(cfg, s, d);
    UnbookedBooks(s, trace, e);
    if e.delta != "" {
      PushMeans(cfg, state, s, Accept(cfg, s, e), d, trace, e, ReasoningDelta(0, e.delta));
    } else {
      SilentMeans(cfg, state, s, s, d, trace, e);
    }
  }

  lemma {:induction false} LocalMeans(cfg: Config, state: Value, s: Session, d: seq<Event>, trace: seq<Agui.Event>, e: Agui.Event)
    requires Kept(cfg, s, d) && !s.terminal && Account(cfg, state, s, d, trace) && IsProjected(e) && !IsSnapshot(e)
    ensures Account(cfg, state, Accept(cfg, s, e), d, trace + [e])
  {
    AcceptProjected(cfg, s, e);
    ProjectionMeans(cfg, state, s, d, trace, e, Projected(s, e));
  }

  /** A projection of the state shows it as it is right after its event. */
  lemma {:induction false} SnapshotMeans(cfg: Config, state: Value, s: Session, d: seq<Event>,
                                         trace: seq<Agui.Event>, e: Agui.Event)
    requires Kept(cfg, s, d) && !s.terminal && Account(cfg, state, s, d, trace) && IsSnapshot(e)
    requires s.decoder.view == Agui.AbsorbAll(cfg.context.lib, Agui.Initial(state), trace + [e])
    ensures Account(cfg, state, Accept(cfg, s, e), d, trace + [e])
  {
    if e.StateSnapshot? || e.StateDelta? {
      AcceptProjected(cfg, s, e);
      ProjectionMeans(cfg, state, s, d, trace, e, Projected(s, e));
    } else {
      AcceptCall(cfg, s, e);
      if e.messageId in s.decoder.view.activities {
        ProjectionMeans(cfg, state, s, d, trace, e,
          Projection(ActivityKind, Some(e.messageId), Some(e.activityType), s.decoder.view.activities[e.messageId].content));
      } else {
        FailMeans(cfg, state, s, d, trace, [e], InvalidResponse);
      }
    }
  }

  lemma {:induction false} NoLine(es: seq<Event>, a: seq<Event>, e: Event)
    requires LineOf(e) == []
    ensures Lines(es + (a + [e])) == Lines(es + a)
  {
    Associative(es, a, [e]);
    LinesSnoc(es + a, e);
    var none: seq<Line> := [];
    assert Lines(es + a) + none == Lines(es + a);
  }

  lemma {:induction false} ReleasedLast(calls: seq<Call>, results: set<string>)
    requires calls != []
    ensures var call, before := calls[|calls| - 1], Released(calls[..|calls| - 1], results);
            Released(calls, results) ==
            if call.callId in results then before
            else before + [ToolCallCompleted(call.index, call.callId, call.name, call.arguments)]
  {
  }

  lemma {:induction false} ReleasedLines(calls: seq<Call>, results: set<string>, es: seq<Event>)
    ensures Lines(es + Released(calls, results)) == Lines(es)
  {
    if calls == [] {
      assert es + Released(calls, results) == es;
    } else {
      var call := calls[|calls| - 1];
      ReleasedLines(calls[..|calls| - 1], results, es);
      ReleasedLast(calls, results);
      NoLine(es, Released(calls[..|calls| - 1], results),
        ToolCallCompleted(call.index, call.callId, call.name, call.arguments));
    }
  }

  lemma {:induction false} CompleteLines(s: Session, d: seq<Event>)
    ensures Lines(d + (s.pending + Released(s.completed, s.results) + [Completed])) == Lines(d + s.pending)
  {
    var released := Released(s.completed, s.results);
    Associative(d, s.pending, released);
    Associative(d, s.pending + released, [Completed]);
    ReleasedLines(s.completed, s.results, d + s.pending);
    LinesSnoc(d + s.pending + released, Completed);
    var none: seq<Line> := [];
    assert Lines(d + s.pending) + none == Lines(d + s.pending);
  }

  lemma {:induction false} CompleteMeans(cfg: Config, state: Value, s: Session, d: seq<Event>, trace: seq<Agui.Event>)
    requires Kept(cfg, s, d) && !s.terminal && Account(cfg, state, s, d, trace)
    ensures Account(cfg, state, Complete(cfg, s), d, trace + [Agui.RunFinished])
  {
    NotFailed(cfg, s, d);
    if AllOffered(cfg, s.completed) {
      CompleteLines(s, d);
      UnbookedBooks(s, trace, Agui.RunFinished);
      MeaningSnoc(cfg, state, trace, Agui.RunFinished);
    } else {
      FailMeans(cfg, state, s, d, trace, [Agui.RunFinished], InvalidResponse);
    }
  }

  lemma {:induction false} EndMeans(cfg: Config, state: Value, s: Session, d: seq<Event>, trace: seq<Agui.Event>, e: Agui.Event)
    requires Kept(cfg, s, d) && !s.terminal && Account(cfg, state, s, d, trace) && Agui.IsTerminal(e)
    ensures Account(cfg, state, Accept(cfg, s, e), d, trace + [e])
  {
    match e
    case RunFinished => CompleteMeans(cfg, state, s, d, trace);
    case RunInterrupted(interrupts) =>
      if cfg.batch(interrupts) {
        NotFailed(cfg, s, d);
        UnbookedBooks(s, trace, e);
        PushMeans(cfg, state, s, Accept(cfg, s, e), d, trace, e, Interrupted(cfg.context.runId, interrupts));
      } else {
        FailMeans(cfg, state, s, d, trace, [e], InvalidResponse);
      }
    case RunError(_, _) => FailMeans(cfg, state, s, d, trace, [e], GenerationFailed);
  }

  lemma {:induction false} AcceptMeans(cfg: Config, state: Value, s: Session, d: seq<Event>, trace: seq<Agui.Event>,
                                       e: Agui.Event)
    requires Kept(cfg, s, d) && !s.terminal && Account(cfg, state, s, d, trace)
    requires IsSnapshot(e) ==> s.decoder.view == Agui.AbsorbAll(cfg.context.lib, Agui.Initial(state), trace + [e])
    ensures Account(cfg, state, Accept(cfg, s, e), d, trace + [e])
  {
    if Agui.IsTerminal(e) {
      EndMeans(cfg, state, s, d, trace, e);
    } else if e.RunStarted? {
      StartMeans(cfg, state, s, d, trace, e);
    } else if e.TextDelta? {
      TextDeltaMeans(cfg, state, s, d, trace, e);
    } else if e.ReasoningDelta? {
      ReasoningDeltaMeans(cfg, state, s, d, trace, e);
    } else if e.TextStarted? || e.TextEnded? {
      TextBracketMeans(cfg, state, s, d, trace, e);
    } else if e.ToolResult? {
      ToolResultMeans(cfg, state, s, d, trace, e);
    } else if e.ToolCompleted? {
      ToolCompletedMeans(cfg, state, s, d, trace, e);
    } else if IsSnapshot(e) {
      SnapshotMeans(cfg, state, s, d, trace, e);
    } else if IsProjected(e) {
      LocalMeans(cfg, state, s, d, trace, e);
    } else {
      NotFailed(cfg, s, d);
      UnbookedBooks(s, trace, e);
      SilentMeans(cfg, state, s, Accept(cfg, s, e), d, trace, e);
    }
  }

  // ---------------------------------------------------------------------------------------------
  // The events of one input
  // ---------------------------------------------------------------------------------------------

  /** It ends the run, or changes what is projected of the state. */
  predicate IsChange(e: Agui.Event) {
    IsSnapshot(e) || Agui.IsTerminal(e)
  }

  /** Only the last event of an input may be a change. */
  predicate OneChange(es: seq<Agui.Event>) {
    forall i :: 0 <= i < |es| - 1 ==> !IsChange(es[i])
  }

  predicate NoChange(es: seq<Agui.Event>) {
    forall i :: 0 <= i < |es| ==> !IsChange(es[i])
  }

  predicate NoneChanges(r: Spec.Outcome) {
    r.Ok? ==> NoChange(r.value.out)
  }

  /** One event, or none that is a change. */
  predicate Single(r: Spec.Outcome) {
    r.Ok? ==> |r.value.out| == 1 || NoChange(r.value.out)
  }

  lemma {:induction false} ClosesChangeNothing(c: Spec.Context, s: Spec.State)
    ensures NoneChanges(Spec.CloseText(c, s)) && NoneChanges(Spec.CloseTool(c, s)) && NoneChanges(Spec.CloseReasoning(c, s))
  {
  }

  lemma {:induction false} CloseBeforeChangesNothing(c: Spec.Context, s: Spec.State, tag: Spec.Tag)
    ensures NoneChanges(Spec.CloseBefore(c, s, tag))
  {
    ClosesChangeNothing(c, s);
    var a := if tag.TagTextChunk? then Spec.Nothing(s) else Spec.CloseText(c, s);
    if a.Ok? {
      ClosesChangeNothing(c, a.value.state);
      var b := if tag.TagToolChunk? then Spec.Nothing(a.value.state) else Spec.CloseTool(c, a.value.state);
      if b.Ok? {
        ClosesChangeNothing(c, b.value.state);
      }
    }
  }

  lemma {:induction false} TextChunkSingle(c: Spec.Context, s: Spec.State, o: Fields)
    ensures NoneChanges(Spec.TextChunk(c, s, o))
  {
    var incoming := Spec.OptionalString(o, "messageId");
    ClosesChangeNothing(c, s);
    if incoming.Ok? {
      var begun := if incoming.value.Some? && s.text != incoming.value
                   then Spec.OpenTextChunk(c, s, incoming.value.value, o) else Spec.Nothing(s);
      assert NoneChanges(begun);
      if begun.Ok? {
        ClosesChangeNothing(c, begun.value.state);
      }
    }
  }

  lemma {:induction false} TextSingle(c: Spec.Context, s: Spec.State, tag: Spec.Tag, o: Fields)
    ensures Single(Spec.Texts(c, s, tag, o))
  {
    TextChunkSingle(c, s, o);
  }

  lemma {:induction false} ToolOpensSingle(c: Spec.Context, s: Spec.State, id: string, o: Fields)
    ensures NoneChanges(Spec.OpenToolChunk(c, s, id, o))
  {
    ClosesChangeNothing(c, s);
  }

  lemma {:induction false} ToolChunkSingle(c: Spec.Context, s: Spec.State, o: Fields)
    ensures NoneChanges(Spec.ToolChunk(c, s, o))
  {
    var incoming := Spec.OptionalString(o, "toolCallId");
    if incoming.Ok? {
      var begun := if incoming.value.Some? && s.tool != incoming.value
                   then Spec.OpenToolChunk(c, s, incoming.value.value, o) else Spec.Nothing(s);
      if incoming.value.Some? {
        ToolOpensSingle(c, s, incoming.value.value, o);
      }
      if begun.Ok? {
        ClosesChangeNothing(c, begun.value.state);
      }
    }
  }

  lemma {:induction false} ToolSingle(c: Spec.Context, s: Spec.State, tag: Spec.Tag, o: Fields)
    ensures Single(Spec.Tools(c, s, tag, o))
  {
    ToolChunkSingle(c, s, o);
  }

  lemma {:induction false} ReasoningChunkSingle(c: Spec.Context, s: Spec.State, o: Fields)
    ensures NoneChanges(Spec.ReasoningChunk(c, s, o))
  {
    var incoming := Spec.OptionalString(o, "messageId");
    ClosesChangeNothing(c, s);
    if incoming.Ok? {
      var begun := if incoming.value.Some? && s.reasoning != incoming.value
                   then Spec.OpenReasoningChunk(c, s, incoming.value.value) else Spec.Nothing(s);
      assert NoneChanges(begun);
      if begun.Ok? {
        ClosesChangeNothing(c, begun.value.state);
      }
    }
  }

  lemma {:induction false} MessageSingle(c: Spec.Context, s: Spec.State, tag: Spec.Tag, o: Fields)
    ensures Single(Spec.ReasoningMessages(c, s, tag, o))
  {
    ReasoningChunkSingle(c, s, o);
  }

  lemma {:induction false} OtherSingle(c: Spec.Context, s: Spec.State, tag: Spec.Tag, o: Fields)
    ensures Single(Spec.Lifecycle(c, s, tag, o)) && Single(Spec.Projections(c, s, tag, o))
    ensures Single(Spec.Activities(c, s, tag, o)) && Single(Spec.ReasoningRuns(c, s, tag, o))
  {
  }

  lemma {:induction false} DispatchSingle(c: Spec.Context, s: Spec.State, tag: Spec.Tag, o: Fields)
    ensures Single(Spec.Dispatch(c, s, tag, o))
  {
    match Spec.FamilyOf(tag)
    case TextFamily => TextSingle(c, s, tag, o);
    case ToolFamily => ToolSingle(c, s, tag, o);
    case MessageFamily => MessageSingle(c, s, tag, o);
    case _ => OtherSingle(c, s, tag, o);
  }

  lemma {:induction false} IngestOneChange(c: Spec.Context, s: Spec.State, text: string)
    ensures Spec.Ingest(c, s, text).Ok? ==> OneChange(Spec.Ingest(c, s, text).value.out)
  {
    var r := Spec.Ingest(c, s, text);
    if r.Ok? {
      var o := Spec.ParseData(c, s, text).value;
      var tag := Spec.TagOf(o).value;
      CloseBeforeChangesNothing(c, s, tag);
      var closed := (if tag.TagRunError? then Spec.Nothing(s) else Spec.CloseBefore(c, s, tag)).value;
      DispatchSingle(c, closed.state, tag, o);
      assert r == Spec.After(closed.out, Spec.Dispatch(c, closed.state, tag, o));
    }
  }

  lemma {:induction false} AccountMore(cfg: Config, state: Value, s: Session, d: seq<Event>, trace: seq<Agui.Event>,
                                       more: seq<Agui.Event>)
    requires Account(cfg, state, s, d, trace) && HasFailed(d + s.pending)
    ensures Account(cfg, state, s, d, trace + more)
  {
    MeaningPrefix(cfg, state, trace, more);
  }

  /** Only a failure or the end of the run ends a session. */
  lemma {:induction false} EndsOnlyWith(cfg: Config, s: Session, d: seq<Event>, e: Agui.Event)
    requires !s.terminal && !Agui.IsTerminal(e) && Accept(cfg, s, e).terminal
    ensures HasFailed(d + Accept(cfg, s, e).pending)
  {
  }

  /** A session that still accepts, or has failed, or has nothing left to accept. */
  ghost predicate Accepting(cfg: Config, state: Value, s: Session, d: seq<Event>, trace: seq<Agui.Event>, es: seq<Agui.Event>) {
    && Kept(cfg, s, d) && Account(cfg, state, s, d, trace) && OneChange(es)
    && (s.terminal ==> HasFailed(d + s.pending) || es == [])
    && s.decoder.view == Agui.AbsorbAll(cfg.context.lib, Agui.Initial(state), trace + es)
  }

  lemma {:induction false} ShiftView(trace: seq<Agui.Event>, es: seq<Agui.Event>)
    requires es != []
    ensures trace + es == (trace + [es[0]]) + es[1..] && (es[1..] == [] ==> trace + es == trace + [es[0]])
    ensures OneChange(es) ==> OneChange(es[1..]) && (es[1..] != [] ==> !IsChange(es[0]))
  {
  }

  lemma {:induction false} AcceptOne(cfg: Config, state: Value, s: Session, d: seq<Event>, trace: seq<Agui.Event>,
                                     es: seq<Agui.Event>)
    requires Accepting(cfg, state, s, d, trace, es) && es != [] && !s.terminal
    ensures Accepting(cfg, state, Accept(cfg, s, es[0]), d, trace + [es[0]], es[1..])
  {
    var e, rest := es[0], es[1..];
    ShiftView(trace, es);
    AcceptMeans(cfg, state, s, d, trace, e);
    AcceptKept(cfg, s, d, e);
    AcceptFrame(cfg, s, e);
    if Accept(cfg, s, e).terminal && rest != [] {
      EndsOnlyWith(cfg, s, d, e);
    }
  }

  lemma {:induction false} Shift<T>(trace: seq<T>, es: seq<T>)
    requires es != []
    ensures trace + es == (trace + [es[0]]) + es[1..]
  {
  }

  lemma {:induction false} Stopped(cfg: Config, state: Value, s: Session, d: seq<Event>, trace: seq<Agui.Event>,
                                   es: seq<Agui.Event>)
    requires Accepting(cfg, state, s, d, trace, es) && (es == [] || s.terminal)
    ensures Account(cfg, state, s, d, trace + es)
  {
    if es == [] {
      assert trace + es == trace;
    } else {
      AccountMore(cfg, state, s, d, trace, es);
    }
  }

  lemma {:induction false} AcceptAllMeans(cfg: Config, state: Value, s: Session, d: seq<Event>,
                                          trace: seq<Agui.Event>, es: seq<Agui.Event>)
    requires Accepting(cfg, state, s, d, trace, es)
    ensures Account(cfg, state, AcceptAll(cfg, s, es), d, trace + es)
    decreases |es|
  {
    if es == [] || s.terminal {
      Stopped(cfg, state, s, d, trace, es);
    } else {
      AcceptOne(cfg, state, s, d, trace, es);
      Shift(trace, es);
      AcceptAllMeans(cfg, state, Accept(cfg, s, es[0]), d, trace + [es[0]], es[1..]);
    }
  }

  // ---------------------------------------------------------------------------------------------
  // Whole runs
  // ---------------------------------------------------------------------------------------------

  /** Everything decoded from what the transport has answered. */
  function Heard(c: Spec.Context, s: Spec.State, answers: seq<Answer>): Spec.Step {
    if answers == [] then Spec.Step(s, [])
    else
      var before, a := Heard(c, s, answers[..|answers| - 1]), answers[|answers| - 1];
      if a.Data? && Spec.Ingest(c, before.state, a.text).Ok? then
        var step := Spec.Ingest(c, before.state, a.text).value;
        Spec.Step(step.state, before.out + step.out)
      else before
  }

  /** The session is where the answers given so far have brought it. */
  ghost predicate Faithful(cfg: Config, state: Value, s: Session, d: seq<Event>, answers: seq<Answer>) {
    var heard := Heard(cfg.context, Spec.Start(state), answers);
    && Kept(cfg, s, d) && Ready(s) && Account(cfg, state, s, d, heard.out)
    && heard.state.view == Agui.AbsorbAll(cfg.context.lib, Agui.Initial(state), heard.out)
    && (!s.terminal ==> s.decoder == heard.state)
  }

  lemma {:induction false} HeardSnoc(c: Spec.Context, s: Spec.State, answers: seq<Answer>, a: Answer)
    ensures var before := Heard(c, s, answers);
            Heard(c, s, answers + [a]) ==
            if a.Data? && Spec.Ingest(c, before.state, a.text).Ok? then
              Spec.Step(Spec.Ingest(c, before.state, a.text).value.state, before.out + Spec.Ingest(c, before.state, a.text).value.out)
            else before
  {
    assert (answers + [a])[..|answers|] == answers;
  }

  lemma {:induction false} DataFaithful(cfg: Config, state: Value, s: Session, d: seq<Event>, answers: seq<Answer>, text: string)
    requires Faithful(cfg, state, s, d, answers) && !s.terminal
    ensures Faithful(cfg, state, Receive(cfg, s, Data(text)), d, answers + [Data(text)])
  {
    var heard := Heard(cfg.context, Spec.Start(state), answers);
    HeardSnoc(cfg.context, Spec.Start(state), answers, Data(text));
    ReceiveData(cfg, s, text, d);
    var r := Spec.Ingest(cfg.context, s.decoder, text);
    if r.Ok? {
      IngestReady(cfg.context, s.decoder, text);
      IngestOneChange(cfg.context, s.decoder, text);
      Agui.AbsorbJoin(cfg.context.lib, Agui.Initial(state), heard.out, r.value.out);
      var t := s.(decoder := r.value.state);
      SameKept(cfg, s, t, d);
      AcceptAllMeans(cfg, state, t, d, heard.out, r.value.out);
      AcceptAllKept(cfg, t, d, r.value.out);
    } else {
      FailMeans(cfg, state, s, d, heard.out, [], InvalidResponse);
      assert heard.out + [] == heard.out;
    }
  }

  lemma {:induction false} FatalHeard(cfg: Config, state: Value, s: Session, d: seq<Event>, answers: seq<Answer>, a: Answer)
    requires Faithful(cfg, state, s, d, answers) && IsFatal(a)
    ensures Faithful(cfg, state, s, d, answers + [a])
  {
    HeardSnoc(cfg.context, Spec.Start(state), answers, a);
  }

  lemma {:induction false} BrokenFaithful(cfg: Config, state: Value, s: Session, d: seq<Event>, answers: seq<Answer>, a: Answer)
    requires Faithful(cfg, state, s, d, answers) && !s.terminal && !IsFatal(a) && !a.Data?
    ensures Faithful(cfg, state, Receive(cfg, s, a), d, answers + [a])
  {
    HeardSnoc(cfg.context, Spec.Start(state), answers, a);
    var heard := Heard(cfg.context, Spec.Start(state), answers);
    ReceiveKept(cfg, s, a, d);
    assert heard.out + [] == heard.out;
    if a.End? {
      EndFails(cfg.context, s.decoder);
      EndedKept(cfg, s, d);
      FailMeans(cfg, state, s.(ended := true), d, heard.out, [], InvalidResponse);
    } else {
      FailMeans(cfg, state, s, d, heard.out, [], FailureOf(a.error));
    }
  }

  lemma {:induction false} AnswerFaithful(cfg: Config, state: Value, s: Session, d: seq<Event>, answers: seq<Answer>, a: Answer)
    requires Faithful(cfg, state, s, d, answers) && !s.terminal && !IsFatal(a)
    ensures Faithful(cfg, state, Receive(cfg, s, a), d, answers + [a])
  {
    if a.Data? {
      DataFaithful(cfg, state, s, d, answers, a.text);
    } else {
      BrokenFaithful(cfg, state, s, d, answers, a);
    }
  }

  /** The answers one call takes from the transport, whose script is followed by the end of the stream. */
  function Asked(cfg: Config, s: Session, script: seq<Answer>): seq<Answer>
    decreases |script|, !s.ended
  {
    if s.pending != [] || s.terminal || s.ended then []
    else
      var a := First(script);
      [a] + if IsFatal(a) then [] else Asked(cfg, Receive(cfg, s, a), Rest(script))
  }

  /** The answers `n` calls take. */
  function AskedBy(cfg: Config, s: Session, script: seq<Answer>, n: nat): seq<Answer> {
    if n == 0 then []
    else
      var before := Calls(cfg, s, script, n - 1);
      AskedBy(cfg, s, script, n - 1) + Asked(cfg, before.session, before.script)
  }

  ghost predicate FaithfulReply(cfg: Config, state: Value, reply: Reply, d: seq<Event>, answers: seq<Answer>) {
    match reply.answer
    case Ok(Some(e)) => Faithful(cfg, state, reply.session, d + [e], answers)
    case _ => Faithful(cfg, state, reply.session, d, answers)
  }

  lemma {:induction false} PopAccount(cfg: Config, state: Value, s: Session, t: Session, d: seq<Event>,
                                      e: seq<Event>, trace: seq<Agui.Event>)
    requires Account(cfg, state, s, d, trace) && s == t.(pending := e + t.pending)
    ensures Account(cfg, state, t, d + e, trace)
  {
    Associative(d, e, t.pending);
  }

  lemma {:induction false} PopFaithful(cfg: Config, state: Value, s: Session, d: seq<Event>, answers: seq<Answer>)
    requires Faithful(cfg, state, s, d, answers) && s.pending != []
    ensures Faithful(cfg, state, s.(pending := s.pending[1..]), d + [s.pending[0]], answers)
  {
    PopKept(cfg, s, d);
    var t := s.(pending := s.pending[1..]);
    assert s.pending == [s.pending[0]] + t.pending;
    PopAccount(cfg, state, s, t, d, [s.pending[0]], Heard(cfg.context, Spec.Start(state), answers).out);
  }

  lemma {:induction false} NothingAsked(cfg: Config, s: Session, script: seq<Answer>)
    requires s.pending != [] || s.terminal || s.ended
    ensures Asked(cfg, s, script) == [] && NextEvent(cfg, s, script).script == script
    ensures Over(NextEvent(cfg, s, script).session) == Over(s)
  {
  }

  /** Nothing is asked of the transport any more. */
  predicate Over(s: Session) {
    s.terminal || s.ended
  }

  predicate Asks(s: Session) {
    s.pending == [] && !s.terminal && !s.ended
  }

  lemma {:induction false} OneAsked(cfg: Config, s: Session, script: seq<Answer>)
    requires Asks(s) && !IsFatal(First(script))
    ensures var t := Receive(cfg, s, First(script));
            && NextEvent(cfg, s, script) == NextEvent(cfg, t, Rest(script))
            && Asked(cfg, s, script) == [First(script)] + Asked(cfg, t, Rest(script))
  {
  }

  /** A call that asks nothing delivers what is pending, or nothing. */
  lemma {:induction false} QuietFaithful(cfg: Config, state: Value, s: Session, script: seq<Answer>, d: seq<Event>,
                                         answers: seq<Answer>)
    requires Faithful(cfg, state, s, d, answers) && !Asks(s)
    ensures FaithfulReply(cfg, state, NextEvent(cfg, s, script), d, answers)
  {
    if s.pending != [] {
      PopFaithful(cfg, state, s, d, answers);
    }
  }

  lemma {:induction false} FatalFaithful(cfg: Config, state: Value, s: Session, script: seq<Answer>, d: seq<Event>,
                                         answers: seq<Answer>)
    requires Faithful(cfg, state, s, d, answers) && Asks(s) && IsFatal(First(script))
    ensures FaithfulReply(cfg, state, NextEvent(cfg, s, script), d, answers + Asked(cfg, s, script))
  {
    FatalHeard(cfg, state, s, d, answers, First(script));
  }

  lemma {:induction false} NextEventFaithful(cfg: Config, state: Value, s: Session, script: seq<Answer>, d: seq<Event>,
                                             answers: seq<Answer>, all: seq<Answer>)
    requires Faithful(cfg, state, s, d, answers) && all == answers + Asked(cfg, s, script)
    ensures FaithfulReply(cfg, state, NextEvent(cfg, s, script), d, all)
    decreases |script|, !s.ended
  {
    var a := First(script);
    if !Asks(s) {
      QuietFaithful(cfg, state, s, script, d, answers);
      NothingAsked(cfg, s, script);
      assert answers + [] == answers;
    } else if IsFatal(a) {
      FatalFaithful(cfg, state, s, script, d, answers);
    } else {
      var t := Receive(cfg, s, a);
      AnswerFaithful(cfg, state, s, d, answers, a);
      OneAsked(cfg, s, script);
      Associative(answers, [a], Asked(cfg, t, Rest(script)));
      NextEventFaithful(cfg, state, t, Rest(script), d, answers + [a], all);
    }
  }

  lemma {:induction false} InitialFaithful(cfg: Config, state: Value)
    ensures Faithful(cfg, state, Initial(state), [], [])
  {
  }

  /**
   * After any number of calls on any transport: what was delivered and what is pending is the meaning
   * of everything heard, or the part of it that came before a failure; the calls and the remote
   * results on the books are those heard.
   */
  lemma {:induction false} RunFaithful(cfg: Config, state: Value, script: seq<Answer>, n: nat)
    ensures var run := Calls(cfg, Initial(state), script, n);
            Faithful(cfg, state, run.session, Delivered(run.replies), AskedBy(cfg, Initial(state), script, n))
  {
    if n == 0 {
      InitialFaithful(cfg, state);
    } else {
      RunFaithful(cfg, state, script, n - 1);
      var before := Calls(cfg, Initial(state), script, n - 1);
      var answers := AskedBy(cfg, Initial(state), script, n - 1);
      var reply := NextEvent(cfg, before.session, before.script);
      var all := AskedBy(cfg, Initial(state), script, n);
      NextEventFaithful(cfg, state, before.session, before.script, Delivered(before.replies), answers, all);
      DeliveredSnoc(before.replies, reply.answer);
    }
  }

  /** Answers are taken in the order of the script, each once; the end is asked for at most once. */
  ghost predicate InOrder(asked: seq<Answer>, left: seq<Answer>, script: seq<Answer>, over: bool) {
    asked + left == script || (left == [] && asked == script + [End] && over)
  }

  lemma {:induction false} OneMoreAsked(a: Answer, asked: seq<Answer>, left: seq<Answer>, script: seq<Answer>, over: bool)
    requires a == First(script) && InOrder(asked, left, Rest(script), over)
    requires script == [] ==> asked == [] && left == [] && over
    ensures InOrder([a] + asked, left, script, over)
  {
    if script != [] {
      assert script == [a] + Rest(script);
      Associative([a], asked, left);
      Associative([a], Rest(script), [End]);
    }
  }

  lemma {:induction false} InOrderJoin(answers: seq<Answer>, asked: seq<Answer>, middle: seq<Answer>, left: seq<Answer>,
                                       script: seq<Answer>, before: bool, after: bool)
    requires InOrder(answers, middle, script, before) && InOrder(asked, left, middle, after)
    requires before ==> asked == [] && left == middle && after
    ensures InOrder(answers + asked, left, script, after)
  {
    Associative(answers, asked, left);
    Associative(answers, middle, [End]);
    assert answers + [] == answers;
  }

  lemma {:induction false} EndIsOver(cfg: Config, s: Session)
    ensures Over(Receive(cfg, s, End))
  {
  }

  lemma {:induction false} AskedInOrder(cfg: Config, s: Session, script: seq<Answer>)
    ensures var reply := NextEvent(cfg, s, script);
            InOrder(Asked(cfg, s, script), reply.script, script, Over(reply.session))
    decreases |script|, !s.ended
  {
    if !Asks(s) {
      NothingAsked(cfg, s, script);
    } else {
      var a := First(script);
      if IsFatal(a) {
        assert script == [a] + Rest(script);
      } else {
        var t := Receive(cfg, s, a);
        OneAsked(cfg, s, script);
        AskedInOrder(cfg, t, Rest(script));
        if script == [] {
          EndIsOver(cfg, s);
          NothingAsked(cfg, t, []);
        }
        var reply := NextEvent(cfg, t, Rest(script));
        OneMoreAsked(a, Asked(cfg, t, Rest(script)), reply.script, script, Over(reply.session));
      }
    }
  }

  lemma {:induction false} RunInOrder(cfg: Config, s: Session, script: seq<Answer>, n: nat)
    ensures var run := Calls(cfg, s, script, n);
            InOrder(AskedBy(cfg, s, script, n), run.script, script, Over(run.session))
  {
    if n == 0 {
      assert [] + script == script;
    } else {
      RunInOrder(cfg, s, script, n - 1);
      var before := Calls(cfg, s, script, n - 1);
      var reply := NextEvent(cfg, before.session, before.script);
      AskedInOrder(cfg, before.session, before.script);
      if Over(before.session) {
        NothingAsked(cfg, before.session, before.script);
      }
      InOrderJoin(AskedBy(cfg, s, script, n - 1), Asked(cfg, before.session, before.script), before.script, reply.script,
        script, Over(before.session), Over(reply.session));
    }
  }

  /** At the end of a stream that did not fail, the host has all of the meaning and all calls left to it. */
  lemma {:induction false} StreamMeans(cfg: Config, state: Value, script: seq<Answer>, n: nat)
    requires n > 0 && Calls(cfg, Initial(state), script, n).replies[n - 1] == Ok(None)
    ensures var run := Calls(cfg, Initial(state), script, n);
            var delivered := Delivered(run.replies);
            var heard := Heard(cfg.context, Spec.Start(state), AskedBy(cfg, Initial(state), script, n)).out;
            delivered != [] &&
            if HasFailed(delivered) then Lines(delivered) <= Meaning(cfg, state, heard)
            else Lines(delivered) == Meaning(cfg, state, heard)
                 && (delivered[|delivered| - 1].Completed? ==> ToolCalls(delivered) == Released(CallsOf(heard), ResultsOf(heard)))
  {
    RunFaithful(cfg, state, script, n);
    RunKept(cfg, state, script, n);
    StreamEnds(cfg, state, script, n);
    var run := Calls(cfg, Initial(state), script, n);
    var delivered := Delivered(run.replies);
    assert delivered + [] == delivered;
    if delivered[|delivered| - 1].Completed? {
      FinishedCalls(cfg, run.session, delivered);
    }
  }

  lemma {:induction false} FinishedCalls(cfg: Config, s: Session, es: seq<Event>)
    requires Finished(cfg, s, es) && es[|es| - 1].Completed?
    ensures ToolCalls(es) == Released(s.completed, s.results)
  {
    var n, released := |es| - 1, Released(s.completed, s.results);
    var k := n - |released|;
    assert es[..n] == es[..k] + es[k..n];
    ReleasedCalls(s.completed, s.results, es[..k]);
    assert ToolCalls(es) == ToolCalls(es[..n]) + [];
  }

  lemma {:induction false} OneMoreCall(es: seq<Event>, a: seq<Event>, e: Event)
    requires e.ToolCallCompleted?
    ensures ToolCalls(es + (a + [e])) == ToolCalls(es + a) + [e]
  {
    Associative(es, a, [e]);
    FiltersSnoc(es + a, e);
  }

  lemma {:induction false} ReleasedCalls(calls: seq<Call>, results: set<string>, es: seq<Event>)
    ensures ToolCalls(es + Released(calls, results)) == ToolCalls(es) + Released(calls, results)
  {
    if calls == [] {
      assert es + [] == es && ToolCalls(es) + [] == ToolCalls(es);
    } else {
      var call, before := calls[|calls| - 1], Released(calls[..|calls| - 1], results);
      ReleasedCalls(calls[..|calls| - 1], results, es);
      ReleasedLast(calls, results);
      var e := ToolCallCompleted(call.index, call.callId, call.name, call.arguments);
      OneMoreCall(es, before, e);
      Associative(ToolCalls(es), before, [e]);
    }
  }

  lemma {:induction false} NoLateCalls(cfg: Config, s: Session, es: seq<Event>)
    requires Shape(cfg, s, es)
    ensures ToolCalls(es) == [] || ToolCalls(es) == Released(s.completed, s.results)
  {
    if s.terminal && es[|es| - 1].Completed? {
      FinishedCalls(cfg, s, es);
    }
  }

  /** In every run with at most 2^32 completed calls, the calls delivered have strictly increasing indices. */
  lemma {:induction false} DeliveredGrow(cfg: Config, state: Value, script: seq<Answer>, n: nat, i: nat, j: nat)
    requires |Calls(cfg, Initial(state), script, n).session.completed| <= U32_MAX + 1
    requires i < j < |ToolCalls(Delivered(Calls(cfg, Initial(state), script, n).replies))|
    ensures var calls := ToolCalls(Delivered(Calls(cfg, Initial(state), script, n).replies));
            calls[i].ToolCallCompleted? && calls[j].ToolCallCompleted? && calls[i].index < calls[j].index
  {
    RunKept(cfg, state, script, n);
    var run := Calls(cfg, Initial(state), script, n);
    var d := Delivered(run.replies);
    ToolCallsPrefix(d, run.session.pending);
    NoLateCalls(cfg, run.session, d + run.session.pending);
    ReleasedGrow(run.session.completed, run.session.results, i, j);
  }
}
