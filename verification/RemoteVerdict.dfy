/** How a remote run ends is decided by what was heard: which failure, if any, and otherwise which end. */
module RemoteVerdict {
  import opened Json
  import opened Wrappers
  import opened RemoteSpec
  import opened RemoteLaws
  import opened RemoteMeaning
  import Agui = AguiEvents
  import Spec = AguiSpec

  // ---------------------------------------------------------------------------------------------
  // What must fail
  // ---------------------------------------------------------------------------------------------

  /** The projections among these lines. */
  function ShownIn(lines: seq<Line>): seq<Projection> {
    if lines == [] then []
    else
      var last := lines[|lines| - 1];
      ShownIn(lines[..|lines| - 1]) + if last.Shown? then [last.projection] else []
  }

  /** One more projection is valid, and within both budgets. */
  predicate Room(cfg: Config, lines: seq<Line>, p: Projection) {
    var shown, length := ShownIn(lines), cfg.admit(p);
    length.Some? && |shown| + 1 <= MAX_PROJECTIONS && TotalBytes(cfg, shown) + length.value <= MAX_PROJECTION_BYTES
  }

  /** The remote run has completed a call of this id to a tool that was offered. */
  predicate Called(cfg: Config, trace: seq<Agui.Event>, callId: string) {
    exists i :: 0 <= i < |trace| && trace[i].ToolCompleted? && trace[i].id == callId && trace[i].name in cfg.offered
  }

  predicate AnsweredBefore(trace: seq<Agui.Event>, callId: string) {
    exists i :: 0 <= i < |trace| && trace[i].ToolResult? && trace[i].callId == callId
  }

  predicate CalledUnoffered(cfg: Config, trace: seq<Agui.Event>) {
    exists i :: 0 <= i < |trace| && trace[i].ToolCompleted? && trace[i].name !in cfg.offered
  }

  /** An event that means a projection for which there is no room, or one of an activity nobody knows. */
  ghost predicate NoRoom(cfg: Config, state: Value, before: seq<Agui.Event>, e: Agui.Event) {
    var lines := LinesOf(cfg, state, before, e);
    if lines == [] then e.ActivitySnapshot? || e.ActivityDelta?
    else lines[0].Shown? && !Room(cfg, Meaning(cfg, state, before), lines[0].projection)
  }

  /** After `before`, this event is one the session cannot take. */
  ghost predicate Refused(cfg: Config, state: Value, before: seq<Agui.Event>, e: Agui.Event) {
    match e
    case RunFinished => CalledUnoffered(cfg, before)
    case RunInterrupted(interrupts) => !cfg.batch(interrupts)
    case ToolResult(_, callId, _) =>
      !Called(cfg, before, callId) || AnsweredBefore(before, callId) || NoRoom(cfg, state, before, e)
    case _ => NoRoom(cfg, state, before, e)
  }

  /** The failure of the first event that reports or causes one. */
  ghost function TraceFailure(cfg: Config, state: Value, trace: seq<Agui.Event>): Option<Failure> {
    if trace == [] then None
    else
      var front, e := trace[..|trace| - 1], trace[|trace| - 1];
      var before := TraceFailure(cfg, state, front);
      if before.Some? then before
      else if e.RunError? then Some(GenerationFailed)
      else if Refused(cfg, state, front, e) then Some(InvalidResponse)
      else None
  }

  /** The failure of the first answer that makes the session fail: unreadable data, an event, a broken stream, its end. */
  ghost function StreamFailure(cfg: Config, state: Value, answers: seq<Answer>): Option<Failure> {
    if answers == [] then None
    else
      var front, a := answers[..|answers| - 1], answers[|answers| - 1];
      var before := StreamFailure(cfg, state, front);
      if before.Some? then before
      else match a
        case Data(text) =>
          if Spec.Ingest(cfg.context, Heard(cfg.context, Spec.Start(state), front).state, text).Err? then Some(InvalidResponse)
          else TraceFailure(cfg, state, Heard(cfg.context, Spec.Start(state), answers).out)
        case End => Some(InvalidResponse)
        case Broken(Stalled) => Some(StreamStalled)
        case Broken(NotAuthenticated) => Some(Authentication)
        case Broken(TooMany) => Some(RateLimited)
        case Broken(ServerDown) => Some(ServerUnavailable)
        case Broken(Unavailable) => None
        case Broken(CommitUnknown) => None
        case Broken(_) => Some(InvalidResponse)
  }

  /** The end the host is told, if the run has come to one. */
  function EndOf(cfg: Config, e: Agui.Event): Option<Event> {
    match e
    case RunFinished => Some(Completed)
    case RunInterrupted(interrupts) => Some(Interrupted(cfg.context.runId, interrupts))
    case _ => None
  }

  function LastEnd(cfg: Config, trace: seq<Agui.Event>): Option<Event> {
    if trace == [] then None else EndOf(cfg, trace[|trace| - 1])
  }

  predicate EndsWith(es: seq<Event>, e: Event) {
    es != [] && es[|es| - 1] == e
  }

  /** Not failed, and told of an end exactly if the trace has one. */
  ghost predicate Going(cfg: Config, s: Session, es: seq<Event>, trace: seq<Agui.Event>) {
    var end := LastEnd(cfg, trace);
    && !HasFailed(es) && (s.terminal <==> end.Some?) && (end.Some? ==> EndsWith(es, end.value))
  }

  ghost predicate Judged(cfg: Config, state: Value, s: Session, d: seq<Event>, trace: seq<Agui.Event>) {
    var es, failure := d + s.pending, TraceFailure(cfg, state, trace);
    if failure.Some? then s.terminal && EndsWith(es, Failed(failure.value)) else Going(cfg, s, es, trace)
  }

  // ---------------------------------------------------------------------------------------------
  // One event
  // ---------------------------------------------------------------------------------------------

  lemma {:induction false} FailureSnoc(cfg: Config, state: Value, trace: seq<Agui.Event>, e: Agui.Event)
    ensures var before := TraceFailure(cfg, state, trace);
            TraceFailure(cfg, state, trace + [e]) ==
            if before.Some? then before
            else if e.RunError? then Some(GenerationFailed)
            else if Refused(cfg, state, trace, e) then Some(InvalidResponse)
            else None
  {
    assert (trace + [e])[..|trace|] == trace;
  }

  lemma {:induction false} ShownSnoc(lines: seq<Line>, line: Line)
    ensures ShownIn(lines + [line]) == ShownIn(lines) + if line.Shown? then [line.projection] else []
  {
    assert (lines + [line])[..|lines|] == lines;
  }

  lemma {:induction false} ShownOne(lines: seq<Line>, e: Event)
    ensures ShownIn(lines + LineOf(e)) == ShownIn(lines) + if e.RemoteProjection? then [e.projection] else []
  {
    if LineOf(e) == [] {
      assert lines + LineOf(e) == lines;
    } else {
      ShownSnoc(lines, LineOf(e)[0]);
      assert LineOf(e) == [LineOf(e)[0]];
    }
  }

  lemma {:induction false} ShownLines(es: seq<Event>)
    ensures ShownIn(Lines(es)) == Projections(es)
  {
    if es != [] {
      var front, e := es[..|es| - 1], es[|es| - 1];
      ShownLines(front);
      ShownOne(Lines(front), e);
      var none: seq<Projection> := [];
      assert Projections(front) + none == Projections(front);
    }
  }

  /** The counters of the session are those of what it has to show. */
  lemma {:induction false} RoomIsAffordable(cfg: Config, state: Value, s: Session, d: seq<Event>, trace: seq<Agui.Event>,
                                            p: Projection)
    requires Kept(cfg, s, d) && !s.terminal && Account(cfg, state, s, d, trace)
    ensures Affordable(cfg, s, p) <==> Room(cfg, Meaning(cfg, state, trace), p)
  {
    NotFailed(cfg, s, d);
    ShownLines(d + s.pending);
  }

  lemma {:induction false} CallOfEvent(trace: seq<Agui.Event>, i: nat) returns (k: nat)
    requires i < |trace| && trace[i].ToolCompleted?
    ensures var calls := CallsOf(trace);
            k < |calls| && calls[k].callId == trace[i].id && calls[k].name == trace[i].name
  {
    var front := trace[..|trace| - 1];
    if i < |trace| - 1 {
      k := CallOfEvent(front, i);
    } else {
      k := |CallsOf(front)|;
    }
  }

  lemma {:induction false} EventOfCall(trace: seq<Agui.Event>, k: nat) returns (i: nat)
    requires k < |CallsOf(trace)|
    ensures var call := CallsOf(trace)[k];
            i < |trace| && trace[i].ToolCompleted? && trace[i].id == call.callId && trace[i].name == call.name
  {
    var front := trace[..|trace| - 1];
    if k < |CallsOf(front)| {
      i := EventOfCall(front, k);
    } else {
      i := |trace| - 1;
    }
  }

  /** The books know exactly the calls that may be answered. */
  lemma {:induction false} AnswerableExactly(cfg: Config, s: Session, trace: seq<Agui.Event>, callId: string)
    requires Books(s, trace)
    ensures Answerable(cfg, s, callId) <==> Called(cfg, trace, callId) && !AnsweredBefore(trace, callId)
  {
    if Called(cfg, trace, callId) {
      var i :| 0 <= i < |trace| && trace[i].ToolCompleted? && trace[i].id == callId && trace[i].name in cfg.offered;
      var k := CallOfEvent(trace, i);
      assert s.completed[k].callId == callId;
    }
    if exists k :: 0 <= k < |s.completed| && s.completed[k].callId == callId && s.completed[k].name in cfg.offered {
      var k :| 0 <= k < |s.completed| && s.completed[k].callId == callId && s.completed[k].name in cfg.offered;
      var i := EventOfCall(trace, k);
      assert trace[i].id == callId;
    }
    assert callId in s.results <==> AnsweredBefore(trace, callId);
  }

  lemma {:induction false} OfferedExactly(cfg: Config, s: Session, trace: seq<Agui.Event>)
    requires Books(s, trace)
    ensures AllOffered(cfg, s.completed) <==> !CalledUnoffered(cfg, trace)
  {
    if CalledUnoffered(cfg, trace) {
      var i :| 0 <= i < |trace| && trace[i].ToolCompleted? && trace[i].name !in cfg.offered;
      var k := CallOfEvent(trace, i);
      assert s.completed[k].name !in cfg.offered;
    }
    if !AllOffered(cfg, s.completed) {
      var k :| 0 <= k < |s.completed| && s.completed[k].name !in cfg.offered;
      var i := EventOfCall(trace, k);
      assert trace[i].name !in cfg.offered;
    }
  }

  /** What is known of a session that is about to take `e`. */
  ghost predicate Before(cfg: Config, state: Value, s: Session, d: seq<Event>, trace: seq<Agui.Event>, e: Agui.Event) {
    && Kept(cfg, s, d) && !s.terminal && Account(cfg, state, s, d, trace) && Judged(cfg, state, s, d, trace)
    && (IsSnapshot(e) ==> s.decoder.view == Agui.AbsorbAll(cfg.context.lib, Agui.Initial(state), trace + [e]))
  }

  lemma {:induction false} FailJudged(cfg: Config, state: Value, s: Session, d: seq<Event>, trace: seq<Agui.Event>,
                                      e: Agui.Event, f: Failure)
    requires Before(cfg, state, s, d, trace, e)
    requires if e.RunError? then f.GenerationFailed? else Refused(cfg, state, trace, e) && f.InvalidResponse?
    ensures Judged(cfg, state, Fail(s, f), d, trace + [e])
  {
    FailureSnoc(cfg, state, trace, e);
  }

  /** An event that is taken and does not end the run. */
  lemma {:induction false} TakenJudged(cfg: Config, state: Value, s: Session, t: Session, d: seq<Event>,
                                       trace: seq<Agui.Event>, e: Agui.Event, more: seq<Event>)
    requires Before(cfg, state, s, d, trace, e) && !Agui.IsTerminal(e) && !Refused(cfg, state, trace, e)
    requires t.pending == s.pending + more && !t.terminal && forall i :: 0 <= i < |more| ==> !more[i].Failed?
    ensures Judged(cfg, state, t, d, trace + [e])
  {
    NotFailed(cfg, s, d);
    FailureSnoc(cfg, state, trace, e);
    StillGoing(d, s.pending, more);
    LastEndSnoc(cfg, trace, e);
  }

  lemma {:induction false} StillGoing(d: seq<Event>, pending: seq<Event>, more: seq<Event>)
    requires !HasFailed(d + pending) && forall i :: 0 <= i < |more| ==> !more[i].Failed?
    ensures !HasFailed(d + (pending + more))
  {
    if more == [] {
      assert pending + more == pending;
    } else {
      var es := d + (pending + more);
      assert es[|es| - 1] == more[|more| - 1];
    }
  }

  lemma {:induction false} LastEndSnoc(cfg: Config, trace: seq<Agui.Event>, e: Agui.Event)
    ensures LastEnd(cfg, trace + [e]) == EndOf(cfg, e)
  {
    assert (trace + [e])[|trace|] == e;
  }

  lemma {:induction false} ProjectionJudged(cfg: Config, state: Value, s: Session, d: seq<Event>, trace: seq<Agui.Event>,
                                            e: Agui.Event, p: Projection)
    requires Before(cfg, state, s, d, trace, e) && LinesOf(cfg, state, trace, e) == [Shown(p)]
    requires !Agui.IsTerminal(e) && !e.ToolResult?
    ensures Judged(cfg, state, PushProjection(cfg, s, p), d, trace + [e])
  {
    RoomIsAffordable(cfg, state, s, d, trace, p);
    if Affordable(cfg, s, p) {
      TakenJudged(cfg, state, s, PushProjection(cfg, s, p), d, trace, e, [RemoteProjection(p)]);
    } else {
      FailJudged(cfg, state, s, d, trace, e, InvalidResponse);
    }
  }

  lemma {:induction false} ResultJudged(cfg: Config, state: Value, s: Session, d: seq<Event>, trace: seq<Agui.Event>,
                                        e: Agui.Event)
    requires Before(cfg, state, s, d, trace, e) && e.ToolResult?
    ensures Judged(cfg, state, Accept(cfg, s, e), d, trace + [e])
  {
    AcceptCall(cfg, s, e);
    NotFailed(cfg, s, d);
    AnswerableExactly(cfg, s, trace, e.callId);
    var p := Projection(ToolResultKind, Some(e.callId), Some(e.messageId), Str(e.content));
    assert LinesOf(cfg, state, trace, e) == [Shown(p)];
    RoomIsAffordable(cfg, state, s, d, trace, p);
    if Answerable(cfg, s, e.callId) && Affordable(cfg, s, p) {
      TakenJudged(cfg, state, s, Accept(cfg, s, e), d, trace, e, [RemoteProjection(p)]);
    } else {
      FailJudged(cfg, state, s, d, trace, e, InvalidResponse);
    }
  }

  lemma {:induction false} ProjectedJudged(cfg: Config, state: Value, s: Session, d: seq<Event>, trace: seq<Agui.Event>,
                                           e: Agui.Event)
    requires Before(cfg, state, s, d, trace, e) && IsProjected(e)
    ensures Judged(cfg, state, Accept(cfg, s, e), d, trace + [e])
  {
    AcceptProjected(cfg, s, e);
    ProjectedLine(cfg, state, s, trace, e);
    ProjectionJudged(cfg, state, s, d, trace, e, Projected(s, e));
  }

  lemma {:induction false} ProjectedLine(cfg: Config, state: Value, s: Session, trace: seq<Agui.Event>, e: Agui.Event)
    requires IsProjected(e)
    requires IsSnapshot(e) ==> s.decoder.view == Agui.AbsorbAll(cfg.context.lib, Agui.Initial(state), trace + [e])
    ensures LinesOf(cfg, state, trace, e) == [Shown(Projected(s, e))]
  {
  }

  lemma {:induction false} ActivityJudged(cfg: Config, state: Value, s: Session, d: seq<Event>, trace: seq<Agui.Event>,
                                          e: Agui.Event)
    requires Before(cfg, state, s, d, trace, e) && (e.ActivitySnapshot? || e.ActivityDelta?)
    ensures Judged(cfg, state, Accept(cfg, s, e), d, trace + [e])
  {
    AcceptCall(cfg, s, e);
    if e.messageId in s.decoder.view.activities {
      ProjectionJudged(cfg, state, s, d, trace, e,
        Projection(ActivityKind, Some(e.messageId), Some(e.activityType), s.decoder.view.activities[e.messageId].content));
    } else {
      FailJudged(cfg, state, s, d, trace, e, InvalidResponse);
    }
  }

  /** A session that is told of an end. */
  lemma {:induction false} EndedJudged(cfg: Config, state: Value, s: Session, t: Session, d: seq<Event>,
                                       trace: seq<Agui.Event>, e: Agui.Event)
    requires Before(cfg, state, s, d, trace, e) && !Refused(cfg, state, trace, e) && EndOf(cfg, e).Some?
    requires t.terminal && EndsWith(t.pending, EndOf(cfg, e).value)
    ensures Judged(cfg, state, t, d, trace + [e])
  {
    NotFailed(cfg, s, d);
    FailureSnoc(cfg, state, trace, e);
    var es := d + t.pending;
    assert es[|es| - 1] == t.pending[|t.pending| - 1];
    LastEndSnoc(cfg, trace, e);
  }

  lemma {:induction false} EndJudged(cfg: Config, state: Value, s: Session, d: seq<Event>, trace: seq<Agui.Event>,
                                     e: Agui.Event)
    requires Before(cfg, state, s, d, trace, e) && Agui.IsTerminal(e)
    ensures Judged(cfg, state, Accept(cfg, s, e), d, trace + [e])
  {
    NotFailed(cfg, s, d);
    match e
    case RunFinished =>
      OfferedExactly(cfg, s, trace);
      if AllOffered(cfg, s.completed) {
        EndedJudged(cfg, state, s, Complete(cfg, s), d, trace, e);
      } else {
        FailJudged(cfg, state, s, d, trace, e, InvalidResponse);
      }
    case RunInterrupted(interrupts) =>
      if cfg.batch(interrupts) {
        EndedJudged(cfg, state, s, Accept(cfg, s, e), d, trace, e);
      } else {
        FailJudged(cfg, state, s, d, trace, e, InvalidResponse);
      }
    case RunError(_, _) =>
      FailJudged(cfg, state, s, d, trace, e, GenerationFailed);
  }

  /** Events that show nothing and cannot fail. */
  predicate IsPlain(e: Agui.Event) {
    !Agui.IsTerminal(e) && !e.ToolResult? && !IsProjected(e) && !e.ActivitySnapshot? && !e.ActivityDelta?
  }

  /** What such an event makes the host see. */
  function Spoken(cfg: Config, s: Session, e: Agui.Event): seq<Event> {
    match e
    case RunStarted => [ResponseStarted(cfg.responseId)]
    case TextDelta(id, delta) => if id in s.assistants && delta != "" then [TextDelta(0, delta)] else []
    case ReasoningDelta(_, delta) => if delta != "" then [ReasoningDelta(0, delta)] else []
    case _ => []
  }

  lemma {:induction false} PlainAccepted(cfg: Config, s: Session, e: Agui.Event)
    requires IsPlain(e)
    ensures Accept(cfg, s, e).pending == s.pending + Spoken(cfg, s, e) && Accept(cfg, s, e).terminal == s.terminal
  {
  }

  lemma {:induction false} PlainShowsNothing(cfg: Config, state: Value, before: seq<Agui.Event>, e: Agui.Event)
    requires IsPlain(e)
    ensures !Refused(cfg, state, before, e)
  {
  }

  lemma {:induction false} AcceptJudged(cfg: Config, state: Value, s: Session, d: seq<Event>, trace: seq<Agui.Event>,
                                        e: Agui.Event)
    requires Before(cfg, state, s, d, trace, e)
    ensures Judged(cfg, state, Accept(cfg, s, e), d, trace + [e])
  {
    if Agui.IsTerminal(e) {
      EndJudged(cfg, state, s, d, trace, e);
    } else if e.ToolResult? {
      ResultJudged(cfg, state, s, d, trace, e);
    } else if IsProjected(e) {
      ProjectedJudged(cfg, state, s, d, trace, e);
    } else if e.ActivitySnapshot? || e.ActivityDelta? {
      ActivityJudged(cfg, state, s, d, trace, e);
    } else {
      PlainAccepted(cfg, s, e);
      PlainShowsNothing(cfg, state, trace, e);
      TakenJudged(cfg, state, s, Accept(cfg, s, e), d, trace, e, Spoken(cfg, s, e));
    }
  }

  // ---------------------------------------------------------------------------------------------
  // One input
  // ---------------------------------------------------------------------------------------------

  lemma {:induction false} FailureStays(cfg: Config, state: Value, trace: seq<Agui.Event>, more: seq<Agui.Event>)
    requires TraceFailure(cfg, state, trace).Some?
    ensures TraceFailure(cfg, state, trace + more) == TraceFailure(cfg, state, trace)
  {
    if more == [] {
      assert trace + more == trace;
    } else {
      var front, e := more[..|more| - 1], more[|more| - 1];
      FailureStays(cfg, state, trace, front);
      FailureSnoc(cfg, state, trace + front, e);
      assert trace + more == (trace + front) + [e];
    }
  }

  lemma {:induction false} StoppedJudged(cfg: Config, state: Value, s: Session, d: seq<Event>, trace: seq<Agui.Event>,
                                         es: seq<Agui.Event>)
    requires Accepting(cfg, state, s, d, trace, es) && Judged(cfg, state, s, d, trace) && (es == [] || s.terminal)
    ensures Judged(cfg, state, s, d, trace + es)
  {
    if es == [] {
      assert trace + es == trace;
    } else {
      FailureStays(cfg, state, trace, es);
    }
  }

  lemma {:induction false} AcceptAllJudged(cfg: Config, state: Value, s: Session, d: seq<Event>, trace: seq<Agui.Event>,
                                           es: seq<Agui.Event>)
    requires Accepting(cfg, state, s, d, trace, es) && Judged(cfg, state, s, d, trace)
    ensures Judged(cfg, state, AcceptAll(cfg, s, es), d, trace + es)
    decreases |es|
  {
    if es == [] || s.terminal {
      StoppedJudged(cfg, state, s, d, trace, es);
    } else {
      ShiftView(trace, es);
      AcceptJudged(cfg, state, s, d, trace, es[0]);
      AcceptOne(cfg, state, s, d, trace, es);
      AcceptAllJudged(cfg, state, Accept(cfg, s, es[0]), d, trace + [es[0]], es[1..]);
    }
  }

  // ---------------------------------------------------------------------------------------------
  // Whole runs
  // ---------------------------------------------------------------------------------------------

  /** The answers taken so far decide whether the session goes on, how it has ended, and as what it has failed. */
  ghost predicate Decided(cfg: Config, state: Value, s: Session, d: seq<Event>, answers: seq<Answer>) {
    var es, failure := d + s.pending, StreamFailure(cfg, state, answers);
    var trace := Heard(cfg.context, Spec.Start(state), answers).out;
    if failure.Some? then s.terminal && EndsWith(es, Failed(failure.value))
    else TraceFailure(cfg, state, trace).None? && Going(cfg, s, es, trace)
  }

  lemma {:induction false} StreamFailureSnoc(cfg: Config, state: Value, answers: seq<Answer>, a: Answer)
    requires StreamFailure(cfg, state, answers).None?
    ensures StreamFailure(cfg, state, answers + [a]) ==
            match a
            case Data(text) =>
              if Spec.Ingest(cfg.context, Heard(cfg.context, Spec.Start(state), answers).state, text).Err?
              then Some(InvalidResponse)
              else TraceFailure(cfg, state, Heard(cfg.context, Spec.Start(state), answers + [a]).out)
            case End => Some(InvalidResponse)
            case Broken(e) => if IsFatal(a) then None else Some(FailureOf(e))
  {
    assert (answers + [a])[..|answers|] == answers;
  }

  lemma {:induction false} NotDecided(cfg: Config, state: Value, s: Session, d: seq<Event>, answers: seq<Answer>)
    requires Faithful(cfg, state, s, d, answers) && Decided(cfg, state, s, d, answers) && !s.terminal
    ensures StreamFailure(cfg, state, answers).None?
    ensures Judged(cfg, state, s, d, Heard(cfg.context, Spec.Start(state), answers).out)
  {
  }

  lemma {:induction false} DataDecided(cfg: Config, state: Value, s: Session, d: seq<Event>, answers: seq<Answer>,
                                       text: string)
    requires Faithful(cfg, state, s, d, answers) && Decided(cfg, state, s, d, answers) && !s.terminal
    ensures Decided(cfg, state, Receive(cfg, s, Data(text)), d, answers + [Data(text)])
  {
    NotDecided(cfg, state, s, d, answers);
    HeardSnoc(cfg.context, Spec.Start(state), answers, Data(text));
    StreamFailureSnoc(cfg, state, answers, Data(text));
    var r := Spec.Ingest(cfg.context, s.decoder, text);
    if r.Ok? {
      ReadyToAccept(cfg, state, s, d, answers, text);
      var heard := Heard(cfg.context, Spec.Start(state), answers);
      AcceptAllJudged(cfg, state, s.(decoder := r.value.state), d, heard.out, r.value.out);
    }
  }

  lemma {:induction false} ReadyToAccept(cfg: Config, state: Value, s: Session, d: seq<Event>, answers: seq<Answer>,
                                         text: string)
    requires Faithful(cfg, state, s, d, answers) && !s.terminal && Spec.Ingest(cfg.context, s.decoder, text).Ok?
    ensures var step := Spec.Ingest(cfg.context, s.decoder, text).value;
            Accepting(cfg, state, s.(decoder := step.state), d, Heard(cfg.context, Spec.Start(state), answers).out, step.out)
  {
    var step := Spec.Ingest(cfg.context, s.decoder, text).value;
    IngestReady(cfg.context, s.decoder, text);
    IngestOneChange(cfg.context, s.decoder, text);
    Agui.AbsorbJoin(cfg.context.lib, Agui.Initial(state), Heard(cfg.context, Spec.Start(state), answers).out, step.out);
    SameKept(cfg, s, s.(decoder := step.state), d);
  }

  lemma {:induction false} AnswerDecided(cfg: Config, state: Value, s: Session, d: seq<Event>, answers: seq<Answer>,
                                         a: Answer)
    requires Faithful(cfg, state, s, d, answers) && Decided(cfg, state, s, d, answers) && !s.terminal && !IsFatal(a)
    ensures Decided(cfg, state, Receive(cfg, s, a), d, answers + [a])
  {
    if a.Data? {
      DataDecided(cfg, state, s, d, answers, a.text);
    } else {
      NotDecided(cfg, state, s, d, answers);
      StreamFailureSnoc(cfg, state, answers, a);
      if a.End? {
        EndFails(cfg.context, s.decoder);
      }
    }
  }

  lemma {:induction false} FatalDecided(cfg: Config, state: Value, s: Session, d: seq<Event>, answers: seq<Answer>,
                                        a: Answer)
    requires Faithful(cfg, state, s, d, answers) && Decided(cfg, state, s, d, answers) && !s.terminal && IsFatal(a)
    ensures Decided(cfg, state, s, d, answers + [a])
  {
    NotDecided(cfg, state, s, d, answers);
    HeardSnoc(cfg.context, Spec.Start(state), answers, a);
    StreamFailureSnoc(cfg, state, answers, a);
  }

  ghost predicate DecidedReply(cfg: Config, state: Value, reply: Reply, d: seq<Event>, answers: seq<Answer>) {
    match reply.answer
    case Ok(Some(e)) => Decided(cfg, state, reply.session, d + [e], answers)
    case _ => Decided(cfg, state, reply.session, d, answers)
  }

  lemma {:induction false} PopDecided(cfg: Config, state: Value, s: Session, d: seq<Event>, answers: seq<Answer>)
    requires Decided(cfg, state, s, d, answers) && s.pending != []
    ensures Decided(cfg, state, s.(pending := s.pending[1..]), d + [s.pending[0]], answers)
  {
    assert d + s.pending == (d + [s.pending[0]]) + s.pending[1..];
  }

  /** A call that asks nothing delivers what is pending, or nothing. */
  lemma {:induction false} QuietDecided(cfg: Config, state: Value, s: Session, script: seq<Answer>, d: seq<Event>,
                                        answers: seq<Answer>)
    requires Decided(cfg, state, s, d, answers) && !Asks(s)
    ensures DecidedReply(cfg, state, NextEvent(cfg, s, script), d, answers)
  {
    if s.pending != [] {
      PopDecided(cfg, state, s, d, answers);
    }
  }

  lemma {:induction false} FatalReply(cfg: Config, state: Value, s: Session, script: seq<Answer>, d: seq<Event>,
                                      answers: seq<Answer>)
    requires Decided(cfg, state, s, d, answers) && Asks(s) && IsFatal(First(script))
    ensures DecidedReply(cfg, state, NextEvent(cfg, s, script), d, answers) && Asked(cfg, s, script) == [First(script)]
  {
  }

  /** Where the answers so far have brought the session, and what they have decided. */
  ghost predicate Standing(cfg: Config, state: Value, s: Session, d: seq<Event>, answers: seq<Answer>) {
    Faithful(cfg, state, s, d, answers) && Decided(cfg, state, s, d, answers)
  }

  lemma {:induction false} AnswerStanding(cfg: Config, state: Value, s: Session, d: seq<Event>, answers: seq<Answer>,
                                          a: Answer)
    requires Standing(cfg, state, s, d, answers) && !s.terminal && !IsFatal(a)
    ensures Standing(cfg, state, Receive(cfg, s, a), d, answers + [a])
  {
    AnswerDecided(cfg, state, s, d, answers, a);
    AnswerFaithful(cfg, state, s, d, answers, a);
  }

  lemma {:induction false} FatalStanding(cfg: Config, state: Value, s: Session, script: seq<Answer>, d: seq<Event>,
                                         answers: seq<Answer>)
    requires Standing(cfg, state, s, d, answers) && Asks(s) && IsFatal(First(script))
    ensures DecidedReply(cfg, state, NextEvent(cfg, s, script), d, answers + Asked(cfg, s, script))
  {
    FatalDecided(cfg, state, s, d, answers, First(script));
    FatalReply(cfg, state, s, script, d, answers + [First(script)]);
  }

  lemma {:induction false} NextEventDecided(cfg: Config, state: Value, s: Session, script: seq<Answer>, d: seq<Event>,
                                            answers: seq<Answer>, all: seq<Answer>)
    requires Standing(cfg, state, s, d, answers) && all == answers + Asked(cfg, s, script)
    ensures DecidedReply(cfg, state, NextEvent(cfg, s, script), d, all)
    decreases |script|, !s.ended
  {
    var a := First(script);
    if !Asks(s) {
      NothingAsked(cfg, s, script);
      assert all == answers;
      QuietDecided(cfg, state, s, script, d, answers);
    } else if IsFatal(a) {
      FatalStanding(cfg, state, s, script, d, answers);
    } else {
      var t := Receive(cfg, s, a);
      AnswerStanding(cfg, state, s, d, answers, a);
      OneAsked(cfg, s, script);
      Associative(answers, [a], Asked(cfg, t, Rest(script)));
      NextEventDecided(cfg, state, t, Rest(script), d, answers + [a], all);
    }
  }

  lemma {:induction false} InitialDecided(cfg: Config, state: Value)
    ensures Decided(cfg, state, Initial(state), [], [])
  {
  }

  lemma {:induction false} ReplyDecided(cfg: Config, state: Value, replies: seq<Answered>, reply: Reply, answers: seq<Answer>)
    requires DecidedReply(cfg, state, reply, Delivered(replies), answers)
    ensures Decided(cfg, state, reply.session, Delivered(replies + [reply.answer]), answers)
  {
    DeliveredSnoc(replies, reply.answer);
  }

  /** At every moment of every run what was heard decides whether it goes on, how it ends, and as what it fails. */
  lemma {:induction false} RunDecided(cfg: Config, state: Value, script: seq<Answer>, n: nat)
    ensures var run := Calls(cfg, Initial(state), script, n);
            Decided(cfg, state, run.session, Delivered(run.replies), AskedBy(cfg, Initial(state), script, n))
  {
    if n == 0 {
      InitialDecided(cfg, state);
    } else {
      RunDecided(cfg, state, script, n - 1);
      RunFaithful(cfg, state, script, n - 1);
      var before := Calls(cfg, Initial(state), script, n - 1);
      var answers, all := AskedBy(cfg, Initial(state), script, n - 1), AskedBy(cfg, Initial(state), script, n);
      NextEventDecided(cfg, state, before.session, before.script, Delivered(before.replies), answers, all);
      ReplyDecided(cfg, state, before.replies, NextEvent(cfg, before.session, before.script), all);
    }
  }

  /**
   * At the end of the stream: the last event is the failure of the first answer or event that makes the
   * session fail; if there is none the last event heard is the end of the run, and the host is told just
   * that end, with these very interrupts.
   */
  lemma {:induction false} StreamDecided(cfg: Config, state: Value, script: seq<Answer>, n: nat)
    requires n > 0 && Calls(cfg, Initial(state), script, n).replies[n - 1] == Ok(None)
    ensures var delivered := Delivered(Calls(cfg, Initial(state), script, n).replies);
            var asked := AskedBy(cfg, Initial(state), script, n);
            var heard := Heard(cfg.context, Spec.Start(state), asked).out;
            var failure := StreamFailure(cfg, state, asked);
            if failure.Some? then EndsWith(delivered, Failed(failure.value))
            else LastEnd(cfg, heard).Some? && EndsWith(delivered, LastEnd(cfg, heard).value)
  {
    RunDecided(cfg, state, script, n);
    RunKept(cfg, state, script, n);
    var run := Calls(cfg, Initial(state), script, n);
    assert Delivered(run.replies) + [] == Delivered(run.replies);
  }

  lemma {:induction false} QuietIsNoError(cfg: Config, s: Session, script: seq<Answer>)
    requires !Asks(s)
    ensures NextEvent(cfg, s, script).answer.Ok? && Asked(cfg, s, script) == []
  {
  }

  lemma {:induction false} FatalIsError(cfg: Config, s: Session, script: seq<Answer>)
    requires Asks(s) && IsFatal(First(script))
    ensures NextEvent(cfg, s, script).answer == Err(First(script).error) && Asked(cfg, s, script) == [First(script)]
  {
  }

  /** The error of a call that took these answers. */
  function ErrorOf(asked: seq<Answer>): Option<TransportError> {
    if asked != [] && IsFatal(asked[|asked| - 1]) then Some(asked[|asked| - 1].error) else None
  }

  lemma {:induction false} ErrorOfMore(a: Answer, asked: seq<Answer>)
    requires asked != [] || !IsFatal(a)
    ensures ErrorOf([a] + asked) == ErrorOf(asked)
  {
    if asked != [] {
      assert ([a] + asked)[|asked|] == asked[|asked| - 1];
    }
  }

  /** A call ends with an error exactly if the last answer it took says nothing of the run, and with that error. */
  lemma {:induction false} ErrorsExactly(cfg: Config, s: Session, script: seq<Answer>)
    ensures var answer, error := NextEvent(cfg, s, script).answer, ErrorOf(Asked(cfg, s, script));
            if error.Some? then answer == Err(error.value) else answer.Ok?
    decreases |script|, !s.ended
  {
    if !Asks(s) {
      QuietIsNoError(cfg, s, script);
    } else if IsFatal(First(script)) {
      FatalIsError(cfg, s, script);
    } else {
      var t := Receive(cfg, s, First(script));
      OneAsked(cfg, s, script);
      ErrorsExactly(cfg, t, Rest(script));
      ErrorOfMore(First(script), Asked(cfg, t, Rest(script)));
    }
  }
}
