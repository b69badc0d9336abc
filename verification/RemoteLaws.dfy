/** How every remote run ends, and what it may deliver, whatever the transport answers. */
module RemoteLaws {
  import opened Json
  import opened Wrappers
  import opened RemoteSpec
  import Agui = AguiEvents
  import Spec = AguiSpec
  import Laws = AguiLaws

  predicate IsTerminal(e: Event) {
    e.Completed? || e.Interrupted? || e.Failed?
  }

  function ToolCalls(es: seq<Event>): seq<Event> {
    if es == [] then []
    else
      var e := es[|es| - 1];
      ToolCalls(es[..|es| - 1]) + if e.ToolCallCompleted? then [e] else []
  }

  function Projections(es: seq<Event>): seq<Projection> {
    if es == [] then []
    else
      var e := es[|es| - 1];
      Projections(es[..|es| - 1]) + if e.RemoteProjection? then [e.projection] else []
  }

  function TotalBytes(cfg: Config, ps: seq<Projection>): nat {
    if ps == [] then 0
    else
      var length := cfg.admit(ps[|ps| - 1]);
      TotalBytes(cfg, ps[..|ps| - 1]) + if length.Some? then length.value else 0
  }

  predicate NoTerminal(es: seq<Event>) {
    forall i :: 0 <= i < |es| ==> !IsTerminal(es[i])
  }

  /** Nothing that ends the run, and no tool call. */
  predicate Running(es: seq<Event>) {
    NoTerminal(es) && ToolCalls(es) == []
  }

  /** A finished run: the calls left to the host come together with, and just before, the completion. */
  ghost predicate Finished(cfg: Config, s: Session, es: seq<Event>) {
    es != [] &&
    var n := |es| - 1;
    if es[n].Completed? then
      var released := Released(s.completed, s.results);
      && AllOffered(cfg, s.completed)
      && |released| <= n && Running(es[..n - |released|]) && es[n - |released|..n] == released
    else
      IsTerminal(es[n]) && Running(es[..n])
  }

  ghost predicate Shape(cfg: Config, s: Session, es: seq<Event>) {
    if s.terminal then Finished(cfg, s, es) else Running(es)
  }

  predicate HasFailed(es: seq<Event>) {
    es != [] && es[|es| - 1].Failed?
  }

  /** The counters never fall short of what is delivered, and are exact unless a failure dropped some of it. */
  ghost predicate Budget(cfg: Config, s: Session, es: seq<Event>) {
    && s.count <= MAX_PROJECTIONS && s.bytes <= MAX_PROJECTION_BYTES
    && |Projections(es)| <= s.count && TotalBytes(cfg, Projections(es)) <= s.bytes
    && (!HasFailed(es) ==> |Projections(es)| == s.count && TotalBytes(cfg, Projections(es)) == s.bytes)
  }

  function IndexOf(i: nat): nat {
    if i <= U32_MAX then i else U32_MAX
  }

  predicate OfferedCall(cfg: Config, s: Session, id: string) {
    exists i :: 0 <= i < |s.completed| && s.completed[i].callId == id && s.completed[i].name in cfg.offered
  }

  ghost predicate Ledger(cfg: Config, s: Session) {
    && (forall i :: 0 <= i < |s.completed| ==> s.completed[i].index == IndexOf(i))
    && (forall id :: id in s.results ==> OfferedCall(cfg, s, id))
  }

  ghost predicate Kept(cfg: Config, s: Session, delivered: seq<Event>) {
    Shape(cfg, s, delivered + s.pending) && Budget(cfg, s, delivered + s.pending) && Ledger(cfg, s)
  }

  // ---------------------------------------------------------------------------------------------
  // Filters
  // ---------------------------------------------------------------------------------------------

  lemma {:induction false} FiltersSnoc(es: seq<Event>, e: Event)
    ensures ToolCalls(es + [e]) == if e.ToolCallCompleted? then ToolCalls(es) + [e] else ToolCalls(es)
    ensures Projections(es + [e]) == if e.RemoteProjection? then Projections(es) + [e.projection] else Projections(es)
  {
    assert (es + [e])[..|es|] == es;
  }

  lemma {:induction false} BytesSnoc(cfg: Config, ps: seq<Projection>, p: Projection)
    ensures TotalBytes(cfg, ps + [p]) == TotalBytes(cfg, ps) + if cfg.admit(p).Some? then cfg.admit(p).value else 0
  {
    assert (ps + [p])[..|ps|] == ps;
  }

  lemma {:induction false} OneMoreFilters(cfg: Config, es: seq<Event>, e: Event)
    ensures |Projections(es)| <= |Projections(es + [e])|
    ensures TotalBytes(cfg, Projections(es)) <= TotalBytes(cfg, Projections(es + [e]))
  {
    FiltersSnoc(es, e);
    if e.RemoteProjection? {
      BytesSnoc(cfg, Projections(es), e.projection);
    }
  }

  /** What a prefix delivers is part of what the whole delivers. */
  lemma {:induction false} PrefixFilters(cfg: Config, a: seq<Event>, b: seq<Event>)
    ensures |Projections(a)| <= |Projections(a + b)|
    ensures TotalBytes(cfg, Projections(a)) <= TotalBytes(cfg, Projections(a + b))
  {
    if b == [] {
      assert a + b == a;
    } else {
      var front, e := b[..|b| - 1], b[|b| - 1];
      PrefixFilters(cfg, a, front);
      OneMoreFilters(cfg, a + front, e);
      Associative(a, front, [e]);
      assert b == front + [e];
    }
  }

  lemma {:induction false} ToolCallsPrefix(a: seq<Event>, b: seq<Event>)
    ensures ToolCalls(a) <= ToolCalls(a + b)
  {
    if b == [] {
      assert a + b == a;
    } else {
      var front, e := b[..|b| - 1], b[|b| - 1];
      ToolCallsPrefix(a, front);
      FiltersSnoc(a + front, e);
      assert a + b == (a + front) + [e];
    }
  }

  lemma {:induction false} RunningSnoc(es: seq<Event>, e: Event)
    requires Running(es) && !IsTerminal(e) && !e.ToolCallCompleted?
    ensures Running(es + [e])
  {
    FiltersSnoc(es, e);
  }

  lemma {:induction false} RunningPrefix(a: seq<Event>, b: seq<Event>)
    requires Running(a + b)
    ensures Running(a)
  {
    forall i | 0 <= i < |a| ensures !IsTerminal(a[i]) {
      assert (a + b)[i] == a[i];
    }
    ToolCallsPrefix(a, b);
  }

  // ---------------------------------------------------------------------------------------------
  // One decoded event
  // ---------------------------------------------------------------------------------------------

  lemma {:induction false} Associative<T>(a: seq<T>, b: seq<T>, c: seq<T>)
    ensures (a + b) + c == a + (b + c)
  {
  }

  lemma {:induction false} PushKept(cfg: Config, s: Session, d: seq<Event>, e: Event)
    requires Kept(cfg, s, d) && !s.terminal
    requires !IsTerminal(e) && !e.ToolCallCompleted? && !e.RemoteProjection?
    ensures Kept(cfg, Push(s, e), d)
  {
    Associative(d, s.pending, [e]);
    RunningSnoc(d + s.pending, e);
    FiltersSnoc(d + s.pending, e);
  }

  lemma {:induction false} FailKept(cfg: Config, s: Session, d: seq<Event>, failure: Failure)
    requires Kept(cfg, s, d) && !s.terminal
    ensures Kept(cfg, Fail(s, failure), d)
  {
    RunningPrefix(d, s.pending);
    PrefixFilters(cfg, d, s.pending);
    var es := d + [Failed(failure)];
    FiltersSnoc(d, Failed(failure));
    assert es[..|es| - 1] == d;
  }

  lemma {:induction false} BudgetSnoc(cfg: Config, s: Session, es: seq<Event>, p: Projection)
    requires Budget(cfg, s, es) && !HasFailed(es) && Affordable(cfg, s, p)
    ensures Budget(cfg, PushProjection(cfg, s, p), es + [RemoteProjection(p)])
  {
    FiltersSnoc(es, RemoteProjection(p));
    BytesSnoc(cfg, Projections(es), p);
  }

  lemma {:induction false} ProjectionKept(cfg: Config, s: Session, d: seq<Event>, p: Projection)
    requires Kept(cfg, s, d) && !s.terminal
    ensures Kept(cfg, PushProjection(cfg, s, p), d)
  {
    if Affordable(cfg, s, p) {
      var es := d + s.pending;
      Associative(d, s.pending, [RemoteProjection(p)]);
      RunningSnoc(es, RemoteProjection(p));
      BudgetSnoc(cfg, s, es, p);
    } else {
      FailKept(cfg, s, d, InvalidResponse);
    }
  }

  lemma {:induction false} ReleasedFilters(calls: seq<Call>, results: set<string>, es: seq<Event>)
    ensures Projections(es + Released(calls, results)) == Projections(es)
  {
    if calls == [] {
      assert es + Released(calls, results) == es;
    } else {
      var front, call := calls[..|calls| - 1], calls[|calls| - 1];
      ReleasedFilters(front, results, es);
      var e := ToolCallCompleted(call.index, call.callId, call.name, call.arguments);
      if call.callId in results {
        assert Released(calls, results) == Released(front, results);
      } else {
        assert es + Released(calls, results) == (es + Released(front, results)) + [e];
        FiltersSnoc(es + Released(front, results), e);
      }
    }
  }

  lemma {:induction false} CompletedShape(cfg: Config, s: Session, es: seq<Event>)
    requires Running(es) && AllOffered(cfg, s.completed)
    ensures Finished(cfg, s, es + Released(s.completed, s.results) + [Completed])
  {
    var released := Released(s.completed, s.results);
    var all := es + released + [Completed];
    assert all[..|es|] == es && all[|es|..|all| - 1] == released;
  }

  lemma {:induction false} CompletedBudget(cfg: Config, s: Session, es: seq<Event>)
    requires Budget(cfg, s, es) && !HasFailed(es) && AllOffered(cfg, s.completed)
    ensures Budget(cfg, Complete(cfg, s), es + Released(s.completed, s.results) + [Completed])
  {
    FiltersSnoc(es + Released(s.completed, s.results), Completed);
    ReleasedFilters(s.completed, s.results, es);
  }

  lemma {:induction false} CompleteKept(cfg: Config, s: Session, d: seq<Event>)
    requires Kept(cfg, s, d) && !s.terminal
    ensures Kept(cfg, Complete(cfg, s), d)
  {
    if AllOffered(cfg, s.completed) {
      var es, released := d + s.pending, Released(s.completed, s.results);
      Associative(d, s.pending, released);
      Associative(d, s.pending + released, [Completed]);
      CompletedShape(cfg, Complete(cfg, s), es);
      CompletedBudget(cfg, s, es);
    } else {
      FailKept(cfg, s, d, InvalidResponse);
    }
  }

  lemma {:induction false} InterruptKept(cfg: Config, s: Session, d: seq<Event>, interrupts: seq<Agui.Interrupt>)
    requires Kept(cfg, s, d) && !s.terminal
    ensures Kept(cfg, Push(s, Interrupted(cfg.context.runId, interrupts)).(terminal := true), d)
  {
    var e := Interrupted(cfg.context.runId, interrupts);
    var es := d + s.pending;
    Associative(d, s.pending, [e]);
    FiltersSnoc(es, e);
    assert (es + [e])[..|es + [e]| - 1] == es;
  }

  lemma {:induction false} ToolCompletedKept(cfg: Config, s: Session, d: seq<Event>, call: Call)
    requires Kept(cfg, s, d) && !s.terminal && call.index == IndexOf(|s.completed|)
    ensures Kept(cfg, s.(completed := s.completed + [call]), d)
  {
    var t := s.(completed := s.completed + [call]);
    forall id | id in t.results ensures OfferedCall(cfg, t, id) {
      var i :| 0 <= i < |s.completed| && s.completed[i].callId == id && s.completed[i].name in cfg.offered;
      assert t.completed[i] == s.completed[i];
    }
  }

  lemma {:induction false} ToolResultKept(cfg: Config, s: Session, d: seq<Event>, messageId: string, callId: string,
                                          content: string)
    requires Kept(cfg, s, d) && !s.terminal
    ensures Kept(cfg, AcceptToolResult(cfg, s, messageId, callId, content), d)
  {
    if Answerable(cfg, s, callId) {
      ProjectionKept(cfg, s, d, Projection(ToolResultKind, Some(callId), Some(messageId), Str(content)));
    } else {
      FailKept(cfg, s, d, InvalidResponse);
    }
  }

  lemma {:induction false} ActivityKept(cfg: Config, s: Session, d: seq<Event>, id: string, kind: string)
    requires Kept(cfg, s, d) && !s.terminal
    ensures Kept(cfg, AcceptActivity(cfg, s, id, kind), d)
  {
    if id in s.decoder.view.activities {
      ProjectionKept(cfg, s, d, Projection(ActivityKind, Some(id), Some(kind), s.decoder.view.activities[id].content));
    } else {
      FailKept(cfg, s, d, InvalidResponse);
    }
  }

  predicate IsProjected(e: Agui.Event) {
    e.StepStarted? || e.StepFinished? || e.StateSnapshot? || e.StateDelta? || e.MessagesSnapshot? || e.Raw? || e.Custom?
  }

  /** The projection of such an event. */
  function Projected(s: Session, e: Agui.Event): Projection
    requires IsProjected(e)
  {
    match e
    case StepStarted(name) => Projection(StepStartedKind, Some(name), None, Null)
    case StepFinished(name) => Projection(StepFinishedKind, Some(name), None, Null)
    case MessagesSnapshot(messages) => Projection(MessagesKind, None, None, Array(messages))
    case Raw(source, event) => Projection(RawKind, source, None, event)
    case Custom(name, value) => Projection(CustomKind, Some(name), None, value)
    case _ => Projection(StateKind, None, None, s.decoder.view.state)
  }

  lemma {:induction false} AcceptProjected(cfg: Config, s: Session, e: Agui.Event)
    requires IsProjected(e)
    ensures Accept(cfg, s, e) == PushProjection(cfg, s, Projected(s, e))
  {
  }

  lemma {:induction false} ProjectedKept(cfg: Config, s: Session, d: seq<Event>, e: Agui.Event)
    requires Kept(cfg, s, d) && !s.terminal && IsProjected(e)
    ensures Kept(cfg, Accept(cfg, s, e), d)
  {
    AcceptProjected(cfg, s, e);
    ProjectionKept(cfg, s, d, Projected(s, e));
  }

  lemma {:induction false} SameKept(cfg: Config, s: Session, t: Session, d: seq<Event>)
    requires Kept(cfg, s, d) && !s.terminal && t == s.(assistants := t.assistants, decoder := t.decoder)
    ensures Kept(cfg, t, d)
  {
  }

  lemma {:induction false} EndKept(cfg: Config, s: Session, d: seq<Event>, e: Agui.Event)
    requires Kept(cfg, s, d) && !s.terminal && Agui.IsTerminal(e)
    ensures Kept(cfg, Accept(cfg, s, e), d) && Accept(cfg, s, e).terminal
  {
    match e
    case RunFinished => CompleteKept(cfg, s, d);
    case RunInterrupted(interrupts) =>
      if cfg.batch(interrupts) {
        InterruptKept(cfg, s, d, interrupts);
      } else {
        FailKept(cfg, s, d, InvalidResponse);
      }
    case RunError(_, _) => FailKept(cfg, s, d, GenerationFailed);
  }

  lemma {:induction false} DeltaKept(cfg: Config, s: Session, d: seq<Event>, e: Agui.Event)
    requires Kept(cfg, s, d) && !s.terminal && (e.RunStarted? || e.TextDelta? || e.ReasoningDelta?)
    ensures Kept(cfg, Accept(cfg, s, e), d)
  {
    match e
    case RunStarted => PushKept(cfg, s, d, ResponseStarted(cfg.responseId));
    case TextDelta(id, delta) => PushKept(cfg, s, d, TextDelta(0, delta));
    case ReasoningDelta(_, delta) => PushKept(cfg, s, d, ReasoningDelta(0, delta));
  }

  lemma {:induction false} AcceptCall(cfg: Config, s: Session, e: Agui.Event)
    ensures e.ToolResult? ==> Accept(cfg, s, e) == AcceptToolResult(cfg, s, e.messageId, e.callId, e.content)
    ensures e.ActivitySnapshot? || e.ActivityDelta? ==> Accept(cfg, s, e) == AcceptActivity(cfg, s, e.messageId, e.activityType)
    ensures e.ToolCompleted? ==>
              Accept(cfg, s, e) == s.(completed := s.completed + [Call(IndexOf(|s.completed|), e.id, e.name, e.arguments)])
  {
  }

  lemma {:induction false} CallKept(cfg: Config, s: Session, d: seq<Event>, e: Agui.Event)
    requires Kept(cfg, s, d) && !s.terminal
    requires e.ToolCompleted? || e.ToolResult? || e.ActivitySnapshot? || e.ActivityDelta?
    ensures Kept(cfg, Accept(cfg, s, e), d)
  {
    AcceptCall(cfg, s, e);
    if e.ToolCompleted? {
      ToolCompletedKept(cfg, s, d, Call(IndexOf(|s.completed|), e.id, e.name, e.arguments));
    } else if e.ToolResult? {
      ToolResultKept(cfg, s, d, e.messageId, e.callId, e.content);
    } else {
      ActivityKept(cfg, s, d, e.messageId, e.activityType);
    }
  }

  /** What one decoded event adds keeps the invariant, and a terminal event ends the session. */
  lemma {:induction false} AcceptKept(cfg: Config, s: Session, d: seq<Event>, e: Agui.Event)
    requires Kept(cfg, s, d) && !s.terminal
    ensures Kept(cfg, Accept(cfg, s, e), d)
    ensures Agui.IsTerminal(e) ==> Accept(cfg, s, e).terminal
  {
    if Agui.IsTerminal(e) {
      EndKept(cfg, s, d, e);
    } else if e.RunStarted? || e.TextDelta? || e.ReasoningDelta? {
      DeltaKept(cfg, s, d, e);
    } else if e.ToolCompleted? || e.ToolResult? || e.ActivitySnapshot? || e.ActivityDelta? {
      CallKept(cfg, s, d, e);
    } else if IsProjected(e) {
      ProjectedKept(cfg, s, d, e);
    } else {
      SameKept(cfg, s, Accept(cfg, s, e), d);
    }
  }

  // ---------------------------------------------------------------------------------------------
  // One answer of the transport, one call
  // ---------------------------------------------------------------------------------------------

  lemma {:induction false} AcceptAllKept(cfg: Config, s: Session, d: seq<Event>, es: seq<Agui.Event>)
    requires Kept(cfg, s, d)
    ensures var t := AcceptAll(cfg, s, es);
            Kept(cfg, t, d) && t.decoder == s.decoder && t.ended == s.ended && (s.terminal ==> t.terminal)
    ensures (exists i :: 0 <= i < |es| && Agui.IsTerminal(es[i])) ==> AcceptAll(cfg, s, es).terminal
    decreases |es|
  {
    if es != [] && !s.terminal {
      AcceptKept(cfg, s, d, es[0]);
      AcceptFrame(cfg, s, es[0]);
      AcceptAllKept(cfg, Accept(cfg, s, es[0]), d, es[1..]);
      if exists i :: 0 <= i < |es| && Agui.IsTerminal(es[i]) {
        var i :| 0 <= i < |es| && Agui.IsTerminal(es[i]);
        assert i > 0 ==> es[1..][i - 1] == es[i];
      }
    }
  }

  lemma {:induction false} AcceptFrame(cfg: Config, s: Session, e: Agui.Event)
    ensures Accept(cfg, s, e).decoder == s.decoder && Accept(cfg, s, e).ended == s.ended
  {
  }

  /** A decoder that has become terminal has said so. */
  lemma {:induction false} TerminalIsEmitted(lib: Library, v: Agui.View, es: seq<Agui.Event>)
    requires !v.terminal && Agui.AbsorbAll(lib, v, es).terminal
    ensures exists i :: 0 <= i < |es| && Agui.IsTerminal(es[i])
  {
    var front, e := es[..|es| - 1], es[|es| - 1];
    var before := Agui.AbsorbAll(lib, v, front);
    Laws.AbsorbPhase(lib, before, e);
    if before.terminal {
      TerminalIsEmitted(lib, v, front);
      var i :| 0 <= i < |front| && Agui.IsTerminal(front[i]);
      assert es[i] == front[i];
    }
  }

  /** A session that has not ended has a decoder that has not ended either. */
  ghost predicate Ready(s: Session) {
    !s.terminal ==> !s.ended && Laws.ChunkInv(s.decoder) && !s.decoder.view.terminal
  }

  lemma {:induction false} IngestReady(c: Spec.Context, s: Spec.State, text: string)
    requires Laws.ChunkInv(s) && !s.view.terminal
    ensures Laws.Kept(c, s, Spec.Ingest(c, s, text))
  {
    var o := Spec.ParseData(c, s, text);
    if o.Ok? {
      Laws.IngestKept(c, s, o.value);
    }
  }

  lemma {:induction false} ReceiveData(cfg: Config, s: Session, text: string, d: seq<Event>)
    requires Kept(cfg, s, d) && Ready(s) && !s.terminal
    ensures Kept(cfg, Receive(cfg, s, Data(text)), d) && Ready(Receive(cfg, s, Data(text)))
  {
    IngestReady(cfg.context, s.decoder, text);
    var r := Spec.Ingest(cfg.context, s.decoder, text);
    if r.Ok? {
      var t := s.(decoder := r.value.state);
      SameKept(cfg, s, t, d);
      AcceptAllKept(cfg, t, d, r.value.out);
      if r.value.state.view.terminal {
        TerminalIsEmitted(cfg.context.lib, s.decoder.view, r.value.out);
      }
    } else {
      FailKept(cfg, s, d, InvalidResponse);
    }
  }

  lemma {:induction false} EndFails(c: Spec.Context, s: Spec.State)
    requires Laws.ChunkInv(s) && !s.view.terminal
    ensures Spec.Finish(c, s).Err?
  {
  }

  lemma {:induction false} EndedKept(cfg: Config, s: Session, d: seq<Event>)
    requires Kept(cfg, s, d)
    ensures Kept(cfg, s.(ended := true), d)
  {
  }

  lemma {:induction false} ReceiveKept(cfg: Config, s: Session, a: Answer, d: seq<Event>)
    requires Kept(cfg, s, d) && Ready(s) && !s.terminal && !IsFatal(a)
    ensures Kept(cfg, Receive(cfg, s, a), d) && Ready(Receive(cfg, s, a))
    ensures a.End? ==> Receive(cfg, s, a).terminal
  {
    match a
    case Data(text) => ReceiveData(cfg, s, text, d);
    case End =>
      EndFails(cfg.context, s.decoder);
      EndedKept(cfg, s, d);
      FailKept(cfg, s.(ended := true), d, InvalidResponse);
    case Broken(e) => FailKept(cfg, s, d, FailureOf(e));
  }

  ghost predicate Proper(cfg: Config, reply: Reply, d: seq<Event>) {
    && Ready(reply.session)
    && match reply.answer
       case Ok(Some(e)) => Kept(cfg, reply.session, d + [e])
       case Ok(None) => Kept(cfg, reply.session, d) && reply.session.pending == [] && reply.session.terminal
       case Err(_) => Kept(cfg, reply.session, d)
  }

  /** One call delivers the next event, or nothing more. */
  lemma {:induction false} PopKept(cfg: Config, s: Session, d: seq<Event>)
    requires Kept(cfg, s, d) && s.pending != []
    ensures Kept(cfg, s.(pending := s.pending[1..]), d + [s.pending[0]])
  {
    assert d + s.pending == (d + [s.pending[0]]) + s.pending[1..];
  }

  lemma {:induction false} NextEventKept(cfg: Config, s: Session, script: seq<Answer>, d: seq<Event>)
    requires Kept(cfg, s, d) && Ready(s)
    ensures Proper(cfg, NextEvent(cfg, s, script), d)
    decreases |script|, !s.ended
  {
    if s.pending != [] {
      PopKept(cfg, s, d);
    } else if !(s.terminal || s.ended) {
      var a := First(script);
      if !IsFatal(a) {
        ReceiveKept(cfg, s, a, d);
        NextEventKept(cfg, Receive(cfg, s, a), Rest(script), d);
      }
    }
  }

  // ---------------------------------------------------------------------------------------------
  // Whole runs
  // ---------------------------------------------------------------------------------------------

  type Answered = Result<Option<Event>, TransportError>

  datatype Run = Run(replies: seq<Answered>, session: Session, script: seq<Answer>)

  /** `n` calls in a row. */
  function Calls(cfg: Config, s: Session, script: seq<Answer>, n: nat): (run: Run)
    ensures |run.replies| == n
  {
    if n == 0 then Run([], s, script)
    else
      var before := Calls(cfg, s, script, n - 1);
      var reply := NextEvent(cfg, before.session, before.script);
      Run(before.replies + [reply.answer], reply.session, reply.script)
  }

  function Delivered(replies: seq<Answered>): seq<Event> {
    if replies == [] then []
    else
      var r := replies[|replies| - 1];
      Delivered(replies[..|replies| - 1]) + if r.Ok? && r.value.Some? then [r.value.value] else []
  }

  lemma {:induction false} DeliveredSnoc(replies: seq<Answered>, r: Answered)
    ensures Delivered(replies + [r]) ==
            if r.Ok? && r.value.Some? then Delivered(replies) + [r.value.value] else Delivered(replies)
  {
    assert (replies + [r])[..|replies|] == replies;
  }

  ghost predicate RunInv(cfg: Config, run: Run) {
    && Kept(cfg, run.session, Delivered(run.replies)) && Ready(run.session)
    && (run.replies != [] && run.replies[|run.replies| - 1] == Ok(None) ==> run.session.pending == [] && run.session.terminal)
  }

  lemma {:induction false} RunStep(cfg: Config, before: Run, reply: Reply)
    requires Proper(cfg, reply, Delivered(before.replies))
    ensures RunInv(cfg, Run(before.replies + [reply.answer], reply.session, reply.script))
  {
    DeliveredSnoc(before.replies, reply.answer);
  }

  /** After any number of calls on any transport, the invariant holds of what has been delivered. */
  lemma {:induction false} RunKept(cfg: Config, state: Value, script: seq<Answer>, n: nat)
    ensures RunInv(cfg, Calls(cfg, Initial(state), script, n))
  {
    if n > 0 {
      RunKept(cfg, state, script, n - 1);
      var before := Calls(cfg, Initial(state), script, n - 1);
      NextEventKept(cfg, before.session, before.script, Delivered(before.replies));
      RunStep(cfg, before, NextEvent(cfg, before.session, before.script));
    }
  }

  /**
   * The end of the stream: whatever the transport answered, once a call returns nothing the run is
   * finished. One terminal event, the last; tool calls only with a completion, all of them offered,
   * none with a remote result; and nothing ever again.
   */
  lemma {:induction false} StreamEnds(cfg: Config, state: Value, script: seq<Answer>, n: nat)
    requires n > 0 && Calls(cfg, Initial(state), script, n).replies[n - 1] == Ok(None)
    ensures var run := Calls(cfg, Initial(state), script, n);
            && Finished(cfg, run.session, Delivered(run.replies))
            && Budget(cfg, run.session, Delivered(run.replies))
            && NextEvent(cfg, run.session, run.script) == Reply(Ok(None), run.session, run.script)
  {
    RunKept(cfg, state, script, n);
    var run := Calls(cfg, Initial(state), script, n);
    assert Delivered(run.replies) + [] == Delivered(run.replies);
  }

  /** At every moment: nothing is delivered after a terminal event. */
  lemma {:induction false} NothingAfterTheEnd(cfg: Config, state: Value, script: seq<Answer>, n: nat, i: nat)
    requires i < |Delivered(Calls(cfg, Initial(state), script, n).replies)|
    requires IsTerminal(Delivered(Calls(cfg, Initial(state), script, n).replies)[i])
    ensures i == |Delivered(Calls(cfg, Initial(state), script, n).replies)| - 1
    ensures var run := Calls(cfg, Initial(state), script, n);
            run.session.terminal && run.session.pending == []
  {
    RunKept(cfg, state, script, n);
    var run := Calls(cfg, Initial(state), script, n);
    var d := Delivered(run.replies);
    var all := d + run.session.pending;
    assert all[i] == d[i];
    if run.session.terminal && i < |all| - 1 {
      NoneBefore(cfg, run.session, all, i);
    }
  }

  lemma {:induction false} ReleasedAreCalls(calls: seq<Call>, results: set<string>, i: nat)
    requires i < |Released(calls, results)|
    ensures Released(calls, results)[i].ToolCallCompleted?
  {
    if calls != [] && i < |Released(calls[..|calls| - 1], results)| {
      ReleasedAreCalls(calls[..|calls| - 1], results, i);
    }
  }

  lemma {:induction false} NoneBefore(cfg: Config, s: Session, es: seq<Event>, i: nat)
    requires Finished(cfg, s, es) && i < |es| - 1
    ensures !IsTerminal(es[i])
  {
    var n := |es| - 1;
    if es[n].Completed? {
      var k := n - |Released(s.completed, s.results)|;
      if i < k {
        assert es[..k][i] == es[i];
      } else {
        assert es[k..n][i - k] == es[i];
        ReleasedAreCalls(s.completed, s.results, i - k);
      }
    } else {
      assert es[..n][i] == es[i];
    }
  }

  /** A delivered tool call means that the completion is already on its way. */
  lemma {:induction false} ToolCallsComeWithCompletion(cfg: Config, state: Value, script: seq<Answer>, n: nat)
    requires ToolCalls(Delivered(Calls(cfg, Initial(state), script, n).replies)) != []
    ensures var run := Calls(cfg, Initial(state), script, n);
            var all := Delivered(run.replies) + run.session.pending;
            run.session.terminal && all[|all| - 1].Completed? && AllOffered(cfg, run.session.completed)
  {
    RunKept(cfg, state, script, n);
    var run := Calls(cfg, Initial(state), script, n);
    var d := Delivered(run.replies);
    var all := d + run.session.pending;
    ToolCallsPrefix(d, run.session.pending);
    NoToolCalls(cfg, run.session, all);
  }

  lemma {:induction false} NoToolCalls(cfg: Config, s: Session, es: seq<Event>)
    requires Shape(cfg, s, es)
    ensures ToolCalls(es) == [] || (s.terminal && es[|es| - 1].Completed? && AllOffered(cfg, s.completed))
  {
  }

  // ---------------------------------------------------------------------------------------------
  // The released calls
  // ---------------------------------------------------------------------------------------------

  /** Exactly the completed calls without a remote result. */
  lemma {:induction false} ReleasedExactly(calls: seq<Call>, results: set<string>, e: Event)
    ensures e in Released(calls, results) <==>
            exists i :: 0 <= i < |calls| && calls[i].callId !in results
                        && e == ToolCallCompleted(calls[i].index, calls[i].callId, calls[i].name, calls[i].arguments)
  {
    if calls != [] {
      var front := calls[..|calls| - 1];
      ReleasedExactly(front, results, e);
      assert forall i :: 0 <= i < |front| ==> front[i] == calls[i];
    }
  }

  /** The index is a saturated position, so it grows strictly just while it fits. */
  lemma {:induction false} IndicesGrow(cfg: Config, s: Session)
    requires Ledger(cfg, s)
    ensures (forall i, j :: 0 <= i < j < |s.completed| ==> s.completed[i].index < s.completed[j].index)
            <==> |s.completed| <= U32_MAX + 1
  {
    if |s.completed| > U32_MAX + 1 {
      assert s.completed[U32_MAX].index == s.completed[U32_MAX + 1].index;
    }
  }

  lemma {:induction false} ReleasedGrow(calls: seq<Call>, results: set<string>, i: nat, j: nat)
    requires forall k :: 0 <= k < |calls| ==> calls[k].index == k
    requires i < j < |Released(calls, results)|
    ensures Released(calls, results)[i].ToolCallCompleted? && Released(calls, results)[j].ToolCallCompleted?
    ensures Released(calls, results)[i].index < Released(calls, results)[j].index < |calls|
  {
    var front := calls[..|calls| - 1];
    var before := Released(front, results);
    if j < |before| {
      ReleasedGrow(front, results, i, j);
    } else {
      ReleasedExactly(front, results, before[i]);
    }
  }

  // ---------------------------------------------------------------------------------------------
  // The activity a projection reads is always there
  // ---------------------------------------------------------------------------------------------

  lemma {:induction false} ActivityStays(lib: Library, v: Agui.View, e: Agui.Event, id: string)
    requires id in v.activities
    ensures id in Agui.Absorb(lib, v, e).activities
  {
  }

  lemma {:induction false} ActivityComes(lib: Library, v: Agui.View, e: Agui.Event)
    requires Laws.Justified(lib, v, e) && (e.ActivitySnapshot? || e.ActivityDelta?)
    ensures e.messageId in Agui.Absorb(lib, v, e).activities
  {
  }

  lemma {:induction false} ActivityIsKnown(lib: Library, v: Agui.View, es: seq<Agui.Event>, i: nat)
    requires Laws.JustifiedAll(lib, v, es) && i < |es|
    requires es[i].ActivitySnapshot? || es[i].ActivityDelta?
    ensures es[i].messageId in Agui.AbsorbAll(lib, v, es).activities
  {
    var n := |es| - 1;
    var before := Agui.AbsorbAll(lib, v, es[..n]);
    if i < n {
      ActivityIsKnown(lib, v, es[..n], i);
      ActivityStays(lib, before, es[n], es[i].messageId);
    } else {
      ActivityComes(lib, before, es[n]);
    }
  }

  // ---------------------------------------------------------------------------------------------
  // A call depends on what is visible of the session
  // ---------------------------------------------------------------------------------------------

  lemma {:induction false} SameReplies(cfg: Config, s: Session, t: Session, script: seq<Answer>)
    requires t == s.(decoder := t.decoder) && (!s.terminal ==> s == t)
    ensures var a, b := NextEvent(cfg, s, script), NextEvent(cfg, t, script);
            a.answer == b.answer && a.script == b.script
            && b.session == a.session.(decoder := b.session.decoder) && (!a.session.terminal ==> a.session == b.session)
  {
  }
}
