/** Every accepted trace obeys the event grammar, and determines the decoder's view. */
module AguiLaws {
  import opened Json
  import opened Wrappers
  import opened AguiEvents
  import opened AguiSpec
  import Patch

  // ---------------------------------------------------------------------------------------------
  // The event grammar
  // ---------------------------------------------------------------------------------------------

  /** May this event come next, given what the events before it have told? */
  ghost predicate Justified(lib: Library, v: View, e: Event) {
    && !v.terminal
    && (e.RunStarted? <==> !v.started)
    && match e
       case RunFinished => NoOpenStreams(v)
       case RunInterrupted(_) => NoOpenStreams(v)
       case StepStarted(name) => name !in v.openSteps
       case StepFinished(name) => name in v.openSteps
       case TextDelta(id, _) => id in v.openText
       case TextEnded(id) => id in v.openText
       case ToolArguments(id, delta) =>
         id in v.tools && !v.tools[id].ended && (delta != "" ==> Bytes(delta) + Bytes(v.tools[id].arguments) <= MAX_EVENT_BYTES)
       case ToolCompleted(id, name, arguments) =>
         id in v.tools && !v.tools[id].ended && v.tools[id].name == name
         && arguments.Object? && lib.parse(v.tools[id].arguments) == Some(arguments)
       case ToolResult(_, callId, _) => callId in v.tools && v.tools[callId].ended
       case StateDelta(patch) => Patch.PatchResult(lib, v.state, patch).Ok?
       case ActivityDelta(id, kind, patch) =>
         id in v.activities && v.activities[id].activityType == kind
         && Patch.PatchResult(lib, v.activities[id].content, patch).Ok?
       case ReasoningStarted(id) => id !in v.reasoningRuns
       case ReasoningEnded(id) => id in v.reasoningRuns
       case ReasoningDelta(id, _) => id in v.reasoningMessages
       case ReasoningMessageEnded(id) => id in v.reasoningMessages
       case _ => true
  }

  ghost predicate JustifiedAll(lib: Library, v: View, trace: seq<Event>) {
    trace == [] ||
    (var front := trace[..|trace| - 1];
     JustifiedAll(lib, v, front) && Justified(lib, AbsorbAll(lib, v, front), trace[|trace| - 1]))
  }

  lemma {:induction false} JustifiedJoin(lib: Library, v: View, a: seq<Event>, b: seq<Event>)
    requires JustifiedAll(lib, v, a) && JustifiedAll(lib, AbsorbAll(lib, v, a), b)
    ensures JustifiedAll(lib, v, a + b)
  {
    if b == [] {
      assert a + b == a;
    } else {
      JustifiedJoin(lib, v, a, b[..|b| - 1]);
      AbsorbJoin(lib, v, a, b[..|b| - 1]);
      assert (a + b)[..|a + b| - 1] == a + b[..|b| - 1];
    }
  }

  /** A successful outcome emits a justified trace, and its view is what that trace tells. */
  ghost predicate Good(c: Context, v: View, r: Outcome) {
    r.Ok? ==> JustifiedAll(c.lib, v, r.value.out) && r.value.state.view == AbsorbAll(c.lib, v, r.value.out)
  }

  lemma {:induction false} NothingGood(c: Context, s: State)
    ensures Good(c, s.view, Nothing(s))
  {
  }

  lemma {:induction false} EmitGood(c: Context, s: State, e: Event)
    requires Justified(c.lib, s.view, e)
    ensures Good(c, s.view, Emit(c, s, e))
  {
    assert [e][..0] == [];
    assert AbsorbAll(c.lib, s.view, []) == s.view;
  }

  lemma {:induction false} AfterGood(c: Context, v: View, first: Step, r: Outcome)
    requires Good(c, v, Ok(first)) && Good(c, first.state.view, r)
    ensures Good(c, v, After(first.out, r))
  {
    if r.Ok? {
      AbsorbJoin(c.lib, v, first.out, r.value.out);
      JustifiedJoin(c.lib, v, first.out, r.value.out);
    }
  }

  // ---------------------------------------------------------------------------------------------
  // The open shorthand
  // ---------------------------------------------------------------------------------------------

  predicate Idle(s: State) {
    s.text.None? && s.tool.None? && s.reasoning.None?
  }

  /** At most one shorthand is open, and it names an open stream of a running trace. */
  predicate ChunkInv(s: State) {
    && (s.text.Some? ==> s.text.value in s.view.openText && s.tool.None? && s.reasoning.None?)
    && (s.tool.Some? ==> s.tool.value in s.view.tools && !s.view.tools[s.tool.value].ended && s.reasoning.None?)
    && (s.reasoning.Some? ==> s.reasoning.value in s.view.reasoningMessages)
    && (!Idle(s) ==> s.view.started && !s.view.terminal)
  }

  /** Only the family of this tag may have its shorthand open. */
  predicate OnlyOpen(tag: Tag, s: State) {
    && (s.text.Some? ==> tag.TagTextChunk?)
    && (s.tool.Some? ==> tag.TagToolChunk?)
    && (s.reasoning.Some? ==> tag.TagReasoningMessageChunk?)
  }

  predicate SamePhase(v: View, w: View) {
    v.started == w.started && v.terminal == w.terminal
  }

  lemma {:induction false} CloseTextGood(c: Context, s: State)
    requires ChunkInv(s)
    ensures var r := CloseText(c, s);
            && r.Ok? && Good(c, s.view, r)
            && r.value.state.text.None? && r.value.state.tool == s.tool && r.value.state.reasoning == s.reasoning
            && SamePhase(s.view, r.value.state.view) && ChunkInv(r.value.state)
  {
    if s.text.Some? {
      EmitGood(c, s.(text := None), TextEnded(s.text.value));
    } else {
      NothingGood(c, s);
    }
  }

  lemma {:induction false} FinishToolGood(c: Context, s: State, id: string)
    requires s.view.started && !s.view.terminal
    ensures Good(c, s.view, FinishTool(c, s, id))
  {
    var r := FinishTool(c, s, id);
    if r.Ok? {
      EmitGood(c, s, r.value.out[0]);
    }
  }

  lemma {:induction false} CloseToolGood(c: Context, s: State)
    requires ChunkInv(s)
    ensures var r := CloseTool(c, s);
            && Good(c, s.view, r)
            && (r.Ok? ==>
                  && r.value.state.tool.None? && r.value.state.text == s.text && r.value.state.reasoning == s.reasoning
                  && SamePhase(s.view, r.value.state.view) && ChunkInv(r.value.state))
  {
    if s.tool.Some? {
      FinishToolGood(c, s.(tool := None), s.tool.value);
    } else {
      NothingGood(c, s);
    }
  }

  lemma {:induction false} CloseReasoningGood(c: Context, s: State)
    requires ChunkInv(s)
    ensures var r := CloseReasoning(c, s);
            && r.Ok? && Good(c, s.view, r)
            && r.value.state.reasoning.None? && r.value.state.text == s.text && r.value.state.tool == s.tool
            && SamePhase(s.view, r.value.state.view) && ChunkInv(r.value.state)
  {
    if s.reasoning.Some? {
      EmitGood(c, s.(reasoning := None), ReasoningMessageEnded(s.reasoning.value));
    } else {
      NothingGood(c, s);
    }
  }

  lemma {:induction false} CloseBeforeGood(c: Context, s: State, tag: Tag)
    requires ChunkInv(s)
    ensures var r := CloseBefore(c, s, tag);
            && Good(c, s.view, r)
            && (r.Ok? ==> OnlyOpen(tag, r.value.state) && SamePhase(s.view, r.value.state.view) && ChunkInv(r.value.state))
  {
    CloseTextGood(c, s);
    NothingGood(c, s);
    var a := (if tag.TagTextChunk? then Nothing(s) else CloseText(c, s)).value;
    CloseToolGood(c, a.state);
    NothingGood(c, a.state);
    var next := if tag.TagToolChunk? then Nothing(a.state) else CloseTool(c, a.state);
    AfterGood(c, s.view, a, next);
    if next.Ok? {
      var b := After(a.out, next).value;
      CloseReasoningGood(c, b.state);
      NothingGood(c, b.state);
      AfterGood(c, s.view, b, if tag.TagReasoningMessageChunk? then Nothing(b.state) else CloseReasoning(c, b.state));
    }
  }

  // ---------------------------------------------------------------------------------------------
  // Family by family
  // ---------------------------------------------------------------------------------------------

  /** A running decoder on which this tag may act. */
  predicate Ready(tag: Tag, s: State) {
    ChunkInv(s) && OnlyOpen(tag, s) && !s.view.terminal && (s.view.started || tag.TagRunStarted?)
  }

  lemma {:induction false} EmitStep(c: Context, s: State, e: Event)
    requires Justified(c.lib, s.view, e) && Idle(s)
    ensures Good(c, s.view, Emit(c, s, e)) && ChunkInv(Emit(c, s, e).value.state)
  {
    EmitGood(c, s, e);
  }

  ghost predicate Kept(c: Context, s: State, r: Outcome) {
    Good(c, s.view, r) && (r.Ok? ==> ChunkInv(r.value.state))
  }

  /** An outcome that is one emitted event, if it is anything. */
  lemma {:induction false} OneEventKept(c: Context, s: State, r: Outcome)
    requires Idle(s)
    requires r.Ok? ==> exists e :: Justified(c.lib, s.view, e) && r == Emit(c, s, e)
    ensures Kept(c, s, r)
  {
    if r.Ok? {
      var e :| Justified(c.lib, s.view, e) && r == Emit(c, s, e);
      EmitStep(c, s, e);
    }
  }

  lemma {:induction false} LifecycleKept(c: Context, s: State, tag: Tag, o: Fields)
    requires FamilyOf(tag).LifecycleFamily?
    requires Ready(tag, s) || (tag.TagRunError? && ChunkInv(s) && s.view.started && !s.view.terminal)
    ensures Kept(c, s, Lifecycle(c, s, tag, o))
  {
    var r := Lifecycle(c, s, tag, o);
    if r.Ok? {
      assert r.value.out == [r.value.out[0]];
      var base := if tag.TagRunError? then s.(text := None, tool := None, reasoning := None) else s;
      assert r == Emit(c, base, r.value.out[0]);
      OneEventKept(c, base, r);
    }
  }

  lemma {:induction false} ProjectionsKept(c: Context, s: State, tag: Tag, o: Fields)
    requires FamilyOf(tag).ProjectionFamily? && Ready(tag, s)
    ensures Kept(c, s, Projections(c, s, tag, o))
  {
    var r := Projections(c, s, tag, o);
    if r.Ok? {
      assert r == Emit(c, s, r.value.out[0]);
      OneEventKept(c, s, r);
    }
  }

  lemma {:induction false} ActivitiesKept(c: Context, s: State, tag: Tag, o: Fields)
    requires FamilyOf(tag).ActivityFamily? && Ready(tag, s)
    ensures Kept(c, s, Activities(c, s, tag, o))
  {
    var r := Activities(c, s, tag, o);
    if r.Ok? {
      assert r == Emit(c, s, r.value.out[0]);
      OneEventKept(c, s, r);
    }
  }

  lemma {:induction false} TextChunkKept(c: Context, s: State, o: Fields)
    requires Ready(TagTextChunk, s)
    ensures Kept(c, s, TextChunk(c, s, o))
  {
    var incoming := OptionalString(o, "messageId");
    if incoming.Ok? {
      var begun := Nothing(s);
      NothingGood(c, s);
      if incoming.value.Some? && s.text != incoming.value {
        begun := OpenTextChunk(c, s, incoming.value.value, o);
        OpenTextChunkKept(c, s, incoming.value.value, o);
      }
      if begun.Ok? && begun.value.state.text.Some? {
        TextChunkRest(c, s, begun.value, OptionalText(o, "delta"));
      }
    }
  }

  lemma {:induction false} OpenTextChunkKept(c: Context, s: State, id: string, o: Fields)
    requires Ready(TagTextChunk, s)
    ensures var r := OpenTextChunk(c, s, id, o); Kept(c, s, r) && (r.Ok? ==> Ready(TagTextChunk, r.value.state))
  {
    CloseTextGood(c, s);
    var closed := CloseText(c, s).value;
    var role, name := ParseTextRole(Get(o, "role")), OptionalString(o, "name");
    if role.Ok? && name.Ok? {
      var e, chunk := TextStarted(id, role.value, name.value), closed.state.(text := Some(id));
      EmitGood(c, chunk, e);
      AfterGood(c, s.view, closed, Emit(c, chunk, e));
    }
  }

  lemma {:induction false} TextChunkRest(c: Context, s: State, begun: Step, delta: Result<Option<string>, Error>)
    requires Kept(c, s, Ok(begun)) && Ready(TagTextChunk, begun.state) && begun.state.text.Some?
    ensures delta.Ok? ==>
              Kept(c, s, After(begun.out,
                if delta.value.None? then Nothing(begun.state)
                else if delta.value.value == "" then CloseText(c, begun.state)
                else Emit(c, begun.state, TextDelta(begun.state.text.value, delta.value.value))))
  {
    if delta.Ok? {
      NothingGood(c, begun.state);
      CloseTextGood(c, begun.state);
      if delta.value.None? {
        AfterGood(c, s.view, begun, Nothing(begun.state));
      } else if delta.value.value == "" {
        AfterGood(c, s.view, begun, CloseText(c, begun.state));
      } else {
        var e := TextDelta(begun.state.text.value, delta.value.value);
        EmitGood(c, begun.state, e);
        AfterGood(c, s.view, begun, Emit(c, begun.state, e));
      }
    }
  }

  lemma {:induction false} TextsKept(c: Context, s: State, tag: Tag, o: Fields)
    requires FamilyOf(tag).TextFamily? && Ready(tag, s)
    ensures Kept(c, s, Texts(c, s, tag, o))
  {
    if tag.TagTextChunk? {
      TextChunkKept(c, s, o);
    } else {
      var r := Texts(c, s, tag, o);
      if r.Ok? {
        assert r == Emit(c, s, r.value.out[0]);
        OneEventKept(c, s, r);
      }
    }
  }

  lemma {:induction false} OpenToolChunkKept(c: Context, s: State, id: string, o: Fields)
    requires Ready(TagToolChunk, s)
    ensures var r := OpenToolChunk(c, s, id, o); Kept(c, s, r) && (r.Ok? ==> Ready(TagToolChunk, r.value.state))
  {
    CloseToolGood(c, s);
    var closed := CloseTool(c, s);
    var name, parent := RequiredId(o, "toolCallName"), OptionalString(o, "parentMessageId");
    if closed.Ok? && name.Ok? && parent.Ok? {
      var e, chunk := ToolStarted(id, name.value, parent.value), closed.value.state.(tool := Some(id));
      EmitGood(c, chunk, e);
      AfterGood(c, s.view, closed.value, Emit(c, chunk, e));
    }
  }

  lemma {:induction false} AppendArgumentsKept(c: Context, s: State, id: string, delta: string)
    requires s.view.started && !s.view.terminal && id in s.view.tools && !s.view.tools[id].ended
    requires ChunkInv(s)
    ensures Kept(c, s, AppendArguments(c, s, id, delta))
  {
    if AppendArguments(c, s, id, delta).Ok? {
      EmitGood(c, s, ToolArguments(id, delta));
    }
  }

  lemma {:induction false} ToolChunkRest(c: Context, s: State, begun: Step, delta: string)
    requires Kept(c, s, Ok(begun)) && Ready(TagToolChunk, begun.state) && begun.state.tool.Some?
    ensures Kept(c, s, After(begun.out,
              if delta == "" then CloseTool(c, begun.state)
              else AppendArguments(c, begun.state, begun.state.tool.value, delta)))
  {
    CloseToolGood(c, begun.state);
    AppendArgumentsKept(c, begun.state, begun.state.tool.value, delta);
    AfterGood(c, s.view, begun,
      if delta == "" then CloseTool(c, begun.state)
      else AppendArguments(c, begun.state, begun.state.tool.value, delta));
  }

  lemma {:induction false} ToolChunkKept(c: Context, s: State, o: Fields)
    requires Ready(TagToolChunk, s)
    ensures Kept(c, s, ToolChunk(c, s, o))
  {
    var incoming := OptionalString(o, "toolCallId");
    if incoming.Ok? {
      var begun := Nothing(s);
      NothingGood(c, s);
      if incoming.value.Some? && s.tool != incoming.value {
        begun := OpenToolChunk(c, s, incoming.value.value, o);
        OpenToolChunkKept(c, s, incoming.value.value, o);
      }
      var delta := OptionalText(o, "delta");
      if begun.Ok? && begun.value.state.tool.Some? && delta.Ok? {
        if delta.value.Some? {
          ToolChunkRest(c, s, begun.value, delta.value.value);
        } else {
          NothingGood(c, begun.value.state);
          AfterGood(c, s.view, begun.value, Nothing(begun.value.state));
        }
      }
    }
  }

  lemma {:induction false} ToolsKept(c: Context, s: State, tag: Tag, o: Fields)
    requires FamilyOf(tag).ToolFamily? && Ready(tag, s)
    ensures Kept(c, s, Tools(c, s, tag, o))
  {
    if tag.TagToolChunk? {
      ToolChunkKept(c, s, o);
    } else {
      var r := Tools(c, s, tag, o);
      if r.Ok? {
        assert r == Emit(c, s, r.value.out[0]);
        OneEventKept(c, s, r);
      }
    }
  }

  lemma {:induction false} OpenReasoningChunkKept(c: Context, s: State, id: string)
    requires Ready(TagReasoningMessageChunk, s)
    ensures var r := OpenReasoningChunk(c, s, id); Kept(c, s, r) && (r.Ok? ==> Ready(TagReasoningMessageChunk, r.value.state))
  {
    CloseReasoningGood(c, s);
    var closed := CloseReasoning(c, s).value;
    var e, chunk := ReasoningMessageStarted(id), closed.state.(reasoning := Some(id));
    EmitGood(c, chunk, e);
    AfterGood(c, s.view, closed, Emit(c, chunk, e));
  }

  lemma {:induction false} ReasoningChunkRest(c: Context, s: State, begun: Step, delta: string)
    requires Kept(c, s, Ok(begun)) && Ready(TagReasoningMessageChunk, begun.state) && begun.state.reasoning.Some?
    ensures Kept(c, s, After(begun.out,
              if delta == "" then CloseReasoning(c, begun.state)
              else Emit(c, begun.state, ReasoningDelta(begun.state.reasoning.value, delta))))
  {
    CloseReasoningGood(c, begun.state);
    var e := ReasoningDelta(begun.state.reasoning.value, delta);
    EmitGood(c, begun.state, e);
    AfterGood(c, s.view, begun, if delta == "" then CloseReasoning(c, begun.state) else Emit(c, begun.state, e));
  }

  lemma {:induction false} ReasoningChunkKept(c: Context, s: State, o: Fields)
    requires Ready(TagReasoningMessageChunk, s)
    ensures Kept(c, s, ReasoningChunk(c, s, o))
  {
    var incoming := OptionalString(o, "messageId");
    if incoming.Ok? {
      var begun := Nothing(s);
      NothingGood(c, s);
      if incoming.value.Some? && s.reasoning != incoming.value {
        begun := OpenReasoningChunk(c, s, incoming.value.value);
        OpenReasoningChunkKept(c, s, incoming.value.value);
      }
      var delta := OptionalText(o, "delta");
      if begun.Ok? && begun.value.state.reasoning.Some? && delta.Ok? {
        if delta.value.Some? {
          ReasoningChunkRest(c, s, begun.value, delta.value.value);
        } else {
          NothingGood(c, begun.value.state);
          AfterGood(c, s.view, begun.value, Nothing(begun.value.state));
        }
      }
    }
  }

  lemma {:induction false} ReasoningRunsKept(c: Context, s: State, tag: Tag, o: Fields)
    requires FamilyOf(tag).ReasoningFamily? && Ready(tag, s)
    ensures Kept(c, s, ReasoningRuns(c, s, tag, o))
  {
    var r := ReasoningRuns(c, s, tag, o);
    if r.Ok? {
      assert r == Emit(c, s, r.value.out[0]);
      OneEventKept(c, s, r);
    }
  }

  lemma {:induction false} ReasoningMessagesKept(c: Context, s: State, tag: Tag, o: Fields)
    requires FamilyOf(tag).MessageFamily? && Ready(tag, s)
    ensures Kept(c, s, ReasoningMessages(c, s, tag, o))
  {
    if tag.TagReasoningMessageChunk? {
      ReasoningChunkKept(c, s, o);
    } else {
      var r := ReasoningMessages(c, s, tag, o);
      if r.Ok? {
        assert r == Emit(c, s, r.value.out[0]);
        OneEventKept(c, s, r);
      }
    }
  }

  lemma {:induction false} DispatchKept(c: Context, s: State, tag: Tag, o: Fields)
    requires Ready(tag, s) || (tag.TagRunError? && ChunkInv(s) && s.view.started && !s.view.terminal)
    ensures Kept(c, s, Dispatch(c, s, tag, o))
  {
    match FamilyOf(tag)
    case LifecycleFamily => LifecycleKept(c, s, tag, o);
    case TextFamily => TextsKept(c, s, tag, o);
    case ToolFamily => ToolsKept(c, s, tag, o);
    case ProjectionFamily => ProjectionsKept(c, s, tag, o);
    case ActivityFamily => ActivitiesKept(c, s, tag, o);
    case ReasoningFamily => ReasoningRunsKept(c, s, tag, o);
    case MessageFamily => ReasoningMessagesKept(c, s, tag, o);
  }

  lemma {:induction false} IngestKept(c: Context, s: State, o: Fields)
    requires ChunkInv(s) && !s.view.terminal
    ensures Kept(c, s, IngestObject(c, s, o))
  {
    var tag := TagOf(o);
    if tag.Ok? {
      CloseBeforeGood(c, s, tag.value);
      NothingGood(c, s);
      var closed := if tag.value.TagRunError? then Nothing(s) else CloseBefore(c, s, tag.value);
      if closed.Ok? && (s.view.started || tag.value.TagRunStarted?) {
        DispatchKept(c, closed.value.state, tag.value, o);
        AfterGood(c, s.view, closed.value, Dispatch(c, closed.value.state, tag.value, o));
      }
    }
  }

  /** Over a whole accepted input: a justified trace, the view it determines, the shorthand invariant. */
  lemma {:induction false} FeedKept(c: Context, state: Value, inputs: seq<string>)
    ensures Kept(c, Start(state), Feed(c, Start(state), inputs))
  {
    if inputs == [] {
      NothingGood(c, Start(state));
    } else {
      var n := |inputs| - 1;
      FeedKept(c, state, inputs[..n]);
      var before := Feed(c, Start(state), inputs[..n]);
      if before.Ok? {
        var o := ParseData(c, before.value.state, inputs[n]);
        if o.Ok? {
          IngestKept(c, before.value.state, o.value);
          AfterGood(c, Initial(state), before.value, IngestObject(c, before.value.state, o.value));
        }
      }
    }
  }

  /** Finishing succeeds exactly after a terminal event, and then has nothing left to say. */
  lemma {:induction false} FinishExactly(c: Context, state: Value, inputs: seq<string>)
    requires Feed(c, Start(state), inputs).Ok?
    ensures var s := Feed(c, Start(state), inputs).value.state;
            && (Finish(c, s).Ok? <==> s.view.started && s.view.terminal)
            && (Finish(c, s).Ok? ==> Finish(c, s) == Nothing(s))
  {
    FeedKept(c, state, inputs);
  }

  // ---------------------------------------------------------------------------------------------
  // What a justified trace looks like
  // ---------------------------------------------------------------------------------------------

  lemma {:induction false} AbsorbPhase(lib: Library, v: View, e: Event)
    ensures Absorb(lib, v, e).started == (v.started || e.RunStarted?)
    ensures Absorb(lib, v, e).terminal == (v.terminal || IsTerminal(e))
  {
  }

  /** Started once, at the front; ended at most once, at the back. */
  lemma {:induction false} TraceForm(lib: Library, state: Value, trace: seq<Event>)
    requires JustifiedAll(lib, Initial(state), trace)
    ensures var v := AbsorbAll(lib, Initial(state), trace);
            && (v.started <==> trace != [])
            && (v.terminal <==> trace != [] && IsTerminal(trace[|trace| - 1]))
    ensures forall i :: 0 <= i < |trace| ==> (trace[i].RunStarted? <==> i == 0)
    ensures forall i :: 0 <= i < |trace| - 1 ==> !IsTerminal(trace[i])
  {
    if trace != [] {
      var front := trace[..|trace| - 1];
      TraceForm(lib, state, front);
      AbsorbPhase(lib, AbsorbAll(lib, Initial(state), front), trace[|trace| - 1]);
      assert forall i :: 0 <= i < |front| ==> front[i] == trace[i];
    }
  }

  lemma {:induction false} JustifiedPrefix(lib: Library, v: View, trace: seq<Event>, n: nat)
    requires JustifiedAll(lib, v, trace) && n <= |trace|
    ensures JustifiedAll(lib, v, trace[..n])
    ensures n < |trace| ==> Justified(lib, AbsorbAll(lib, v, trace[..n]), trace[n])
  {
    var front := trace[..if trace == [] then 0 else |trace| - 1];
    if n == |trace| {
      assert trace[..n] == trace;
    } else {
      if n < |front| {
        JustifiedPrefix(lib, v, front, n);
      } else {
        assert front[..n] == front;
      }
      assert front[..n] == trace[..n];
    }
  }

  /** A run that finishes or is interrupted leaves no stream whose last bracket is a start. */
  lemma {:induction false} CleanEnd(lib: Library, state: Value, trace: seq<Event>, k: Kind, id: string)
    requires JustifiedAll(lib, Initial(state), trace) && trace != []
    requires var last := trace[|trace| - 1]; last.RunFinished? || last.RunInterrupted?
    ensures !LastIsStart(trace, k, id)
  {
    OpenMeansLastIsStart(lib, state, trace, k, id);
    assert NoOpenStreams(AbsorbAll(lib, Initial(state), trace[..|trace| - 1]));
  }

  lemma {:induction false} ArgumentsCapped(lib: Library, state: Value, trace: seq<Event>, id: string)
    requires JustifiedAll(lib, Initial(state), trace) && id in AbsorbAll(lib, Initial(state), trace).tools
    ensures Bytes(AbsorbAll(lib, Initial(state), trace).tools[id].arguments) <= MAX_EVENT_BYTES
  {
    var front, e := trace[..|trace| - 1], trace[|trace| - 1];
    if !Starts(e, id) {
      var before := AbsorbAll(lib, Initial(state), front);
      AbsorbTool(lib, before, e, id);
      ArgumentsCapped(lib, state, front, id);
      BytesJoin(before.tools[id].arguments, Fragment(e, id));
    }
  }

  /** A completed call carries the parse of exactly the fragments since its last start. */
  lemma {:induction false} CompletionCarriesArguments(lib: Library, state: Value, trace: seq<Event>, n: nat)
    returns (i: int, text: string)
    requires JustifiedAll(lib, Initial(state), trace) && n < |trace| && trace[n].ToolCompleted?
    ensures ArgumentsSince(trace[..n], i, trace[n].id, trace[n].name, text)
    ensures Bytes(text) <= MAX_EVENT_BYTES
    ensures trace[n].arguments.Object? && lib.parse(text) == Some(trace[n].arguments)
  {
    JustifiedPrefix(lib, Initial(state), trace, n);
    var v, id := AbsorbAll(lib, Initial(state), trace[..n]), trace[n].id;
    i := ToolMeansArguments(lib, state, trace[..n], id);
    text := v.tools[id].arguments;
    ArgumentsCapped(lib, state, trace[..n], id);
  }
}
