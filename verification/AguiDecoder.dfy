/** The decoder object. Its methods do exactly what the specification functions decide. */
module AguiDecoder {
  import opened Json
  import opened Wrappers
  import opened AguiEvents
  import Spec = AguiSpec
  import Patch

  type Pushed = Result<seq<Event>, Error>

  /**
   * `r` is the output buffer `before` with the events of `spec` pushed, and `now` is its state; or
   * the same refusal. A refusal may leave open streams half closed, but never touches the phase or
   * the projections.
   */
  ghost predicate Follows(spec: Spec.Outcome, was: Spec.State, before: seq<Event>, r: Pushed, now: Spec.State) {
    if spec.Ok? then r == Ok(before + spec.value.out) && now == spec.value.state
    else r == Err(spec.error) && SameProjections(was.view, now.view)
  }

  predicate SameProjections(v: View, w: View) {
    && v.started == w.started && v.terminal == w.terminal
    && v.state == w.state && v.activities == w.activities && v.messages == w.messages
  }

  lemma {:induction false} Associative(a: seq<Event>, b: seq<Event>, c: seq<Event>)
    ensures (a + b) + c == a + (b + c)
  {
  }

  lemma {:induction false} FollowsNothing(s: Spec.State, before: seq<Event>)
    ensures Follows(Spec.Nothing(s), s, before, Ok(before), s)
  {
    assert before + [] == before;
  }

  /** Two stages that push one after the other. */
  lemma {:induction false} FollowsAfter(was: Spec.State, before: seq<Event>, first: Spec.Step, next: Spec.Outcome,
                                        r: Pushed, now: Spec.State)
    requires Follows(next, first.state, before + first.out, r, now)
    requires SameProjections(was.view, first.state.view)
    ensures Follows(Spec.After(first.out, next), was, before, r, now)
  {
    if next.Ok? {
      Associative(before, first.out, next.value.out);
    }
  }

  /** Closing, and then handling. */
  lemma {:induction false} FollowsIngest(c: Spec.Context, was: Spec.State, tag: Spec.Tag, o: Fields, closed: Spec.Step,
                                         r: Pushed, now: Spec.State)
    requires (if tag.TagRunError? then Spec.Nothing(was) else Spec.CloseBefore(c, was, tag)) == Ok(closed)
    requires (was.view.started || tag.TagRunStarted?) && SameProjections(was.view, closed.state.view)
    requires Follows(Spec.Dispatch(c, closed.state, tag, o), closed.state, closed.out, r, now)
    ensures Follows(Spec.IngestTagged(c, was, tag, o), was, [], r, now)
  {
    assert [] + closed.out == closed.out;
    FollowsAfter(was, [], closed, Spec.Dispatch(c, closed.state, tag, o), r, now);
  }

  /** One interrupt after the other, up to the first error. */
  method ValidateInterrupts(value: Option<Value>) returns (r: Result<seq<Interrupt>, Error>)
    ensures r == Spec.ValidateInterrupts(value)
  {
    if !(value.Some? && value.value.Array? && 0 < |value.value.items| <= Spec.MAX_INTERRUPTS) {
      return Err(InvalidEvent);
    }
    var values := value.value.items;
    var interrupts: seq<Interrupt> := [];
    for i := 0 to |values|
      invariant Spec.ReadInterrupts(values[..i]) == Ok(interrupts)
    {
      assert values[..i + 1][..i] == values[..i];
      FirstInterruptError(values, i + 1);
      var interrupt :- Spec.ReadInterrupt(values[i]);
      interrupts := interrupts + [interrupt];
    }
    assert values[..|values|] == values;
    return Ok(interrupts);
  }

  lemma {:induction false} FirstInterruptError(values: seq<Value>, n: nat)
    requires n <= |values|
    ensures Spec.ReadInterrupts(values[..n]).Err? ==>
              Spec.ReadInterrupts(values) == Err(Spec.ReadInterrupts(values[..n]).error)
  {
    if n < |values| {
      var front := values[..|values| - 1];
      FirstInterruptError(front, n);
      assert front[..n] == values[..n];
    } else {
      assert values[..n] == values;
    }
  }

  method ValidateMessages(c: Spec.Context, value: Option<Value>) returns (r: Result<seq<Value>, Error>)
    ensures r == Spec.ValidateMessages(c, value)
  {
    if !(value.Some? && value.value.Array? && |value.value.items| <= MAX_ITEMS) {
      return Err(InvalidEvent);
    }
    var values := value.value.items;
    for i := 0 to |values|
      invariant Spec.CheckMessages(c, values[..i]) == Ok(())
    {
      assert values[..i + 1][..i] == values[..i];
      FirstMessageError(c, values, i + 1);
      var _ :- c.message(values[i]);
    }
    assert values[..|values|] == values;
    var _ :- Spec.EnsureBound(c.lib, value.value);
    return Ok(values);
  }

  lemma {:induction false} FirstMessageError(c: Spec.Context, values: seq<Value>, n: nat)
    requires n <= |values|
    ensures Spec.CheckMessages(c, values[..n]).Err? ==>
              Spec.CheckMessages(c, values) == Err(Spec.CheckMessages(c, values[..n]).error)
  {
    if n < |values| {
      var front := values[..|values| - 1];
      FirstMessageError(c, front, n);
      assert front[..n] == values[..n];
    } else {
      assert values[..n] == values;
    }
  }

  class AguiDecoder {
    const context: Spec.Context
    var started: bool
    var terminal: bool
    var openText: map<string, Role>
    var tools: map<string, Tool>
    var openSteps: set<string>
    var reasoningRuns: set<string>
    var reasoningMessages: set<string>
    var state: Value
    var activities: map<string, Activity>
    var messages: seq<Value>
    var textChunkId: Option<string>
    var toolChunkId: Option<string>
    var reasoningChunkId: Option<string>

    ghost function V(): View
      reads this
    {
      View(started, terminal, openText, tools, openSteps, reasoningRuns, reasoningMessages, state, activities, messages)
    }

    ghost function S(): Spec.State
      reads this
    {
      Spec.State(V(), textChunkId, toolChunkId, reasoningChunkId)
    }

    constructor (context: Spec.Context, initial: Value)
      ensures this.context == context && S() == Spec.Start(initial)
    {
      this.context := context;
      started, terminal := false, false;
      openText, tools := map[], map[];
      openSteps, reasoningRuns, reasoningMessages := {}, {}, {};
      state, activities, messages := initial, map[], [];
      textChunkId, toolChunkId, reasoningChunkId := None, None, None;
    }

    /** A decoder for a known thread and run, and the state that was sent with the request. */
    static method New(context: Spec.Context, initial: Value) returns (r: Result<AguiDecoder, Error>)
      ensures r.Ok? <==>
              Spec.ValidId(context.threadId) && Spec.ValidId(context.runId) && context.lib.size(initial) <= MAX_EVENT_BYTES
      ensures r.Err? ==>
                r.error == if Spec.ValidId(context.threadId) && Spec.ValidId(context.runId) then TooLarge else InvalidEvent
      ensures r.Ok? ==> fresh(r.value) && r.value.context == context && r.value.S() == Spec.Start(initial)
    {
      var _ :- Spec.BoundedId(context.threadId);
      var _ :- Spec.BoundedId(context.runId);
      var _ :- Spec.EnsureBound(context.lib, initial);
      var decoder := new AguiDecoder(context, initial);
      return Ok(decoder);
    }

    // -------------------------------------------------------------------------------------------
    // Closing
    // -------------------------------------------------------------------------------------------

    method CloseTextChunk(out: seq<Event>) returns (r: Pushed)
      modifies this
      ensures Follows(Spec.CloseText(context, old(S())), old(S()), out, r, S())
    {
      if textChunkId.Some? {
        var id := textChunkId.value;
        textChunkId := None;
        if id !in openText {
          return Err(InvalidSequence);
        }
        openText := openText - {id};
        return Ok(out + [TextEnded(id)]);
      }
      FollowsNothing(S(), out);
      return Ok(out);
    }

    method FinishTool(id: string, out: seq<Event>) returns (r: Pushed)
      modifies this
      ensures Follows(Spec.FinishTool(context, old(S()), id), old(S()), out, r, S())
    {
      if id !in tools || tools[id].ended {
        return Err(InvalidSequence);
      }
      var arguments := context.lib.parse(tools[id].arguments);
      if arguments.None? || !arguments.value.Object? {
        return Err(InvalidEvent);
      }
      tools := tools[id := tools[id].(ended := true)];
      return Ok(out + [ToolCompleted(id, tools[id].name, arguments.value)]);
    }

    method CloseToolChunk(out: seq<Event>) returns (r: Pushed)
      modifies this
      ensures Follows(Spec.CloseTool(context, old(S())), old(S()), out, r, S())
    {
      if toolChunkId.Some? {
        var id := toolChunkId.value;
        toolChunkId := None;
        r := FinishTool(id, out);
        return r;
      }
      FollowsNothing(S(), out);
      return Ok(out);
    }

    method CloseReasoningChunk(out: seq<Event>) returns (r: Pushed)
      modifies this
      ensures Follows(Spec.CloseReasoning(context, old(S())), old(S()), out, r, S())
    {
      if reasoningChunkId.Some? {
        var id := reasoningChunkId.value;
        reasoningChunkId := None;
        if id !in reasoningMessages {
          return Err(InvalidSequence);
        }
        reasoningMessages := reasoningMessages - {id};
        return Ok(out + [ReasoningMessageEnded(id)]);
      }
      FollowsNothing(S(), out);
      return Ok(out);
    }

    method CloseStreams(tag: Spec.Tag, out: seq<Event>) returns (r: Pushed)
      modifies this
      ensures Follows(CloseTextAndTool(context, old(S()), tag), old(S()), out, r, S())
    {
      var buffer := out;
      FollowsNothing(S(), out);
      CloseKeepsProjections(context, S());
      if !tag.TagTextChunk? {
        buffer :- CloseTextChunk(buffer);
      }
      ghost var a := if tag.TagTextChunk? then Spec.Nothing(old(S())) else Spec.CloseText(context, old(S()));
      ghost var mid := S();
      FollowsNothing(mid, buffer);
      if !tag.TagToolChunk? {
        r := CloseToolChunk(buffer);
      } else {
        r := Ok(buffer);
      }
      FollowsAfter(old(S()), out, a.value, if tag.TagToolChunk? then Spec.Nothing(mid) else Spec.CloseTool(context, mid), r, S());
    }

    method CloseConvenienceBefore(tag: Spec.Tag, out: seq<Event>) returns (r: Pushed)
      modifies this
      ensures Follows(Spec.CloseBefore(context, old(S()), tag), old(S()), out, r, S())
    {
      CloseBothKeeps(context, S(), tag);
      var buffer :- CloseStreams(tag, out);
      ghost var b := CloseTextAndTool(context, old(S()), tag);
      ghost var mid := S();
      FollowsNothing(mid, buffer);
      if !tag.TagReasoningMessageChunk? {
        r := CloseReasoningChunk(buffer);
      } else {
        r := Ok(buffer);
      }
      FollowsAfter(old(S()), out, b.value,
        if tag.TagReasoningMessageChunk? then Spec.Nothing(mid) else Spec.CloseReasoning(context, mid), r, S());
    }

    // -------------------------------------------------------------------------------------------
    // Text
    // -------------------------------------------------------------------------------------------

    method TextStart(o: Fields, out: seq<Event>) returns (r: Pushed)
      modifies this
      ensures Follows(Spec.TextStart(context, old(S()), o), old(S()), out, r, S())
    {
      var id :- Spec.RequiredId(o, "messageId");
      var role :- Spec.ParseTextRole(Get(o, "role"));
      var known := id in openText;
      openText := openText[id := role];
      if known {
        return Err(InvalidSequence);
      }
      var name :- Spec.OptionalString(o, "name");
      return Ok(out + [TextStarted(id, role, name)]);
    }

    method OpenTextChunk(id: string, o: Fields, out: seq<Event>) returns (r: Pushed)
      modifies this
      ensures Follows(Spec.OpenTextChunk(context, old(S()), id, o), old(S()), out, r, S())
    {
      CloseKeepsProjections(context, S());
      var buffer :- CloseTextChunk(out);
      ghost var closed := Spec.CloseText(context, old(S())).value;
      var role :- Spec.ParseTextRole(Get(o, "role"));
      textChunkId := Some(id);
      openText := openText[id := role];
      var name :- Spec.OptionalString(o, "name");
      r := Ok(buffer + [TextStarted(id, role, name)]);
      Associative(out, closed.out, [TextStarted(id, role, name)]);
    }

    method TextChunk(o: Fields, out: seq<Event>) returns (r: Pushed)
      modifies this
      ensures Follows(Spec.TextChunk(context, old(S()), o), old(S()), out, r, S())
    {
      var incoming :- Spec.OptionalString(o, "messageId");
      var buffer := out;
      FollowsNothing(S(), out);
      if incoming.Some? && textChunkId != incoming {
        OpenTextKeeps(context, S(), incoming.value, o);
        buffer :- OpenTextChunk(incoming.value, o, buffer);
      }
      ghost var begun := Spec.Step(S(), buffer[|out|..]);
      if textChunkId.None? {
        return Err(InvalidSequence);
      }
      var delta :- Spec.OptionalText(o, "delta");
      if delta.None? {
        r := Ok(buffer);
        FollowsNothing(S(), buffer);
      } else if delta.value == "" {
        r := CloseTextChunk(buffer);
      } else {
        r := Ok(buffer + [TextDelta(textChunkId.value, delta.value)]);
      }
      FollowsAfter(old(S()), out, begun, TextRest(context, begun.state, delta), r, S());
    }

    // -------------------------------------------------------------------------------------------
    // Tools
    // -------------------------------------------------------------------------------------------

    method ToolStart(o: Fields, out: seq<Event>) returns (r: Pushed)
      modifies this
      ensures Follows(Spec.ToolStart(context, old(S()), o), old(S()), out, r, S())
    {
      var id :- Spec.RequiredId(o, "toolCallId");
      var name :- Spec.RequiredId(o, "toolCallName");
      var parent :- Spec.OptionalString(o, "parentMessageId");
      var known := id in tools;
      tools := tools[id := Tool(name, "", false)];
      if known {
        return Err(InvalidSequence);
      }
      return Ok(out + [ToolStarted(id, name, parent)]);
    }

    /** Room left is a saturating difference. */
    method AppendArguments(id: string, delta: string, out: seq<Event>) returns (r: Pushed)
      requires id in tools
      modifies this
      ensures Follows(Spec.AppendArguments(context, old(S()), id, delta), old(S()), out, r, S())
    {
      var used := Bytes(tools[id].arguments);
      var room := if used > MAX_EVENT_BYTES then 0 else MAX_EVENT_BYTES - used;
      EmptyIsZero(delta);
      if Bytes(delta) > room {
        return Err(TooLarge);
      }
      tools := tools[id := tools[id].(arguments := tools[id].arguments + delta)];
      return Ok(out + [ToolArguments(id, delta)]);
    }

    method ToolArgs(o: Fields, out: seq<Event>) returns (r: Pushed)
      modifies this
      ensures Follows(Spec.ToolArgs(context, old(S()), o), old(S()), out, r, S())
    {
      var id :- Spec.RequiredId(o, "toolCallId");
      var delta :- Spec.RequiredText(o, "delta");
      if id !in tools || tools[id].ended {
        return Err(InvalidSequence);
      }
      r := AppendArguments(id, delta, out);
    }

    method OpenToolChunk(id: string, o: Fields, out: seq<Event>) returns (r: Pushed)
      modifies this
      ensures Follows(Spec.OpenToolChunk(context, old(S()), id, o), old(S()), out, r, S())
    {
      CloseKeepsProjections(context, S());
      var buffer :- CloseToolChunk(out);
      ghost var closed := Spec.CloseTool(context, old(S())).value;
      var name :- Spec.RequiredId(o, "toolCallName");
      var parent :- Spec.OptionalString(o, "parentMessageId");
      toolChunkId := Some(id);
      tools := tools[id := Tool(name, "", false)];
      r := Ok(buffer + [ToolStarted(id, name, parent)]);
      Associative(out, closed.out, [ToolStarted(id, name, parent)]);
    }

    method ToolChunk(o: Fields, out: seq<Event>) returns (r: Pushed)
      modifies this
      ensures Follows(Spec.ToolChunk(context, old(S()), o), old(S()), out, r, S())
    {
      var incoming :- Spec.OptionalString(o, "toolCallId");
      var buffer := out;
      FollowsNothing(S(), out);
      if incoming.Some? && toolChunkId != incoming {
        OpenToolKeeps(context, S(), incoming.value, o);
        buffer :- OpenToolChunk(incoming.value, o, buffer);
      }
      ghost var begun := Spec.Step(S(), buffer[|out|..]);
      if toolChunkId.None? {
        return Err(InvalidSequence);
      }
      var delta :- Spec.OptionalText(o, "delta");
      if delta.None? {
        r := Ok(buffer);
        FollowsNothing(S(), buffer);
      } else if delta.value == "" {
        r := CloseToolChunk(buffer);
      } else if toolChunkId.value !in tools {
        return Err(InvalidSequence);
      } else {
        r := AppendArguments(toolChunkId.value, delta.value, buffer);
      }
      FollowsAfter(old(S()), out, begun, ToolRest(context, begun.state, delta), r, S());
    }

    // -------------------------------------------------------------------------------------------
    // Reasoning
    // -------------------------------------------------------------------------------------------

    method OpenReasoningChunk(id: string, out: seq<Event>) returns (r: Pushed)
      modifies this
      ensures Follows(Spec.OpenReasoningChunk(context, old(S()), id), old(S()), out, r, S())
    {
      var buffer :- CloseReasoningChunk(out);
      ghost var closed := Spec.CloseReasoning(context, old(S())).value;
      reasoningChunkId := Some(id);
      reasoningMessages := reasoningMessages + {id};
      r := Ok(buffer + [ReasoningMessageStarted(id)]);
      Associative(out, closed.out, [ReasoningMessageStarted(id)]);
    }

    method ReasoningChunk(o: Fields, out: seq<Event>) returns (r: Pushed)
      modifies this
      ensures Follows(Spec.ReasoningChunk(context, old(S()), o), old(S()), out, r, S())
    {
      var incoming :- Spec.OptionalString(o, "messageId");
      var buffer := out;
      FollowsNothing(S(), out);
      if incoming.Some? && reasoningChunkId != incoming {
        OpenReasoningKeeps(context, S(), incoming.value);
        buffer :- OpenReasoningChunk(incoming.value, buffer);
      }
      ghost var begun := Spec.Step(S(), buffer[|out|..]);
      if reasoningChunkId.None? {
        return Err(InvalidSequence);
      }
      var delta :- Spec.OptionalText(o, "delta");
      if delta.None? {
        r := Ok(buffer);
        FollowsNothing(S(), buffer);
      } else if delta.value == "" {
        r := CloseReasoningChunk(buffer);
      } else {
        r := Ok(buffer + [ReasoningDelta(reasoningChunkId.value, delta.value)]);
      }
      FollowsAfter(old(S()), out, begun, ReasoningRest(context, begun.state, delta), r, S());
    }

    method StartRun(id: string, out: seq<Event>) returns (r: Pushed)
      modifies this
      ensures Follows(Spec.StartRun(context, old(S()), id), old(S()), out, r, S())
    {
      if id in reasoningRuns {
        return Err(InvalidSequence);
      }
      reasoningRuns := reasoningRuns + {id};
      return Ok(out + [ReasoningStarted(id)]);
    }

    method EndRun(id: string, out: seq<Event>) returns (r: Pushed)
      modifies this
      ensures Follows(Spec.EndRun(context, old(S()), id), old(S()), out, r, S())
    {
      if id !in reasoningRuns {
        return Err(InvalidSequence);
      }
      reasoningRuns := reasoningRuns - {id};
      return Ok(out + [ReasoningEnded(id)]);
    }

    method StartMessage(id: string, out: seq<Event>) returns (r: Pushed)
      modifies this
      ensures Follows(Spec.StartMessage(context, old(S()), id), old(S()), out, r, S())
    {
      if id in reasoningMessages {
        return Err(InvalidSequence);
      }
      reasoningMessages := reasoningMessages + {id};
      return Ok(out + [ReasoningMessageStarted(id)]);
    }

    method EndMessage(id: string, out: seq<Event>) returns (r: Pushed)
      modifies this
      ensures Follows(Spec.EndMessage(context, old(S()), id), old(S()), out, r, S())
    {
      if id !in reasoningMessages {
        return Err(InvalidSequence);
      }
      reasoningMessages := reasoningMessages - {id};
      return Ok(out + [ReasoningMessageEnded(id)]);
    }

    method MessageContent(id: string, o: Fields, out: seq<Event>) returns (r: Pushed)
      ensures Follows(Spec.MessageContent(context, S(), id, o), S(), out, r, S())
    {
      if id !in reasoningMessages {
        return Err(InvalidSequence);
      }
      var delta :- Spec.RequiredText(o, "delta");
      return Ok(out + [ReasoningDelta(id, delta)]);
    }

    // -------------------------------------------------------------------------------------------
    // Families
    // -------------------------------------------------------------------------------------------

    method RequireNoOpenStreams() returns (r: Result<(), Error>)
      ensures r == if Spec.NoOpenStreams(V()) then Ok(()) else Err(InvalidSequence)
    {
      if openText != map[] || openSteps != {} || reasoningMessages != {} || reasoningRuns != {} {
        return Err(InvalidSequence);
      }
      if exists id :: id in tools && !tools[id].ended {
        return Err(InvalidSequence);
      }
      return Ok(());
    }

    method AbortOpenStreams()
      modifies this
      ensures S() == Spec.State(
                       old(V()).(openText := map[], tools := map[], openSteps := {}, reasoningRuns := {}, reasoningMessages := {}),
                       None, None, None)
    {
      openText, tools := map[], map[];
      openSteps, reasoningRuns, reasoningMessages := {}, {}, {};
      textChunkId, toolChunkId, reasoningChunkId := None, None, None;
    }

    method RunEnd(o: Fields, out: seq<Event>) returns (r: Pushed)
      modifies this
      ensures Follows(Spec.RunEnd(context, old(S()), o), old(S()), out, r, S())
    {
      var outcome := Get(o, "outcome");
      var last: Event;
      if outcome.None? || outcome.value.Null? || Spec.OutcomeType(outcome.value) == Some("success") {
        last := RunFinished;
      } else if Spec.OutcomeType(outcome.value) == Some("interrupt") {
        var interrupts :- ValidateInterrupts(Get(outcome.value.fields, "interrupts"));
        last := RunInterrupted(interrupts);
      } else {
        return Err(InvalidEvent);
      }
      terminal := true;
      return Ok(out + [last]);
    }

    method FailRun(o: Fields, out: seq<Event>) returns (r: Pushed)
      modifies this
      ensures Follows(Spec.Lifecycle(context, old(S()), Spec.TagRunError, o), old(S()), out, r, S())
    {
      var message :- Spec.RequiredText(o, "message");
      var code :- Spec.OptionalString(o, "code");
      terminal := true;
      AbortOpenStreams();
      return Ok(out + [RunError(message, code)]);
    }

    method Step(tag: Spec.Tag, o: Fields, out: seq<Event>) returns (r: Pushed)
      requires tag.TagStepStarted? || tag.TagStepFinished?
      modifies this
      ensures Follows(Spec.Lifecycle(context, old(S()), tag, o), old(S()), out, r, S())
    {
      var name :- Spec.RequiredId(o, "stepName");
      if tag.TagStepStarted? {
        if name in openSteps {
          return Err(InvalidSequence);
        }
        openSteps := openSteps + {name};
        return Ok(out + [StepStarted(name)]);
      }
      if name !in openSteps {
        return Err(InvalidSequence);
      }
      openSteps := openSteps - {name};
      return Ok(out + [StepFinished(name)]);
    }

    method Lifecycle(tag: Spec.Tag, o: Fields, out: seq<Event>) returns (r: Pushed)
      modifies this
      ensures Follows(Spec.Lifecycle(context, old(S()), tag, o), old(S()), out, r, S())
    {
      match tag
      case TagRunStarted =>
        if started {
          return Err(InvalidSequence);
        }
        var _ :- Spec.CheckRunIdentity(context, o);
        started := true;
        r := Ok(out + [RunStarted]);
      case TagRunFinished =>
        var _ :- Spec.CheckRunIdentity(context, o);
        var _ :- RequireNoOpenStreams();
        r := RunEnd(o, out);
      case TagRunError =>
        r := FailRun(o, out);
      case TagStepStarted | TagStepFinished =>
        r := Step(tag, o, out);
      case _ =>
        r := Err(InvalidEvent);
    }

    method Texts(tag: Spec.Tag, o: Fields, out: seq<Event>) returns (r: Pushed)
      modifies this
      ensures Follows(Spec.Texts(context, old(S()), tag, o), old(S()), out, r, S())
    {
      match tag
      case TagTextStart =>
        r := TextStart(o, out);
      case TagTextContent =>
        var id :- Spec.RequiredId(o, "messageId");
        if id !in openText {
          return Err(InvalidSequence);
        }
        var delta :- Spec.RequiredText(o, "delta");
        r := Ok(out + [TextDelta(id, delta)]);
      case TagTextEnd =>
        var id :- Spec.RequiredId(o, "messageId");
        if id !in openText {
          return Err(InvalidSequence);
        }
        openText := openText - {id};
        r := Ok(out + [TextEnded(id)]);
      case TagTextChunk =>
        r := TextChunk(o, out);
      case _ =>
        r := Err(InvalidEvent);
    }

    method Tools(tag: Spec.Tag, o: Fields, out: seq<Event>) returns (r: Pushed)
      modifies this
      ensures Follows(Spec.Tools(context, old(S()), tag, o), old(S()), out, r, S())
    {
      match tag
      case TagToolStart =>
        r := ToolStart(o, out);
      case TagToolArgs =>
        r := ToolArgs(o, out);
      case TagToolEnd =>
        var id :- Spec.RequiredId(o, "toolCallId");
        r := FinishTool(id, out);
      case TagToolChunk =>
        r := ToolChunk(o, out);
      case TagToolResult =>
        var callId :- Spec.RequiredId(o, "toolCallId");
        if "role" in o && o["role"] != Str("tool") {
          return Err(InvalidEvent);
        }
        if callId !in tools || !tools[callId].ended {
          return Err(InvalidSequence);
        }
        var messageId :- Spec.RequiredId(o, "messageId");
        var content :- Spec.RequiredText(o, "content");
        r := Ok(out + [ToolResult(messageId, callId, content)]);
      case _ =>
        r := Err(InvalidEvent);
    }

    method ReplaceState(o: Fields, out: seq<Event>) returns (r: Pushed)
      modifies this
      ensures Follows(Spec.Projections(context, old(S()), Spec.TagStateSnapshot, o), old(S()), out, r, S())
    {
      var snapshot :- Spec.RequiredValue(o, "snapshot");
      var _ :- Spec.EnsureBound(context.lib, snapshot);
      state := snapshot;
      return Ok(out + [StateSnapshot(snapshot)]);
    }

    method PatchState(patch: seq<Value>, out: seq<Event>) returns (r: Pushed)
      modifies this
      ensures Follows(Spec.PatchState(context, old(S()), patch), old(S()), out, r, S())
    {
      var next, applied := Patch.ApplyPatch(context.lib, state, patch);
      state := next;
      var _ :- applied;
      return Ok(out + [StateDelta(patch)]);
    }

    method PassThrough(tag: Spec.Tag, o: Fields, out: seq<Event>) returns (r: Pushed)
      requires tag.TagRaw? || tag.TagCustom?
      ensures Follows(Spec.Projections(context, S(), tag, o), S(), out, r, S())
    {
      if tag.TagRaw? {
        var event :- Spec.RequiredValue(o, "event");
        var source :- Spec.OptionalString(o, "source");
        return Ok(out + [Raw(source, event)]);
      }
      var name :- Spec.RequiredId(o, "name");
      var value :- Spec.RequiredValue(o, "value");
      return Ok(out + [Custom(name, value)]);
    }

    method Projections(tag: Spec.Tag, o: Fields, out: seq<Event>) returns (r: Pushed)
      modifies this
      ensures Follows(Spec.Projections(context, old(S()), tag, o), old(S()), out, r, S())
    {
      match tag
      case TagStateSnapshot =>
        r := ReplaceState(o, out);
      case TagStateDelta =>
        var patch :- Spec.PatchArray(context.lib, o, "delta");
        r := PatchState(patch, out);
      case TagMessagesSnapshot =>
        var snapshot :- ValidateMessages(context, Get(o, "messages"));
        messages := snapshot;
        r := Ok(out + [MessagesSnapshot(snapshot)]);
      case TagRaw | TagCustom =>
        r := PassThrough(tag, o, out);
      case _ =>
        r := Err(InvalidEvent);
    }

    method ReplaceActivity(o: Fields, out: seq<Event>) returns (r: Pushed)
      modifies this
      ensures Follows(Spec.Activities(context, old(S()), Spec.TagActivitySnapshot, o), old(S()), out, r, S())
    {
      var id :- Spec.RequiredId(o, "messageId");
      var kind :- Spec.RequiredId(o, "activityType");
      var content :- Spec.RequiredValue(o, "content");
      if !content.Object? {
        return Err(InvalidEvent);
      }
      var asked :- Spec.OptionalBool(o, "replace");
      var replace := asked != Some(false);
      if replace || id !in activities {
        activities := activities[id := Activity(kind, content)];
      }
      return Ok(out + [ActivitySnapshot(id, kind, content, replace)]);
    }

    method PatchActivity(id: string, kind: string, patch: seq<Value>, out: seq<Event>) returns (r: Pushed)
      modifies this
      ensures Follows(Spec.PatchActivity(context, old(S()), id, kind, patch), old(S()), out, r, S())
    {
      if id !in activities || activities[id].activityType != kind {
        return Err(InvalidSequence);
      }
      var next, applied := Patch.ApplyPatch(context.lib, activities[id].content, patch);
      activities := activities[id := activities[id].(content := next)];
      if applied.Err? {
        assert activities == old(activities);
        return Err(applied.error);
      }
      return Ok(out + [ActivityDelta(id, kind, patch)]);
    }

    method Activities(tag: Spec.Tag, o: Fields, out: seq<Event>) returns (r: Pushed)
      modifies this
      ensures Follows(Spec.Activities(context, old(S()), tag, o), old(S()), out, r, S())
    {
      match tag
      case TagActivitySnapshot =>
        r := ReplaceActivity(o, out);
      case TagActivityDelta =>
        var id :- Spec.RequiredId(o, "messageId");
        var kind :- Spec.RequiredId(o, "activityType");
        var patch :- Spec.PatchArray(context.lib, o, "patch");
        r := PatchActivity(id, kind, patch, out);
      case _ =>
        r := Err(InvalidEvent);
    }

    method Encrypted(o: Fields, out: seq<Event>) returns (r: Pushed)
      ensures Follows(Spec.Encrypted(context, S(), o), S(), out, r, S())
    {
      var subtype :- Spec.RequiredId(o, "subtype");
      if subtype != "tool-call" && subtype != "message" {
        return Err(InvalidEvent);
      }
      var entityId :- Spec.RequiredId(o, "entityId");
      var value :- Spec.RequiredId(o, "encryptedValue");
      return Ok(out + [ReasoningEncrypted(subtype, entityId, value)]);
    }

    method ReasoningRuns(tag: Spec.Tag, o: Fields, out: seq<Event>) returns (r: Pushed)
      modifies this
      ensures Follows(Spec.ReasoningRuns(context, old(S()), tag, o), old(S()), out, r, S())
    {
      match tag
      case TagReasoningStart =>
        var id :- Spec.RequiredId(o, "messageId");
        r := StartRun(id, out);
      case TagThinkingStart =>
        var _ :- Spec.OptionalString(o, "title");
        r := StartRun(Spec.ThinkingRunId(context), out);
      case TagReasoningEnd =>
        var id :- Spec.RequiredId(o, "messageId");
        r := EndRun(id, out);
      case TagThinkingEnd =>
        r := EndRun(Spec.ThinkingRunId(context), out);
      case TagReasoningEncrypted =>
        r := Encrypted(o, out);
      case _ =>
        r := Err(InvalidEvent);
    }

    method ReasoningMessages(tag: Spec.Tag, o: Fields, out: seq<Event>) returns (r: Pushed)
      modifies this
      ensures Follows(Spec.ReasoningMessages(context, old(S()), tag, o), old(S()), out, r, S())
    {
      match tag
      case TagReasoningMessageStart =>
        if Get(o, "role") != Some(Str("reasoning")) {
          return Err(InvalidEvent);
        }
        var id :- Spec.RequiredId(o, "messageId");
        r := StartMessage(id, out);
      case TagThinkingTextStart =>
        r := StartMessage(Spec.ThinkingMessageId(context), out);
      case TagReasoningMessageContent =>
        var id :- Spec.RequiredId(o, "messageId");
        r := MessageContent(id, o, out);
      case TagThinkingTextContent =>
        r := MessageContent(Spec.ThinkingMessageId(context), o, out);
      case TagReasoningMessageEnd =>
        var id :- Spec.RequiredId(o, "messageId");
        r := EndMessage(id, out);
      case TagThinkingTextEnd =>
        r := EndMessage(Spec.ThinkingMessageId(context), out);
      case TagReasoningMessageChunk =>
        r := ReasoningChunk(o, out);
      case _ =>
        r := Err(InvalidEvent);
    }

    // -------------------------------------------------------------------------------------------
    // The two entry points
    // -------------------------------------------------------------------------------------------

    method DispatchReasoning(tag: Spec.Tag, o: Fields, out: seq<Event>) returns (r: Pushed)
      requires Spec.FamilyOf(tag).ReasoningFamily? || Spec.FamilyOf(tag).MessageFamily?
      modifies this
      ensures Follows(Spec.Dispatch(context, old(S()), tag, o), old(S()), out, r, S())
    {
      if Spec.FamilyOf(tag).ReasoningFamily? {
        r := ReasoningRuns(tag, o, out);
      } else {
        r := ReasoningMessages(tag, o, out);
      }
    }

    method DispatchProjection(tag: Spec.Tag, o: Fields, out: seq<Event>) returns (r: Pushed)
      requires Spec.FamilyOf(tag).ProjectionFamily? || Spec.FamilyOf(tag).ActivityFamily?
      modifies this
      ensures Follows(Spec.Dispatch(context, old(S()), tag, o), old(S()), out, r, S())
    {
      if Spec.FamilyOf(tag).ProjectionFamily? {
        r := Projections(tag, o, out);
      } else {
        r := Activities(tag, o, out);
      }
    }

    method Dispatch(tag: Spec.Tag, o: Fields, out: seq<Event>) returns (r: Pushed)
      modifies this
      ensures Follows(Spec.Dispatch(context, old(S()), tag, o), old(S()), out, r, S())
    {
      match Spec.FamilyOf(tag)
      case LifecycleFamily => r := Lifecycle(tag, o, out);
      case TextFamily => r := Texts(tag, o, out);
      case ToolFamily => r := Tools(tag, o, out);
      case ProjectionFamily | ActivityFamily => r := DispatchProjection(tag, o, out);
      case ReasoningFamily | MessageFamily => r := DispatchReasoning(tag, o, out);
    }

    method CloseUnlessError(tag: Spec.Tag) returns (r: Pushed)
      modifies this
      ensures Follows(if tag.TagRunError? then Spec.Nothing(old(S())) else Spec.CloseBefore(context, old(S()), tag),
                      old(S()), [], r, S())
      ensures SameProjections(old(V()), V())
    {
      var out: seq<Event> := [];
      if tag.TagRunError? {
        FollowsNothing(S(), out);
        return Ok(out);
      }
      CloseBeforeKeeps(context, S(), tag);
      r := CloseConvenienceBefore(tag, out);
    }

    method IngestTagged(tag: Spec.Tag, o: Fields) returns (r: Pushed)
      modifies this
      ensures Follows(Spec.IngestTagged(context, old(S()), tag, o), old(S()), [], r, S())
    {
      var out :- CloseUnlessError(tag);
      ghost var closed := (if tag.TagRunError? then Spec.Nothing(old(S())) else Spec.CloseBefore(context, old(S()), tag)).value;
      assert [] + closed.out == closed.out;
      if !started && !tag.TagRunStarted? {
        return Err(InvalidSequence);
      }
      r := Dispatch(tag, o, out);
      FollowsIngest(context, old(S()), tag, o, closed, r, S());
    }

    method IngestObject(o: Fields) returns (r: Pushed)
      modifies this
      ensures Follows(Spec.IngestObject(context, old(S()), o), old(S()), [], r, S())
    {
      var tag :- Spec.TagOf(o);
      r := IngestTagged(tag, o);
    }

    /** Decode one `data:` value. */
    method Ingest(data: string) returns (r: Pushed)
      modifies this
      ensures Follows(Spec.Ingest(context, old(S()), data), old(S()), [], r, S())
    {
      if data == [] || Bytes(data) > MAX_EVENT_BYTES || HasNul(data) {
        return Err(TooLarge);
      }
      if terminal {
        return Err(InvalidSequence);
      }
      var v := context.lib.parse(data);
      if v.None? {
        return Err(InvalidEvent);
      }
      var _ :- Spec.EnsureBound(context.lib, v.value);
      if !v.value.Object? {
        return Err(InvalidEvent);
      }
      r := IngestObject(v.value.fields);
    }

    /** Expand what is still open, and require exactly one terminal. */
    method Finish() returns (r: Pushed)
      modifies this
      ensures Follows(Spec.Finish(context, old(S())), old(S()), [], r, S())
    {
      CloseBeforeKeeps(context, S(), Spec.TagUnknown);
      var out :- CloseConvenienceBefore(Spec.TagUnknown, []);
      if !started || !terminal {
        return Err(Incomplete);
      }
      return Ok(out);
    }
  }

  function TextRest(c: Spec.Context, s: Spec.State, delta: Option<string>): Spec.Outcome
    requires s.text.Some?
  {
    if delta.None? then Spec.Nothing(s)
    else if delta.value == "" then Spec.CloseText(c, s)
    else Spec.Emit(c, s, TextDelta(s.text.value, delta.value))
  }

  function ToolRest(c: Spec.Context, s: Spec.State, delta: Option<string>): Spec.Outcome
    requires s.tool.Some?
  {
    if delta.None? then Spec.Nothing(s)
    else if delta.value == "" then Spec.CloseTool(c, s)
    else if s.tool.value !in s.view.tools then Err(InvalidSequence)
    else Spec.AppendArguments(c, s, s.tool.value, delta.value)
  }

  function ReasoningRest(c: Spec.Context, s: Spec.State, delta: Option<string>): Spec.Outcome
    requires s.reasoning.Some?
  {
    if delta.None? then Spec.Nothing(s)
    else if delta.value == "" then Spec.CloseReasoning(c, s)
    else Spec.Emit(c, s, ReasoningDelta(s.reasoning.value, delta.value))
  }

  lemma {:induction false} EmptyIsZero(s: string)
    ensures Bytes(s) == 0 <==> s == ""
  {
  }

  lemma {:induction false} OpenTextKeeps(c: Spec.Context, s: Spec.State, id: string, o: Fields)
    ensures var r := Spec.OpenTextChunk(c, s, id, o);
            r.Ok? ==> SameProjections(s.view, r.value.state.view)
  {
    CloseKeepsProjections(c, s);
  }

  lemma {:induction false} OpenToolKeeps(c: Spec.Context, s: Spec.State, id: string, o: Fields)
    ensures var r := Spec.OpenToolChunk(c, s, id, o);
            r.Ok? ==> SameProjections(s.view, r.value.state.view)
  {
    CloseKeepsProjections(c, s);
  }

  lemma {:induction false} OpenReasoningKeeps(c: Spec.Context, s: Spec.State, id: string)
    ensures var r := Spec.OpenReasoningChunk(c, s, id);
            r.Ok? ==> SameProjections(s.view, r.value.state.view)
  {
  }

  /** The first two of the three endings that may be owed. */
  function CloseTextAndTool(c: Spec.Context, s: Spec.State, tag: Spec.Tag): Spec.Outcome {
    var a :- if tag.TagTextChunk? then Spec.Nothing(s) else Spec.CloseText(c, s);
    Spec.After(a.out, if tag.TagToolChunk? then Spec.Nothing(a.state) else Spec.CloseTool(c, a.state))
  }

  lemma {:induction false} CloseBothKeeps(c: Spec.Context, s: Spec.State, tag: Spec.Tag)
    ensures var r := CloseTextAndTool(c, s, tag);
            r.Ok? ==> SameProjections(s.view, r.value.state.view)
  {
    CloseKeepsProjections(c, s);
    var a := if tag.TagTextChunk? then Spec.Nothing(s) else Spec.CloseText(c, s);
    if a.Ok? {
      CloseKeepsProjections(c, a.value.state);
    }
  }

  lemma {:induction false} CloseReasoningKeeps(c: Spec.Context, s: Spec.State)
    ensures Spec.CloseReasoning(c, s).Ok? ==> SameProjections(s.view, Spec.CloseReasoning(c, s).value.state.view)
  {
  }

  lemma {:induction false} CloseBeforeKeeps(c: Spec.Context, s: Spec.State, tag: Spec.Tag)
    ensures var r := Spec.CloseBefore(c, s, tag);
            r.Ok? ==> SameProjections(s.view, r.value.state.view)
  {
    var a := if tag.TagTextChunk? then Spec.Nothing(s) else Spec.CloseText(c, s);
    CloseKeepsProjections(c, s);
    if a.Ok? {
      var b := if tag.TagToolChunk? then Spec.Nothing(a.value.state) else Spec.CloseTool(c, a.value.state);
      CloseKeepsProjections(c, a.value.state);
      if b.Ok? {
        CloseReasoningKeeps(c, b.value.state);
      }
    }
  }

  lemma {:induction false} CloseKeepsProjections(c: Spec.Context, s: Spec.State)
    ensures Spec.CloseText(c, s).Ok? ==> SameProjections(s.view, Spec.CloseText(c, s).value.state.view)
    ensures Spec.CloseTool(c, s).Ok? ==> SameProjections(s.view, Spec.CloseTool(c, s).value.state.view)
  {
  }
}
