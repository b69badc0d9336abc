/** The session object of a remote run; each method does what its specification function says. */
module RemoteSession {
  import opened Json
  import opened Wrappers
  import opened RemoteSpec
  import Agui = AguiEvents
  import Spec = AguiSpec
  import Decoder = AguiDecoder

  class Stream {
    var script: seq<Answer>

    method NextData() returns (a: Answer)
      modifies this
      ensures a == First(old(script)) && script == Rest(old(script))
    {
      a := First(script);
      script := Rest(script);
    }
  }

  /** Equal, except that nobody looks at the decoder of an ended session any more. */
  predicate Same(s: Session, t: Session) {
    t == s.(decoder := t.decoder) && (!s.terminal ==> s == t)
  }

  lemma {:induction false} ReleasedNext(calls: seq<Call>, results: set<string>, i: nat, before: seq<Event>)
    requires i < |calls|
    ensures var call := calls[i];
            before + Released(calls[..i + 1], results) ==
            (before + Released(calls[..i], results)) +
            if call.callId in results then [] else [ToolCallCompleted(call.index, call.callId, call.name, call.arguments)]
  {
    assert calls[..i + 1][..i] == calls[..i];
  }

  class RemoteAguiSession {
    const config: Config
    const stream: Stream
    const decoder: Decoder.AguiDecoder
    var pending: seq<Event>
    var assistantMessages: set<string>
    var completedTools: seq<Call>
    var remoteToolResults: set<string>
    var projectionCount: nat
    var projectionBytes: nat
    var terminal: bool
    var streamEnded: bool

    ghost function S(): Session
      reads this, decoder
    {
      Session(decoder.S(), pending, assistantMessages, completedTools, remoteToolResults,
              projectionCount, projectionBytes, terminal, streamEnded)
    }

    constructor (config: Config, stream: Stream, decoder: Decoder.AguiDecoder)
      ensures this.config == config && this.stream == stream && this.decoder == decoder
      ensures S() == Initial(decoder.V().state).(decoder := decoder.S())
    {
      this.config, this.stream, this.decoder := config, stream, decoder;
      pending, assistantMessages, completedTools, remoteToolResults := [], {}, [], {};
      projectionCount, projectionBytes := 0, 0;
      terminal, streamEnded := false, false;
    }

    method Fail(failure: Failure)
      modifies this
      ensures S() == RemoteSpec.Fail(old(S()), failure)
    {
      pending := [];
      pending := pending + [Failed(failure)];
      terminal := true;
    }

    method PushProjection(p: Projection) returns (pushed: bool)
      modifies this
      ensures S() == RemoteSpec.PushProjection(config, old(S()), p) && pushed == Affordable(config, old(S()), p)
    {
      var length := config.admit(p);
      if length.None? {
        Fail(InvalidResponse);
        return false;
      }
      var nextCount, nextBytes := projectionCount + 1, projectionBytes + length.value;
      if nextCount > MAX_PROJECTIONS || nextBytes > MAX_PROJECTION_BYTES {
        Fail(InvalidResponse);
        return false;
      }
      projectionCount, projectionBytes := nextCount, nextBytes;
      pending := pending + [RemoteProjection(p)];
      return true;
    }

    method Complete()
      modifies this
      ensures S() == RemoteSpec.Complete(config, old(S()))
    {
      var calls := completedTools;
      for i := 0 to |calls|
        invariant AllOffered(config, calls[..i])
        invariant S() == old(S()).(pending := old(pending) + Released(calls[..i], remoteToolResults))
      {
        var call := calls[i];
        ReleasedNext(calls, remoteToolResults, i, old(pending));
        if call.name !in config.offered {
          Fail(InvalidResponse);
          return;
        }
        if call.callId !in remoteToolResults {
          pending := pending + [ToolCallCompleted(call.index, call.callId, call.name, call.arguments)];
        }
      }
      assert calls[..|calls|] == calls;
      pending := pending + [Completed];
      terminal := true;
    }

    method AcceptToolResult(messageId: string, callId: string, content: string)
      modifies this
      ensures S() == RemoteSpec.AcceptToolResult(config, old(S()), messageId, callId, content)
    {
      var known := exists i ::
        0 <= i < |completedTools| && completedTools[i].callId == callId && completedTools[i].name in config.offered;
      if !known || callId in remoteToolResults {
        Fail(InvalidResponse);
        return;
      }
      var pushed := PushProjection(Projection(ToolResultKind, Some(callId), Some(messageId), Str(content)));
      if pushed {
        remoteToolResults := remoteToolResults + {callId};
      }
    }

    method AcceptActivity(id: string, kind: string)
      modifies this
      ensures S() == RemoteSpec.AcceptActivity(config, old(S()), id, kind)
    {
      if id !in decoder.activities {
        Fail(InvalidResponse);
        return;
      }
      var _ := PushProjection(Projection(ActivityKind, Some(id), Some(kind), decoder.activities[id].content));
    }

    method AcceptState(e: Agui.Event)
      requires e.StateSnapshot? || e.StateDelta? || e.MessagesSnapshot?
      modifies this
      ensures S() == RemoteSpec.Accept(config, old(S()), e)
    {
      if e.MessagesSnapshot? {
        var _ := PushProjection(Projection(MessagesKind, None, None, Array(e.messages)));
      } else {
        var _ := PushProjection(Projection(StateKind, None, None, decoder.state));
      }
    }

    method AcceptNamed(e: Agui.Event)
      requires e.StepStarted? || e.StepFinished? || e.Raw? || e.Custom?
      modifies this
      ensures S() == RemoteSpec.Accept(config, old(S()), e)
    {
      var p :=
        match e
        case StepStarted(name) => Projection(StepStartedKind, Some(name), None, Null)
        case StepFinished(name) => Projection(StepFinishedKind, Some(name), None, Null)
        case Raw(source, event) => Projection(RawKind, source, None, event)
        case Custom(name, value) => Projection(CustomKind, Some(name), None, value);
      var _ := PushProjection(p);
    }

    method AcceptStream(e: Agui.Event)
      requires e.RunStarted? || e.TextStarted? || e.TextDelta? || e.TextEnded? || e.ReasoningDelta?
      modifies this
      ensures S() == RemoteSpec.Accept(config, old(S()), e)
    {
      match e
      case RunStarted =>
        pending := pending + [ResponseStarted(config.responseId)];
      case TextStarted(id, role, _) =>
        if role.Assistant? {
          assistantMessages := assistantMessages + {id};
        }
      case TextDelta(id, delta) =>
        if id in assistantMessages && delta != "" {
          pending := pending + [TextDelta(0, delta)];
        }
      case TextEnded(id) =>
        assistantMessages := assistantMessages - {id};
      case ReasoningDelta(_, delta) =>
        if delta != "" {
          pending := pending + [ReasoningDelta(0, delta)];
        }
    }

    method AcceptEnd(e: Agui.Event)
      requires e.RunFinished? || e.RunInterrupted? || e.RunError?
      modifies this
      ensures S() == RemoteSpec.Accept(config, old(S()), e)
    {
      match e
      case RunFinished =>
        Complete();
      case RunInterrupted(interrupts) =>
        if config.batch(interrupts) {
          pending := pending + [Interrupted(config.context.runId, interrupts)];
          terminal := true;
        } else {
          Fail(InvalidResponse);
        }
      case RunError(_, _) =>
        Fail(GenerationFailed);
    }

    method AcceptTool(e: Agui.Event)
      requires e.ToolCompleted? || e.ToolResult?
      modifies this
      ensures S() == RemoteSpec.Accept(config, old(S()), e)
    {
      match e
      case ToolCompleted(id, name, arguments) =>
        var index := if |completedTools| <= U32_MAX then |completedTools| else U32_MAX;
        completedTools := completedTools + [Call(index, id, name, arguments)];
      case ToolResult(messageId, callId, content) =>
        AcceptToolResult(messageId, callId, content);
    }

    /** Brackets of tools and reasoning, and encrypted reasoning, add nothing. */
    method Accept(e: Agui.Event)
      modifies this
      ensures S() == RemoteSpec.Accept(config, old(S()), e)
    {
      match e
      case RunStarted | TextStarted(_, _, _) | TextDelta(_, _) | TextEnded(_) | ReasoningDelta(_, _) =>
        AcceptStream(e);
      case RunFinished | RunInterrupted(_) | RunError(_, _) =>
        AcceptEnd(e);
      case ToolCompleted(_, _, _) | ToolResult(_, _, _) =>
        AcceptTool(e);
      case ActivitySnapshot(id, kind, _, _) =>
        AcceptActivity(id, kind);
      case ActivityDelta(id, kind, _) =>
        AcceptActivity(id, kind);
      case StateSnapshot(_) | StateDelta(_) | MessagesSnapshot(_) =>
        AcceptState(e);
      case StepStarted(_) | StepFinished(_) | Raw(_, _) | Custom(_, _) =>
        AcceptNamed(e);
      case _ =>
    }

    method AcceptAll(events: seq<Agui.Event>)
      modifies this
      ensures S() == RemoteSpec.AcceptAll(config, old(S()), events)
    {
      for i := 0 to |events|
        invariant RemoteSpec.AcceptAll(config, old(S()), events) == RemoteSpec.AcceptAll(config, S(), events[i..])
      {
        if terminal {
          break;
        }
        assert events[i..][0] == events[i] && events[i..][1..] == events[i + 1..];
        Accept(events[i]);
      }
    }

    /** What one answer of the transport does; an answer that ends the call with an error does nothing. */
    method Receive(a: Answer)
      requires config.context == decoder.context && !terminal
      modifies this, decoder
      ensures Same(RemoteSpec.Receive(config, old(S()), a), S())
    {
      match a
      case Data(text) =>
        var events := decoder.Ingest(text);
        if events.Err? {
          Fail(InvalidResponse);
        } else {
          assert [] + Spec.Ingest(config.context, old(decoder.S()), text).value.out
              == Spec.Ingest(config.context, old(decoder.S()), text).value.out;
          AcceptAll(events.value);
        }
      case End =>
        streamEnded := true;
        var finished := decoder.Finish();
        if finished.Err? {
          Fail(InvalidResponse);
        }
      case Broken(e) =>
        if !IsFatal(a) {
          Fail(FailureOf(e));
        }
    }

    method NextEvent() returns (r: Result<Option<Event>, TransportError>)
      requires config.context == decoder.context
      modifies this, decoder, stream
      ensures var reply := RemoteSpec.NextEvent(config, old(S()), old(stream.script));
              r == reply.answer && Same(reply.session, S()) && stream.script == reply.script
    {
      ghost var model := S();
      while true
        invariant RemoteSpec.NextEvent(config, old(S()), old(stream.script))
               == RemoteSpec.NextEvent(config, model, stream.script)
        invariant Same(model, S())
        decreases |stream.script|, !streamEnded
      {
        if pending != [] {
          var e := pending[0];
          pending := pending[1..];
          return Ok(Some(e));
        }
        if terminal || streamEnded {
          return Ok(None);
        }
        var a := stream.NextData();
        if IsFatal(a) {
          return Err(a.error);
        }
        model := RemoteSpec.Receive(config, model, a);
        Receive(a);
      }
    }
  }
}
