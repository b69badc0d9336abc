/** When the chunk shorthand says something that explicit events could have said too. */
module AguiExpress {
  import opened Json
  import opened Wrappers
  import opened AguiEvents
  import opened AguiSpec
  import opened AguiLaws
  import opened AguiShorthand
  import opened AguiWire

  /** An id that some explicit event can name in a reasoning message. */
  predicate Nameable(c: Context, id: string) {
    ValidId(id) || id == ThinkingMessageId(c)
  }

  /** A chunk that opens a stream takes an id that some explicit start could take. */
  predicate Expressible(c: Context, s: State, o: Fields) {
    if TagOf(o) == Ok(TagReasoningMessageChunk) then
      var id := Incoming(o, "messageId");
      id.Some? && s.reasoning != id ==> Nameable(c, id.value) && id.value !in s.view.reasoningMessages
    else Explicit(s, o)
  }

  /** The open shorthand, if any, has such an id. */
  predicate IdsFit(c: Context, s: State) {
    && (s.text.Some? ==> ValidId(s.text.value))
    && (s.tool.Some? ==> ValidId(s.tool.value))
    && (s.reasoning.Some? ==> Nameable(c, s.reasoning.value))
  }

  // ---------------------------------------------------------------------------------------------
  // Admissible traces
  // ---------------------------------------------------------------------------------------------

  predicate AllFit(c: Context, es: seq<Event>) {
    forall i :: 0 <= i < |es| ==> Fits(c, es[i])
  }

  predicate IsStart(e: Event) {
    e.TextStarted? || e.ToolStarted? || e.ReasoningMessageStarted?
  }

  /** No start but the one at `k`, if there is one. */
  predicate OnlyStart(es: seq<Event>, k: nat) {
    forall i :: 0 <= i < |es| && i != k ==> !IsStart(es[i])
  }

  lemma {:induction false} AdmissibleSplit(c: Context, v: View, a: seq<Event>, b: seq<Event>)
    ensures AdmissibleAll(c, v, a + b) <==> AdmissibleAll(c, v, a) && AdmissibleAll(c, AbsorbAll(c.lib, v, a), b)
  {
    if b == [] {
      assert a + b == a;
    } else {
      var front := b[..|b| - 1];
      assert (a + b)[..|a + b| - 1] == a + front;
      AdmissibleSplit(c, v, a, front);
      AbsorbJoin(c.lib, v, a, front);
    }
  }

  lemma {:induction false} AdmissibleAt(c: Context, v: View, es: seq<Event>, k: nat)
    requires AdmissibleAll(c, v, es) && k < |es|
    ensures Fresh(AbsorbAll(c.lib, v, es[..k]), es[k]) && Fits(c, es[k])
  {
    var front := es[..|es| - 1];
    if k < |front| {
      AdmissibleAt(c, v, front, k);
      assert front[..k] == es[..k];
    }
  }

  lemma {:induction false} OneStart(c: Context, v: View, es: seq<Event>, k: nat)
    requires JustifiedAll(c.lib, v, es) && AllFit(c, es) && OnlyStart(es, k)
    requires k < |es| ==> Fresh(AbsorbAll(c.lib, v, es[..k]), es[k])
    ensures AdmissibleAll(c, v, es)
  {
    if es != [] {
      var front := es[..|es| - 1];
      assert k < |front| ==> front[..k] == es[..k];
      OneStart(c, v, front, k);
    }
  }

  // ---------------------------------------------------------------------------------------------
  // The ends owed
  // ---------------------------------------------------------------------------------------------

  /** Only ends, all with such ids. */
  predicate EndsFit(c: Context, r: Outcome) {
    r.Ok? ==> AllFit(c, r.value.out) && OnlyStart(r.value.out, |r.value.out|) && IdsFit(c, r.value.state)
  }

  lemma {:induction false} ClosesFit(c: Context, s: State)
    requires IdsFit(c, s)
    ensures EndsFit(c, CloseText(c, s)) && EndsFit(c, CloseTool(c, s)) && EndsFit(c, CloseReasoning(c, s))
  {
  }

  lemma {:induction false} EndsFitAfter(c: Context, first: Step, r: Outcome)
    requires EndsFit(c, Ok(first)) && EndsFit(c, r)
    ensures EndsFit(c, After(first.out, r))
  {
  }

  lemma {:induction false} CloseBeforeFits(c: Context, s: State, tag: Tag)
    requires IdsFit(c, s)
    ensures EndsFit(c, CloseBefore(c, s, tag))
  {
    ClosesFit(c, s);
    var a := if tag.TagTextChunk? then Nothing(s) else CloseText(c, s);
    if a.Ok? {
      ClosesFit(c, a.value.state);
      var next := if tag.TagToolChunk? then Nothing(a.value.state) else CloseTool(c, a.value.state);
      EndsFitAfter(c, a.value, next);
      var b := After(a.value.out, next);
      if b.Ok? {
        ClosesFit(c, b.value.state);
        EndsFitAfter(c, b.value,
          if tag.TagReasoningMessageChunk? then Nothing(b.value.state) else CloseReasoning(c, b.value.state));
      }
    }
  }

  // ---------------------------------------------------------------------------------------------
  // One chunk
  // ---------------------------------------------------------------------------------------------

  /** The chunk is expressible exactly if what it says is admissible. */
  ghost predicate Agrees(c: Context, s: State, o: Fields, r: Outcome) {
    r.Ok? ==>
      && (AdmissibleAll(c, s.view, r.value.out) <==> Expressible(c, s, o))
      && (Expressible(c, s, o) ==> IdsFit(c, r.value.state))
  }

  /** What an opening chunk says: the end owed, the start, and then no start. */
  ghost predicate Opens(c: Context, closed: Step, r: Outcome, fits: bool) {
    r.Ok? ==>
      var out, k := r.value.out, |closed.out|;
      && k < |out| && out[..k] == closed.out && OnlyStart(out, k)
      && (fits ==> AllFit(c, out) && IdsFit(c, r.value.state))
  }

  /** A start at `k` is all there is to decide. */
  lemma {:induction false} OpenedAgrees(c: Context, s: State, o: Fields, closed: Step, r: Outcome, fits: bool)
    requires Good(c, s.view, r) && Opens(c, closed, r, fits) && closed.state.view == AbsorbAll(c.lib, s.view, closed.out)
    requires r.Ok? ==> (Fits(c, r.value.out[|closed.out|]) <==> fits)
    requires r.Ok? ==> (Expressible(c, s, o) <==> fits && Fresh(closed.state.view, r.value.out[|closed.out|]))
    ensures Agrees(c, s, o, r)
  {
    if r.Ok? {
      var out, k := r.value.out, |closed.out|;
      if AdmissibleAll(c, s.view, out) {
        AdmissibleAt(c, s.view, out, k);
      } else if Expressible(c, s, o) {
        OneStart(c, s.view, out, k);
      }
    }
  }

  lemma {:induction false} ContinuedAgrees(c: Context, s: State, o: Fields, r: Outcome)
    requires Good(c, s.view, r) && EndsFit(c, r) && Expressible(c, s, o)
    ensures Agrees(c, s, o, r)
  {
    if r.Ok? {
      OneStart(c, s.view, r.value.out, |r.value.out|);
    }
  }

  lemma {:induction false} OpensThen(c: Context, closed: Step, start: Event, rest: Outcome, fits: bool)
    requires AllFit(c, closed.out) && OnlyStart(closed.out, |closed.out|) && (fits ==> Fits(c, start))
    requires rest.Ok? ==> OnlyStart(rest.value.out, |rest.value.out|)
    requires fits ==> EndsFit(c, rest)
    ensures Opens(c, closed, After(closed.out + [start], rest), fits)
    ensures rest.Ok? ==> After(closed.out + [start], rest).value.out[|closed.out|] == start
  {
  }

  // Text

  lemma {:induction false} TextRest(c: Context, s: State, o: Fields)
    requires s.text.Some? && OptionalText(o, "delta").Ok?
    ensures var r := TextDeltaOutcome(c, s, o);
            && (r.Ok? ==> OnlyStart(r.value.out, |r.value.out|))
            && (IdsFit(c, s) ==> EndsFit(c, r))
  {
    DeltaIsOptional(o);
  }

  lemma {:induction false} TextBegins(c: Context, s: State, id: string, o: Fields)
    requires OpenTextChunk(c, s, id, o).Ok?
    ensures CloseText(c, s).Ok?
    ensures var begun, k := OpenTextChunk(c, s, id, o).value, |CloseText(c, s).value.out|;
            && |begun.out| == k + 1 && begun.out == CloseText(c, s).value.out + [begun.out[k]]
            && begun.out[k].TextStarted? && begun.out[k].id == id && (Fits(c, begun.out[k]) <==> ValidId(id))
            && begun.state.text == Some(id)
            && (IdsFit(c, s) && ValidId(id) ==> IdsFit(c, begun.state))
  {
  }

  lemma {:induction false} TextOpens(c: Context, s: State, o: Fields, id: string)
    requires Ready(TagTextChunk, s) && IdsFit(c, s) && TextChunk(c, s, o).Ok?
    requires OptionalString(o, "messageId") == Ok(Some(id)) && s.text != Some(id)
    ensures CloseText(c, s).Ok? && Opens(c, CloseText(c, s).value, TextChunk(c, s, o), ValidId(id))
    ensures var e := TextChunk(c, s, o).value.out[|CloseText(c, s).value.out|];
            e.TextStarted? && e.id == id && (Fits(c, e) <==> ValidId(id))
  {
    TextBegins(c, s, id, o);
    ClosesFit(c, s);
    DeltaIsOptional(o);
    var closed, begun := CloseText(c, s).value, OpenTextChunk(c, s, id, o).value;
    OpenTextChunkKept(c, s, id, o);
    TextRest(c, begun.state, o);
    var rest := TextDeltaOutcome(c, begun.state, o);
    assert TextChunk(c, s, o) == After(begun.out, rest);
    OpensThen(c, closed, begun.out[|closed.out|], rest, ValidId(id));
  }

  lemma {:induction false} TextContinues(c: Context, s: State, o: Fields)
    requires Ready(TagTextChunk, s) && IdsFit(c, s) && TextChunk(c, s, o).Ok?
    requires OptionalString(o, "messageId").Ok?
    requires OptionalString(o, "messageId").value.Some? ==> s.text == OptionalString(o, "messageId").value
    ensures EndsFit(c, TextChunk(c, s, o))
  {
    DeltaIsOptional(o);
    TextRest(c, s, o);
    AfterNothing(TextDeltaOutcome(c, s, o));
  }

  lemma {:induction false} TextAgrees(c: Context, s: State, o: Fields)
    requires Ready(TagTextChunk, s) && IdsFit(c, s) && TagOf(o) == Ok(TagTextChunk)
    ensures Agrees(c, s, o, TextChunk(c, s, o))
  {
    var r := TextChunk(c, s, o);
    if r.Ok? {
      TextChunkKept(c, s, o);
      IncomingIsOptional(o, "messageId");
      var incoming := Incoming(o, "messageId");
      if incoming.Some? && s.text != incoming {
        var id := incoming.value;
        CloseTextGood(c, s);
        TextOpens(c, s, o, id);
        OpenedAgrees(c, s, o, CloseText(c, s).value, r, ValidId(id));
      } else {
        TextContinues(c, s, o);
        ContinuedAgrees(c, s, o, r);
      }
    }
  }

  // Tool

  lemma {:induction false} ToolRest(c: Context, s: State, o: Fields)
    requires s.tool.Some? && s.tool.value in s.view.tools && OptionalText(o, "delta").Ok?
    ensures var r := ToolDeltaOutcome(c, s, o);
            && (r.Ok? ==> OnlyStart(r.value.out, |r.value.out|))
            && (IdsFit(c, s) ==> EndsFit(c, r))
  {
    DeltaIsOptional(o);
  }

  lemma {:induction false} ToolBegins(c: Context, s: State, id: string, o: Fields)
    requires OpenToolChunk(c, s, id, o).Ok?
    ensures CloseTool(c, s).Ok?
    ensures var begun, k := OpenToolChunk(c, s, id, o).value, |CloseTool(c, s).value.out|;
            && |begun.out| == k + 1 && begun.out == CloseTool(c, s).value.out + [begun.out[k]]
            && begun.out[k].ToolStarted? && begun.out[k].id == id && (Fits(c, begun.out[k]) <==> ValidId(id))
            && begun.state.tool == Some(id)
            && (IdsFit(c, s) && ValidId(id) ==> IdsFit(c, begun.state))
  {
  }

  lemma {:induction false} ToolOpens(c: Context, s: State, o: Fields, id: string)
    requires Ready(TagToolChunk, s) && IdsFit(c, s) && ToolChunk(c, s, o).Ok?
    requires OptionalString(o, "toolCallId") == Ok(Some(id)) && s.tool != Some(id)
    ensures CloseTool(c, s).Ok? && Opens(c, CloseTool(c, s).value, ToolChunk(c, s, o), ValidId(id))
    ensures var e := ToolChunk(c, s, o).value.out[|CloseTool(c, s).value.out|];
            e.ToolStarted? && e.id == id && (Fits(c, e) <==> ValidId(id))
  {
    ToolBegins(c, s, id, o);
    ClosesFit(c, s);
    DeltaIsOptional(o);
    var closed, begun := CloseTool(c, s).value, OpenToolChunk(c, s, id, o).value;
    OpenToolChunkKept(c, s, id, o);
    ToolRest(c, begun.state, o);
    var rest := ToolDeltaOutcome(c, begun.state, o);
    assert ToolChunk(c, s, o) == After(begun.out, rest);
    OpensThen(c, closed, begun.out[|closed.out|], rest, ValidId(id));
  }

  lemma {:induction false} ToolContinues(c: Context, s: State, o: Fields)
    requires Ready(TagToolChunk, s) && IdsFit(c, s) && ToolChunk(c, s, o).Ok?
    requires OptionalString(o, "toolCallId").Ok?
    requires OptionalString(o, "toolCallId").value.Some? ==> s.tool == OptionalString(o, "toolCallId").value
    ensures EndsFit(c, ToolChunk(c, s, o))
  {
    DeltaIsOptional(o);
    ToolRest(c, s, o);
    AfterNothing(ToolDeltaOutcome(c, s, o));
  }

  lemma {:induction false} ToolAgrees(c: Context, s: State, o: Fields)
    requires Ready(TagToolChunk, s) && IdsFit(c, s) && TagOf(o) == Ok(TagToolChunk)
    ensures Agrees(c, s, o, ToolChunk(c, s, o))
  {
    var r := ToolChunk(c, s, o);
    if r.Ok? {
      ToolChunkKept(c, s, o);
      IncomingIsOptional(o, "toolCallId");
      var incoming := Incoming(o, "toolCallId");
      if incoming.Some? && s.tool != incoming {
        var id := incoming.value;
        CloseToolGood(c, s);
        ToolOpens(c, s, o, id);
        CloseToolKeys(c, s, id);
        OpenedAgrees(c, s, o, CloseTool(c, s).value, r, ValidId(id));
      } else {
        ToolContinues(c, s, o);
        ContinuedAgrees(c, s, o, r);
      }
    }
  }

  // Reasoning

  lemma {:induction false} ReasoningRest(c: Context, s: State, o: Fields)
    requires s.reasoning.Some? && OptionalText(o, "delta").Ok?
    ensures var r := ReasoningDeltaOutcome(c, s, o);
            && (r.Ok? ==> OnlyStart(r.value.out, |r.value.out|))
            && (IdsFit(c, s) ==> EndsFit(c, r))
  {
    DeltaIsOptional(o);
  }

  lemma {:induction false} ReasoningBegins(c: Context, s: State, id: string)
    requires OpenReasoningChunk(c, s, id).Ok?
    ensures CloseReasoning(c, s).Ok?
    ensures var begun, k := OpenReasoningChunk(c, s, id).value, |CloseReasoning(c, s).value.out|;
            && |begun.out| == k + 1 && begun.out == CloseReasoning(c, s).value.out + [begun.out[k]]
            && begun.out[k].ReasoningMessageStarted? && begun.out[k].id == id && (Fits(c, begun.out[k]) <==> Nameable(c, id))
            && begun.state.reasoning == Some(id)
            && (IdsFit(c, s) && Nameable(c, id) ==> IdsFit(c, begun.state))
  {
  }

  lemma {:induction false} ReasoningOpens(c: Context, s: State, o: Fields, id: string)
    requires Ready(TagReasoningMessageChunk, s) && IdsFit(c, s) && ReasoningChunk(c, s, o).Ok?
    requires OptionalString(o, "messageId") == Ok(Some(id)) && s.reasoning != Some(id)
    ensures CloseReasoning(c, s).Ok? && Opens(c, CloseReasoning(c, s).value, ReasoningChunk(c, s, o), Nameable(c, id))
    ensures var e := ReasoningChunk(c, s, o).value.out[|CloseReasoning(c, s).value.out|];
            e.ReasoningMessageStarted? && e.id == id && (Fits(c, e) <==> Nameable(c, id))
  {
    ReasoningBegins(c, s, id);
    ClosesFit(c, s);
    DeltaIsOptional(o);
    var closed, begun := CloseReasoning(c, s).value, OpenReasoningChunk(c, s, id).value;
    OpenReasoningChunkKept(c, s, id);
    ReasoningRest(c, begun.state, o);
    var rest := ReasoningDeltaOutcome(c, begun.state, o);
    assert ReasoningChunk(c, s, o) == After(begun.out, rest);
    OpensThen(c, closed, begun.out[|closed.out|], rest, Nameable(c, id));
  }

  lemma {:induction false} ReasoningContinues(c: Context, s: State, o: Fields)
    requires Ready(TagReasoningMessageChunk, s) && IdsFit(c, s) && ReasoningChunk(c, s, o).Ok?
    requires OptionalString(o, "messageId").Ok?
    requires OptionalString(o, "messageId").value.Some? ==> s.reasoning == OptionalString(o, "messageId").value
    ensures EndsFit(c, ReasoningChunk(c, s, o))
  {
    DeltaIsOptional(o);
    ReasoningRest(c, s, o);
    AfterNothing(ReasoningDeltaOutcome(c, s, o));
  }

  lemma {:induction false} ReasoningAgrees(c: Context, s: State, o: Fields)
    requires Ready(TagReasoningMessageChunk, s) && IdsFit(c, s) && TagOf(o) == Ok(TagReasoningMessageChunk)
    ensures Agrees(c, s, o, ReasoningChunk(c, s, o))
  {
    var r := ReasoningChunk(c, s, o);
    if r.Ok? {
      ReasoningChunkKept(c, s, o);
      IncomingIsOptional(o, "messageId");
      var incoming := Incoming(o, "messageId");
      if incoming.Some? && s.reasoning != incoming {
        var id := incoming.value;
        CloseReasoningGood(c, s);
        ReasoningOpens(c, s, o, id);
        CloseReasoningKeys(c, s, id);
        OpenedAgrees(c, s, o, CloseReasoning(c, s).value, r, Nameable(c, id));
      } else {
        ReasoningContinues(c, s, o);
        ContinuedAgrees(c, s, o, r);
      }
    }
  }
  // ---------------------------------------------------------------------------------------------
  // One object
  // ---------------------------------------------------------------------------------------------

  lemma {:induction false} ReasoningStaysExpressible(c: Context, s: State, o: Fields)
    requires ChunkInv(s) && TagOf(o) == Ok(TagReasoningMessageChunk) && CloseBefore(c, s, TagReasoningMessageChunk).Ok?
    ensures Expressible(c, s, o) <==> Expressible(c, CloseBefore(c, s, TagReasoningMessageChunk).value.state, o)
  {
    SingleClose(c, s, TagReasoningMessageChunk);
    if s.tool.Some? {
      CloseToolGood(c, s);
      CloseToolKeys(c, s, "");
    }
  }

  lemma {:induction false} StaysExpressible(c: Context, s: State, o: Fields, tag: Tag)
    requires ChunkInv(s) && TagOf(o) == Ok(tag) && CloseBefore(c, s, tag).Ok?
    ensures Expressible(c, s, o) <==> Expressible(c, CloseBefore(c, s, tag).value.state, o)
  {
    if tag.TagReasoningMessageChunk? {
      ReasoningStaysExpressible(c, s, o);
    } else {
      ClosedFor(c, s, o, tag);
    }
  }

  lemma {:induction false} OneAgrees(c: Context, s: State, o: Fields, r: Outcome)
    requires SaysOne(c, s, r) && Good(c, s.view, r) && StaysIdle(r) && Plain(o)
    ensures Agrees(c, s, o, r)
  {
    if r.Ok? {
      var e := r.value.out[0];
      assert r.value.out == [e] && [e][..0] == [];
      JustifiedOne(c.lib, s.view, e);
    }
  }

  lemma {:induction false} ErrorAgrees(c: Context, s: State, o: Fields)
    requires ChunkInv(s) && s.view.started && !s.view.terminal && TagOf(o) == Ok(TagRunError)
    ensures Agrees(c, s, o, Lifecycle(c, s, TagRunError, o))
  {
    LifecycleKept(c, s, TagRunError, o);
    var r := Lifecycle(c, s, TagRunError, o);
    if r.Ok? {
      OneStart(c, s.view, r.value.out, 1);
    }
  }

  lemma {:induction false} DispatchAgrees(c: Context, s: State, o: Fields, tag: Tag)
    requires Ready(tag, s) && IdsFit(c, s) && TagOf(o) == Ok(tag) && !tag.TagRunError?
    ensures Agrees(c, s, o, Dispatch(c, s, tag, o))
  {
    if tag.TagTextChunk? {
      TextAgrees(c, s, o);
    } else if tag.TagToolChunk? {
      ToolAgrees(c, s, o);
    } else if tag.TagReasoningMessageChunk? {
      ReasoningAgrees(c, s, o);
    } else {
      DispatchKept(c, s, tag, o);
      DispatchSaysOne(c, s, tag, o);
      DispatchStaysIdle(c, s, tag, o);
      OneAgrees(c, s, o, Dispatch(c, s, tag, o));
    }
  }

  lemma {:induction false} AfterAgrees(c: Context, s: State, o: Fields, closed: Step, r: Outcome)
    requires AdmissibleAll(c, s.view, closed.out) && closed.state.view == AbsorbAll(c.lib, s.view, closed.out)
    requires Agrees(c, closed.state, o, r) && (Expressible(c, s, o) <==> Expressible(c, closed.state, o))
    ensures Agrees(c, s, o, After(closed.out, r))
  {
    if r.Ok? {
      AdmissibleSplit(c, s.view, closed.out, r.value.out);
    }
  }

  /** What an accepted object says is admissible exactly if the object is expressible. */
  lemma {:induction false} ObjectAgrees(c: Context, s: State, o: Fields)
    requires ChunkInv(s) && IdsFit(c, s) && !s.view.terminal
    ensures Agrees(c, s, o, IngestObject(c, s, o))
  {
    var r := IngestObject(c, s, o);
    if r.Ok? {
      var tag := TagOf(o).value;
      if tag.TagRunError? {
        ErrorAgrees(c, s, o);
        AfterNothing(Lifecycle(c, s, tag, o));
      } else {
        CloseBeforeGood(c, s, tag);
        CloseBeforeFits(c, s, tag);
        StaysExpressible(c, s, o, tag);
        var closed := CloseBefore(c, s, tag).value;
        OneStart(c, s.view, closed.out, |closed.out|);
        DispatchAgrees(c, closed.state, o, tag);
        AfterAgrees(c, s, o, closed, Dispatch(c, closed.state, tag, o));
      }
    }
  }

  // ---------------------------------------------------------------------------------------------
  // Whole streams
  // ---------------------------------------------------------------------------------------------

  predicate AllExpressible(c: Context, s: State, os: seq<Fields>)
    decreases |os|
  {
    os == [] || IngestNext(c, s, os[0]).Err?
    || (Expressible(c, s, os[0]) && AllExpressible(c, IngestNext(c, s, os[0]).value.state, os[1..]))
  }

  lemma {:induction false} StreamAgrees(c: Context, s: State, os: seq<Fields>)
    requires ChunkInv(s) && IdsFit(c, s) && FeedObjects(c, s, os).Ok?
    ensures AdmissibleAll(c, s.view, FeedObjects(c, s, os).value.out) <==> AllExpressible(c, s, os)
    decreases |os|
  {
    if os != [] {
      var first := IngestNext(c, s, os[0]).value;
      var rest := FeedObjects(c, first.state, os[1..]).value;
      IngestKept(c, s, os[0]);
      ObjectAgrees(c, s, os[0]);
      AdmissibleSplit(c, s.view, first.out, rest.out);
      if Expressible(c, s, os[0]) {
        StreamAgrees(c, first.state, os[1..]);
      }
    }
  }

  /**
   * For every accepted stream, shorthand included: some explicit stream has the same meaning exactly
   * if each chunk that opens a stream takes an id that an explicit start could take.
   */
  lemma {:induction false} ShorthandExpressible(c: Context, state: Value, os: seq<Fields>)
    requires FeedObjects(c, Start(state), os).Ok?
    ensures (exists explicit :: Meant(c, state, explicit, FeedObjects(c, Start(state), os).value.out))
            <==> AllExpressible(c, Start(state), os)
  {
    StreamAgrees(c, Start(state), os);
    ExplicitTraces(c, state, FeedObjects(c, Start(state), os).value.out);
  }
}
