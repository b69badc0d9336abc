/** Which chunks are accepted: the fields a chunk needs, the streams it may name, and the ends it owes. */
module AguiAccepts {
  import opened Json
  import opened Wrappers
  import opened AguiEvents
  import opened AguiSpec
  import opened AguiLaws
  import opened AguiShorthand

  // ---------------------------------------------------------------------------------------------
  // Well-formed fields
  // ---------------------------------------------------------------------------------------------

  predicate Clean(text: string) {
    Bytes(text) <= MAX_EVENT_BYTES && !HasNul(text)
  }

  /** Absent, or a text. */
  predicate MayText(o: Fields, field: string) {
    field in o ==> o[field].Str? && Clean(o[field].s)
  }

  /** Absent, or a text that is not empty. */
  predicate MayName(o: Fields, field: string) {
    field in o ==> o[field].Str? && o[field].s != "" && Clean(o[field].s)
  }

  predicate MustName(o: Fields, field: string) {
    field in o && o[field].Str? && ValidId(o[field].s)
  }

  predicate MayRole(o: Fields) {
    "role" in o ==> o["role"] in {Str("developer"), Str("system"), Str("assistant"), Str("user")}
  }

  lemma {:induction false} FieldsRead(o: Fields, field: string)
    ensures OptionalText(o, field).Ok? <==> MayText(o, field)
    ensures OptionalString(o, field).Ok? <==> MayName(o, field)
    ensures RequiredId(o, field).Ok? <==> MustName(o, field)
  {
  }

  lemma {:induction false} RoleReads(o: Fields)
    ensures ParseTextRole(Get(o, "role")).Ok? <==> MayRole(o)
  {
  }

  // ---------------------------------------------------------------------------------------------
  // What a chunk needs
  // ---------------------------------------------------------------------------------------------

  /** The chunk names a stream other than the one open in its family. */
  predicate Begins(open: Option<string>, o: Fields, field: string) {
    Incoming(o, field).Some? && Incoming(o, field) != open
  }

  /** The chunk's own fields: a stream to belong to, and a fragment. */
  predicate Shaped(open: Option<string>, o: Fields, field: string) {
    MayName(o, field) && MayText(o, "delta") && (Incoming(o, field).Some? || open.Some?)
  }

  /** The arguments collected for this tool call are a JSON object, so that it can end. */
  predicate Endable(c: Context, v: View, id: string) {
    id in v.tools && c.lib.parse(v.tools[id].arguments).Some? && c.lib.parse(v.tools[id].arguments).value.Object?
  }

  predicate ToolEndable(c: Context, s: State) {
    s.tool.Some? ==> Endable(c, s.view, s.tool.value)
  }

  /** The fragment of a tool chunk, after `text`: nothing, the end of the call, or more arguments within the cap. */
  predicate Argument(c: Context, text: string, o: Fields) {
    match Delta(o)
    case None => true
    case Some(delta) =>
      if delta == "" then c.lib.parse(text).Some? && c.lib.parse(text).value.Object?
      else Bytes(delta) + Bytes(text) <= MAX_EVENT_BYTES
  }

  predicate TextFits(s: State, o: Fields) {
    && Shaped(s.text, o, "messageId")
    && (Begins(s.text, o, "messageId") ==> MayRole(o) && MayName(o, "name"))
  }

  predicate ToolFits(c: Context, s: State, o: Fields) {
    && Shaped(s.tool, o, "toolCallId")
    && if Begins(s.tool, o, "toolCallId") then
         && ToolEndable(c, s) && MustName(o, "toolCallName") && MayName(o, "parentMessageId")
         && Argument(c, "", o)
       else s.tool.Some? && s.tool.value in s.view.tools && Argument(c, s.view.tools[s.tool.value].arguments, o)
  }

  predicate ReasoningFits(s: State, o: Fields) {
    Shaped(s.reasoning, o, "messageId")
  }

  /** What a chunk of this tag needs of its own family. */
  predicate Fits(c: Context, s: State, o: Fields, tag: Tag) {
    match tag
    case TagTextChunk => TextFits(s, o)
    case TagToolChunk => ToolFits(c, s, o)
    case TagReasoningMessageChunk => ReasoningFits(s, o)
    case _ => true
  }

  /** The end owed to a tool call of another family can be sent. */
  predicate Owes(c: Context, s: State, tag: Tag) {
    !tag.TagToolChunk? ==> ToolEndable(c, s)
  }

  // ---------------------------------------------------------------------------------------------
  // Family by family
  // ---------------------------------------------------------------------------------------------

  lemma {:induction false} CloseToolExactly(c: Context, s: State)
    requires ChunkInv(s)
    ensures CloseTool(c, s).Ok? <==> ToolEndable(c, s)
  {
  }

  lemma {:induction false} ClosesText(c: Context, s: State)
    requires ChunkInv(s)
    ensures CloseText(c, s).Ok? && CloseReasoning(c, s).Ok?
  {
  }

  lemma {:induction false} TextAccepts(c: Context, s: State, o: Fields)
    requires Ready(TagTextChunk, s) && s.view.started
    ensures TextChunk(c, s, o).Ok? <==> TextFits(s, o)
  {
    FieldsRead(o, "messageId");
    FieldsRead(o, "delta");
    FieldsRead(o, "name");
    RoleReads(o);
    ClosesText(c, s);
    if OptionalString(o, "messageId").Ok? {
      IncomingIsOptional(o, "messageId");
      if Begins(s.text, o, "messageId") {
        OpenTextChunkKept(c, s, Incoming(o, "messageId").value, o);
        var begun := OpenTextChunk(c, s, Incoming(o, "messageId").value, o);
        if begun.Ok? {
          ClosesText(c, begun.value.state);
        }
      }
    }
  }

  lemma {:induction false} ReasoningOpens(c: Context, s: State, id: string)
    requires Ready(TagReasoningMessageChunk, s)
    ensures OpenReasoningChunk(c, s, id).Ok?
    ensures var begun := OpenReasoningChunk(c, s, id).value.state; begun.reasoning == Some(id) && ChunkInv(begun)
  {
    ClosesText(c, s);
    OpenReasoningChunkKept(c, s, id);
  }

  lemma {:induction false} ReasoningAccepts(c: Context, s: State, o: Fields)
    requires Ready(TagReasoningMessageChunk, s) && s.view.started
    ensures ReasoningChunk(c, s, o).Ok? <==> ReasoningFits(s, o)
  {
    FieldsRead(o, "messageId");
    FieldsRead(o, "delta");
    if OptionalString(o, "messageId").Ok? {
      IncomingIsOptional(o, "messageId");
      if Begins(s.reasoning, o, "messageId") {
        var id := Incoming(o, "messageId").value;
        ReasoningOpens(c, s, id);
        ClosesText(c, OpenReasoningChunk(c, s, id).value.state);
      } else {
        ClosesText(c, s);
      }
    }
  }

  lemma {:induction false} ToolOpens(c: Context, s: State, id: string, o: Fields)
    requires Ready(TagToolChunk, s)
    ensures OpenToolChunk(c, s, id, o).Ok? <==>
              ToolEndable(c, s) && MustName(o, "toolCallName") && MayName(o, "parentMessageId")
    ensures OpenToolChunk(c, s, id, o).Ok? ==>
              var begun := OpenToolChunk(c, s, id, o).value.state;
              begun.tool == Some(id) && id in begun.view.tools && begun.view.tools[id].arguments == ""
  {
    CloseToolExactly(c, s);
    FieldsRead(o, "toolCallName");
    FieldsRead(o, "parentMessageId");
  }

  lemma {:induction false} ArgumentExactly(c: Context, s: State, o: Fields)
    requires ChunkInv(s) && s.tool.Some? && MayText(o, "delta")
    ensures ToolDeltaOutcome(c, s, o).Ok? <==> Argument(c, s.view.tools[s.tool.value].arguments, o)
  {
    CloseToolExactly(c, s);
  }

  lemma {:induction false} ToolAccepts(c: Context, s: State, o: Fields)
    requires Ready(TagToolChunk, s) && s.view.started
    ensures ToolChunk(c, s, o).Ok? <==> ToolFits(c, s, o)
  {
    FieldsRead(o, "toolCallId");
    FieldsRead(o, "delta");
    if OptionalString(o, "toolCallId").Ok? {
      IncomingIsOptional(o, "toolCallId");
      var begun := Nothing(s);
      if Begins(s.tool, o, "toolCallId") {
        var id := Incoming(o, "toolCallId").value;
        ToolOpens(c, s, id, o);
        OpenToolChunkKept(c, s, id, o);
        begun := OpenToolChunk(c, s, id, o);
      }
      if begun.Ok? && begun.value.state.tool.Some? && OptionalText(o, "delta").Ok? {
        DeltaIsOptional(o);
        ArgumentExactly(c, begun.value.state, o);
      }
    }
  }

  // ---------------------------------------------------------------------------------------------
  // One chunk object
  // ---------------------------------------------------------------------------------------------

  lemma {:induction false} OwedExactly(c: Context, s: State, tag: Tag)
    requires ChunkInv(s)
    ensures CloseBefore(c, s, tag).Ok? <==> Owes(c, s, tag)
  {
    SingleClose(c, s, tag);
    CloseToolExactly(c, s);
    ClosesText(c, s);
  }

  /** The ends that are owed change nothing about what the chunk needs of its own family. */
  lemma {:induction false} FitsClosed(c: Context, s: State, o: Fields, tag: Tag)
    requires ChunkInv(s) && IsChunk(tag) && CloseBefore(c, s, tag).Ok?
    ensures Fits(c, CloseBefore(c, s, tag).value.state, o, tag) <==> Fits(c, s, o, tag)
  {
    SingleClose(c, s, tag);
    if s.text.Some? {
      CloseTextKeys(c, s);
    } else if s.tool.None? {
      CloseReasoningKeys(c, s, "");
    }
  }

  lemma {:induction false} DispatchAccepts(c: Context, s: State, o: Fields, tag: Tag)
    requires Ready(tag, s) && s.view.started && IsChunk(tag)
    ensures Dispatch(c, s, tag, o).Ok? <==> Fits(c, s, o, tag)
  {
    match tag
    case TagTextChunk =>
      assert Dispatch(c, s, tag, o) == TextChunk(c, s, o);
      TextAccepts(c, s, o);
    case TagToolChunk =>
      assert Dispatch(c, s, tag, o) == ToolChunk(c, s, o);
      ToolAccepts(c, s, o);
    case TagReasoningMessageChunk =>
      assert Dispatch(c, s, tag, o) == ReasoningChunk(c, s, o);
      ReasoningAccepts(c, s, o);
  }

  /**
   * A chunk is accepted exactly in a started run, if the ends it owes to other families can be sent,
   * its fields are well formed, and it names a stream or one of its family is open; one that opens a
   * stream needs the fields of a start, and a tool chunk stays within the cap on arguments.
   */
  lemma {:induction false} ChunkAccepted(c: Context, s: State, o: Fields, tag: Tag)
    requires ChunkInv(s) && !s.view.terminal && TagOf(o) == Ok(tag) && IsChunk(tag)
    ensures IngestObject(c, s, o).Ok? <==> s.view.started && Owes(c, s, tag) && Fits(c, s, o, tag)
  {
    OwedExactly(c, s, tag);
    if CloseBefore(c, s, tag).Ok? && s.view.started {
      CloseBeforeGood(c, s, tag);
      FitsClosed(c, s, o, tag);
      DispatchAccepts(c, CloseBefore(c, s, tag).value.state, o, tag);
    }
  }

  // ---------------------------------------------------------------------------------------------
  // A well-formed chunk is accepted if its explicit form is
  // ---------------------------------------------------------------------------------------------

  /** The chunk's own fields, whatever its family. */
  predicate WellFormed(s: State, o: Fields, tag: Tag) {
    match tag
    case TagTextChunk => Shaped(s.text, o, "messageId")
    case TagToolChunk => Shaped(s.tool, o, "toolCallId")
    case TagReasoningMessageChunk => Shaped(s.reasoning, o, "messageId")
    case _ => true
  }

  lemma {:induction false} TextStartRefused(c: Context, s: State, id: string, o: Fields)
    requires Idle(s) && Running(s) && !(MayRole(o) && MayName(o, "name"))
    ensures IngestNext(c, s, TextStartObject(id, o)).Err?
  {
    var x := TextStartObject(id, o);
    IdleIngest(c, s, x, TagTextStart);
    RoleReads(o);
    FieldsRead(o, "name");
    assert Get(x, "role") == Get(o, "role") && Get(x, "name") == Get(o, "name");
  }

  lemma {:induction false} ToolStartRefused(c: Context, s: State, id: string, o: Fields)
    requires Idle(s) && Running(s) && !(MustName(o, "toolCallName") && MayName(o, "parentMessageId"))
    ensures IngestNext(c, s, ToolStartObject(id, o)).Err?
  {
    var x := ToolStartObject(id, o);
    IdleIngest(c, s, x, TagToolStart);
    FieldsRead(o, "toolCallName");
    FieldsRead(o, "parentMessageId");
    assert Get(x, "toolCallName") == Get(o, "toolCallName") && Get(x, "parentMessageId") == Get(o, "parentMessageId");
  }

  /** A start that is refused, after the end of the stream before it. */
  lemma {:induction false} StartRefused(c: Context, s: State, ends: seq<Fields>, closed: Step, start: Fields, rest: seq<Fields>)
    requires Mirrors(c, s, ends, Ok(closed)) && IngestNext(c, Erase(closed.state), start).Err?
    ensures FeedObjects(c, Erase(s), ends + [start] + rest).Err?
  {
    FeedOne(c, Erase(closed.state), start);
    RefusedJoin(c, s, ends, closed, [start]);
    RefusedPrefix(c, Erase(s), ends + [start], rest);
  }

  lemma {:induction false} TextRefused(c: Context, s: State, o: Fields)
    requires Ready(TagTextChunk, s) && s.view.started && IdsValid(s)
    requires Shaped(s.text, o, "messageId") && !TextFits(s, o)
    ensures FeedObjects(c, Erase(s), RewriteText(s, o)).Err?
  {
    var id := Incoming(o, "messageId").value;
    TextRewriteOpens(s, o, id);
    TextEndsMirror(c, s);
    CloseTextGood(c, s);
    var closed := CloseText(c, s).value;
    TextStartRefused(c, Erase(closed.state), id, o);
    StartRefused(c, s, TextEnds(s), closed, TextStartObject(id, o), TextDeltaObjects(id, o));
  }

  /** A tool chunk that opens a call: the call before it cannot end, a field of the start is bad, or its fragment does not fit. */
  lemma {:induction false} ToolBeginRefused(c: Context, s: State, o: Fields, id: string)
    requires Ready(TagToolChunk, s) && s.view.started && IdsValid(s)
    requires MayText(o, "delta") && s.tool != Some(id)
    requires !(ToolEndable(c, s) && MustName(o, "toolCallName") && MayName(o, "parentMessageId") && Argument(c, "", o))
    ensures FeedObjects(c, Erase(s), ToolEnds(s) + [ToolStartObject(id, o)] + ToolDeltaObjects(id, o)).Err?
  {
    var rest := ToolDeltaObjects(id, o);
    ToolEndsMirror(c, s);
    CloseToolExactly(c, s);
    CloseToolGood(c, s);
    ToolOpens(c, s, id, o);
    if !ToolEndable(c, s) {
      RefusedPrefix(c, Erase(s), ToolEnds(s), [ToolStartObject(id, o)]);
      RefusedPrefix(c, Erase(s), ToolEnds(s) + [ToolStartObject(id, o)], rest);
    } else if OpenToolChunk(c, s, id, o).Err? {
      var closed := CloseTool(c, s).value;
      ToolStartRefused(c, Erase(closed.state), id, o);
      StartRefused(c, s, ToolEnds(s), closed, ToolStartObject(id, o), rest);
    } else {
      ToolFragmentRefused(c, s, o, id);
    }
  }

  lemma {:induction false} ToolFragmentRefused(c: Context, s: State, o: Fields, id: string)
    requires Ready(TagToolChunk, s) && s.view.started && IdsValid(s)
    requires MayText(o, "delta") && s.tool != Some(id)
    requires OpenToolChunk(c, s, id, o).Ok? && !Argument(c, "", o)
    ensures FeedObjects(c, Erase(s), ToolEnds(s) + [ToolStartObject(id, o)] + ToolDeltaObjects(id, o)).Err?
  {
    var head, begun := ToolEnds(s) + [ToolStartObject(id, o)], OpenToolChunk(c, s, id, o).value;
    ToolOpens(c, s, id, o);
    OpenToolChunkKept(c, s, id, o);
    ToolOpenMirror(c, s, id, o);
    if ValidId(id) && id !in s.view.tools {
      FieldsRead(o, "delta");
      ArgumentExactly(c, begun.state, o);
      ToolDeltaMirror(c, begun.state, o);
      RefusedJoin(c, s, head, begun, ToolDeltaObjects(id, o));
    } else {
      RefusedPrefix(c, Erase(s), head, ToolDeltaObjects(id, o));
    }
  }

  lemma {:induction false} ToolContinueRefused(c: Context, s: State, o: Fields)
    requires Ready(TagToolChunk, s) && s.view.started && IdsValid(s) && s.tool.Some?
    requires MayText(o, "delta") && !Begins(s.tool, o, "toolCallId")
    requires !Argument(c, s.view.tools[s.tool.value].arguments, o)
    ensures FeedObjects(c, Erase(s), RewriteTool(s, o)).Err?
  {
    FieldsRead(o, "delta");
    ArgumentExactly(c, s, o);
    ToolDeltaMirror(c, s, o);
    assert [] + ToolDeltaObjects(s.tool.value, o) == ToolDeltaObjects(s.tool.value, o);
  }

  lemma {:induction false} ToolRefused(c: Context, s: State, o: Fields)
    requires Ready(TagToolChunk, s) && s.view.started && IdsValid(s)
    requires Shaped(s.tool, o, "toolCallId") && !ToolFits(c, s, o)
    ensures FeedObjects(c, Erase(s), RewriteTool(s, o)).Err?
  {
    if Begins(s.tool, o, "toolCallId") {
      var id := Incoming(o, "toolCallId").value;
      ToolRewriteOpens(s, o, id);
      ToolBeginRefused(c, s, o, id);
    } else {
      ToolContinueRefused(c, s, o);
    }
  }

  lemma {:induction false} OwnRefused(c: Context, s: State, o: Fields, tag: Tag)
    requires Ready(tag, s) && s.view.started && IdsValid(s) && IsChunk(tag)
    requires WellFormed(s, o, tag) && !Fits(c, s, o, tag)
    ensures FeedObjects(c, Erase(s), Own(s, o, tag)).Err?
  {
    if tag.TagTextChunk? {
      TextRefused(c, s, o);
    } else {
      ToolRefused(c, s, o);
    }
  }

  lemma {:induction false} WellFormedClosed(c: Context, s: State, o: Fields, tag: Tag)
    requires ChunkInv(s) && IsChunk(tag) && CloseBefore(c, s, tag).Ok? && WellFormed(s, o, tag)
    ensures WellFormed(CloseBefore(c, s, tag).value.state, o, tag)
  {
    SingleClose(c, s, tag);
    if s.text.Some? {
      CloseTextKeys(c, s);
    } else if s.tool.None? {
      CloseReasoningKeys(c, s, "");
    }
  }

  /** Before the run has started nothing is open, and the start of a stream is refused. */
  lemma {:induction false} EarlyRefused(c: Context, s: State, o: Fields, tag: Tag)
    requires ChunkInv(s) && !s.view.terminal && !s.view.started && TagOf(o) == Ok(tag) && IsChunk(tag)
    requires WellFormed(s, o, tag)
    ensures FeedObjects(c, Erase(s), Rewrite(s, o)).Err?
  {
    assert Idle(s);
    var os := Rewrite(s, o);
    assert os == Own(s, o, tag) by {
      var none: seq<Fields> := [];
      assert none + none + none == none;
    }
    StartsFirst(s, o, tag);
    NotStarted(c, s, os[0]);
    assert os == [os[0]] + os[1..];
    FeedOne(c, s, os[0]);
    RefusedPrefix(c, s, [os[0]], os[1..]);
  }

  lemma {:induction false} StartsFirst(s: State, o: Fields, tag: Tag)
    requires Idle(s) && IsChunk(tag) && WellFormed(s, o, tag)
    ensures Own(s, o, tag) != [] && TagOf(Own(s, o, tag)[0]).Ok? && !TagOf(Own(s, o, tag)[0]).value.TagRunStarted?
  {
    match tag
    case TagTextChunk =>
      var id := Incoming(o, "messageId").value;
      TextRewriteOpens(s, o, id);
      assert TagOf(TextStartObject(id, o)) == Ok(TagTextStart);
    case TagToolChunk =>
      var id := Incoming(o, "toolCallId").value;
      ToolRewriteOpens(s, o, id);
      assert TagOf(ToolStartObject(id, o)) == Ok(TagToolStart);
    case TagReasoningMessageChunk =>
      var id := Incoming(o, "messageId").value;
      ReasoningRewriteOpens(s, o, id);
      assert TagOf(ReasoningStartObject(id)) == Ok(TagReasoningMessageStart);
  }

  lemma {:induction false} NotStarted(c: Context, s: State, x: Fields)
    requires Idle(s) && !s.view.started && TagOf(x).Ok? && !TagOf(x).value.TagRunStarted?
    ensures IngestNext(c, s, x).Err?
  {
  }

  lemma {:induction false} ChunkRefused(c: Context, s: State, o: Fields, tag: Tag)
    requires ChunkInv(s) && IdsValid(s) && !s.view.terminal && TagOf(o) == Ok(tag) && IsChunk(tag)
    requires WellFormed(s, o, tag) && IngestObject(c, s, o).Err?
    ensures FeedObjects(c, Erase(s), Rewrite(s, o)).Err?
  {
    ChunkAccepted(c, s, o, tag);
    if !s.view.started {
      EarlyRefused(c, s, o, tag);
    } else {
      EndingsMirror(c, s, tag);
      OwedExactly(c, s, tag);
      if CloseBefore(c, s, tag).Err? {
        RefusedPrefix(c, Erase(s), Endings(s, tag), Own(s, o, tag));
      } else {
        var closed := CloseBefore(c, s, tag).value;
        CloseBeforeGood(c, s, tag);
        ClosedFor(c, s, o, tag);
        FitsClosed(c, s, o, tag);
        WellFormedClosed(c, s, o, tag);
        OwnRefused(c, closed.state, o, tag);
        RefusedJoin(c, s, Endings(s, tag), closed, Own(closed.state, o, tag));
      }
    }
  }

  /** The object is no chunk, or its own fields are well formed. */
  predicate Sound(s: State, o: Fields) {
    TagOf(o).Ok? && IsChunk(TagOf(o).value) ==> WellFormed(s, o, TagOf(o).value)
  }

  /** With nothing open, an object that is no chunk is its own explicit form. */
  lemma {:induction false} IdleExplained(c: Context, s: State, o: Fields, tag: Tag)
    requires Idle(s) && !s.view.terminal && TagOf(o) == Ok(tag) && !IsChunk(tag) && !tag.TagRunError?
    ensures IngestObject(c, s, o).Ok? <==> FeedObjects(c, Erase(s), Rewrite(s, o)).Ok?
  {
    var none: seq<Fields> := [];
    assert none + none + none == none && none + [o] == [o];
    assert Erase(s) == s;
    FeedOne(c, s, o);
  }

  lemma {:induction false} PlainIngests(c: Context, s: State, o: Fields, tag: Tag)
    requires s.view.started && TagOf(o) == Ok(tag) && !IsChunk(tag) && !tag.TagRunError?
    ensures Rewrite(s, o) == Endings(s, tag) + [o]
    ensures var closed := CloseBefore(c, s, tag);
            if closed.Err? then IngestObject(c, s, o).Err?
            else IngestObject(c, s, o) == After(closed.value.out, Dispatch(c, closed.value.state, tag, o))
  {
  }

  /** An object that is no chunk is accepted exactly if it is after the ends it owes. */
  lemma {:induction false} PlainExplained(c: Context, s: State, o: Fields, tag: Tag)
    requires ChunkInv(s) && IdsValid(s) && s.view.started && !s.view.terminal
    requires TagOf(o) == Ok(tag) && !IsChunk(tag) && !tag.TagRunError?
    ensures IngestObject(c, s, o).Ok? <==> FeedObjects(c, Erase(s), Rewrite(s, o)).Ok?
  {
    EndingsMirror(c, s, tag);
    PlainIngests(c, s, o, tag);
    if CloseBefore(c, s, tag).Err? {
      RefusedPrefix(c, Erase(s), Endings(s, tag), [o]);
    } else {
      CloseBeforeGood(c, s, tag);
      var closed := CloseBefore(c, s, tag).value;
      PlainMirror(c, closed.state, o, tag);
      MirrorsJoin(c, s, Endings(s, tag), closed, [o], Dispatch(c, closed.state, tag, o));
    }
  }

  /** So is an object without a tag, and the end of a run in error, which owes nothing. */
  lemma {:induction false} ErrorExplained(c: Context, s: State, o: Fields)
    requires ChunkInv(s) && !s.view.terminal && (TagOf(o).Err? || TagOf(o) == Ok(TagRunError))
    ensures IngestObject(c, s, o).Ok? <==> FeedObjects(c, Erase(s), Rewrite(s, o)).Ok?
  {
    FeedOne(c, Erase(s), o);
    if TagOf(o).Ok? {
      AfterNothing(Lifecycle(c, s, TagRunError, o));
      AfterNothing(Lifecycle(c, Erase(s), TagRunError, o));
    }
  }

  /** An object is accepted, with an id an explicit start would take, exactly if it is sound and its explicit form is accepted. */
  lemma {:induction false} ObjectExplained(c: Context, s: State, o: Fields)
    requires ChunkInv(s) && IdsValid(s) && !s.view.terminal
    ensures IngestObject(c, s, o).Ok? && Explicit(s, o) <==> Sound(s, o) && FeedObjects(c, Erase(s), Rewrite(s, o)).Ok?
    ensures IngestObject(c, s, o).Ok? && Explicit(s, o) ==> Mirrors(c, s, Rewrite(s, o), IngestObject(c, s, o))
  {
    if IngestObject(c, s, o).Ok? {
      ObjectMirror(c, s, o);
    }
    if TagOf(o).Err? || TagOf(o).value.TagRunError? {
      ErrorExplained(c, s, o);
    } else if IsChunk(TagOf(o).value) {
      ChunkAccepted(c, s, o, TagOf(o).value);
      if IngestObject(c, s, o).Err? && Sound(s, o) {
        ChunkRefused(c, s, o, TagOf(o).value);
      }
    } else if s.view.started {
      PlainExplained(c, s, o, TagOf(o).value);
    } else {
      IdleExplained(c, s, o, TagOf(o).value);
    }
  }

  /**
   * The converse of the shorthand law. After any accepted stream whose chunks are all explicit: one
   * more object is accepted, with an id an explicit start would take, exactly if it is sound and the
   * explicit form of the whole is accepted; and then both have emitted the same events.
   */
  lemma {:induction false} NextExplained(c: Context, s: State, os: seq<Fields>, o: Fields)
    requires ChunkInv(s) && IdsValid(s) && FeedObjects(c, s, os).Ok? && AllExplicit(c, s, os)
    requires !FeedObjects(c, s, os).value.state.view.terminal
    ensures var t := FeedObjects(c, s, os).value.state;
            var explicit := RewriteAll(c, s, os) + Rewrite(t, o);
            && (FeedObjects(c, s, os + [o]).Ok? && Explicit(t, o) <==>
                  Sound(t, o) && FeedObjects(c, Erase(s), explicit).Ok?)
            && (FeedObjects(c, s, os + [o]).Ok? && Explicit(t, o) ==> Mirrors(c, s, explicit, FeedObjects(c, s, os + [o])))
  {
    var first := FeedObjects(c, s, os).value;
    ShorthandMeaning(c, s, os);
    StreamKept(c, s, os);
    ObjectExplained(c, first.state, o);
    FeedJoin(c, s, os, [o]);
    FeedOne(c, first.state, o);
    FeedJoin(c, Erase(s), RewriteAll(c, s, os), Rewrite(first.state, o));
    if IngestObject(c, first.state, o).Ok? && Explicit(first.state, o) {
      MirrorsJoin(c, s, RewriteAll(c, s, os), first, Rewrite(first.state, o), IngestObject(c, first.state, o));
    }
  }

  /** The invariant, and valid ids, along an accepted stream whose chunks are explicit. */
  lemma {:induction false} StreamKept(c: Context, s: State, os: seq<Fields>)
    requires ChunkInv(s) && IdsValid(s) && FeedObjects(c, s, os).Ok? && AllExplicit(c, s, os)
    ensures ChunkInv(FeedObjects(c, s, os).value.state) && IdsValid(FeedObjects(c, s, os).value.state)
    decreases |os|
  {
    if os != [] {
      var first := IngestNext(c, s, os[0]).value;
      IngestKept(c, s, os[0]);
      ObjectMirror(c, s, os[0]);
      StreamKept(c, first.state, os[1..]);
    }
  }
}
