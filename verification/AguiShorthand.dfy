/** The chunk shorthand means what its explicit start, content and end events mean. */
module AguiShorthand {
  import opened Json
  import opened Wrappers
  import opened AguiEvents
  import opened AguiSpec
  import opened AguiLaws

  // ---------------------------------------------------------------------------------------------
  // Explicit objects
  // ---------------------------------------------------------------------------------------------

  function Typed(name: string, rest: Fields): Fields {
    rest["type" := Str(name)]
  }

  function CopyField(from: Fields, field: string): Fields {
    if field in from then map[field := from[field]] else map[]
  }

  function TextStartObject(id: string, o: Fields): Fields {
    Typed("TEXT_MESSAGE_START", CopyField(o, "role") + CopyField(o, "name") + map["messageId" := Str(id)])
  }

  function TextDeltaObject(id: string, delta: string): Fields {
    Typed("TEXT_MESSAGE_CONTENT", map["messageId" := Str(id), "delta" := Str(delta)])
  }

  function TextEndObject(id: string): Fields {
    Typed("TEXT_MESSAGE_END", map["messageId" := Str(id)])
  }

  function ToolStartObject(id: string, o: Fields): Fields {
    Typed("TOOL_CALL_START", CopyField(o, "toolCallName") + CopyField(o, "parentMessageId") + map["toolCallId" := Str(id)])
  }

  function ToolDeltaObject(id: string, delta: string): Fields {
    Typed("TOOL_CALL_ARGS", map["toolCallId" := Str(id), "delta" := Str(delta)])
  }

  function ToolEndObject(id: string): Fields {
    Typed("TOOL_CALL_END", map["toolCallId" := Str(id)])
  }

  function ReasoningStartObject(id: string): Fields {
    Typed("REASONING_MESSAGE_START", map["messageId" := Str(id), "role" := Str("reasoning")])
  }

  function ReasoningDeltaObject(id: string, delta: string): Fields {
    Typed("REASONING_MESSAGE_CONTENT", map["messageId" := Str(id), "delta" := Str(delta)])
  }

  function ReasoningEndObject(id: string): Fields {
    Typed("REASONING_MESSAGE_END", map["messageId" := Str(id)])
  }

  // ---------------------------------------------------------------------------------------------
  // The rewriting
  // ---------------------------------------------------------------------------------------------

  function TextEnds(s: State): seq<Fields> {
    if s.text.Some? then [TextEndObject(s.text.value)] else []
  }

  function ToolEnds(s: State): seq<Fields> {
    if s.tool.Some? then [ToolEndObject(s.tool.value)] else []
  }

  function ReasoningEnds(s: State): seq<Fields> {
    if s.reasoning.Some? then [ReasoningEndObject(s.reasoning.value)] else []
  }

  /** Ends owed before an event of this tag. */
  function Endings(s: State, tag: Tag): seq<Fields> {
    (if tag.TagTextChunk? then [] else TextEnds(s))
    + (if tag.TagToolChunk? then [] else ToolEnds(s))
    + (if tag.TagReasoningMessageChunk? then [] else ReasoningEnds(s))
  }

  /** The id a chunk object names; a chunk without one continues. */
  function Incoming(o: Fields, field: string): Option<string> {
    if field in o && o[field].Str? then Some(o[field].s) else None
  }

  function Delta(o: Fields): Option<string> {
    Incoming(o, "delta")
  }

  function RewriteText(s: State, o: Fields): seq<Fields> {
    var incoming := Incoming(o, "messageId");
    var starts := incoming.Some? && s.text != incoming;
    var id := if starts then incoming.value else if s.text.Some? then s.text.value else "";
    (if starts then TextEnds(s) + [TextStartObject(id, o)] else [])
    + (if Delta(o).None? then []
       else if Delta(o).value == "" then [TextEndObject(id)]
       else [TextDeltaObject(id, Delta(o).value)])
  }

  function RewriteTool(s: State, o: Fields): seq<Fields> {
    var incoming := Incoming(o, "toolCallId");
    var starts := incoming.Some? && s.tool != incoming;
    var id := if starts then incoming.value else if s.tool.Some? then s.tool.value else "";
    (if starts then ToolEnds(s) + [ToolStartObject(id, o)] else [])
    + (if Delta(o).None? then []
       else if Delta(o).value == "" then [ToolEndObject(id)]
       else [ToolDeltaObject(id, Delta(o).value)])
  }

  function RewriteReasoning(s: State, o: Fields): seq<Fields> {
    var incoming := Incoming(o, "messageId");
    var starts := incoming.Some? && s.reasoning != incoming;
    var id := if starts then incoming.value else if s.reasoning.Some? then s.reasoning.value else "";
    (if starts then ReasoningEnds(s) + [ReasoningStartObject(id)] else [])
    + (if Delta(o).None? then []
       else if Delta(o).value == "" then [ReasoningEndObject(id)]
       else [ReasoningDeltaObject(id, Delta(o).value)])
  }

  /** What the object itself stands for, when an end owed before it has been sent. */
  function Own(s: State, o: Fields, tag: Tag): seq<Fields> {
    match tag
    case TagTextChunk => RewriteText(s, o)
    case TagToolChunk => RewriteTool(s, o)
    case TagReasoningMessageChunk => RewriteReasoning(s, o)
    case _ => [o]
  }

  /** One object in explicit form. Only the open shorthand of `s` is looked at. */
  function Rewrite(s: State, o: Fields): seq<Fields> {
    var tag := TagOf(o);
    if tag.Err? || tag.value.TagRunError? then [o] else Endings(s, tag.value) + Own(s, o, tag.value)
  }

  /** A chunk that opens a stream uses an id that an explicit start would accept. */
  predicate Explicit(s: State, o: Fields) {
    TagOf(o).Ok? ==>
      match TagOf(o).value
      case TagTextChunk =>
        var id := Incoming(o, "messageId");
        id.Some? && s.text != id ==> ValidId(id.value) && id.value !in s.view.openText
      case TagToolChunk =>
        var id := Incoming(o, "toolCallId");
        id.Some? && s.tool != id ==> ValidId(id.value) && id.value !in s.view.tools
      case TagReasoningMessageChunk =>
        var id := Incoming(o, "messageId");
        id.Some? && s.reasoning != id ==> ValidId(id.value) && id.value !in s.view.reasoningMessages
      case _ => true
  }

  // ---------------------------------------------------------------------------------------------
  // Feeding objects
  // ---------------------------------------------------------------------------------------------

  function IngestNext(c: Context, s: State, o: Fields): Outcome {
    if s.view.terminal then Err(InvalidSequence) else IngestObject(c, s, o)
  }

  function FeedObjects(c: Context, s: State, os: seq<Fields>): Outcome
    decreases |os|
  {
    if os == [] then Nothing(s)
    else
      var first :- IngestNext(c, s, os[0]);
      After(first.out, FeedObjects(c, first.state, os[1..]))
  }

  lemma {:induction false} AfterNothing(r: Outcome)
    ensures After([], r) == r
  {
    if r.Ok? {
      assert [] + r.value.out == r.value.out;
    }
  }

  lemma {:induction false} AfterTwice(a: seq<Event>, b: seq<Event>, r: Outcome)
    ensures After(a, After(b, r)) == After(a + b, r)
  {
    if r.Ok? {
      assert a + (b + r.value.out) == (a + b) + r.value.out;
    }
  }

  lemma {:induction false} NothingAfter(first: Step)
    ensures After(first.out, Nothing(first.state)) == Ok(first)
  {
    assert first.out + [] == first.out;
  }

  lemma {:induction false} FeedJoin(c: Context, s: State, a: seq<Fields>, b: seq<Fields>)
    ensures var first := FeedObjects(c, s, a);
            FeedObjects(c, s, a + b) ==
            if first.Err? then first else After(first.value.out, FeedObjects(c, first.value.state, b))
    decreases |a|
  {
    if a == [] {
      assert a + b == b;
      AfterNothing(FeedObjects(c, s, b));
    } else {
      assert (a + b)[1..] == a[1..] + b;
      var first := IngestNext(c, s, a[0]);
      if first.Ok? {
        FeedJoin(c, first.value.state, a[1..], b);
        var rest := FeedObjects(c, first.value.state, a[1..]);
        if rest.Ok? {
          AfterTwice(first.value.out, rest.value.out, FeedObjects(c, rest.value.state, b));
        }
      }
    }
  }

  lemma {:induction false} FeedOne(c: Context, s: State, o: Fields)
    ensures FeedObjects(c, s, [o]) == IngestNext(c, s, o)
  {
    var first := IngestNext(c, s, o);
    assert [o][1..] == [];
    if first.Ok? {
      NothingAfter(first.value);
    }
  }

  // ---------------------------------------------------------------------------------------------
  // Explicit events on a decoder without open shorthand
  // ---------------------------------------------------------------------------------------------

  function Erase(s: State): State {
    s.(text := None, tool := None, reasoning := None)
  }

  function Erased(r: Outcome): Outcome {
    if r.Ok? then Ok(Step(Erase(r.value.state), r.value.out)) else r
  }

  lemma {:induction false} IdleCloses(c: Context, s: State, tag: Tag)
    requires Idle(s)
    ensures CloseBefore(c, s, tag) == Nothing(s)
  {
    var none: seq<Event> := [];
    assert none + none == none;
  }

  predicate Running(s: State) {
    s.view.started && !s.view.terminal
  }

  /** An object that is no shorthand goes straight to its handler. */
  lemma {:induction false} IdleIngest(c: Context, s: State, o: Fields, tag: Tag)
    requires Idle(s) && !s.view.terminal && TagOf(o) == Ok(tag) && (s.view.started || tag.TagRunStarted?)
    ensures IngestNext(c, s, o) == Dispatch(c, s, tag, o)
  {
    IdleCloses(c, s, tag);
    AfterNothing(Dispatch(c, s, tag, o));
  }

  lemma {:induction false} ReadId(o: Fields, field: string, id: string)
    requires Get(o, field) == Some(Str(id))
    ensures RequiredId(o, field) == if ValidId(id) then Ok(id) else Err(InvalidEvent)
  {
  }

  lemma {:induction false} TextEndIngest(c: Context, s: State, id: string)
    requires Idle(s) && Running(s)
    ensures ValidId(id) && id in s.view.openText ==> IngestNext(c, s, TextEndObject(id)) == Emit(c, s, TextEnded(id))
  {
    IdleIngest(c, s, TextEndObject(id), TagTextEnd);
    ReadId(TextEndObject(id), "messageId", id);
  }

  lemma {:induction false} TextDeltaIngest(c: Context, s: State, id: string, delta: string)
    requires Idle(s) && Running(s) && BoundedString(delta).Ok?
    ensures ValidId(id) && id in s.view.openText ==>
              IngestNext(c, s, TextDeltaObject(id, delta)) == Emit(c, s, TextDelta(id, delta))
  {
    var o := TextDeltaObject(id, delta);
    IdleIngest(c, s, o, TagTextContent);
    ReadId(o, "messageId", id);
    assert RequiredText(o, "delta") == Ok(delta);
  }

  lemma {:induction false} TextStartIngest(c: Context, s: State, id: string, o: Fields)
    requires Idle(s) && Running(s) && ParseTextRole(Get(o, "role")).Ok? && OptionalString(o, "name").Ok?
    ensures var e := TextStarted(id, ParseTextRole(Get(o, "role")).value, OptionalString(o, "name").value);
            var r := IngestNext(c, s, TextStartObject(id, o));
            if ValidId(id) && id !in s.view.openText then r == Emit(c, s, e) else r.Err?
  {
    var x := TextStartObject(id, o);
    IdleIngest(c, s, x, TagTextStart);
    ReadId(x, "messageId", id);
    assert Get(x, "role") == Get(o, "role") && Get(x, "name") == Get(o, "name");
  }

  lemma {:induction false} ToolEndIngest(c: Context, s: State, id: string)
    requires Idle(s) && Running(s) && ValidId(id)
    ensures IngestNext(c, s, ToolEndObject(id)) == FinishTool(c, s, id)
  {
    IdleIngest(c, s, ToolEndObject(id), TagToolEnd);
    ReadId(ToolEndObject(id), "toolCallId", id);
  }

  lemma {:induction false} ToolDeltaIngest(c: Context, s: State, id: string, delta: string)
    requires Idle(s) && Running(s) && BoundedString(delta).Ok? && ValidId(id)
    requires id in s.view.tools && !s.view.tools[id].ended
    ensures IngestNext(c, s, ToolDeltaObject(id, delta)) == AppendArguments(c, s, id, delta)
  {
    var o := ToolDeltaObject(id, delta);
    IdleIngest(c, s, o, TagToolArgs);
    ReadId(o, "toolCallId", id);
    assert RequiredText(o, "delta") == Ok(delta);
  }

  lemma {:induction false} ToolStartIngest(c: Context, s: State, id: string, o: Fields)
    requires Idle(s) && Running(s) && RequiredId(o, "toolCallName").Ok? && OptionalString(o, "parentMessageId").Ok?
    ensures var e := ToolStarted(id, RequiredId(o, "toolCallName").value, OptionalString(o, "parentMessageId").value);
            var r := IngestNext(c, s, ToolStartObject(id, o));
            if ValidId(id) && id !in s.view.tools then r == Emit(c, s, e) else r.Err?
  {
    var x := ToolStartObject(id, o);
    IdleIngest(c, s, x, TagToolStart);
    ReadId(x, "toolCallId", id);
    assert Get(x, "toolCallName") == Get(o, "toolCallName") && Get(x, "parentMessageId") == Get(o, "parentMessageId");
  }

  lemma {:induction false} ReasoningEndIngest(c: Context, s: State, id: string)
    requires Idle(s) && Running(s) && ValidId(id)
    ensures IngestNext(c, s, ReasoningEndObject(id)) == EndMessage(c, s, id)
  {
    IdleIngest(c, s, ReasoningEndObject(id), TagReasoningMessageEnd);
    ReadId(ReasoningEndObject(id), "messageId", id);
  }

  lemma {:induction false} ReasoningDeltaIngest(c: Context, s: State, id: string, delta: string)
    requires Idle(s) && Running(s) && BoundedString(delta).Ok? && ValidId(id) && id in s.view.reasoningMessages
    ensures IngestNext(c, s, ReasoningDeltaObject(id, delta)) == Emit(c, s, ReasoningDelta(id, delta))
  {
    var o := ReasoningDeltaObject(id, delta);
    IdleIngest(c, s, o, TagReasoningMessageContent);
    ReadId(o, "messageId", id);
    assert RequiredText(o, "delta") == Ok(delta);
  }

  lemma {:induction false} ReasoningStartIngest(c: Context, s: State, id: string)
    requires Idle(s) && Running(s)
    ensures var r := IngestNext(c, s, ReasoningStartObject(id));
            if ValidId(id) && id !in s.view.reasoningMessages then r == Emit(c, s, ReasoningMessageStarted(id)) else r.Err?
  {
    var x := ReasoningStartObject(id);
    IdleIngest(c, s, x, TagReasoningMessageStart);
    ReadId(x, "messageId", id);
  }

  // ---------------------------------------------------------------------------------------------
  // One object
  // ---------------------------------------------------------------------------------------------

  predicate IdsValid(s: State) {
    && (s.text.Some? ==> ValidId(s.text.value))
    && (s.tool.Some? ==> ValidId(s.tool.value))
    && (s.reasoning.Some? ==> ValidId(s.reasoning.value))
  }

  /** The explicit decoder does on `os` what the shorthand decoder does in `r`. */
  ghost predicate Mirrors(c: Context, s: State, os: seq<Fields>, r: Outcome) {
    FeedObjects(c, Erase(s), os) == Erased(r)
  }

  lemma {:induction false} MirrorsNothing(c: Context, s: State)
    ensures Mirrors(c, s, [], Nothing(s))
  {
  }

  lemma {:induction false} MirrorsOne(c: Context, s: State, o: Fields, r: Outcome)
    requires IngestNext(c, Erase(s), o) == Erased(r)
    ensures Mirrors(c, s, [o], r)
  {
    FeedOne(c, Erase(s), o);
  }

  lemma {:induction false} MirrorsJoin(c: Context, s: State, a: seq<Fields>, first: Step, b: seq<Fields>, r: Outcome)
    requires Mirrors(c, s, a, Ok(first)) && Mirrors(c, first.state, b, r)
    ensures Mirrors(c, s, a + b, After(first.out, r))
  {
    FeedJoin(c, Erase(s), a, b);
  }

  /** Once the explicit decoder refuses, nothing that follows is accepted. */
  lemma {:induction false} RefusedJoin(c: Context, s: State, a: seq<Fields>, first: Step, b: seq<Fields>)
    requires Mirrors(c, s, a, Ok(first)) && FeedObjects(c, Erase(first.state), b).Err?
    ensures FeedObjects(c, Erase(s), a + b).Err?
  {
    FeedJoin(c, Erase(s), a, b);
  }

  lemma {:induction false} RefusedPrefix(c: Context, s: State, a: seq<Fields>, b: seq<Fields>)
    requires FeedObjects(c, s, a).Err?
    ensures FeedObjects(c, s, a + b).Err?
  {
    FeedJoin(c, s, a, b);
  }

  lemma {:induction false} TextEndsMirror(c: Context, s: State)
    requires ChunkInv(s) && IdsValid(s)
    ensures CloseText(c, s).Ok? && Mirrors(c, s, TextEnds(s), CloseText(c, s))
  {
    if s.text.Some? {
      TextEndIngest(c, Erase(s), s.text.value);
      MirrorsOne(c, s, TextEndObject(s.text.value), CloseText(c, s));
    }
  }

  lemma {:induction false} ToolEndsMirror(c: Context, s: State)
    requires ChunkInv(s) && IdsValid(s)
    ensures Mirrors(c, s, ToolEnds(s), CloseTool(c, s))
  {
    if s.tool.Some? {
      ToolEndIngest(c, Erase(s), s.tool.value);
      MirrorsOne(c, s, ToolEndObject(s.tool.value), CloseTool(c, s));
    }
  }

  lemma {:induction false} ReasoningEndsMirror(c: Context, s: State)
    requires ChunkInv(s) && IdsValid(s)
    ensures CloseReasoning(c, s).Ok? && Mirrors(c, s, ReasoningEnds(s), CloseReasoning(c, s))
  {
    if s.reasoning.Some? {
      ReasoningEndIngest(c, Erase(s), s.reasoning.value);
      MirrorsOne(c, s, ReasoningEndObject(s.reasoning.value), CloseReasoning(c, s));
    }
  }

  /** With at most one shorthand open there is at most one end to send. */
  lemma {:induction false} SingleClose(c: Context, s: State, tag: Tag)
    requires ChunkInv(s)
    ensures CloseBefore(c, s, tag) ==
            if s.text.Some? && !tag.TagTextChunk? then CloseText(c, s)
            else if s.tool.Some? && !tag.TagToolChunk? then CloseTool(c, s)
            else if s.reasoning.Some? && !tag.TagReasoningMessageChunk? then CloseReasoning(c, s)
            else Nothing(s)
  {
    NothingAfter(Step(s, []));
    if s.text.Some? && !tag.TagTextChunk? {
      NothingAfter(CloseText(c, s).value);
    } else if s.tool.Some? && !tag.TagToolChunk? {
      AfterNothing(CloseTool(c, s));
      if CloseTool(c, s).Ok? {
        NothingAfter(CloseTool(c, s).value);
      }
    } else {
      AfterNothing(CloseReasoning(c, s));
    }
  }

  lemma {:induction false} EndingsMirror(c: Context, s: State, tag: Tag)
    requires ChunkInv(s) && IdsValid(s)
    ensures Mirrors(c, s, Endings(s, tag), CloseBefore(c, s, tag))
  {
    SingleClose(c, s, tag);
    TextEndsMirror(c, s);
    ToolEndsMirror(c, s);
    ReasoningEndsMirror(c, s);
    var none: seq<Fields> := [];
    assert none + none + none == none;
    assert TextEnds(s) + none + none == TextEnds(s);
    assert none + ToolEnds(s) + none == ToolEnds(s);
    assert none + none + ReasoningEnds(s) == ReasoningEnds(s);
  }

  lemma {:induction false} IncomingIsOptional(o: Fields, field: string)
    requires OptionalString(o, field).Ok?
    ensures Incoming(o, field) == OptionalString(o, field).value
    ensures Incoming(o, field).Some? ==> Incoming(o, field).value != ""
  {
  }

  lemma {:induction false} DeltaIsOptional(o: Fields)
    requires OptionalText(o, "delta").Ok?
    ensures Delta(o) == OptionalText(o, "delta").value
    ensures Delta(o).Some? ==> BoundedString(Delta(o).value) == Ok(Delta(o).value)
  {
  }

  // Text

  lemma {:induction false} EraseEmit(c: Context, s: State, chunk: State, e: Event)
    requires chunk.view == s.view
    ensures Erased(Emit(c, chunk, e)) == Emit(c, Erase(s), e)
  {
  }

  lemma {:induction false} TextStartMirror(c: Context, s: State, id: string, o: Fields)
    requires Idle(s) && Running(s) && ParseTextRole(Get(o, "role")).Ok? && OptionalString(o, "name").Ok?
    ensures var e := TextStarted(id, ParseTextRole(Get(o, "role")).value, OptionalString(o, "name").value);
            var os := [TextStartObject(id, o)];
            if ValidId(id) && id !in s.view.openText then Mirrors(c, s, os, Emit(c, s.(text := Some(id)), e))
            else FeedObjects(c, Erase(s), os).Err?
  {
    var e := TextStarted(id, ParseTextRole(Get(o, "role")).value, OptionalString(o, "name").value);
    TextStartIngest(c, Erase(s), id, o);
    FeedOne(c, Erase(s), TextStartObject(id, o));
    EraseEmit(c, s, s.(text := Some(id)), e);
  }

  function TextStartEvent(id: string, o: Fields): Event
    requires ParseTextRole(Get(o, "role")).Ok? && OptionalString(o, "name").Ok?
  {
    TextStarted(id, ParseTextRole(Get(o, "role")).value, OptionalString(o, "name").value)
  }

  lemma {:induction false} TextOpenIs(c: Context, s: State, id: string, o: Fields)
    requires OpenTextChunk(c, s, id, o).Ok?
    ensures CloseText(c, s).Ok? && ParseTextRole(Get(o, "role")).Ok? && OptionalString(o, "name").Ok?
    ensures var closed := CloseText(c, s).value;
            OpenTextChunk(c, s, id, o) == After(closed.out, Emit(c, closed.state.(text := Some(id)), TextStartEvent(id, o)))
  {
  }

  lemma {:induction false} TextOpenMirror(c: Context, s: State, id: string, o: Fields)
    requires Ready(TagTextChunk, s) && s.view.started && IdsValid(s) && OpenTextChunk(c, s, id, o).Ok?
    requires s.text != Some(id)
    ensures var os := TextEnds(s) + [TextStartObject(id, o)];
            if ValidId(id) && id !in s.view.openText then Mirrors(c, s, os, OpenTextChunk(c, s, id, o))
            else FeedObjects(c, Erase(s), os).Err?
  {
    TextEndsMirror(c, s);
    CloseTextGood(c, s);
    TextOpenIs(c, s, id, o);
    var closed := CloseText(c, s).value;
    TextStartMirror(c, closed.state, id, o);
    if ValidId(id) && id !in s.view.openText {
      MirrorsJoin(c, s, TextEnds(s), closed, [TextStartObject(id, o)],
        Emit(c, closed.state.(text := Some(id)), TextStartEvent(id, o)));
    } else {
      RefusedJoin(c, s, TextEnds(s), closed, [TextStartObject(id, o)]);
    }
  }

  function TextDeltaObjects(id: string, o: Fields): seq<Fields> {
    if Delta(o).None? then []
    else if Delta(o).value == "" then [TextEndObject(id)]
    else [TextDeltaObject(id, Delta(o).value)]
  }

  function TextDeltaOutcome(c: Context, s: State, o: Fields): Outcome
    requires s.text.Some?
  {
    if Delta(o).None? then Nothing(s)
    else if Delta(o).value == "" then CloseText(c, s)
    else Emit(c, s, TextDelta(s.text.value, Delta(o).value))
  }

  lemma {:induction false} TextDeltaMirror(c: Context, s: State, o: Fields)
    requires Ready(TagTextChunk, s) && s.view.started && IdsValid(s) && s.text.Some? && OptionalText(o, "delta").Ok?
    ensures Mirrors(c, s, TextDeltaObjects(s.text.value, o), TextDeltaOutcome(c, s, o))
  {
    DeltaIsOptional(o);
    TextEndsMirror(c, s);
    if Delta(o).Some? && Delta(o).value != "" {
      TextDeltaIngest(c, Erase(s), s.text.value, Delta(o).value);
      MirrorsOne(c, s, TextDeltaObject(s.text.value, Delta(o).value), TextDeltaOutcome(c, s, o));
    }
  }

  lemma {:induction false} TextBeginMirror(c: Context, s: State, id: string, o: Fields)
    requires Ready(TagTextChunk, s) && s.view.started && IdsValid(s) && OpenTextChunk(c, s, id, o).Ok? && s.text != Some(id)
    requires OptionalText(o, "delta").Ok? && TextDeltaOutcome(c, OpenTextChunk(c, s, id, o).value.state, o).Ok?
    ensures var begun := OpenTextChunk(c, s, id, o).value;
            var os := TextEnds(s) + [TextStartObject(id, o)] + TextDeltaObjects(id, o);
            if ValidId(id) && id !in s.view.openText
            then Mirrors(c, s, os, After(begun.out, TextDeltaOutcome(c, begun.state, o)))
            else FeedObjects(c, Erase(s), os).Err?
  {
    var head, begun := TextEnds(s) + [TextStartObject(id, o)], OpenTextChunk(c, s, id, o).value;
    OpenTextChunkKept(c, s, id, o);
    TextOpenMirror(c, s, id, o);
    if ValidId(id) && id !in s.view.openText {
      TextDeltaMirror(c, begun.state, o);
      MirrorsJoin(c, s, head, begun, TextDeltaObjects(id, o), TextDeltaOutcome(c, begun.state, o));
    } else {
      RefusedPrefix(c, Erase(s), head, TextDeltaObjects(id, o));
    }
  }

  lemma {:induction false} TextChunkOpens(c: Context, s: State, o: Fields, id: string)
    requires Ready(TagTextChunk, s) && s.view.started && TextChunk(c, s, o).Ok?
    requires OptionalString(o, "messageId") == Ok(Some(id)) && s.text != Some(id)
    ensures OpenTextChunk(c, s, id, o).Ok? && OptionalText(o, "delta").Ok?
    ensures var begun := OpenTextChunk(c, s, id, o).value;
            begun.state.text == Some(id) && TextChunk(c, s, o) == After(begun.out, TextDeltaOutcome(c, begun.state, o))
  {
    var begun := OpenTextChunk(c, s, id, o);
    assert begun.Ok?;
    OpenTextChunkKept(c, s, id, o);
    DeltaIsOptional(o);
  }

  lemma {:induction false} TextRewriteOpens(s: State, o: Fields, id: string)
    requires Incoming(o, "messageId") == Some(id) && s.text != Some(id)
    ensures RewriteText(s, o) == TextEnds(s) + [TextStartObject(id, o)] + TextDeltaObjects(id, o)
  {
  }

  lemma {:induction false} TextIdsStay(c: Context, s: State, o: Fields)
    requires IdsValid(s) && s.text.Some? && TextDeltaOutcome(c, s, o).Ok?
    ensures IdsValid(TextDeltaOutcome(c, s, o).value.state)
  {
  }

  lemma {:induction false} TextOpeningMirror(c: Context, s: State, o: Fields, id: string)
    requires Ready(TagTextChunk, s) && s.view.started && IdsValid(s) && TextChunk(c, s, o).Ok?
    requires OptionalString(o, "messageId") == Ok(Some(id)) && Incoming(o, "messageId") == Some(id) && s.text != Some(id)
    ensures if ValidId(id) && id !in s.view.openText
            then Mirrors(c, s, RewriteText(s, o), TextChunk(c, s, o)) && IdsValid(TextChunk(c, s, o).value.state)
            else FeedObjects(c, Erase(s), RewriteText(s, o)).Err?
  {
    TextChunkOpens(c, s, o, id);
    TextRewriteOpens(s, o, id);
    TextBeginMirror(c, s, id, o);
    if ValidId(id) {
      TextIdsStay(c, OpenTextChunk(c, s, id, o).value.state, o);
    }
  }

  lemma {:induction false} TextContinueMirror(c: Context, s: State, o: Fields)
    requires Ready(TagTextChunk, s) && s.view.started && IdsValid(s) && TagOf(o) == Ok(TagTextChunk)
    requires TextChunk(c, s, o).Ok? && (Incoming(o, "messageId").Some? ==> s.text == Incoming(o, "messageId"))
    ensures Mirrors(c, s, RewriteText(s, o), TextChunk(c, s, o)) && IdsValid(TextChunk(c, s, o).value.state)
  {
    IncomingIsOptional(o, "messageId");
    DeltaIsOptional(o);
    var r := TextDeltaOutcome(c, s, o);
    TextDeltaMirror(c, s, o);
    AfterNothing(r);
    assert [] + TextDeltaObjects(s.text.value, o) == TextDeltaObjects(s.text.value, o);
  }

  lemma {:induction false} TextChunkMirror(c: Context, s: State, o: Fields)
    requires Ready(TagTextChunk, s) && s.view.started && IdsValid(s)
    requires TagOf(o) == Ok(TagTextChunk) && TextChunk(c, s, o).Ok?
    ensures if Explicit(s, o) then Mirrors(c, s, RewriteText(s, o), TextChunk(c, s, o))
              && IdsValid(TextChunk(c, s, o).value.state)
            else FeedObjects(c, Erase(s), RewriteText(s, o)).Err?
  {
    IncomingIsOptional(o, "messageId");
    var incoming := Incoming(o, "messageId");
    if incoming.Some? && s.text != incoming {
      TextOpeningMirror(c, s, o, incoming.value);
    } else {
      TextContinueMirror(c, s, o);
    }
  }

  // Tool

  /** Ending a shorthand leaves alone which ids the other families know. */
  lemma {:induction false} CloseToolKeys(c: Context, s: State, id: string)
    requires CloseTool(c, s).Ok? && (s.tool.Some? ==> s.tool.value in s.view.tools)
    ensures var closed := CloseTool(c, s).value.state;
            && (id in closed.view.tools <==> id in s.view.tools)
            && closed.view.openText == s.view.openText && closed.view.reasoningMessages == s.view.reasoningMessages
  {
  }

  lemma {:induction false} ToolStartMirror(c: Context, s: State, id: string, o: Fields)
    requires Running(s) && RequiredId(o, "toolCallName").Ok? && OptionalString(o, "parentMessageId").Ok?
    ensures var e := ToolStarted(id, RequiredId(o, "toolCallName").value, OptionalString(o, "parentMessageId").value);
            var os := [ToolStartObject(id, o)];
            if ValidId(id) && id !in s.view.tools then Mirrors(c, s, os, Emit(c, s.(tool := Some(id)), e))
            else FeedObjects(c, Erase(s), os).Err?
  {
    var e := ToolStarted(id, RequiredId(o, "toolCallName").value, OptionalString(o, "parentMessageId").value);
    ToolStartIngest(c, Erase(s), id, o);
    FeedOne(c, Erase(s), ToolStartObject(id, o));
    EraseEmit(c, s, s.(tool := Some(id)), e);
  }

  lemma {:induction false} ToolOpenMirror(c: Context, s: State, id: string, o: Fields)
    requires Ready(TagToolChunk, s) && s.view.started && IdsValid(s) && OpenToolChunk(c, s, id, o).Ok?
    requires s.tool != Some(id)
    ensures var os := ToolEnds(s) + [ToolStartObject(id, o)];
            if ValidId(id) && id !in s.view.tools then Mirrors(c, s, os, OpenToolChunk(c, s, id, o))
            else FeedObjects(c, Erase(s), os).Err?
  {
    ToolEndsMirror(c, s);
    CloseToolGood(c, s);
    CloseToolKeys(c, s, id);
    var closed := CloseTool(c, s).value;
    ToolStartMirror(c, closed.state, id, o);
    if ValidId(id) && id !in s.view.tools {
      var e := ToolStarted(id, RequiredId(o, "toolCallName").value, OptionalString(o, "parentMessageId").value);
      MirrorsJoin(c, s, ToolEnds(s), closed, [ToolStartObject(id, o)], Emit(c, closed.state.(tool := Some(id)), e));
    } else {
      RefusedJoin(c, s, ToolEnds(s), closed, [ToolStartObject(id, o)]);
    }
  }

  function ToolDeltaObjects(id: string, o: Fields): seq<Fields> {
    if Delta(o).None? then []
    else if Delta(o).value == "" then [ToolEndObject(id)]
    else [ToolDeltaObject(id, Delta(o).value)]
  }

  function ToolDeltaOutcome(c: Context, s: State, o: Fields): Outcome
    requires s.tool.Some? && s.tool.value in s.view.tools
  {
    if Delta(o).None? then Nothing(s)
    else if Delta(o).value == "" then CloseTool(c, s)
    else AppendArguments(c, s, s.tool.value, Delta(o).value)
  }

  lemma {:induction false} ToolDeltaMirror(c: Context, s: State, o: Fields)
    requires Ready(TagToolChunk, s) && s.view.started && IdsValid(s) && s.tool.Some? && OptionalText(o, "delta").Ok?
    ensures Mirrors(c, s, ToolDeltaObjects(s.tool.value, o), ToolDeltaOutcome(c, s, o))
  {
    DeltaIsOptional(o);
    ToolEndsMirror(c, s);
    if Delta(o).Some? && Delta(o).value != "" {
      ToolDeltaIngest(c, Erase(s), s.tool.value, Delta(o).value);
      MirrorsOne(c, s, ToolDeltaObject(s.tool.value, Delta(o).value), ToolDeltaOutcome(c, s, o));
    }
  }

  lemma {:induction false} ToolContinueMirror(c: Context, s: State, o: Fields)
    requires Ready(TagToolChunk, s) && s.view.started && IdsValid(s) && TagOf(o) == Ok(TagToolChunk)
    requires ToolChunk(c, s, o).Ok? && (Incoming(o, "toolCallId").Some? ==> s.tool == Incoming(o, "toolCallId"))
    ensures Mirrors(c, s, RewriteTool(s, o), ToolChunk(c, s, o)) && IdsValid(ToolChunk(c, s, o).value.state)
  {
    IncomingIsOptional(o, "toolCallId");
    DeltaIsOptional(o);
    var r := ToolDeltaOutcome(c, s, o);
    ToolDeltaMirror(c, s, o);
    AfterNothing(r);
    assert [] + ToolDeltaObjects(s.tool.value, o) == ToolDeltaObjects(s.tool.value, o);
  }

  lemma {:induction false} ToolBeginMirror(c: Context, s: State, id: string, o: Fields)
    requires Ready(TagToolChunk, s) && s.view.started && IdsValid(s) && OpenToolChunk(c, s, id, o).Ok? && s.tool != Some(id)
    requires OptionalText(o, "delta").Ok? && ToolDeltaOutcome(c, OpenToolChunk(c, s, id, o).value.state, o).Ok?
    ensures var begun := OpenToolChunk(c, s, id, o).value;
            var os := ToolEnds(s) + [ToolStartObject(id, o)] + ToolDeltaObjects(id, o);
            if ValidId(id) && id !in s.view.tools
            then Mirrors(c, s, os, After(begun.out, ToolDeltaOutcome(c, begun.state, o)))
            else FeedObjects(c, Erase(s), os).Err?
  {
    var head, begun := ToolEnds(s) + [ToolStartObject(id, o)], OpenToolChunk(c, s, id, o).value;
    OpenToolChunkKept(c, s, id, o);
    ToolOpenMirror(c, s, id, o);
    if ValidId(id) && id !in s.view.tools {
      ToolDeltaMirror(c, begun.state, o);
      MirrorsJoin(c, s, head, begun, ToolDeltaObjects(id, o), ToolDeltaOutcome(c, begun.state, o));
    } else {
      RefusedPrefix(c, Erase(s), head, ToolDeltaObjects(id, o));
    }
  }

  /** An opening chunk is the opening, and then its delta. */
  lemma {:induction false} ToolChunkOpens(c: Context, s: State, o: Fields, id: string)
    requires Ready(TagToolChunk, s) && s.view.started && ToolChunk(c, s, o).Ok?
    requires OptionalString(o, "toolCallId") == Ok(Some(id)) && s.tool != Some(id)
    ensures OpenToolChunk(c, s, id, o).Ok? && OptionalText(o, "delta").Ok?
    ensures var begun := OpenToolChunk(c, s, id, o).value;
            && begun.state.tool == Some(id) && id in begun.state.view.tools
            && ToolChunk(c, s, o) == After(begun.out, ToolDeltaOutcome(c, begun.state, o))
  {
    var begun := OpenToolChunk(c, s, id, o);
    assert begun.Ok?;
    OpenToolChunkKept(c, s, id, o);
    DeltaIsOptional(o);
  }

  lemma {:induction false} ToolRewriteOpens(s: State, o: Fields, id: string)
    requires Incoming(o, "toolCallId") == Some(id) && s.tool != Some(id)
    ensures RewriteTool(s, o) == ToolEnds(s) + [ToolStartObject(id, o)] + ToolDeltaObjects(id, o)
  {
  }

  lemma {:induction false} ToolIdsStay(c: Context, s: State, o: Fields)
    requires IdsValid(s) && s.tool.Some? && s.tool.value in s.view.tools && ToolDeltaOutcome(c, s, o).Ok?
    ensures IdsValid(ToolDeltaOutcome(c, s, o).value.state)
  {
  }

  lemma {:induction false} ToolOpeningMirror(c: Context, s: State, o: Fields, id: string)
    requires Ready(TagToolChunk, s) && s.view.started && IdsValid(s) && ToolChunk(c, s, o).Ok?
    requires OptionalString(o, "toolCallId") == Ok(Some(id)) && Incoming(o, "toolCallId") == Some(id) && s.tool != Some(id)
    ensures if ValidId(id) && id !in s.view.tools
            then Mirrors(c, s, RewriteTool(s, o), ToolChunk(c, s, o)) && IdsValid(ToolChunk(c, s, o).value.state)
            else FeedObjects(c, Erase(s), RewriteTool(s, o)).Err?
  {
    ToolChunkOpens(c, s, o, id);
    ToolRewriteOpens(s, o, id);
    ToolBeginMirror(c, s, id, o);
    if ValidId(id) {
      ToolIdsStay(c, OpenToolChunk(c, s, id, o).value.state, o);
    }
  }

  lemma {:induction false} ToolChunkMirror(c: Context, s: State, o: Fields)
    requires Ready(TagToolChunk, s) && s.view.started && IdsValid(s)
    requires TagOf(o) == Ok(TagToolChunk) && ToolChunk(c, s, o).Ok?
    ensures if Explicit(s, o) then Mirrors(c, s, RewriteTool(s, o), ToolChunk(c, s, o))
              && IdsValid(ToolChunk(c, s, o).value.state)
            else FeedObjects(c, Erase(s), RewriteTool(s, o)).Err?
  {
    IncomingIsOptional(o, "toolCallId");
    var incoming := Incoming(o, "toolCallId");
    if incoming.Some? && s.tool != incoming {
      ToolOpeningMirror(c, s, o, incoming.value);
    } else {
      ToolContinueMirror(c, s, o);
    }
  }

  // Reasoning

  lemma {:induction false} CloseReasoningKeys(c: Context, s: State, id: string)
    requires CloseReasoning(c, s).Ok?
    ensures var closed := CloseReasoning(c, s).value.state;
            && (id in closed.view.reasoningMessages <==> id in s.view.reasoningMessages && s.reasoning != Some(id))
            && closed.view.openText == s.view.openText && closed.view.tools == s.view.tools
  {
  }

  lemma {:induction false} ReasoningStartMirror(c: Context, s: State, id: string)
    requires Running(s)
    ensures var os := [ReasoningStartObject(id)];
            if ValidId(id) && id !in s.view.reasoningMessages
            then Mirrors(c, s, os, Emit(c, s.(reasoning := Some(id)), ReasoningMessageStarted(id)))
            else FeedObjects(c, Erase(s), os).Err?
  {
    ReasoningStartIngest(c, Erase(s), id);
    FeedOne(c, Erase(s), ReasoningStartObject(id));
    EraseEmit(c, s, s.(reasoning := Some(id)), ReasoningMessageStarted(id));
  }

  lemma {:induction false} ReasoningOpenMirror(c: Context, s: State, id: string)
    requires Ready(TagReasoningMessageChunk, s) && s.view.started && IdsValid(s) && OpenReasoningChunk(c, s, id).Ok?
    requires s.reasoning != Some(id)
    ensures var os := ReasoningEnds(s) + [ReasoningStartObject(id)];
            if ValidId(id) && id !in s.view.reasoningMessages then Mirrors(c, s, os, OpenReasoningChunk(c, s, id))
            else FeedObjects(c, Erase(s), os).Err?
  {
    ReasoningEndsMirror(c, s);
    CloseReasoningGood(c, s);
    CloseReasoningKeys(c, s, id);
    var closed := CloseReasoning(c, s).value;
    ReasoningStartMirror(c, closed.state, id);
    if ValidId(id) && id !in s.view.reasoningMessages {
      MirrorsJoin(c, s, ReasoningEnds(s), closed, [ReasoningStartObject(id)],
        Emit(c, closed.state.(reasoning := Some(id)), ReasoningMessageStarted(id)));
    } else {
      RefusedJoin(c, s, ReasoningEnds(s), closed, [ReasoningStartObject(id)]);
    }
  }

  function ReasoningDeltaObjects(id: string, o: Fields): seq<Fields> {
    if Delta(o).None? then []
    else if Delta(o).value == "" then [ReasoningEndObject(id)]
    else [ReasoningDeltaObject(id, Delta(o).value)]
  }

  function ReasoningDeltaOutcome(c: Context, s: State, o: Fields): Outcome
    requires s.reasoning.Some?
  {
    if Delta(o).None? then Nothing(s)
    else if Delta(o).value == "" then CloseReasoning(c, s)
    else Emit(c, s, ReasoningDelta(s.reasoning.value, Delta(o).value))
  }

  lemma {:induction false} ReasoningDeltaMirror(c: Context, s: State, o: Fields)
    requires Ready(TagReasoningMessageChunk, s) && s.view.started && IdsValid(s) && s.reasoning.Some?
              && OptionalText(o, "delta").Ok?
    ensures Mirrors(c, s, ReasoningDeltaObjects(s.reasoning.value, o), ReasoningDeltaOutcome(c, s, o))
  {
    DeltaIsOptional(o);
    ReasoningEndsMirror(c, s);
    if Delta(o).Some? && Delta(o).value != "" {
      ReasoningDeltaIngest(c, Erase(s), s.reasoning.value, Delta(o).value);
      MirrorsOne(c, s, ReasoningDeltaObject(s.reasoning.value, Delta(o).value), ReasoningDeltaOutcome(c, s, o));
    }
  }

  lemma {:induction false} ReasoningContinueMirror(c: Context, s: State, o: Fields)
    requires Ready(TagReasoningMessageChunk, s) && s.view.started && IdsValid(s) && TagOf(o) == Ok(TagReasoningMessageChunk)
    requires ReasoningChunk(c, s, o).Ok? && (Incoming(o, "messageId").Some? ==> s.reasoning == Incoming(o, "messageId"))
    ensures Mirrors(c, s, RewriteReasoning(s, o), ReasoningChunk(c, s, o)) && IdsValid(ReasoningChunk(c, s, o).value.state)
  {
    IncomingIsOptional(o, "messageId");
    DeltaIsOptional(o);
    var r := ReasoningDeltaOutcome(c, s, o);
    ReasoningDeltaMirror(c, s, o);
    AfterNothing(r);
    assert [] + ReasoningDeltaObjects(s.reasoning.value, o) == ReasoningDeltaObjects(s.reasoning.value, o);
  }

  lemma {:induction false} ReasoningBeginMirror(c: Context, s: State, id: string, o: Fields)
    requires Ready(TagReasoningMessageChunk, s) && s.view.started && IdsValid(s) && OpenReasoningChunk(c, s, id).Ok?
              && s.reasoning != Some(id)
    requires OptionalText(o, "delta").Ok? && ReasoningDeltaOutcome(c, OpenReasoningChunk(c, s, id).value.state, o).Ok?
    ensures var begun := OpenReasoningChunk(c, s, id).value;
            var os := ReasoningEnds(s) + [ReasoningStartObject(id)] + ReasoningDeltaObjects(id, o);
            if ValidId(id) && id !in s.view.reasoningMessages
            then Mirrors(c, s, os, After(begun.out, ReasoningDeltaOutcome(c, begun.state, o)))
            else FeedObjects(c, Erase(s), os).Err?
  {
    var head, begun := ReasoningEnds(s) + [ReasoningStartObject(id)], OpenReasoningChunk(c, s, id).value;
    OpenReasoningChunkKept(c, s, id);
    ReasoningOpenMirror(c, s, id);
    if ValidId(id) && id !in s.view.reasoningMessages {
      ReasoningDeltaMirror(c, begun.state, o);
      MirrorsJoin(c, s, head, begun, ReasoningDeltaObjects(id, o), ReasoningDeltaOutcome(c, begun.state, o));
    } else {
      RefusedPrefix(c, Erase(s), head, ReasoningDeltaObjects(id, o));
    }
  }

  lemma {:induction false} ReasoningChunkOpens(c: Context, s: State, o: Fields, id: string)
    requires Ready(TagReasoningMessageChunk, s) && s.view.started && ReasoningChunk(c, s, o).Ok?
    requires OptionalString(o, "messageId") == Ok(Some(id)) && s.reasoning != Some(id)
    ensures OpenReasoningChunk(c, s, id).Ok? && OptionalText(o, "delta").Ok?
    ensures var begun := OpenReasoningChunk(c, s, id).value;
            begun.state.reasoning == Some(id)
              && ReasoningChunk(c, s, o) == After(begun.out, ReasoningDeltaOutcome(c, begun.state, o))
  {
    var begun := OpenReasoningChunk(c, s, id);
    assert begun.Ok?;
    OpenReasoningChunkKept(c, s, id);
    DeltaIsOptional(o);
  }

  lemma {:induction false} ReasoningRewriteOpens(s: State, o: Fields, id: string)
    requires Incoming(o, "messageId") == Some(id) && s.reasoning != Some(id)
    ensures RewriteReasoning(s, o) == ReasoningEnds(s) + [ReasoningStartObject(id)] + ReasoningDeltaObjects(id, o)
  {
  }

  lemma {:induction false} ReasoningIdsStay(c: Context, s: State, o: Fields)
    requires IdsValid(s) && s.reasoning.Some? && ReasoningDeltaOutcome(c, s, o).Ok?
    ensures IdsValid(ReasoningDeltaOutcome(c, s, o).value.state)
  {
  }

  lemma {:induction false} ReasoningOpeningMirror(c: Context, s: State, o: Fields, id: string)
    requires Ready(TagReasoningMessageChunk, s) && s.view.started && IdsValid(s) && ReasoningChunk(c, s, o).Ok?
    requires OptionalString(o, "messageId") == Ok(Some(id)) && Incoming(o, "messageId") == Some(id) && s.reasoning != Some(id)
    ensures if ValidId(id) && id !in s.view.reasoningMessages
            then Mirrors(c, s, RewriteReasoning(s, o), ReasoningChunk(c, s, o)) && IdsValid(ReasoningChunk(c, s, o).value.state)
            else FeedObjects(c, Erase(s), RewriteReasoning(s, o)).Err?
  {
    ReasoningChunkOpens(c, s, o, id);
    ReasoningRewriteOpens(s, o, id);
    ReasoningBeginMirror(c, s, id, o);
    if ValidId(id) {
      ReasoningIdsStay(c, OpenReasoningChunk(c, s, id).value.state, o);
    }
  }

  lemma {:induction false} ReasoningChunkMirror(c: Context, s: State, o: Fields)
    requires Ready(TagReasoningMessageChunk, s) && s.view.started && IdsValid(s)
    requires TagOf(o) == Ok(TagReasoningMessageChunk) && ReasoningChunk(c, s, o).Ok?
    ensures if Explicit(s, o) then Mirrors(c, s, RewriteReasoning(s, o), ReasoningChunk(c, s, o))
              && IdsValid(ReasoningChunk(c, s, o).value.state)
            else FeedObjects(c, Erase(s), RewriteReasoning(s, o)).Err?
  {
    IncomingIsOptional(o, "messageId");
    var incoming := Incoming(o, "messageId");
    if incoming.Some? && s.reasoning != incoming {
      ReasoningOpeningMirror(c, s, o, incoming.value);
    } else {
      ReasoningContinueMirror(c, s, o);
    }
  }

  // Everything else

  predicate IsChunk(tag: Tag) {
    tag.TagTextChunk? || tag.TagToolChunk? || tag.TagReasoningMessageChunk?
  }

  ghost predicate StaysIdle(r: Outcome) {
    r.Ok? ==> Idle(r.value.state)
  }

  lemma {:induction false} StreamsIdle(c: Context, s: State, tag: Tag, o: Fields)
    requires Idle(s) && !IsChunk(tag)
    ensures StaysIdle(Texts(c, s, tag, o)) && StaysIdle(Tools(c, s, tag, o)) && StaysIdle(ReasoningMessages(c, s, tag, o))
  {
  }

  lemma {:induction false} LifecycleIdle(c: Context, s: State, tag: Tag, o: Fields)
    requires Idle(s)
    ensures StaysIdle(Lifecycle(c, s, tag, o)) && StaysIdle(ReasoningRuns(c, s, tag, o))
  {
  }

  lemma {:induction false} ProjectionsIdle(c: Context, s: State, tag: Tag, o: Fields)
    requires Idle(s)
    ensures StaysIdle(Projections(c, s, tag, o)) && StaysIdle(Activities(c, s, tag, o))
  {
  }

  lemma {:induction false} DispatchStaysIdle(c: Context, s: State, tag: Tag, o: Fields)
    requires Idle(s) && !IsChunk(tag)
    ensures StaysIdle(Dispatch(c, s, tag, o))
  {
    StreamsIdle(c, s, tag, o);
    LifecycleIdle(c, s, tag, o);
    ProjectionsIdle(c, s, tag, o);
  }

  lemma {:induction false} PlainMirror(c: Context, s: State, o: Fields, tag: Tag)
    requires Ready(tag, s) && TagOf(o) == Ok(tag) && !IsChunk(tag)
    ensures Mirrors(c, s, [o], Dispatch(c, s, tag, o)) && StaysIdle(Dispatch(c, s, tag, o))
  {
    DispatchStaysIdle(c, s, tag, o);
    IdleIngest(c, s, o, tag);
    MirrorsOne(c, s, o, Dispatch(c, s, tag, o));
  }

  lemma {:induction false} ErrorMirror(c: Context, s: State, o: Fields)
    requires ChunkInv(s) && !s.view.terminal && TagOf(o) == Ok(TagRunError) && IngestObject(c, s, o).Ok?
    ensures Mirrors(c, s, [o], IngestObject(c, s, o)) && Idle(IngestObject(c, s, o).value.state)
  {
    AfterNothing(Lifecycle(c, s, TagRunError, o));
    AfterNothing(Lifecycle(c, Erase(s), TagRunError, o));
    MirrorsOne(c, s, o, IngestObject(c, s, o));
  }

  /** An ending that was owed changes nothing about how the object is rewritten. */
  ghost predicate SameRewriting(s: State, closed: State, o: Fields, tag: Tag) {
    (IdsValid(s) ==> IdsValid(closed)) && (Explicit(s, o) <==> Explicit(closed, o)) && Own(s, o, tag) == Own(closed, o, tag)
  }

  /** What a text chunk looks at survives closing another family's shorthand, and so on for the others. */
  lemma {:induction false} ClosedForText(c: Context, s: State, o: Fields)
    requires ChunkInv(s) && TagOf(o) == Ok(TagTextChunk) && CloseBefore(c, s, TagTextChunk).Ok?
    ensures var closed := CloseBefore(c, s, TagTextChunk).value.state;
            closed.text == s.text && (IdsValid(s) ==> IdsValid(closed)) && (Explicit(s, o) <==> Explicit(closed, o))
  {
    SingleClose(c, s, TagTextChunk);
    if s.tool.Some? {
      CloseToolGood(c, s);
      CloseToolKeys(c, s, "");
    } else {
      CloseReasoningKeys(c, s, "");
    }
  }

  lemma {:induction false} CloseTextKeys(c: Context, s: State)
    requires CloseText(c, s).Ok?
    ensures CloseText(c, s).value.state.view.tools == s.view.tools
  {
  }

  lemma {:induction false} ClosedForTool(c: Context, s: State, o: Fields)
    requires ChunkInv(s) && TagOf(o) == Ok(TagToolChunk) && CloseBefore(c, s, TagToolChunk).Ok?
    ensures var closed := CloseBefore(c, s, TagToolChunk).value.state;
            closed.tool == s.tool && (IdsValid(s) ==> IdsValid(closed)) && (Explicit(s, o) <==> Explicit(closed, o))
  {
    SingleClose(c, s, TagToolChunk);
    if s.text.Some? {
      CloseTextKeys(c, s);
    } else {
      CloseReasoningKeys(c, s, "");
    }
  }

  lemma {:induction false} ClosedForReasoning(c: Context, s: State, o: Fields)
    requires ChunkInv(s) && TagOf(o) == Ok(TagReasoningMessageChunk) && CloseBefore(c, s, TagReasoningMessageChunk).Ok?
    ensures var closed := CloseBefore(c, s, TagReasoningMessageChunk).value.state;
            closed.reasoning == s.reasoning && (IdsValid(s) ==> IdsValid(closed)) && (Explicit(s, o) <==> Explicit(closed, o))
  {
    SingleClose(c, s, TagReasoningMessageChunk);
    if s.tool.Some? {
      CloseToolGood(c, s);
      CloseToolKeys(c, s, "");
    }
  }

  /** The own part of a rewriting only looks at the shorthand of its family. */
  lemma {:induction false} SameOwn(s: State, t: State, o: Fields, tag: Tag)
    requires tag.TagTextChunk? ==> s.text == t.text
    requires tag.TagToolChunk? ==> s.tool == t.tool
    requires tag.TagReasoningMessageChunk? ==> s.reasoning == t.reasoning
    ensures Own(s, o, tag) == Own(t, o, tag)
  {
  }

  lemma {:induction false} PlainSame(s: State, closed: State, o: Fields, tag: Tag)
    requires Idle(closed) && !IsChunk(tag) && TagOf(o) == Ok(tag)
    ensures SameRewriting(s, closed, o, tag)
  {
  }

  lemma {:induction false} ClosedForPlain(c: Context, s: State, o: Fields, tag: Tag)
    requires ChunkInv(s) && TagOf(o) == Ok(tag) && !IsChunk(tag) && CloseBefore(c, s, tag).Ok?
    ensures SameRewriting(s, CloseBefore(c, s, tag).value.state, o, tag)
  {
    CloseBeforeGood(c, s, tag);
    PlainSame(s, CloseBefore(c, s, tag).value.state, o, tag);
  }

  lemma {:induction false} ClosedForChunk(c: Context, s: State, o: Fields, tag: Tag)
    requires ChunkInv(s) && TagOf(o) == Ok(tag) && IsChunk(tag) && CloseBefore(c, s, tag).Ok?
    ensures SameRewriting(s, CloseBefore(c, s, tag).value.state, o, tag)
  {
    var closed := CloseBefore(c, s, tag).value.state;
    match tag
    case TagTextChunk => ClosedForText(c, s, o); SameOwn(s, closed, o, tag);
    case TagToolChunk => ClosedForTool(c, s, o); SameOwn(s, closed, o, tag);
    case TagReasoningMessageChunk => ClosedForReasoning(c, s, o); SameOwn(s, closed, o, tag);
  }

  lemma {:induction false} ClosedFor(c: Context, s: State, o: Fields, tag: Tag)
    requires ChunkInv(s) && TagOf(o) == Ok(tag) && CloseBefore(c, s, tag).Ok?
    ensures SameRewriting(s, CloseBefore(c, s, tag).value.state, o, tag)
  {
    if IsChunk(tag) {
      ClosedForChunk(c, s, o, tag);
    } else {
      ClosedForPlain(c, s, o, tag);
    }
  }

  /** The explicit form of `r`, and whether it is accepted at all. */
  ghost predicate MirrorsIf(c: Context, s: State, o: Fields, os: seq<Fields>, r: Outcome) {
    if Explicit(s, o) then Mirrors(c, s, os, r) && r.Ok? && IdsValid(r.value.state) else FeedObjects(c, Erase(s), os).Err?
  }

  lemma {:induction false} OwnChunkMirror(c: Context, s: State, o: Fields, tag: Tag)
    requires Ready(tag, s) && s.view.started && IdsValid(s) && TagOf(o) == Ok(tag) && IsChunk(tag)
    requires Dispatch(c, s, tag, o).Ok?
    ensures MirrorsIf(c, s, o, Own(s, o, tag), Dispatch(c, s, tag, o))
  {
    match tag
    case TagTextChunk =>
      assert Dispatch(c, s, tag, o) == TextChunk(c, s, o);
      TextChunkMirror(c, s, o);
    case TagToolChunk =>
      assert Dispatch(c, s, tag, o) == ToolChunk(c, s, o);
      ToolChunkMirror(c, s, o);
    case TagReasoningMessageChunk =>
      assert Dispatch(c, s, tag, o) == ReasoningChunk(c, s, o);
      ReasoningChunkMirror(c, s, o);
  }

  lemma {:induction false} OwnMirror(c: Context, s: State, o: Fields, tag: Tag)
    requires Ready(tag, s) && IdsValid(s) && TagOf(o) == Ok(tag) && !tag.TagRunError?
    requires Dispatch(c, s, tag, o).Ok?
    ensures MirrorsIf(c, s, o, Own(s, o, tag), Dispatch(c, s, tag, o))
  {
    if IsChunk(tag) {
      OwnChunkMirror(c, s, o, tag);
    } else {
      PlainMirror(c, s, o, tag);
    }
  }

  /** One object of an accepted stream, and its explicit form. */
  lemma {:induction false} ObjectMirror(c: Context, s: State, o: Fields)
    requires ChunkInv(s) && IdsValid(s) && !s.view.terminal && IngestObject(c, s, o).Ok?
    ensures MirrorsIf(c, s, o, Rewrite(s, o), IngestObject(c, s, o))
  {
    var tag := TagOf(o).value;
    if tag.TagRunError? {
      ErrorMirror(c, s, o);
    } else {
      CloseBeforeGood(c, s, tag);
      EndingsMirror(c, s, tag);
      ClosedFor(c, s, o, tag);
      var closed := CloseBefore(c, s, tag).value;
      OwnMirror(c, closed.state, o, tag);
      var own := Own(closed.state, o, tag);
      assert Rewrite(s, o) == Endings(s, tag) + own;
      if Explicit(s, o) {
        MirrorsJoin(c, s, Endings(s, tag), closed, own, Dispatch(c, closed.state, tag, o));
      } else {
        RefusedJoin(c, s, Endings(s, tag), closed, own);
      }
    }
  }

  // ---------------------------------------------------------------------------------------------
  // Whole streams
  // ---------------------------------------------------------------------------------------------

  /** The explicit form of an accepted stream. */
  function RewriteAll(c: Context, s: State, os: seq<Fields>): seq<Fields>
    decreases |os|
  {
    if os == [] || IngestNext(c, s, os[0]).Err? then []
    else Rewrite(s, os[0]) + RewriteAll(c, IngestNext(c, s, os[0]).value.state, os[1..])
  }

  predicate AllExplicit(c: Context, s: State, os: seq<Fields>)
    decreases |os|
  {
    os == [] || IngestNext(c, s, os[0]).Err?
      || (Explicit(s, os[0]) && AllExplicit(c, IngestNext(c, s, os[0]).value.state, os[1..]))
  }

  /**
   * For every accepted stream: its explicit form is accepted exactly when each chunk that opens a
   * stream has an id an explicit start would take, and then both emit the same events.
   */
  lemma {:induction false} ShorthandMeaning(c: Context, s: State, os: seq<Fields>)
    requires ChunkInv(s) && IdsValid(s) && FeedObjects(c, s, os).Ok?
    ensures FeedObjects(c, Erase(s), RewriteAll(c, s, os)).Ok? <==> AllExplicit(c, s, os)
    ensures AllExplicit(c, s, os) ==> Mirrors(c, s, RewriteAll(c, s, os), FeedObjects(c, s, os))
    decreases |os|
  {
    if os != [] {
      var o, first := os[0], IngestNext(c, s, os[0]).value;
      IngestKept(c, s, o);
      ObjectMirror(c, s, o);
      var rest := RewriteAll(c, first.state, os[1..]);
      if Explicit(s, o) {
        ShorthandMeaning(c, first.state, os[1..]);
        if AllExplicit(c, s, os) {
          MirrorsJoin(c, s, Rewrite(s, o), first, rest, FeedObjects(c, first.state, os[1..]));
        } else {
          RefusedJoin(c, s, Rewrite(s, o), first, rest);
        }
      } else {
        RefusedPrefix(c, Erase(s), Rewrite(s, o), rest);
      }
    }
  }

  // ---------------------------------------------------------------------------------------------
  // Texts on the wire
  // ---------------------------------------------------------------------------------------------

  /** A `data:` text within bounds that parses to this object. */
  predicate Spells(c: Context, text: string, o: Fields) {
    && text != [] && Bytes(text) <= MAX_EVENT_BYTES && !HasNul(text)
    && c.lib.parse(text) == Some(Object(o)) && c.lib.size(Object(o)) <= MAX_EVENT_BYTES
  }

  ghost predicate SpellAll(c: Context, texts: seq<string>, os: seq<Fields>) {
    |texts| == |os| && forall i :: 0 <= i < |texts| ==> Spells(c, texts[i], os[i])
  }

  lemma {:induction false} SpelledIngest(c: Context, s: State, text: string, o: Fields)
    requires Spells(c, text, o)
    ensures Ingest(c, s, text) == IngestNext(c, s, o)
  {
  }

  lemma {:induction false} SpelledNext(c: Context, s: State, texts: seq<string>, text: string, os: seq<Fields>, o: Fields)
    requires Feed(c, s, texts) == FeedObjects(c, s, os) && Spells(c, text, o)
    ensures Feed(c, s, texts + [text]) == FeedObjects(c, s, os + [o])
  {
    assert (texts + [text])[..|texts|] == texts;
    FeedJoin(c, s, os, [o]);
    var before := FeedObjects(c, s, os);
    if before.Ok? {
      SpelledIngest(c, before.value.state, text, o);
      FeedOne(c, before.value.state, o);
    }
  }

  lemma {:induction false} SpelledPrefix(c: Context, s: State, texts: seq<string>, os: seq<Fields>, k: nat)
    requires SpellAll(c, texts, os) && k <= |texts|
    ensures Feed(c, s, texts[..k]) == FeedObjects(c, s, os[..k])
    decreases k
  {
    if k > 0 {
      SpelledPrefix(c, s, texts, os, k - 1);
      SpelledNext(c, s, texts[..k - 1], texts[k - 1], os[..k - 1], os[k - 1]);
      TakeOne(texts, k);
      TakeOne(os, k);
    }
  }

  lemma {:induction false} TakeOne<T>(a: seq<T>, k: nat)
    requires 0 < k <= |a|
    ensures a[..k] == a[..k - 1] + [a[k - 1]]
  {
  }

  lemma {:induction false} SpelledFeed(c: Context, s: State, texts: seq<string>, os: seq<Fields>)
    requires SpellAll(c, texts, os)
    ensures Feed(c, s, texts) == FeedObjects(c, s, os)
  {
    SpelledPrefix(c, s, texts, os, |texts|);
    assert texts[..|texts|] == texts && os[..|os|] == os;
  }

  /** The object a text spells, if it spells one. */
  function ObjectOf(c: Context, text: string): Fields {
    var v := c.lib.parse(text);
    if v.Some? && v.value.Object? then v.value.fields else map[]
  }

  /** The objects of an accepted input. */
  function Objects(c: Context, texts: seq<string>): seq<Fields> {
    if texts == [] then [] else Objects(c, texts[..|texts| - 1]) + [ObjectOf(c, texts[|texts| - 1])]
  }

  lemma {:induction false} IngestIsSpelled(c: Context, s: State, text: string)
    requires Ingest(c, s, text).Ok?
    ensures Spells(c, text, ObjectOf(c, text))
  {
  }

  lemma {:induction false} SpellOneMore(c: Context, texts: seq<string>, os: seq<Fields>, text: string, o: Fields)
    requires SpellAll(c, texts, os) && Spells(c, text, o)
    ensures SpellAll(c, texts + [text], os + [o])
  {
  }

  lemma {:induction false} FeedSnoc(c: Context, s: State, front: seq<string>, text: string)
    requires Feed(c, s, front + [text]).Ok?
    ensures Feed(c, s, front).Ok? && Ingest(c, Feed(c, s, front).value.state, text).Ok?
  {
    assert (front + [text])[..|front|] == front;
  }

  lemma {:induction false} ObjectsSnoc(c: Context, front: seq<string>, text: string)
    ensures Objects(c, front + [text]) == Objects(c, front) + [ObjectOf(c, text)]
  {
    assert (front + [text])[..|front|] == front;
  }

  lemma {:induction false} AcceptedIsSpelled(c: Context, s: State, texts: seq<string>)
    requires Feed(c, s, texts).Ok?
    ensures SpellAll(c, texts, Objects(c, texts))
    decreases |texts|
  {
    if texts != [] {
      var front, text := texts[..|texts| - 1], texts[|texts| - 1];
      assert texts == front + [text];
      FeedSnoc(c, s, front, text);
      ObjectsSnoc(c, front, text);
      AcceptedIsSpelled(c, s, front);
      IngestIsSpelled(c, Feed(c, s, front).value.state, text);
      SpellOneMore(c, front, Objects(c, front), text, ObjectOf(c, text));
    }
  }

  /**
   * The shorthand law on the wire: any text of the explicit form of an accepted stream is accepted
   * exactly when every chunk that opens a stream uses an id an explicit start would take, and then
   * the very same events come out.
   */
  lemma {:induction false} ShorthandOnTheWire(c: Context, state: Value, inputs: seq<string>, texts: seq<string>)
    requires Feed(c, Start(state), inputs).Ok?
    requires SpellAll(c, texts, RewriteAll(c, Start(state), Objects(c, inputs)))
    ensures Feed(c, Start(state), texts).Ok? <==> AllExplicit(c, Start(state), Objects(c, inputs))
    ensures Feed(c, Start(state), texts).Ok? ==>
              && Feed(c, Start(state), texts).value.out == Feed(c, Start(state), inputs).value.out
              && Feed(c, Start(state), texts).value.state.view == Feed(c, Start(state), inputs).value.state.view
  {
    var os := Objects(c, inputs);
    AcceptedIsSpelled(c, Start(state), inputs);
    SpelledFeed(c, Start(state), inputs, os);
    SpelledFeed(c, Start(state), texts, RewriteAll(c, Start(state), os));
    ShorthandMeaning(c, Start(state), os);
    assert Erase(Start(state)) == Start(state);
  }
}
