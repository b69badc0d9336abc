/** The decoder's decisions: which events one decoded object stands for, if any. */
module AguiSpec {
  import opened Json
  import opened Wrappers
  import opened AguiEvents
  import Patch

  datatype Tag =
    | TagTextStart | TagTextContent | TagTextEnd | TagTextChunk
    | TagThinkingTextStart | TagThinkingTextContent | TagThinkingTextEnd
    | TagToolStart | TagToolArgs | TagToolEnd | TagToolChunk | TagToolResult
    | TagThinkingStart | TagThinkingEnd
    | TagStateSnapshot | TagStateDelta | TagMessagesSnapshot | TagActivitySnapshot | TagActivityDelta
    | TagRaw | TagCustom
    | TagRunStarted | TagRunFinished | TagRunError | TagStepStarted | TagStepFinished
    | TagReasoningStart | TagReasoningMessageStart | TagReasoningMessageContent | TagReasoningMessageEnd
    | TagReasoningMessageChunk | TagReasoningEnd | TagReasoningEncrypted
    | TagUnknown

  /** The tag of an event name. The names are looked up by length. */
  function ParseTag(s: string): Tag {
    if |s| <= 12 then ShortestTag(s)
    else if |s| <= 15 then ShortTag(s)
    else if |s| <= 18 then LongTag(s)
    else LongestTag(s)
  }

  function ShortestTag(s: string): Tag {
    if s == "THINKING_END" then TagThinkingEnd
    else if s == "STATE_DELTA" then TagStateDelta
    else if s == "RAW" then TagRaw
    else if s == "CUSTOM" then TagCustom
    else if s == "RUN_STARTED" then TagRunStarted
    else if s == "RUN_FINISHED" then TagRunFinished
    else if s == "RUN_ERROR" then TagRunError
    else if s == "STEP_STARTED" then TagStepStarted
    else TagUnknown
  }

  function ShortTag(s: string): Tag {
    if s == "TOOL_CALL_START" then TagToolStart
    else if s == "TOOL_CALL_ARGS" then TagToolArgs
    else if s == "TOOL_CALL_END" then TagToolEnd
    else if s == "TOOL_CALL_CHUNK" then TagToolChunk
    else if s == "THINKING_START" then TagThinkingStart
    else if s == "STATE_SNAPSHOT" then TagStateSnapshot
    else if s == "ACTIVITY_DELTA" then TagActivityDelta
    else if s == "STEP_FINISHED" then TagStepFinished
    else if s == "REASONING_START" then TagReasoningStart
    else if s == "REASONING_END" then TagReasoningEnd
    else TagUnknown
  }

  function LongTag(s: string): Tag {
    if s == "TEXT_MESSAGE_START" then TagTextStart
    else if s == "TEXT_MESSAGE_END" then TagTextEnd
    else if s == "TEXT_MESSAGE_CHUNK" then TagTextChunk
    else if s == "TOOL_CALL_RESULT" then TagToolResult
    else if s == "MESSAGES_SNAPSHOT" then TagMessagesSnapshot
    else if s == "ACTIVITY_SNAPSHOT" then TagActivitySnapshot
    else TagUnknown
  }

  function LongestTag(s: string): Tag {
    if s == "TEXT_MESSAGE_CONTENT" then TagTextContent
    else if s == "REASONING_MESSAGE_START" then TagReasoningMessageStart
    else if s == "REASONING_MESSAGE_CONTENT" then TagReasoningMessageContent
    else if s == "REASONING_MESSAGE_END" then TagReasoningMessageEnd
    else if s == "THINKING_TEXT_MESSAGE_START" then TagThinkingTextStart
    else if s == "THINKING_TEXT_MESSAGE_CONTENT" then TagThinkingTextContent
    else if s == "THINKING_TEXT_MESSAGE_END" then TagThinkingTextEnd
    else if s == "REASONING_MESSAGE_CHUNK" then TagReasoningMessageChunk
    else if s == "REASONING_ENCRYPTED_VALUE" then TagReasoningEncrypted
    else TagUnknown
  }

  /** Fixed facts of one decoder: the JSON library, its identity, and the check of one message. */
  datatype Context = Context(
    lib: Library,
    threadId: string,
    runId: string,
    message: Value -> Result<(), Error>)

  // ---------------------------------------------------------------------------------------------
  // Fields
  // ---------------------------------------------------------------------------------------------

  const MAX_ID_BYTES: nat := 4096

  predicate ValidId(s: string) {
    s != [] && Bytes(s) <= MAX_ID_BYTES && !HasNul(s)
  }

  function BoundedId(s: string): Result<string, Error> {
    if ValidId(s) then Ok(s) else Err(InvalidEvent)
  }

  function BoundedString(s: string): Result<string, Error> {
    if Bytes(s) > MAX_EVENT_BYTES || HasNul(s) then Err(TooLarge) else Ok(s)
  }

  function RequiredString(o: Fields, field: string): Result<string, Error> {
    var v := Get(o, field);
    if v.Some? && v.value.Str? && v.value.s != [] then Ok(v.value.s) else Err(InvalidEvent)
  }

  function RequiredId(o: Fields, field: string): Result<string, Error> {
    var s :- RequiredString(o, field);
    BoundedId(s)
  }

  function RequiredText(o: Fields, field: string): Result<string, Error> {
    var v := Get(o, field);
    if v.Some? && v.value.Str? then BoundedString(v.value.s) else Err(InvalidEvent)
  }

  function OptionalText(o: Fields, field: string): Result<Option<string>, Error> {
    var v := Get(o, field);
    if v.None? then Ok(None)
    else if v.value.Str? then
      var s :- BoundedString(v.value.s);
      Ok(Some(s))
    else Err(InvalidEvent)
  }

  function OptionalString(o: Fields, field: string): Result<Option<string>, Error> {
    var v := Get(o, field);
    if v.Some? && v.value == Str("") then Err(InvalidEvent) else OptionalText(o, field)
  }

  function OptionalBool(o: Fields, field: string): Result<Option<bool>, Error> {
    var v := Get(o, field);
    if v.None? then Ok(None)
    else if v.value.Bool? then Ok(Some(v.value.b))
    else Err(InvalidEvent)
  }

  function ParseTextRole(v: Option<Value>): Result<Role, Error> {
    if v.None? then Ok(Assistant)
    else if !v.value.Str? then Err(InvalidEvent)
    else if v.value.s == "developer" then Ok(Developer)
    else if v.value.s == "system" then Ok(System)
    else if v.value.s == "assistant" then Ok(Assistant)
    else if v.value.s == "user" then Ok(User)
    else Err(InvalidEvent)
  }

  function EnsureBound(lib: Library, v: Value): Result<(), Error> {
    if lib.size(v) <= MAX_EVENT_BYTES then Ok(()) else Err(TooLarge)
  }

  function PatchArray(lib: Library, o: Fields, field: string): Result<seq<Value>, Error> {
    var v := Get(o, field);
    if v.Some? && v.value.Array? && |v.value.items| <= MAX_ITEMS then
      var _ :- EnsureBound(lib, v.value);
      Ok(v.value.items)
    else Err(InvalidPatch)
  }

  const MAX_INTERRUPTS: nat := 256

  function OptionalObject(o: Fields, field: string): Result<Option<Value>, Error> {
    var v := Get(o, field);
    if v.Some? && !v.value.Object? then Err(InvalidEvent) else Ok(v)
  }

  function ReadInterrupt(v: Value): Result<Interrupt, Error> {
    if !v.Object? then Err(InvalidEvent)
    else
      var id :- RequiredId(v.fields, "id");
      var reason :- RequiredId(v.fields, "reason");
      var message :- OptionalString(v.fields, "message");
      var toolCallId :- OptionalString(v.fields, "toolCallId");
      var expiresAt :- OptionalString(v.fields, "expiresAt");
      var responseSchema :- OptionalObject(v.fields, "responseSchema");
      var metadata :- OptionalObject(v.fields, "metadata");
      Ok(Interrupt(id, reason, message, toolCallId, responseSchema, expiresAt, metadata))
  }

  /** All of them, or the first error. */
  function ReadInterrupts(values: seq<Value>): Result<seq<Interrupt>, Error> {
    if values == [] then Ok([])
    else
      var before :- ReadInterrupts(values[..|values| - 1]);
      var last :- ReadInterrupt(values[|values| - 1]);
      Ok(before + [last])
  }

  function ValidateInterrupts(v: Option<Value>): Result<seq<Interrupt>, Error> {
    if v.Some? && v.value.Array? && 0 < |v.value.items| <= MAX_INTERRUPTS then ReadInterrupts(v.value.items)
    else Err(InvalidEvent)
  }

  /** The first error of a message, if any. */
  function CheckMessages(c: Context, values: seq<Value>): Result<(), Error> {
    if values == [] then Ok(())
    else
      var _ :- CheckMessages(c, values[..|values| - 1]);
      c.message(values[|values| - 1])
  }

  function ValidateMessages(c: Context, v: Option<Value>): Result<seq<Value>, Error> {
    if v.Some? && v.value.Array? && |v.value.items| <= MAX_ITEMS then
      var _ :- CheckMessages(c, v.value.items);
      var _ :- EnsureBound(c.lib, v.value);
      Ok(v.value.items)
    else Err(InvalidEvent)
  }

  function RequiredValue(o: Fields, field: string): Result<Value, Error> {
    if field in o then Ok(o[field]) else Err(InvalidEvent)
  }

  // ---------------------------------------------------------------------------------------------
  // Steps
  // ---------------------------------------------------------------------------------------------

  /** A decoder state: the view its events determine, and the open shorthand of each family. */
  datatype State = State(view: View, text: Option<string>, tool: Option<string>, reasoning: Option<string>)

  datatype Step = Step(state: State, out: seq<Event>)

  type Outcome = Result<Step, Error>

  function Nothing(s: State): Outcome {
    Ok(Step(s, []))
  }

  function Emit(c: Context, s: State, e: Event): Outcome {
    Ok(Step(s.(view := Absorb(c.lib, s.view, e)), [e]))
  }

  /** Events already emitted, and then an outcome. */
  function After(out: seq<Event>, r: Outcome): Outcome {
    if r.Ok? then Ok(Step(r.value.state, out + r.value.out)) else r
  }

  function FinishTool(c: Context, s: State, id: string): Outcome {
    if id !in s.view.tools || s.view.tools[id].ended then Err(InvalidSequence)
    else
      var parsed := c.lib.parse(s.view.tools[id].arguments);
      if parsed.Some? && parsed.value.Object? then Emit(c, s, ToolCompleted(id, s.view.tools[id].name, parsed.value))
      else Err(InvalidEvent)
  }

  function CloseText(c: Context, s: State): Outcome {
    if s.text.None? then Nothing(s)
    else if s.text.value !in s.view.openText then Err(InvalidSequence)
    else Emit(c, s.(text := None), TextEnded(s.text.value))
  }

  function CloseTool(c: Context, s: State): Outcome {
    if s.tool.None? then Nothing(s) else FinishTool(c, s.(tool := None), s.tool.value)
  }

  function CloseReasoning(c: Context, s: State): Outcome {
    if s.reasoning.None? then Nothing(s)
    else if s.reasoning.value !in s.view.reasoningMessages then Err(InvalidSequence)
    else Emit(c, s.(reasoning := None), ReasoningMessageEnded(s.reasoning.value))
  }

  /** Every open shorthand ends before an event of another family. */
  function CloseBefore(c: Context, s: State, tag: Tag): Outcome {
    var a :- if tag.TagTextChunk? then Nothing(s) else CloseText(c, s);
    var b :- After(a.out, if tag.TagToolChunk? then Nothing(a.state) else CloseTool(c, a.state));
    After(b.out, if tag.TagReasoningMessageChunk? then Nothing(b.state) else CloseReasoning(c, b.state))
  }

  // ---------------------------------------------------------------------------------------------
  // One event family after the other
  // ---------------------------------------------------------------------------------------------

  function CheckRunIdentity(c: Context, o: Fields): Result<(), Error> {
    var thread :- RequiredString(o, "threadId");
    if thread != c.threadId then Err(IdentityMismatch)
    else
      var run :- RequiredString(o, "runId");
      if run != c.runId then Err(IdentityMismatch) else Ok(())
  }

  predicate NoOpenStreams(v: View) {
    && v.openText == map[] && v.openSteps == {} && v.reasoningMessages == {} && v.reasoningRuns == {}
    && forall id :: id in v.tools ==> v.tools[id].ended
  }

  function OutcomeType(v: Value): Option<string> {
    if v.Object? && "type" in v.fields && v.fields["type"].Str? then Some(v.fields["type"].s) else None
  }

  function RunEnd(c: Context, s: State, o: Fields): Outcome {
    var outcome := Get(o, "outcome");
    if outcome.None? || outcome.value.Null? || OutcomeType(outcome.value) == Some("success") then
      Emit(c, s, RunFinished)
    else if OutcomeType(outcome.value) == Some("interrupt") then
      var interrupts :- ValidateInterrupts(Get(outcome.value.fields, "interrupts"));
      Emit(c, s, RunInterrupted(interrupts))
    else Err(InvalidEvent)
  }

  function Lifecycle(c: Context, s: State, tag: Tag, o: Fields): Outcome {
    match tag
    case TagRunStarted =>
      if s.view.started then Err(InvalidSequence)
      else
        var _ :- CheckRunIdentity(c, o);
        Emit(c, s, RunStarted)
    case TagRunFinished =>
      var _ :- CheckRunIdentity(c, o);
      if NoOpenStreams(s.view) then RunEnd(c, s, o) else Err(InvalidSequence)
    case TagRunError =>
      var message :- RequiredText(o, "message");
      var code :- OptionalString(o, "code");
      Emit(c, s.(text := None, tool := None, reasoning := None), RunError(message, code))
    case TagStepStarted =>
      var name :- RequiredId(o, "stepName");
      if name in s.view.openSteps then Err(InvalidSequence) else Emit(c, s, StepStarted(name))
    case TagStepFinished =>
      var name :- RequiredId(o, "stepName");
      if name !in s.view.openSteps then Err(InvalidSequence) else Emit(c, s, StepFinished(name))
    case _ => Err(InvalidEvent)
  }

  function OpenTextChunk(c: Context, s: State, id: string, o: Fields): Outcome {
    var closed :- CloseText(c, s);
    var role :- ParseTextRole(Get(o, "role"));
    var name :- OptionalString(o, "name");
    After(closed.out, Emit(c, closed.state.(text := Some(id)), TextStarted(id, role, name)))
  }

  function TextChunk(c: Context, s: State, o: Fields): Outcome {
    var incoming :- OptionalString(o, "messageId");
    var begun :- if incoming.Some? && s.text != incoming then OpenTextChunk(c, s, incoming.value, o) else Nothing(s);
    if begun.state.text.None? then Err(InvalidSequence)
    else
      var delta :- OptionalText(o, "delta");
      After(begun.out,
        if delta.None? then Nothing(begun.state)
        else if delta.value == "" then CloseText(c, begun.state)
        else Emit(c, begun.state, TextDelta(begun.state.text.value, delta.value)))
  }

  function TextStart(c: Context, s: State, o: Fields): Outcome {
    var id :- RequiredId(o, "messageId");
    var role :- ParseTextRole(Get(o, "role"));
    if id in s.view.openText then Err(InvalidSequence)
    else
      var name :- OptionalString(o, "name");
      Emit(c, s, TextStarted(id, role, name))
  }

  function Texts(c: Context, s: State, tag: Tag, o: Fields): Outcome {
    match tag
    case TagTextStart => TextStart(c, s, o)
    case TagTextContent =>
      var id :- RequiredId(o, "messageId");
      if id !in s.view.openText then Err(InvalidSequence)
      else
        var delta :- RequiredText(o, "delta");
        Emit(c, s, TextDelta(id, delta))
    case TagTextEnd =>
      var id :- RequiredId(o, "messageId");
      if id !in s.view.openText then Err(InvalidSequence) else Emit(c, s, TextEnded(id))
    case TagTextChunk => TextChunk(c, s, o)
    case _ => Err(InvalidEvent)
  }

  /** Append an argument fragment, within the cap on the whole text. */
  function AppendArguments(c: Context, s: State, id: string, delta: string): Outcome
    requires id in s.view.tools
  {
    if Bytes(delta) + Bytes(s.view.tools[id].arguments) > MAX_EVENT_BYTES && delta != "" then Err(TooLarge)
    else Emit(c, s, ToolArguments(id, delta))
  }

  function OpenToolChunk(c: Context, s: State, id: string, o: Fields): Outcome {
    var closed :- CloseTool(c, s);
    var name :- RequiredId(o, "toolCallName");
    var parent :- OptionalString(o, "parentMessageId");
    After(closed.out, Emit(c, closed.state.(tool := Some(id)), ToolStarted(id, name, parent)))
  }

  function ToolChunk(c: Context, s: State, o: Fields): Outcome {
    var incoming :- OptionalString(o, "toolCallId");
    var begun :- if incoming.Some? && s.tool != incoming then OpenToolChunk(c, s, incoming.value, o) else Nothing(s);
    if begun.state.tool.None? then Err(InvalidSequence)
    else
      var delta :- OptionalText(o, "delta");
      After(begun.out,
        if delta.None? then Nothing(begun.state)
        else if delta.value == "" then CloseTool(c, begun.state)
        else if begun.state.tool.value !in begun.state.view.tools then Err(InvalidSequence)
        else AppendArguments(c, begun.state, begun.state.tool.value, delta.value))
  }

  function ToolStart(c: Context, s: State, o: Fields): Outcome {
    var id :- RequiredId(o, "toolCallId");
    var name :- RequiredId(o, "toolCallName");
    var parent :- OptionalString(o, "parentMessageId");
    if id in s.view.tools then Err(InvalidSequence) else Emit(c, s, ToolStarted(id, name, parent))
  }

  function ToolArgs(c: Context, s: State, o: Fields): Outcome {
    var id :- RequiredId(o, "toolCallId");
    var delta :- RequiredText(o, "delta");
    if id !in s.view.tools || s.view.tools[id].ended then Err(InvalidSequence)
    else AppendArguments(c, s, id, delta)
  }

  function ToolResultEvent(c: Context, s: State, o: Fields): Outcome {
    var callId :- RequiredId(o, "toolCallId");
    if "role" in o && o["role"] != Str("tool") then Err(InvalidEvent)
    else if callId !in s.view.tools || !s.view.tools[callId].ended then Err(InvalidSequence)
    else
      var messageId :- RequiredId(o, "messageId");
      var content :- RequiredText(o, "content");
      Emit(c, s, ToolResult(messageId, callId, content))
  }

  function Tools(c: Context, s: State, tag: Tag, o: Fields): Outcome {
    match tag
    case TagToolStart => ToolStart(c, s, o)
    case TagToolArgs => ToolArgs(c, s, o)
    case TagToolEnd =>
      var id :- RequiredId(o, "toolCallId");
      FinishTool(c, s, id)
    case TagToolChunk => ToolChunk(c, s, o)
    case TagToolResult => ToolResultEvent(c, s, o)
    case _ => Err(InvalidEvent)
  }

  function PatchState(c: Context, s: State, patch: seq<Value>): Outcome {
    var _ :- Patch.PatchResult(c.lib, s.view.state, patch);
    Emit(c, s, StateDelta(patch))
  }

  function Projections(c: Context, s: State, tag: Tag, o: Fields): Outcome {
    match tag
    case TagStateSnapshot =>
      var snapshot :- RequiredValue(o, "snapshot");
      var _ :- EnsureBound(c.lib, snapshot);
      Emit(c, s, StateSnapshot(snapshot))
    case TagStateDelta =>
      var patch :- PatchArray(c.lib, o, "delta");
      PatchState(c, s, patch)
    case TagMessagesSnapshot =>
      var messages :- ValidateMessages(c, Get(o, "messages"));
      Emit(c, s, MessagesSnapshot(messages))
    case TagRaw =>
      var event :- RequiredValue(o, "event");
      var source :- OptionalString(o, "source");
      Emit(c, s, Raw(source, event))
    case TagCustom =>
      var name :- RequiredId(o, "name");
      var value :- RequiredValue(o, "value");
      Emit(c, s, Custom(name, value))
    case _ => Err(InvalidEvent)
  }

  function PatchActivity(c: Context, s: State, id: string, kind: string, patch: seq<Value>): Outcome {
    if id !in s.view.activities || s.view.activities[id].activityType != kind then Err(InvalidSequence)
    else
      var _ :- Patch.PatchResult(c.lib, s.view.activities[id].content, patch);
      Emit(c, s, ActivityDelta(id, kind, patch))
  }

  function Activities(c: Context, s: State, tag: Tag, o: Fields): Outcome {
    match tag
    case TagActivitySnapshot =>
      var id :- RequiredId(o, "messageId");
      var kind :- RequiredId(o, "activityType");
      var content :- RequiredValue(o, "content");
      if !content.Object? then Err(InvalidEvent)
      else
        var replace :- OptionalBool(o, "replace");
        Emit(c, s, ActivitySnapshot(id, kind, content, replace != Some(false)))
    case TagActivityDelta =>
      var id :- RequiredId(o, "messageId");
      var kind :- RequiredId(o, "activityType");
      var patch :- PatchArray(c.lib, o, "patch");
      PatchActivity(c, s, id, kind, patch)
    case _ => Err(InvalidEvent)
  }

  function ThinkingRunId(c: Context): string {
    "thinking:" + c.runId
  }

  function ThinkingMessageId(c: Context): string {
    "thinking-text:" + c.runId
  }

  function StartRun(c: Context, s: State, id: string): Outcome {
    if id in s.view.reasoningRuns then Err(InvalidSequence) else Emit(c, s, ReasoningStarted(id))
  }

  function EndRun(c: Context, s: State, id: string): Outcome {
    if id !in s.view.reasoningRuns then Err(InvalidSequence) else Emit(c, s, ReasoningEnded(id))
  }

  function StartMessage(c: Context, s: State, id: string): Outcome {
    if id in s.view.reasoningMessages then Err(InvalidSequence) else Emit(c, s, ReasoningMessageStarted(id))
  }

  function EndMessage(c: Context, s: State, id: string): Outcome {
    if id !in s.view.reasoningMessages then Err(InvalidSequence) else Emit(c, s, ReasoningMessageEnded(id))
  }

  function MessageContent(c: Context, s: State, id: string, o: Fields): Outcome {
    if id !in s.view.reasoningMessages then Err(InvalidSequence)
    else
      var delta :- RequiredText(o, "delta");
      Emit(c, s, ReasoningDelta(id, delta))
  }

  function OpenReasoningChunk(c: Context, s: State, id: string): Outcome {
    var closed :- CloseReasoning(c, s);
    After(closed.out, Emit(c, closed.state.(reasoning := Some(id)), ReasoningMessageStarted(id)))
  }

  function ReasoningChunk(c: Context, s: State, o: Fields): Outcome {
    var incoming :- OptionalString(o, "messageId");
    var begun :- if incoming.Some? && s.reasoning != incoming then OpenReasoningChunk(c, s, incoming.value) else Nothing(s);
    if begun.state.reasoning.None? then Err(InvalidSequence)
    else
      var delta :- OptionalText(o, "delta");
      After(begun.out,
        if delta.None? then Nothing(begun.state)
        else if delta.value == "" then CloseReasoning(c, begun.state)
        else Emit(c, begun.state, ReasoningDelta(begun.state.reasoning.value, delta.value)))
  }

  function Encrypted(c: Context, s: State, o: Fields): Outcome {
    var subtype :- RequiredId(o, "subtype");
    if subtype != "tool-call" && subtype != "message" then Err(InvalidEvent)
    else
      var entityId :- RequiredId(o, "entityId");
      var value :- RequiredId(o, "encryptedValue");
      Emit(c, s, ReasoningEncrypted(subtype, entityId, value))
  }

  function ReasoningRuns(c: Context, s: State, tag: Tag, o: Fields): Outcome {
    match tag
    case TagReasoningStart =>
      var id :- RequiredId(o, "messageId");
      StartRun(c, s, id)
    case TagThinkingStart =>
      var _ :- OptionalString(o, "title");
      StartRun(c, s, ThinkingRunId(c))
    case TagReasoningEnd =>
      var id :- RequiredId(o, "messageId");
      EndRun(c, s, id)
    case TagThinkingEnd => EndRun(c, s, ThinkingRunId(c))
    case TagReasoningEncrypted =>
      Encrypted(c, s, o)
    case _ => Err(InvalidEvent)
  }

  function ReasoningMessages(c: Context, s: State, tag: Tag, o: Fields): Outcome {
    match tag
    case TagReasoningMessageStart =>
      if Get(o, "role") != Some(Str("reasoning")) then Err(InvalidEvent)
      else
        var id :- RequiredId(o, "messageId");
        StartMessage(c, s, id)
    case TagThinkingTextStart => StartMessage(c, s, ThinkingMessageId(c))
    case TagReasoningMessageContent =>
      var id :- RequiredId(o, "messageId");
      MessageContent(c, s, id, o)
    case TagThinkingTextContent => MessageContent(c, s, ThinkingMessageId(c), o)
    case TagReasoningMessageEnd =>
      var id :- RequiredId(o, "messageId");
      EndMessage(c, s, id)
    case TagThinkingTextEnd => EndMessage(c, s, ThinkingMessageId(c))
    case TagReasoningMessageChunk => ReasoningChunk(c, s, o)
    case _ => Err(InvalidEvent)
  }

  datatype Family =
    | LifecycleFamily | TextFamily | ToolFamily | ProjectionFamily | ActivityFamily | ReasoningFamily | MessageFamily

  function FamilyOf(tag: Tag): Family {
    match tag
    case TagTextStart | TagTextContent | TagTextEnd | TagTextChunk => TextFamily
    case TagToolStart | TagToolArgs | TagToolEnd | TagToolChunk | TagToolResult => ToolFamily
    case TagStateSnapshot | TagStateDelta | TagMessagesSnapshot | TagRaw | TagCustom => ProjectionFamily
    case TagActivitySnapshot | TagActivityDelta => ActivityFamily
    case TagRunStarted | TagRunFinished | TagRunError | TagStepStarted | TagStepFinished | TagUnknown => LifecycleFamily
    case TagReasoningStart | TagThinkingStart | TagReasoningEnd | TagThinkingEnd | TagReasoningEncrypted => ReasoningFamily
    case _ => MessageFamily
  }

  function Dispatch(c: Context, s: State, tag: Tag, o: Fields): Outcome {
    match FamilyOf(tag)
    case LifecycleFamily => Lifecycle(c, s, tag, o)
    case TextFamily => Texts(c, s, tag, o)
    case ToolFamily => Tools(c, s, tag, o)
    case ProjectionFamily => Projections(c, s, tag, o)
    case ActivityFamily => Activities(c, s, tag, o)
    case ReasoningFamily => ReasoningRuns(c, s, tag, o)
    case MessageFamily => ReasoningMessages(c, s, tag, o)
  }

  function TagOf(o: Fields): Result<Tag, Error> {
    if "timestamp" in o && !o["timestamp"].Num? then Err(InvalidEvent)
    else
      var name :- RequiredString(o, "type");
      Ok(ParseTag(name))
  }

  function IngestTagged(c: Context, s: State, tag: Tag, o: Fields): Outcome {
    var closed :- if tag.TagRunError? then Nothing(s) else CloseBefore(c, s, tag);
    if !s.view.started && !tag.TagRunStarted? then Err(InvalidSequence)
    else After(closed.out, Dispatch(c, closed.state, tag, o))
  }

  /** One event object, once it has been parsed and found within bounds. */
  function IngestObject(c: Context, s: State, o: Fields): Outcome {
    var tag :- TagOf(o);
    IngestTagged(c, s, tag, o)
  }

  /** The object in one SSE `data:` value. */
  function ParseData(c: Context, s: State, data: string): Result<Fields, Error> {
    if data == [] || Bytes(data) > MAX_EVENT_BYTES || HasNul(data) then Err(TooLarge)
    else if s.view.terminal then Err(InvalidSequence)
    else
      var v := c.lib.parse(data);
      if v.None? then Err(InvalidEvent)
      else
        var _ :- EnsureBound(c.lib, v.value);
        if v.value.Object? then Ok(v.value.fields) else Err(InvalidEvent)
  }

  function Ingest(c: Context, s: State, data: string): Outcome {
    var o :- ParseData(c, s, data);
    IngestObject(c, s, o)
  }

  function Finish(c: Context, s: State): Outcome {
    var closed :- CloseBefore(c, s, TagUnknown);
    if s.view.started && s.view.terminal then Ok(closed) else Err(Incomplete)
  }

  function Start(state: Value): State {
    State(Initial(state), None, None, None)
  }

  /** A whole input, for as long as it is accepted. */
  function Feed(c: Context, s: State, inputs: seq<string>): Outcome {
    if inputs == [] then Nothing(s)
    else
      var before :- Feed(c, s, inputs[..|inputs| - 1]);
      After(before.out, Ingest(c, before.state, inputs[|inputs| - 1]))
  }
}
