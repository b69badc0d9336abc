/** Which traces explicit events can produce, and the one spelling that produces each of them. */
module AguiWire {
  import opened Json
  import opened Wrappers
  import opened AguiEvents
  import opened AguiSpec
  import opened AguiLaws
  import opened AguiShorthand
  import Patch

  // ---------------------------------------------------------------------------------------------
  // Events that an explicit object can stand for
  // ---------------------------------------------------------------------------------------------

  predicate FitsText(s: string) {
    Bytes(s) <= MAX_EVENT_BYTES && !HasNul(s)
  }

  predicate FitsOptional(s: Option<string>) {
    s.Some? ==> s.value != "" && FitsText(s.value)
  }

  predicate FitsPatch(c: Context, patch: seq<Value>) {
    |patch| <= MAX_ITEMS && c.lib.size(Array(patch)) <= MAX_EVENT_BYTES
  }

  predicate FitsObject(v: Option<Value>) {
    v.Some? ==> v.value.Object?
  }

  predicate FitsInterrupt(i: Interrupt) {
    && ValidId(i.id) && ValidId(i.reason) && FitsOptional(i.message) && FitsOptional(i.toolCallId)
    && FitsOptional(i.expiresAt) && FitsObject(i.responseSchema) && FitsObject(i.metadata)
  }

  /** Every field within the bound of its kind. */
  predicate Fits(c: Context, e: Event) {
    match e
    case RunStarted => c.threadId != "" && c.runId != ""
    case RunFinished => c.threadId != "" && c.runId != ""
    case RunInterrupted(interrupts) =>
      && c.threadId != "" && c.runId != "" && 0 < |interrupts| <= MAX_INTERRUPTS
      && forall i :: 0 <= i < |interrupts| ==> FitsInterrupt(interrupts[i])
    case RunError(message, code) => FitsText(message) && FitsOptional(code)
    case StepStarted(name) => ValidId(name)
    case StepFinished(name) => ValidId(name)
    case TextStarted(id, _, participant) => ValidId(id) && FitsOptional(participant)
    case TextDelta(id, delta) => ValidId(id) && FitsText(delta)
    case TextEnded(id) => ValidId(id)
    case ToolStarted(id, name, parent) => ValidId(id) && ValidId(name) && FitsOptional(parent)
    case ToolArguments(id, delta) => ValidId(id) && FitsText(delta)
    case ToolCompleted(id, _, _) => ValidId(id)
    case ToolResult(messageId, callId, content) => ValidId(messageId) && ValidId(callId) && FitsText(content)
    case StateSnapshot(snapshot) => c.lib.size(snapshot) <= MAX_EVENT_BYTES
    case StateDelta(patch) => FitsPatch(c, patch)
    case MessagesSnapshot(messages) =>
      |messages| <= MAX_ITEMS && CheckMessages(c, messages).Ok? && c.lib.size(Array(messages)) <= MAX_EVENT_BYTES
    case ActivitySnapshot(id, kind, content, _) => ValidId(id) && ValidId(kind) && content.Object?
    case ActivityDelta(id, kind, patch) => ValidId(id) && ValidId(kind) && FitsPatch(c, patch)
    case ReasoningStarted(id) => ValidId(id) || id == ThinkingRunId(c)
    case ReasoningEnded(id) => ValidId(id) || id == ThinkingRunId(c)
    case ReasoningMessageStarted(id) => ValidId(id) || id == ThinkingMessageId(c)
    case ReasoningDelta(id, delta) => (ValidId(id) || id == ThinkingMessageId(c)) && FitsText(delta)
    case ReasoningMessageEnded(id) => ValidId(id) || id == ThinkingMessageId(c)
    case ReasoningEncrypted(subtype, entityId, value) =>
      (subtype == "tool-call" || subtype == "message") && ValidId(entityId) && ValidId(value)
    case Raw(source, _) => FitsOptional(source)
    case Custom(name, _) => ValidId(name)
  }

  /** A start takes an id that is not in use. */
  predicate Fresh(v: View, e: Event) {
    match e
    case TextStarted(id, _, _) => id !in v.openText
    case ToolStarted(id, _, _) => id !in v.tools
    case ReasoningMessageStarted(id) => id !in v.reasoningMessages
    case _ => true
  }

  ghost predicate Admissible(c: Context, v: View, e: Event) {
    Justified(c.lib, v, e) && Fresh(v, e) && Fits(c, e)
  }

  ghost predicate AdmissibleAll(c: Context, v: View, trace: seq<Event>) {
    trace == [] ||
    (var front := trace[..|trace| - 1];
     AdmissibleAll(c, v, front) && Admissible(c, AbsorbAll(c.lib, v, front), trace[|trace| - 1]))
  }

  // ---------------------------------------------------------------------------------------------
  // The spelling of an event
  // ---------------------------------------------------------------------------------------------

  function RoleName(role: Role): string {
    match role
    case Developer => "developer"
    case System => "system"
    case Assistant => "assistant"
    case User => "user"
  }

  function Identity(c: Context): Fields {
    map["threadId" := Str(c.threadId), "runId" := Str(c.runId)]
  }

  function StringValue(s: Option<string>): Option<Value> {
    if s.Some? then Some(Str(s.value)) else None
  }

  function With(o: Fields, field: string, v: Option<Value>): Fields {
    if v.Some? then o[field := v.value] else o
  }

  function InterruptWire(i: Interrupt): Fields {
    var named: Fields := map["id" := Str(i.id), "reason" := Str(i.reason)];
    var told := With(With(named, "message", StringValue(i.message)), "toolCallId", StringValue(i.toolCallId));
    With(With(With(told, "expiresAt", StringValue(i.expiresAt)), "responseSchema", i.responseSchema), "metadata", i.metadata)
  }

  function InterruptsWire(interrupts: seq<Interrupt>): seq<Value> {
    if interrupts == [] then []
    else InterruptsWire(interrupts[..|interrupts| - 1]) + [Object(InterruptWire(interrupts[|interrupts| - 1]))]
  }

  function Interruption(interrupts: seq<Interrupt>): Value {
    Object(map["type" := Str("interrupt"), "interrupts" := Array(InterruptsWire(interrupts))])
  }

  predicate IsRunEvent(e: Event) {
    e.RunStarted? || e.RunFinished? || e.RunInterrupted? || e.RunError? || e.StepStarted? || e.StepFinished?
  }

  predicate IsTextEvent(e: Event) {
    e.TextStarted? || e.TextDelta? || e.TextEnded?
  }

  predicate IsToolEvent(e: Event) {
    e.ToolStarted? || e.ToolArguments? || e.ToolCompleted? || e.ToolResult?
  }

  predicate IsProjectionEvent(e: Event) {
    || e.StateSnapshot? || e.StateDelta? || e.MessagesSnapshot? || e.ActivitySnapshot? || e.ActivityDelta?
    || e.Raw? || e.Custom?
  }

  /** The ids of the thinking events stand for themselves; they need not be within the bound of an id. */
  function WireTag(c: Context, e: Event): Tag {
    match e
    case RunStarted => TagRunStarted
    case RunFinished => TagRunFinished
    case RunInterrupted(_) => TagRunFinished
    case RunError(_, _) => TagRunError
    case StepStarted(_) => TagStepStarted
    case StepFinished(_) => TagStepFinished
    case TextStarted(_, _, _) => TagTextStart
    case TextDelta(_, _) => TagTextContent
    case TextEnded(_) => TagTextEnd
    case ToolStarted(_, _, _) => TagToolStart
    case ToolArguments(_, _) => TagToolArgs
    case ToolCompleted(_, _, _) => TagToolEnd
    case ToolResult(_, _, _) => TagToolResult
    case StateSnapshot(_) => TagStateSnapshot
    case StateDelta(_) => TagStateDelta
    case MessagesSnapshot(_) => TagMessagesSnapshot
    case ActivitySnapshot(_, _, _, _) => TagActivitySnapshot
    case ActivityDelta(_, _, _) => TagActivityDelta
    case ReasoningStarted(id) => if id == ThinkingRunId(c) then TagThinkingStart else TagReasoningStart
    case ReasoningEnded(id) => if id == ThinkingRunId(c) then TagThinkingEnd else TagReasoningEnd
    case ReasoningMessageStarted(id) =>
      if id == ThinkingMessageId(c) then TagThinkingTextStart else TagReasoningMessageStart
    case ReasoningDelta(id, _) => if id == ThinkingMessageId(c) then TagThinkingTextContent else TagReasoningMessageContent
    case ReasoningMessageEnded(id) => if id == ThinkingMessageId(c) then TagThinkingTextEnd else TagReasoningMessageEnd
    case ReasoningEncrypted(_, _, _) => TagReasoningEncrypted
    case Raw(_, _) => TagRaw
    case Custom(_, _) => TagCustom
  }

  function RunFields(c: Context, e: Event): Fields
    requires IsRunEvent(e)
  {
    match e
    case RunStarted => Identity(c)
    case RunFinished => Identity(c)
    case RunInterrupted(interrupts) => Identity(c)["outcome" := Interruption(interrupts)]
    case RunError(message, code) => With(map["message" := Str(message)], "code", StringValue(code))
    case StepStarted(name) => map["stepName" := Str(name)]
    case StepFinished(name) => map["stepName" := Str(name)]
  }

  function StreamFields(e: Event): Fields
    requires IsTextEvent(e) || IsToolEvent(e)
  {
    match e
    case TextStarted(id, role, participant) =>
      With(map["messageId" := Str(id), "role" := Str(RoleName(role))], "name", StringValue(participant))
    case TextDelta(id, delta) => map["messageId" := Str(id), "delta" := Str(delta)]
    case TextEnded(id) => map["messageId" := Str(id)]
    case ToolStarted(id, name, parent) =>
      With(map["toolCallId" := Str(id), "toolCallName" := Str(name)], "parentMessageId", StringValue(parent))
    case ToolArguments(id, delta) => map["toolCallId" := Str(id), "delta" := Str(delta)]
    case ToolCompleted(id, _, _) => map["toolCallId" := Str(id)]
    case ToolResult(messageId, callId, content) =>
      map["messageId" := Str(messageId), "toolCallId" := Str(callId), "content" := Str(content)]
  }

  function ProjectionFields(e: Event): Fields
    requires IsProjectionEvent(e)
  {
    match e
    case StateSnapshot(snapshot) => map["snapshot" := snapshot]
    case StateDelta(patch) => map["delta" := Array(patch)]
    case MessagesSnapshot(messages) => map["messages" := Array(messages)]
    case ActivitySnapshot(id, kind, content, replace) =>
      map["messageId" := Str(id), "activityType" := Str(kind), "content" := content, "replace" := Bool(replace)]
    case ActivityDelta(id, kind, patch) =>
      map["messageId" := Str(id), "activityType" := Str(kind), "patch" := Array(patch)]
    case Raw(source, event) => With(map["event" := event], "source", StringValue(source))
    case Custom(name, value) => map["name" := Str(name), "value" := value]
  }

  function ReasoningFields(e: Event): Fields {
    match e
    case ReasoningMessageStarted(id) => map["messageId" := Str(id), "role" := Str("reasoning")]
    case ReasoningDelta(id, delta) => map["messageId" := Str(id), "delta" := Str(delta)]
    case ReasoningEncrypted(subtype, entityId, value) =>
      map["subtype" := Str(subtype), "entityId" := Str(entityId), "encryptedValue" := Str(value)]
    case ReasoningStarted(id) => map["messageId" := Str(id)]
    case ReasoningEnded(id) => map["messageId" := Str(id)]
    case ReasoningMessageEnded(id) => map["messageId" := Str(id)]
    case _ => map[]
  }

  function WireFields(c: Context, e: Event): Fields {
    if IsRunEvent(e) then RunFields(c, e)
    else if IsTextEvent(e) || IsToolEvent(e) then StreamFields(e)
    else if IsProjectionEvent(e) then ProjectionFields(e)
    else ReasoningFields(e)
  }

  function Wire(c: Context, e: Event): Fields {
    Typed(NameOf(WireTag(c, e)), WireFields(c, e))
  }

  function WireAll(c: Context, trace: seq<Event>): seq<Fields> {
    seq(|trace|, i requires 0 <= i < |trace| => Wire(c, trace[i]))
  }

  // ---------------------------------------------------------------------------------------------
  // The names of the spelling
  // ---------------------------------------------------------------------------------------------

  function NameOf(tag: Tag): string {
    match FamilyOf(tag)
    case LifecycleFamily => RunName(tag)
    case TextFamily => StreamName(tag)
    case ToolFamily => StreamName(tag)
    case ProjectionFamily => ProjectionName(tag)
    case ActivityFamily => ProjectionName(tag)
    case ReasoningFamily => ReasoningName(tag)
    case MessageFamily => ReasoningName(tag)
  }

  function RunName(tag: Tag): string {
    match tag
    case TagRunStarted => "RUN_STARTED"
    case TagRunFinished => "RUN_FINISHED"
    case TagRunError => "RUN_ERROR"
    case TagStepStarted => "STEP_STARTED"
    case TagStepFinished => "STEP_FINISHED"
    case _ => "?"
  }

  function StreamName(tag: Tag): string {
    match tag
    case TagTextStart => "TEXT_MESSAGE_START"
    case TagTextContent => "TEXT_MESSAGE_CONTENT"
    case TagTextEnd => "TEXT_MESSAGE_END"
    case TagTextChunk => "TEXT_MESSAGE_CHUNK"
    case TagToolStart => "TOOL_CALL_START"
    case TagToolArgs => "TOOL_CALL_ARGS"
    case TagToolEnd => "TOOL_CALL_END"
    case TagToolChunk => "TOOL_CALL_CHUNK"
    case TagToolResult => "TOOL_CALL_RESULT"
    case _ => "?"
  }

  function ProjectionName(tag: Tag): string {
    match tag
    case TagStateSnapshot => "STATE_SNAPSHOT"
    case TagStateDelta => "STATE_DELTA"
    case TagMessagesSnapshot => "MESSAGES_SNAPSHOT"
    case TagActivitySnapshot => "ACTIVITY_SNAPSHOT"
    case TagActivityDelta => "ACTIVITY_DELTA"
    case TagRaw => "RAW"
    case TagCustom => "CUSTOM"
    case _ => "?"
  }

  function ReasoningName(tag: Tag): string {
    match tag
    case TagThinkingStart => "THINKING_START"
    case TagThinkingEnd => "THINKING_END"
    case TagThinkingTextStart => "THINKING_TEXT_MESSAGE_START"
    case TagThinkingTextContent => "THINKING_TEXT_MESSAGE_CONTENT"
    case TagThinkingTextEnd => "THINKING_TEXT_MESSAGE_END"
    case TagReasoningStart => "REASONING_START"
    case TagReasoningMessageStart => "REASONING_MESSAGE_START"
    case TagReasoningMessageContent => "REASONING_MESSAGE_CONTENT"
    case TagReasoningMessageEnd => "REASONING_MESSAGE_END"
    case TagReasoningMessageChunk => "REASONING_MESSAGE_CHUNK"
    case TagReasoningEnd => "REASONING_END"
    case TagReasoningEncrypted => "REASONING_ENCRYPTED_VALUE"
    case _ => "?"
  }

  lemma {:induction false} RunNames(tag: Tag)
    requires FamilyOf(tag).LifecycleFamily?
    ensures ParseTag(RunName(tag)) == tag
  {
  }

  lemma {:induction false} StreamNames(tag: Tag)
    requires FamilyOf(tag).TextFamily? || FamilyOf(tag).ToolFamily?
    ensures ParseTag(StreamName(tag)) == tag
  {
  }

  lemma {:induction false} ActivityNames(tag: Tag)
    requires FamilyOf(tag).ActivityFamily?
    ensures ParseTag(ProjectionName(tag)) == tag
  {
  }

  lemma {:induction false} StateNames(tag: Tag)
    requires tag.TagStateSnapshot? || tag.TagStateDelta? || tag.TagMessagesSnapshot?
    ensures ParseTag(ProjectionName(tag)) == tag
  {
  }

  lemma {:induction false} ProjectionNames(tag: Tag)
    requires FamilyOf(tag).ProjectionFamily?
    ensures ParseTag(ProjectionName(tag)) == tag
  {
    if !tag.TagRaw? && !tag.TagCustom? {
      StateNames(tag);
    }
  }

  lemma {:induction false} ReasoningNames(tag: Tag)
    requires FamilyOf(tag).ReasoningFamily?
    ensures ParseTag(ReasoningName(tag)) == tag
  {
    match tag
    case TagThinkingStart =>
    case TagThinkingEnd =>
    case TagReasoningStart =>
    case TagReasoningEnd =>
    case TagReasoningEncrypted =>
  }

  lemma {:induction false} ThinkingNames(tag: Tag)
    requires tag.TagThinkingTextStart? || tag.TagThinkingTextContent? || tag.TagThinkingTextEnd?
    ensures ParseTag(ReasoningName(tag)) == tag
  {
  }

  lemma {:induction false} MessageNames(tag: Tag)
    requires FamilyOf(tag).MessageFamily?
    ensures ParseTag(ReasoningName(tag)) == tag
  {
    if tag.TagThinkingTextStart? || tag.TagThinkingTextContent? || tag.TagThinkingTextEnd? {
      ThinkingNames(tag);
    }
  }

  /** The name of a tag is read as that tag. */
  lemma {:induction false} NameParses(tag: Tag)
    ensures ParseTag(NameOf(tag)) == tag
  {
    match FamilyOf(tag)
    case LifecycleFamily => RunNames(tag);
    case TextFamily => StreamNames(tag);
    case ToolFamily => StreamNames(tag);
    case ProjectionFamily => ProjectionNames(tag);
    case ActivityFamily => ActivityNames(tag);
    case ReasoningFamily => ReasoningNames(tag);
    case MessageFamily => MessageNames(tag);
  }

  // ---------------------------------------------------------------------------------------------
  // Interrupts
  // ---------------------------------------------------------------------------------------------

  lemma {:induction false} InterruptFields(i: Interrupt)
    ensures var o := InterruptWire(i);
            && Get(o, "id") == Some(Str(i.id)) && Get(o, "reason") == Some(Str(i.reason))
            && Get(o, "message") == StringValue(i.message) && Get(o, "toolCallId") == StringValue(i.toolCallId)
            && Get(o, "expiresAt") == StringValue(i.expiresAt)
            && Get(o, "responseSchema") == i.responseSchema && Get(o, "metadata") == i.metadata
  {
  }

  lemma {:induction false} ReadOptional(o: Fields, field: string, s: Option<string>)
    requires Get(o, field) == StringValue(s) && FitsOptional(s)
    ensures OptionalString(o, field) == Ok(s)
  {
  }

  lemma {:induction false} InterruptRead(i: Interrupt)
    requires FitsInterrupt(i)
    ensures ReadInterrupt(Object(InterruptWire(i))) == Ok(i)
  {
    var o := InterruptWire(i);
    InterruptFields(i);
    ReadId(o, "id", i.id);
    ReadId(o, "reason", i.reason);
    ReadOptional(o, "message", i.message);
    ReadOptional(o, "toolCallId", i.toolCallId);
    ReadOptional(o, "expiresAt", i.expiresAt);
  }

  lemma {:induction false} ReadSnoc(values: seq<Value>, v: Value)
    ensures ReadInterrupts(values + [v]) ==
            var before := ReadInterrupts(values);
            if before.Err? then before
            else if ReadInterrupt(v).Err? then Err(ReadInterrupt(v).error)
            else Ok(before.value + [ReadInterrupt(v).value])
  {
    assert (values + [v])[..|values|] == values;
  }

  /** The spelling of these interrupts is read back as they are. */
  ghost predicate ReadBack(interrupts: seq<Interrupt>) {
    ReadInterrupts(InterruptsWire(interrupts)) == Ok(interrupts) && |InterruptsWire(interrupts)| == |interrupts|
  }

  lemma {:induction false} WireOneMore(front: seq<Interrupt>, last: Interrupt)
    ensures InterruptsWire(front + [last]) == InterruptsWire(front) + [Object(InterruptWire(last))]
  {
    assert (front + [last])[..|front|] == front;
  }

  lemma {:induction false} ReadOneMore(front: seq<Interrupt>, last: Interrupt)
    requires ReadBack(front) && FitsInterrupt(last)
    ensures ReadBack(front + [last])
  {
    InterruptRead(last);
    WireOneMore(front, last);
    ReadSnoc(InterruptsWire(front), Object(InterruptWire(last)));
  }

  lemma {:induction false} InterruptsRead(interrupts: seq<Interrupt>)
    requires forall i :: 0 <= i < |interrupts| ==> FitsInterrupt(interrupts[i])
    ensures ReadBack(interrupts)
  {
    if interrupts == [] {
      assert InterruptsWire([]) == [];
    } else {
      var front, last := interrupts[..|interrupts| - 1], interrupts[|interrupts| - 1];
      assert forall i :: 0 <= i < |front| ==> front[i] == interrupts[i];
      InterruptsRead(front);
      assert FitsInterrupt(last);
      ReadOneMore(front, last);
      assert interrupts == front + [last];
    }
  }

  /** What has been read is within its bounds. */
  lemma {:induction false} ReadFits(values: seq<Value>)
    requires ReadInterrupts(values).Ok?
    ensures |ReadInterrupts(values).value| == |values|
    ensures forall i :: 0 <= i < |values| ==> FitsInterrupt(ReadInterrupts(values).value[i])
  {
    if values != [] {
      ReadFits(values[..|values| - 1]);
    }
  }

  lemma {:induction false} OutcomeRead(c: Context, s: State, o: Fields, outcome: Fields, values: seq<Value>)
    requires Get(o, "outcome") == Some(Object(outcome)) && Get(outcome, "type") == Some(Str("interrupt"))
    requires Get(outcome, "interrupts") == Some(Array(values)) && 0 < |values| <= MAX_INTERRUPTS
    requires ReadInterrupts(values).Ok? && CheckRunIdentity(c, o).Ok? && NoOpenStreams(s.view)
    ensures Lifecycle(c, s, TagRunFinished, o) == Emit(c, s, RunInterrupted(ReadInterrupts(values).value))
  {
    assert OutcomeType(Object(outcome)) == Some("interrupt");
  }

  // ---------------------------------------------------------------------------------------------
  // Every admissible event is the meaning of its spelling
  // ---------------------------------------------------------------------------------------------

  ghost predicate Handled(c: Context, s: State, e: Event) {
    Dispatch(c, s, WireTag(c, e), Wire(c, e)) == Emit(c, s, e)
  }

  lemma {:induction false} RunHandled(c: Context, s: State, e: Event)
    requires Admissible(c, s.view, e)
    ensures e.RunStarted? || e.RunFinished? ==> Handled(c, s, e)
  {
    if e.RunStarted? || e.RunFinished? {
      var o := Wire(c, e);
      assert CheckRunIdentity(c, o).Ok?;
      assert Get(o, "outcome") == None;
    }
  }

  lemma {:induction false} InterruptHandled(c: Context, s: State, e: Event)
    requires Admissible(c, s.view, e)
    ensures e.RunInterrupted? ==> Handled(c, s, e)
  {
    if e.RunInterrupted? {
      var rest := RunFields(c, e);
      var o := Typed("RUN_FINISHED", rest);
      var values := InterruptsWire(e.interrupts);
      assert Wire(c, e) == o;
      assert CheckRunIdentity(c, o).Ok?;
      InterruptsRead(e.interrupts);
      OutcomeRead(c, s, o, map["type" := Str("interrupt"), "interrupts" := Array(values)], values);
    }
  }

  lemma {:induction false} ErrorHandled(c: Context, s: State, e: Event)
    requires Idle(s) && Admissible(c, s.view, e)
    ensures e.RunError? ==> Handled(c, s, e)
  {
    if e.RunError? {
      var o := Wire(c, e);
      assert RequiredText(o, "message") == Ok(e.message);
      ReadOptional(o, "code", e.code);
      assert s.(text := None, tool := None, reasoning := None) == s;
    }
  }

  lemma {:induction false} StepHandled(c: Context, s: State, e: Event)
    requires Admissible(c, s.view, e)
    ensures e.StepStarted? || e.StepFinished? ==> Handled(c, s, e)
  {
    if e.StepStarted? || e.StepFinished? {
      ReadId(Wire(c, e), "stepName", e.name);
    }
  }

  lemma {:induction false} TextHandled(c: Context, s: State, e: Event)
    requires Admissible(c, s.view, e)
    ensures IsTextEvent(e) ==> Handled(c, s, e)
  {
    if IsTextEvent(e) {
      var o := Wire(c, e);
      ReadId(o, "messageId", e.id);
      match e
      case TextStarted(_, role, participant) =>
        assert ParseTextRole(Get(o, "role")) == Ok(role);
        ReadOptional(o, "name", participant);
      case TextDelta(_, delta) => assert RequiredText(o, "delta") == Ok(delta);
      case TextEnded(_) =>
    }
  }

  lemma {:induction false} ToolHandled(c: Context, s: State, e: Event)
    requires Admissible(c, s.view, e)
    ensures e.ToolArguments? || e.ToolCompleted? ==> Handled(c, s, e)
  {
    if e.ToolArguments? || e.ToolCompleted? {
      var o := Wire(c, e);
      ReadId(o, "toolCallId", e.id);
      assert e.ToolArguments? ==> RequiredText(o, "delta") == Ok(e.delta);
    }
  }

  lemma {:induction false} ToolStartHandled(c: Context, s: State, e: Event)
    requires Admissible(c, s.view, e)
    ensures e.ToolStarted? ==> Handled(c, s, e)
  {
    if e.ToolStarted? {
      var o := Wire(c, e);
      ReadId(o, "toolCallId", e.id);
      ReadId(o, "toolCallName", e.name);
      ReadOptional(o, "parentMessageId", e.parent);
    }
  }

  lemma {:induction false} ToolResultHandled(c: Context, s: State, e: Event)
    requires Admissible(c, s.view, e)
    ensures e.ToolResult? ==> Handled(c, s, e)
  {
    if e.ToolResult? {
      var o := Wire(c, e);
      ReadId(o, "toolCallId", e.callId);
      ReadId(o, "messageId", e.messageId);
      assert RequiredText(o, "content") == Ok(e.content);
    }
  }

  lemma {:induction false} StateHandled(c: Context, s: State, e: Event)
    requires Admissible(c, s.view, e)
    ensures e.StateSnapshot? || e.StateDelta? ==> Handled(c, s, e)
  {
    if e.StateSnapshot? || e.StateDelta? {
      var o := Wire(c, e);
      assert e.StateSnapshot? ==> RequiredValue(o, "snapshot") == Ok(e.snapshot);
      assert e.StateDelta? ==> PatchArray(c.lib, o, "delta") == Ok(e.patch);
    }
  }

  lemma {:induction false} MessagesHandled(c: Context, s: State, e: Event)
    requires Admissible(c, s.view, e)
    ensures e.MessagesSnapshot? ==> Handled(c, s, e)
  {
    if e.MessagesSnapshot? {
      assert Get(Wire(c, e), "messages") == Some(Array(e.messages));
    }
  }

  lemma {:induction false} OpenHandled(c: Context, s: State, e: Event)
    requires Admissible(c, s.view, e)
    ensures e.Raw? || e.Custom? ==> Handled(c, s, e)
  {
    if e.Raw? || e.Custom? {
      var o := Wire(c, e);
      match e
      case Raw(source, _) => ReadOptional(o, "source", source);
      case Custom(name, _) => ReadId(o, "name", name);
    }
  }

  lemma {:induction false} ActivityHandled(c: Context, s: State, e: Event)
    requires Admissible(c, s.view, e)
    ensures e.ActivitySnapshot? ==> Handled(c, s, e)
  {
    if e.ActivitySnapshot? {
      var o := Wire(c, e);
      ReadId(o, "messageId", e.messageId);
      ReadId(o, "activityType", e.activityType);
      assert OptionalBool(o, "replace") == Ok(Some(e.replace));
    }
  }

  lemma {:induction false} ActivityDeltaHandled(c: Context, s: State, e: Event)
    requires Admissible(c, s.view, e)
    ensures e.ActivityDelta? ==> Handled(c, s, e)
  {
    if e.ActivityDelta? {
      var o := Wire(c, e);
      ReadId(o, "messageId", e.messageId);
      ReadId(o, "activityType", e.activityType);
      assert PatchArray(c.lib, o, "patch") == Ok(e.patch);
    }
  }

  lemma {:induction false} ReasoningHandled(c: Context, s: State, e: Event)
    requires Admissible(c, s.view, e)
    ensures e.ReasoningStarted? || e.ReasoningEnded? ==> Handled(c, s, e)
  {
    if e.ReasoningStarted? || e.ReasoningEnded? {
      var o := Wire(c, e);
      assert Get(o, "title") == None;
      if e.id != ThinkingRunId(c) {
        ReadId(o, "messageId", e.id);
      }
    }
  }

  lemma {:induction false} MessageHandled(c: Context, s: State, e: Event)
    requires Admissible(c, s.view, e)
    ensures e.ReasoningMessageStarted? ==> Handled(c, s, e)
  {
    if e.ReasoningMessageStarted? {
      var o := Wire(c, e);
      if e.id != ThinkingMessageId(c) {
        assert Get(o, "role") == Some(Str("reasoning"));
        ReadId(o, "messageId", e.id);
      }
    }
  }

  lemma {:induction false} MessageEndHandled(c: Context, s: State, e: Event)
    requires Admissible(c, s.view, e)
    ensures e.ReasoningMessageEnded? ==> Handled(c, s, e)
  {
    if e.ReasoningMessageEnded? && e.id != ThinkingMessageId(c) {
      ReadId(Wire(c, e), "messageId", e.id);
    }
  }

  lemma {:induction false} DeltaHandled(c: Context, s: State, e: Event)
    requires Admissible(c, s.view, e)
    ensures e.ReasoningDelta? ==> Handled(c, s, e)
  {
    if e.ReasoningDelta? {
      var o := Wire(c, e);
      assert RequiredText(o, "delta") == Ok(e.delta);
      if e.id != ThinkingMessageId(c) {
        ReadId(o, "messageId", e.id);
      }
    }
  }

  lemma {:induction false} EncryptedRead(c: Context, s: State, o: Fields, subtype: string, entityId: string, value: string)
    requires Get(o, "subtype") == Some(Str(subtype)) && (subtype == "tool-call" || subtype == "message")
    requires Get(o, "entityId") == Some(Str(entityId)) && ValidId(entityId)
    requires Get(o, "encryptedValue") == Some(Str(value)) && ValidId(value)
    ensures Encrypted(c, s, o) == Emit(c, s, ReasoningEncrypted(subtype, entityId, value))
  {
    SubtypeFits(subtype);
    ReadId(o, "subtype", subtype);
    ReadId(o, "entityId", entityId);
    ReadId(o, "encryptedValue", value);
  }

  lemma {:induction false} EncryptedHandled(c: Context, s: State, e: Event)
    requires Admissible(c, s.view, e)
    ensures e.ReasoningEncrypted? ==> Handled(c, s, e)
  {
    if e.ReasoningEncrypted? {
      EncryptedRead(c, s, Wire(c, e), e.subtype, e.entityId, e.encryptedValue);
    }
  }

  lemma {:induction false} SubtypeFits(subtype: string)
    requires subtype == "tool-call" || subtype == "message"
    ensures ValidId(subtype)
  {
    AsciiBytes(subtype);
  }

  lemma {:induction false} AsciiBytes(s: string)
    requires forall i :: 0 <= i < |s| ==> s[i] as int < 0x80
    ensures Bytes(s) == |s|
  {
    if s != [] {
      AsciiBytes(s[..|s| - 1]);
    }
  }

  /** The handler of its family says an admissible event for its spelling. */
  lemma {:induction false} WireHandled(c: Context, s: State, e: Event)
    requires Idle(s) && Admissible(c, s.view, e)
    ensures Handled(c, s, e)
  {
    RunHandled(c, s, e);
    InterruptHandled(c, s, e);
    ErrorHandled(c, s, e);
    StepHandled(c, s, e);
    TextHandled(c, s, e);
    ToolHandled(c, s, e);
    ToolStartHandled(c, s, e);
    ToolResultHandled(c, s, e);
    StateHandled(c, s, e);
    MessagesHandled(c, s, e);
    OpenHandled(c, s, e);
    ActivityHandled(c, s, e);
    ActivityDeltaHandled(c, s, e);
    ReasoningHandled(c, s, e);
    MessageHandled(c, s, e);
    MessageEndHandled(c, s, e);
    DeltaHandled(c, s, e);
    EncryptedHandled(c, s, e);
  }

  /** No shorthand. */
  predicate Plain(o: Fields) {
    TagOf(o).Ok? ==> !IsChunk(TagOf(o).value)
  }

  ghost predicate Says(c: Context, s: State, o: Fields, e: Event) {
    Plain(o) && IngestNext(c, s, o) == Emit(c, s, e)
  }

  lemma {:induction false} TypedTag(name: string, rest: Fields)
    requires name != "" && "timestamp" !in rest
    ensures TagOf(Typed(name, rest)) == Ok(ParseTag(name))
  {
  }

  lemma {:induction false} NoTimestamp(c: Context, e: Event)
    ensures IsRunEvent(e) ==> "timestamp" !in RunFields(c, e)
    ensures IsTextEvent(e) || IsToolEvent(e) ==> "timestamp" !in StreamFields(e)
  {
  }

  lemma {:induction false} NoTimestampEither(e: Event)
    ensures IsProjectionEvent(e) ==> "timestamp" !in ProjectionFields(e)
    ensures "timestamp" !in ReasoningFields(e)
  {
  }

  lemma {:induction false} WireTagged(c: Context, e: Event)
    ensures TagOf(Wire(c, e)) == Ok(WireTag(c, e))
  {
    NameParses(WireTag(c, e));
    NoTimestamp(c, e);
    NoTimestampEither(e);
    TypedTag(NameOf(WireTag(c, e)), WireFields(c, e));
  }

  lemma {:induction false} WireIsPlain(c: Context, e: Event)
    ensures !IsChunk(WireTag(c, e)) && (e.RunStarted? <==> WireTag(c, e).TagRunStarted?)
  {
  }

  /** An admissible event is exactly what its spelling is decoded to. */
  lemma {:induction false} WireSays(c: Context, s: State, e: Event)
    requires Idle(s) && Admissible(c, s.view, e)
    ensures Says(c, s, Wire(c, e), e)
  {
    WireHandled(c, s, e);
    WireTagged(c, e);
    WireIsPlain(c, e);
    IdleIngest(c, s, Wire(c, e), WireTag(c, e));
  }

  // ---------------------------------------------------------------------------------------------
  // Every explicit object that is accepted says an admissible event
  // ---------------------------------------------------------------------------------------------

  /** One event, within its bounds, and nothing else. */
  predicate SaysOne(c: Context, s: State, r: Outcome) {
    r.Ok? ==> |r.value.out| == 1 && r == Emit(c, s, r.value.out[0]) && Fresh(s.view, r.value.out[0]) && Fits(c, r.value.out[0])
  }

  lemma {:induction false} RunEndSaysOne(c: Context, s: State, o: Fields)
    requires c.threadId != "" && c.runId != ""
    ensures SaysOne(c, s, RunEnd(c, s, o))
  {
    var outcome := Get(o, "outcome");
    if RunEnd(c, s, o).Ok? && outcome.Some? && OutcomeType(outcome.value) == Some("interrupt") {
      ReadFits(outcome.value.fields["interrupts"].items);
    }
  }

  lemma {:induction false} BoundarySaysOne(c: Context, s: State, tag: Tag, o: Fields)
    requires tag.TagRunStarted? || tag.TagRunFinished?
    ensures SaysOne(c, s, Lifecycle(c, s, tag, o))
  {
    if CheckRunIdentity(c, o).Ok? {
      RunEndSaysOne(c, s, o);
    }
  }

  lemma {:induction false} LifecycleSaysOne(c: Context, s: State, tag: Tag, o: Fields)
    requires Idle(s)
    ensures SaysOne(c, s, Lifecycle(c, s, tag, o))
  {
    if tag.TagRunStarted? || tag.TagRunFinished? {
      BoundarySaysOne(c, s, tag, o);
    } else {
      assert s.(text := None, tool := None, reasoning := None) == s;
    }
  }

  lemma {:induction false} TextsSayOne(c: Context, s: State, tag: Tag, o: Fields)
    requires !IsChunk(tag)
    ensures SaysOne(c, s, Texts(c, s, tag, o))
  {
  }

  lemma {:induction false} ToolStartSaysOne(c: Context, s: State, o: Fields)
    ensures SaysOne(c, s, ToolStart(c, s, o))
  {
  }

  lemma {:induction false} ToolOpenSaysOne(c: Context, s: State, id: string, o: Fields)
    ensures SaysOne(c, s, ToolArgs(c, s, o)) && (ValidId(id) ==> SaysOne(c, s, FinishTool(c, s, id)))
  {
  }

  lemma {:induction false} ToolResultSaysOne(c: Context, s: State, o: Fields)
    ensures SaysOne(c, s, ToolResultEvent(c, s, o))
  {
  }

  lemma {:induction false} ToolsSayOne(c: Context, s: State, tag: Tag, o: Fields)
    requires !IsChunk(tag)
    ensures SaysOne(c, s, Tools(c, s, tag, o))
  {
    var id := RequiredId(o, "toolCallId");
    ToolStartSaysOne(c, s, o);
    ToolOpenSaysOne(c, s, if id.Ok? then id.value else "", o);
    ToolResultSaysOne(c, s, o);
  }

  lemma {:induction false} StateSaysOne(c: Context, s: State, tag: Tag, o: Fields)
    requires tag.TagStateSnapshot? || tag.TagStateDelta? || tag.TagMessagesSnapshot?
    ensures SaysOne(c, s, Projections(c, s, tag, o))
  {
  }

  lemma {:induction false} ProjectionsSayOne(c: Context, s: State, tag: Tag, o: Fields)
    ensures SaysOne(c, s, Projections(c, s, tag, o))
  {
    if tag.TagStateSnapshot? || tag.TagStateDelta? || tag.TagMessagesSnapshot? {
      StateSaysOne(c, s, tag, o);
    }
  }

  lemma {:induction false} ActivitySaysOne(c: Context, s: State, o: Fields)
    ensures SaysOne(c, s, Activities(c, s, TagActivitySnapshot, o))
  {
  }

  lemma {:induction false} ActivitiesSayOne(c: Context, s: State, tag: Tag, o: Fields)
    ensures SaysOne(c, s, Activities(c, s, tag, o))
  {
    ActivitySaysOne(c, s, o);
  }

  lemma {:induction false} RunSaysOne(c: Context, s: State, id: string)
    requires ValidId(id) || id == ThinkingRunId(c)
    ensures SaysOne(c, s, StartRun(c, s, id)) && SaysOne(c, s, EndRun(c, s, id))
  {
  }

  lemma {:induction false} EncryptedSaysOne(c: Context, s: State, o: Fields)
    ensures SaysOne(c, s, Encrypted(c, s, o))
  {
  }

  lemma {:induction false} ReasoningSaysOne(c: Context, s: State, tag: Tag, o: Fields)
    ensures SaysOne(c, s, ReasoningRuns(c, s, tag, o))
  {
    var id := RequiredId(o, "messageId");
    RunSaysOne(c, s, if id.Ok? then id.value else ThinkingRunId(c));
    RunSaysOne(c, s, ThinkingRunId(c));
    EncryptedSaysOne(c, s, o);
  }

  lemma {:induction false} MessageSaysOne(c: Context, s: State, id: string, o: Fields)
    requires ValidId(id) || id == ThinkingMessageId(c)
    ensures SaysOne(c, s, StartMessage(c, s, id)) && SaysOne(c, s, EndMessage(c, s, id))
    ensures SaysOne(c, s, MessageContent(c, s, id, o))
  {
  }

  lemma {:induction false} MessagesSayOne(c: Context, s: State, tag: Tag, o: Fields)
    requires !IsChunk(tag)
    ensures SaysOne(c, s, ReasoningMessages(c, s, tag, o))
  {
    var id := RequiredId(o, "messageId");
    MessageSaysOne(c, s, if id.Ok? then id.value else ThinkingMessageId(c), o);
    MessageSaysOne(c, s, ThinkingMessageId(c), o);
  }

  lemma {:induction false} DispatchSaysOne(c: Context, s: State, tag: Tag, o: Fields)
    requires Idle(s) && !IsChunk(tag)
    ensures SaysOne(c, s, Dispatch(c, s, tag, o))
  {
    match FamilyOf(tag)
    case LifecycleFamily => LifecycleSaysOne(c, s, tag, o);
    case TextFamily => TextsSayOne(c, s, tag, o);
    case ToolFamily => ToolsSayOne(c, s, tag, o);
    case ProjectionFamily => ProjectionsSayOne(c, s, tag, o);
    case ActivityFamily => ActivitiesSayOne(c, s, tag, o);
    case ReasoningFamily => ReasoningSaysOne(c, s, tag, o);
    case MessageFamily => MessagesSayOne(c, s, tag, o);
  }

  lemma {:induction false} JustifiedOne(lib: Library, v: View, e: Event)
    requires JustifiedAll(lib, v, [e])
    ensures Justified(lib, v, e)
  {
    assert [e][..0] == [];
  }

  /** An accepted object says one admissible event, and its spelling says the same. */
  lemma {:induction false} PlainSays(c: Context, s: State, o: Fields) returns (e: Event)
    requires Idle(s) && Plain(o) && IngestNext(c, s, o).Ok?
    ensures Says(c, s, o, e) && Admissible(c, s.view, e) && Says(c, s, Wire(c, e), e)
  {
    var tag := TagOf(o).value;
    IdleIngest(c, s, o, tag);
    DispatchSaysOne(c, s, tag, o);
    e := IngestNext(c, s, o).value.out[0];
    IngestKept(c, s, o);
    assert IngestNext(c, s, o).value.out == [e];
    JustifiedOne(c.lib, s.view, e);
    WireSays(c, s, e);
  }

  // ---------------------------------------------------------------------------------------------
  // Whole traces
  // ---------------------------------------------------------------------------------------------

  function Told(c: Context, s: State, trace: seq<Event>): State {
    s.(view := AbsorbAll(c.lib, s.view, trace))
  }

  predicate AllPlain(os: seq<Fields>) {
    forall i :: 0 <= i < |os| ==> Plain(os[i])
  }

  lemma {:induction false} WireSnoc(c: Context, front: seq<Event>, e: Event)
    ensures WireAll(c, front + [e]) == WireAll(c, front) + [Wire(c, e)]
  {
  }

  ghost predicate Spelled(c: Context, s: State, os: seq<Fields>, trace: seq<Event>) {
    AllPlain(os) && FeedObjects(c, s, os) == Ok(Step(Told(c, s, trace), trace))
  }

  lemma {:induction false} SpelledStep(c: Context, s: State, os: seq<Fields>, front: seq<Event>, e: Event, o: Fields)
    requires Spelled(c, s, os, front) && Says(c, Told(c, s, front), o, e)
    ensures Spelled(c, s, os + [o], front + [e])
  {
    FeedJoin(c, s, os, [o]);
    FeedOne(c, Told(c, s, front), o);
    assert (front + [e])[..|front|] == front;
  }

  lemma {:induction false} AdmissibleStep(c: Context, s: State, trace: seq<Event>, i: nat)
    requires AdmissibleAll(c, s.view, trace) && i < |trace|
    ensures Admissible(c, Told(c, s, trace[..i]).view, trace[i])
  {
    var front := trace[..|trace| - 1];
    if i < |front| {
      AdmissibleStep(c, s, front, i);
      assert front[..i] == trace[..i];
    }
  }

  lemma {:induction false} WireStep(c: Context, s: State, front: seq<Event>, e: Event)
    requires Idle(s) && Spelled(c, s, WireAll(c, front), front) && Admissible(c, Told(c, s, front).view, e)
    ensures Spelled(c, s, WireAll(c, front + [e]), front + [e])
  {
    WireSays(c, Told(c, s, front), e);
    SpelledStep(c, s, WireAll(c, front), front, e, Wire(c, e));
    WireSnoc(c, front, e);
  }

  lemma {:induction false} SpelledNone(c: Context, s: State)
    ensures Spelled(c, s, WireAll(c, []), [])
  {
    assert WireAll(c, []) == [];
  }

  /** The spelling of an admissible trace is accepted and means that very trace. */
  lemma {:induction false} SnocInduction(p: seq<Event> -> bool, trace: seq<Event>)
    requires p([]) && forall i :: 0 <= i < |trace| && p(trace[..i]) ==> p(trace[..i + 1])
    ensures p(trace)
  {
    for i := 0 to |trace|
      invariant p(trace[..i])
    {
    }
    assert trace[..|trace|] == trace;
  }

  lemma {:induction false} SpellingMeansTrace(c: Context, s: State, trace: seq<Event>)
    requires Idle(s) && AdmissibleAll(c, s.view, trace)
    ensures Spelled(c, s, WireAll(c, trace), trace)
  {
    var p := (t: seq<Event>) => Spelled(c, s, WireAll(c, t), t);
    SpelledNone(c, s);
    forall i | 0 <= i < |trace| && p(trace[..i]) ensures p(trace[..i + 1]) {
      AdmissibleStep(c, s, trace, i);
      WireStep(c, s, trace[..i], trace[i]);
      assert trace[..i + 1] == trace[..i] + [trace[i]];
    }
    SnocInduction(p, trace);
  }

  lemma {:induction false} FeedLast(c: Context, s: State, os: seq<Fields>)
    requires os != []
    ensures var before := FeedObjects(c, s, os[..|os| - 1]);
            FeedObjects(c, s, os) ==
            if before.Err? then before
            else After(before.value.out, IngestNext(c, before.value.state, os[|os| - 1]))
  {
    var n := |os| - 1;
    assert os == os[..n] + [os[n]];
    FeedJoin(c, s, os[..n], [os[n]]);
    var before := FeedObjects(c, s, os[..n]);
    if before.Ok? {
      FeedOne(c, before.value.state, os[n]);
    }
  }

  /** What accepted explicit objects mean is an admissible trace. */
  lemma {:induction false} PlainTrace(c: Context, s: State, os: seq<Fields>)
    requires Idle(s) && AllPlain(os) && FeedObjects(c, s, os).Ok?
    ensures var out := FeedObjects(c, s, os).value.out;
            AdmissibleAll(c, s.view, out) && FeedObjects(c, s, os).value.state == Told(c, s, out)
  {
    if os != [] {
      var n := |os| - 1;
      FeedLast(c, s, os);
      PlainTrace(c, s, os[..n]);
      var before := FeedObjects(c, s, os[..n]).value;
      var e := PlainSays(c, before.state, os[n]);
      var out := before.out + [e];
      assert out[..|out| - 1] == before.out;
    }
  }

  ghost predicate Meant(c: Context, state: Value, os: seq<Fields>, trace: seq<Event>) {
    AllPlain(os) && FeedObjects(c, Start(state), os).Ok? && FeedObjects(c, Start(state), os).value.out == trace
  }

  /** The traces of explicit events are exactly the admissible ones. */
  lemma {:induction false} ExplicitTraces(c: Context, state: Value, trace: seq<Event>)
    ensures AdmissibleAll(c, Initial(state), trace) <==> exists os :: Meant(c, state, os, trace)
  {
    if AdmissibleAll(c, Initial(state), trace) {
      SpellingMeansTrace(c, Start(state), trace);
      assert Meant(c, state, WireAll(c, trace), trace);
    }
    if exists os :: Meant(c, state, os, trace) {
      var os :| Meant(c, state, os, trace);
      PlainTrace(c, Start(state), os);
    }
  }
}
