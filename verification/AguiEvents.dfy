/** Normalized AG-UI events, and what a consumer of nothing but these events would know. */
module AguiEvents {
  import opened Json
  import opened Wrappers
  import Patch

  datatype Role = Developer | System | Assistant | User

  datatype Interrupt = Interrupt(
    id: string,
    reason: string,
    message: Option<string>,
    toolCallId: Option<string>,
    responseSchema: Option<Value>,
    expiresAt: Option<string>,
    metadata: Option<Value>)

  datatype Event =
    | RunStarted
    | RunFinished
    | RunInterrupted(interrupts: seq<Interrupt>)
    | RunError(message: string, code: Option<string>)
    | StepStarted(name: string)
    | StepFinished(name: string)
    | TextStarted(id: string, role: Role, participant: Option<string>)
    | TextDelta(id: string, delta: string)
    | TextEnded(id: string)
    | ToolStarted(id: string, name: string, parent: Option<string>)
    | ToolArguments(id: string, delta: string)
    | ToolCompleted(id: string, name: string, arguments: Value)
    | ToolResult(messageId: string, callId: string, content: string)
    | StateSnapshot(snapshot: Value)
    | StateDelta(patch: seq<Value>)
    | MessagesSnapshot(messages: seq<Value>)
    | ActivitySnapshot(messageId: string, activityType: string, activity: Value, replace: bool)
    | ActivityDelta(messageId: string, activityType: string, patch: seq<Value>)
    | ReasoningStarted(id: string)
    | ReasoningMessageStarted(id: string)
    | ReasoningDelta(id: string, delta: string)
    | ReasoningMessageEnded(id: string)
    | ReasoningEnded(id: string)
    | ReasoningEncrypted(subtype: string, entityId: string, encryptedValue: string)
    | Raw(source: Option<string>, event: Value)
    | Custom(name: string, value: Value)

  datatype Tool = Tool(name: string, arguments: string, ended: bool)

  datatype Activity = Activity(activityType: string, content: Value)

  datatype View = View(
    started: bool,
    terminal: bool,
    openText: map<string, Role>,
    tools: map<string, Tool>,
    openSteps: set<string>,
    reasoningRuns: set<string>,
    reasoningMessages: set<string>,
    state: Value,
    activities: map<string, Activity>,
    messages: seq<Value>)

  function Initial(state: Value): View {
    View(false, false, map[], map[], {}, {}, {}, state, map[], [])
  }

  predicate IsTerminal(e: Event) {
    e.RunFinished? || e.RunInterrupted? || e.RunError?
  }

  function PatchOr(lib: Library, v: Value, patch: seq<Value>): Value {
    var r := Patch.PatchResult(lib, v, patch);
    if r.Ok? then r.value else v
  }

  /** What one event adds to the knowledge of its consumer. */
  function Absorb(lib: Library, v: View, e: Event): View {
    match e
    case RunStarted => v.(started := true)
    case RunFinished => v.(terminal := true)
    case RunInterrupted(_) => v.(terminal := true)
    case RunError(_, _) =>
      v.(terminal := true, openText := map[], tools := map[], openSteps := {}, reasoningRuns := {}, reasoningMessages := {})
    case StepStarted(name) => v.(openSteps := v.openSteps + {name})
    case StepFinished(name) => v.(openSteps := v.openSteps - {name})
    case TextStarted(id, role, _) => v.(openText := v.openText[id := role])
    case TextEnded(id) => v.(openText := v.openText - {id})
    case ToolStarted(id, name, _) => v.(tools := v.tools[id := Tool(name, "", false)])
    case ToolArguments(id, delta) =>
      if id in v.tools then v.(tools := v.tools[id := v.tools[id].(arguments := v.tools[id].arguments + delta)]) else v
    case ToolCompleted(id, _, _) =>
      if id in v.tools then v.(tools := v.tools[id := v.tools[id].(ended := true)]) else v
    case StateSnapshot(snapshot) => v.(state := snapshot)
    case StateDelta(patch) => v.(state := PatchOr(lib, v.state, patch))
    case MessagesSnapshot(messages) => v.(messages := messages)
    case ActivitySnapshot(id, kind, content, replace) =>
      if replace || id !in v.activities then v.(activities := v.activities[id := Activity(kind, content)]) else v
    case ActivityDelta(id, _, patch) =>
      if id in v.activities
      then v.(activities := v.activities[id := v.activities[id].(content := PatchOr(lib, v.activities[id].content, patch))])
      else v
    case ReasoningStarted(id) => v.(reasoningRuns := v.reasoningRuns + {id})
    case ReasoningEnded(id) => v.(reasoningRuns := v.reasoningRuns - {id})
    case ReasoningMessageStarted(id) => v.(reasoningMessages := v.reasoningMessages + {id})
    case ReasoningMessageEnded(id) => v.(reasoningMessages := v.reasoningMessages - {id})
    case _ => v
  }

  function AbsorbAll(lib: Library, v: View, trace: seq<Event>): View {
    if trace == [] then v else Absorb(lib, AbsorbAll(lib, v, trace[..|trace| - 1]), trace[|trace| - 1])
  }

  lemma {:induction false} AbsorbJoin(lib: Library, v: View, a: seq<Event>, b: seq<Event>)
    ensures AbsorbAll(lib, v, a + b) == AbsorbAll(lib, AbsorbAll(lib, v, a), b)
  {
    if b == [] {
      assert a + b == a;
    } else {
      AbsorbJoin(lib, v, a, b[..|b| - 1]);
      assert (a + b)[..|a + b| - 1] == a + b[..|b| - 1];
    }
  }

  // ---------------------------------------------------------------------------------------------
  // What the accumulated sets mean, in terms of positions in the trace
  // ---------------------------------------------------------------------------------------------

  /** The kinds of brackets a stream can open and close. */
  datatype Kind = TextKind | StepKind | RunKind | MessageKind | ToolKind

  function Opens(e: Event): Option<(Kind, string)> {
    match e
    case TextStarted(id, _, _) => Some((TextKind, id))
    case StepStarted(name) => Some((StepKind, name))
    case ReasoningStarted(id) => Some((RunKind, id))
    case ReasoningMessageStarted(id) => Some((MessageKind, id))
    case ToolStarted(id, _, _) => Some((ToolKind, id))
    case _ => None
  }

  function Closes(e: Event): Option<(Kind, string)> {
    match e
    case TextEnded(id) => Some((TextKind, id))
    case StepFinished(name) => Some((StepKind, name))
    case ReasoningEnded(id) => Some((RunKind, id))
    case ReasoningMessageEnded(id) => Some((MessageKind, id))
    case ToolCompleted(id, _, _) => Some((ToolKind, id))
    case _ => None
  }

  predicate IsOpen(v: View, k: Kind, id: string) {
    match k
    case TextKind => id in v.openText
    case StepKind => id in v.openSteps
    case RunKind => id in v.reasoningRuns
    case MessageKind => id in v.reasoningMessages
    case ToolKind => id in v.tools && !v.tools[id].ended
  }

  /** The last bracket event of this id is its start, and no error came after it. */
  ghost predicate LastIsStart(trace: seq<Event>, k: Kind, id: string) {
    exists i :: 0 <= i < |trace| && Opens(trace[i]) == Some((k, id)) && NoneAfter(trace, i, k, id)
  }

  ghost predicate NoneAfter(trace: seq<Event>, i: int, k: Kind, id: string) {
    forall j :: i < j < |trace| && 0 <= j ==>
      !trace[j].RunError? && Closes(trace[j]) != Some((k, id)) && Opens(trace[j]) != Some((k, id))
  }

  lemma {:induction false} AbsorbToolBracket(lib: Library, v: View, e: Event, id: string)
    ensures IsOpen(Absorb(lib, v, e), ToolKind, id) <==>
            Opens(e) == Some((ToolKind, id)) || (IsOpen(v, ToolKind, id) && Closes(e) != Some((ToolKind, id)) && !e.RunError?)
  {
  }

  lemma {:induction false} AbsorbStreamBracket(lib: Library, v: View, e: Event, k: Kind, id: string)
    requires k.TextKind? || k.StepKind?
    ensures IsOpen(Absorb(lib, v, e), k, id) <==>
            Opens(e) == Some((k, id)) || (IsOpen(v, k, id) && Closes(e) != Some((k, id)) && !e.RunError?)
  {
  }

  lemma {:induction false} AbsorbReasoningBracket(lib: Library, v: View, e: Event, k: Kind, id: string)
    requires k.RunKind? || k.MessageKind?
    ensures IsOpen(Absorb(lib, v, e), k, id) <==>
            Opens(e) == Some((k, id)) || (IsOpen(v, k, id) && Closes(e) != Some((k, id)) && !e.RunError?)
  {
  }

  lemma {:induction false} AbsorbBracket(lib: Library, v: View, e: Event, k: Kind, id: string)
    ensures IsOpen(Absorb(lib, v, e), k, id) <==>
            Opens(e) == Some((k, id)) || (IsOpen(v, k, id) && Closes(e) != Some((k, id)) && !e.RunError?)
  {
    match k
    case ToolKind => AbsorbToolBracket(lib, v, e, id);
    case TextKind => AbsorbStreamBracket(lib, v, e, k, id);
    case StepKind => AbsorbStreamBracket(lib, v, e, k, id);
    case RunKind => AbsorbReasoningBracket(lib, v, e, k, id);
    case MessageKind => AbsorbReasoningBracket(lib, v, e, k, id);
  }

  lemma {:induction false} LastIsStartStep(trace: seq<Event>, k: Kind, id: string)
    requires trace != []
    ensures var front, e := trace[..|trace| - 1], trace[|trace| - 1];
            LastIsStart(trace, k, id) <==>
            Opens(e) == Some((k, id)) || (LastIsStart(front, k, id) && Closes(e) != Some((k, id)) && !e.RunError?)
  {
    var front, e := trace[..|trace| - 1], trace[|trace| - 1];
    if LastIsStart(trace, k, id) {
      var i :| 0 <= i < |trace| && Opens(trace[i]) == Some((k, id)) && NoneAfter(trace, i, k, id);
      if i < |front| {
        assert front[i] == trace[i] && NoneAfter(front, i, k, id);
      }
    }
    if Opens(e) == Some((k, id)) {
      assert NoneAfter(trace, |trace| - 1, k, id);
    } else if LastIsStart(front, k, id) && Closes(e) != Some((k, id)) && !e.RunError? {
      var i :| 0 <= i < |front| && Opens(front[i]) == Some((k, id)) && NoneAfter(front, i, k, id);
      assert trace[i] == front[i] && NoneAfter(trace, i, k, id);
    }
  }

  /** The open sets are exactly the ids whose last bracket event is a start. */
  lemma {:induction false} OpenMeansLastIsStart(lib: Library, state: Value, trace: seq<Event>, k: Kind, id: string)
    ensures IsOpen(AbsorbAll(lib, Initial(state), trace), k, id) <==> LastIsStart(trace, k, id)
  {
    if trace != [] {
      var front := trace[..|trace| - 1];
      OpenMeansLastIsStart(lib, state, front, k, id);
      AbsorbBracket(lib, AbsorbAll(lib, Initial(state), front), trace[|trace| - 1], k, id);
      LastIsStartStep(trace, k, id);
    }
  }

  function Fragment(e: Event, id: string): string {
    if e.ToolArguments? && e.id == id then e.delta else ""
  }

  /** The argument fragments of one call, joined. */
  function Arguments(trace: seq<Event>, id: string): string {
    if trace == [] then ""
    else Arguments(trace[..|trace| - 1], id) + Fragment(trace[|trace| - 1], id)
  }

  predicate Starts(e: Event, id: string) {
    e.ToolStarted? && e.id == id
  }

  /** `text` is everything appended to the call since its last start, at position `i`. */
  ghost predicate ArgumentsSince(trace: seq<Event>, i: int, id: string, name: string, text: string) {
    && 0 <= i < |trace| && Starts(trace[i], id) && trace[i].name == name
    && (forall j :: i < j < |trace| ==> !Starts(trace[j], id) && !trace[j].RunError?)
    && text == Arguments(trace[i + 1..], id)
  }

  lemma {:induction false} AbsorbTool(lib: Library, v: View, e: Event, id: string)
    requires id in Absorb(lib, v, e).tools && !Starts(e, id)
    ensures !e.RunError? && id in v.tools
    ensures var before, after := v.tools[id], Absorb(lib, v, e).tools[id];
            before.name == after.name && after.arguments == before.arguments + Fragment(e, id)
  {
    assert id in v.tools;
    var before := v.tools[id].arguments;
    assert before + "" == before;
  }

  lemma {:induction false} ArgumentsSinceStep(front: seq<Event>, e: Event, i: int, id: string, name: string, text: string)
    requires ArgumentsSince(front, i, id, name, text) && !Starts(e, id) && !e.RunError?
    ensures ArgumentsSince(front + [e], i, id, name, text + Fragment(e, id))
  {
    var trace := front + [e];
    var tail := trace[i + 1..];
    assert tail[..|tail| - 1] == front[i + 1..] && tail[|tail| - 1] == e;
    forall j | i < j < |trace| ensures !Starts(trace[j], id) && !trace[j].RunError? {
      assert j < |front| ==> trace[j] == front[j];
    }
  }

  /** A known call was started, and its text is what has arrived since its last start. */
  lemma {:induction false} ToolMeansArguments(lib: Library, state: Value, trace: seq<Event>, id: string) returns (i: int)
    requires id in AbsorbAll(lib, Initial(state), trace).tools
    ensures var tool := AbsorbAll(lib, Initial(state), trace).tools[id];
            ArgumentsSince(trace, i, id, tool.name, tool.arguments)
  {
    var n := |trace| - 1;
    var front, e := trace[..n], trace[n];
    assert trace == front + [e];
    var before := AbsorbAll(lib, Initial(state), front);
    if Starts(e, id) {
      i := n;
      assert trace[n + 1..] == [];
    } else {
      AbsorbTool(lib, before, e, id);
      i := ToolMeansArguments(lib, state, front, id);
      ArgumentsSinceStep(front, e, i, id, before.tools[id].name, before.tools[id].arguments);
    }
  }
}
