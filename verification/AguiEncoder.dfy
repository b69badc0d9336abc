/** The conversation part of a run request: every tool answer belongs to the turn that asked. */
module AguiEncoder {
  import opened Json
  import opened Wrappers
  import Spec = AguiSpec
  import Pointer

  datatype MessageRole = System | User | Assistant | Tool

  datatype ToolCall = ToolCall(callId: string, name: string, arguments: Value)

  datatype Message = Message(
    role: MessageRole,
    content: string,
    toolCalls: seq<ToolCall>,
    toolCallId: Option<string>,
    toolName: Option<string>)

  type Pending = map<string, string>

  type Pair = (string, string)

  // ---------------------------------------------------------------------------------------------
  // What the request promises
  // ---------------------------------------------------------------------------------------------

  predicate CallFields(call: ToolCall) {
    Spec.ValidId(call.callId) && Spec.ValidId(call.name) && call.arguments.Object?
  }

  /** The bounds on one message alone. */
  ghost predicate MessageFields(m: Message) {
    && Spec.BoundedString(m.content).Ok?
    && (m.role.Assistant? ==> forall i :: 0 <= i < |m.toolCalls| ==> CallFields(m.toolCalls[i]))
  }

  ghost predicate Fields(ms: seq<Message>) {
    forall i :: 0 <= i < |ms| ==> MessageFields(ms[i])
  }

  function CallPairs(calls: seq<ToolCall>): seq<Pair> {
    seq(|calls|, i requires 0 <= i < |calls| => (calls[i].callId, calls[i].name))
  }

  predicate DistinctIds(calls: seq<ToolCall>) {
    forall i, j :: 0 <= i < j < |calls| ==> calls[i].callId != calls[j].callId
  }

  predicate IsAnswer(m: Message) {
    m.role.Tool? && m.toolCalls == [] && m.toolCallId.Some? && m.toolName.Some?
  }

  predicate AllAnswers(ms: seq<Message>) {
    forall i :: 0 <= i < |ms| ==> IsAnswer(ms[i])
  }

  function AnswerPairs(ms: seq<Message>): seq<Pair>
    requires AllAnswers(ms)
  {
    seq(|ms|, i requires 0 <= i < |ms| => (ms[i].toolCallId.value, ms[i].toolName.value))
  }

  /** The answers are a permutation of the calls, name by name. */
  ghost predicate Answers(calls: seq<ToolCall>, ms: seq<Message>) {
    AllAnswers(ms) && multiset(AnswerPairs(ms)) == multiset(CallPairs(calls))
  }

  /** Each turn that asks for tools is followed at once by exactly their answers, in any order. */
  ghost predicate WellPaired(ms: seq<Message>)
    decreases |ms|
  {
    ms == [] ||
    match ms[0].role
    case Tool => false
    case Assistant =>
      var calls := ms[0].toolCalls;
      var k := |calls|;
      && DistinctIds(calls) && k < |ms| && Answers(calls, ms[1..k + 1])
      && WellPaired(ms[k + 1..])
    case _ => ms[0].toolCalls == [] && WellPaired(ms[1..])
  }

  // ---------------------------------------------------------------------------------------------
  // The encoder's bookkeeping
  // ---------------------------------------------------------------------------------------------

  /** Note the calls of one turn as pending. */
  function Ask(pending: Pending, calls: seq<ToolCall>): Result<Pending, Error> {
    if calls == [] then Ok(pending)
    else
      var before :- Ask(pending, calls[..|calls| - 1]);
      var call := calls[|calls| - 1];
      var _ :- Spec.BoundedId(call.callId);
      var _ :- Spec.BoundedId(call.name);
      if !call.arguments.Object? || call.callId in before then Err(InvalidSequence)
      else Ok(before[call.callId := call.name])
  }

  /** What is pending after one more message. */
  function Next(pending: Pending, m: Message): Result<Pending, Error> {
    var _ :- Spec.BoundedString(m.content);
    match m.role
    case Assistant => if pending != map[] then Err(InvalidSequence) else Ask(pending, m.toolCalls)
    case Tool =>
      if IsAnswer(m) && m.toolCallId.value in pending && pending[m.toolCallId.value] == m.toolName.value
      then Ok(pending - {m.toolCallId.value})
      else Err(InvalidSequence)
    case _ => if pending != map[] || m.toolCalls != [] then Err(InvalidSequence) else Ok(pending)
  }

  function Scan(pending: Pending, ms: seq<Message>): Result<Pending, Error>
    decreases |ms|
  {
    if ms == [] then Ok(pending)
    else
      var next :- Next(pending, ms[0]);
      Scan(next, ms[1..])
  }

  ghost predicate Drains(pending: Pending, ms: seq<Message>) {
    Scan(pending, ms) == Ok(map[])
  }

  function Items(pending: Pending): set<Pair> {
    set id | id in pending :: (id, pending[id])
  }

  lemma {:induction false} InItems(pending: Pending, p: Pair)
    ensures p in Items(pending) <==> p.0 in pending && pending[p.0] == p.1
  {
    assert p == (p.0, p.1);
  }

  function PairsOf(pending: Pending): multiset<Pair> {
    multiset(Items(pending))
  }

  lemma {:induction false} CallPairsSnoc(calls: seq<ToolCall>, call: ToolCall)
    ensures CallPairs(calls + [call]) == CallPairs(calls) + [(call.callId, call.name)]
  {
  }

  lemma {:induction false} PairsAdd(pending: Pending, id: string, name: string)
    requires id !in pending
    ensures PairsOf(pending[id := name]) == PairsOf(pending) + multiset{(id, name)}
  {
    var added := Items(pending) + {(id, name)};
    forall p: Pair ensures p in Items(pending[id := name]) <==> p in added {
      InItems(pending[id := name], p);
      InItems(pending, p);
    }
    InItems(pending, (id, name));
    assert Items(pending[id := name]) == added;
  }

  lemma {:induction false} PairsDrop(pending: Pending, id: string)
    requires id in pending
    ensures PairsOf(pending) == PairsOf(pending - {id}) + multiset{(id, pending[id])}
  {
    var left := pending - {id};
    PairsAdd(left, id, pending[id]);
    assert left[id := pending[id]] == pending;
  }

  lemma {:induction false} DropSize(pending: Pending, id: string)
    requires id in pending
    ensures |pending - {id}| == |pending| - 1
  {
    assert (pending - {id}).Keys == pending.Keys - {id};
  }

  ghost predicate KnowsExactly(pending: Pending, calls: seq<ToolCall>) {
    forall id :: id in pending <==> exists i :: 0 <= i < |calls| && calls[i].callId == id
  }

  /** Asking succeeds exactly on distinct ids within bounds, and then knows just these ids. */
  lemma {:induction false} AskAccepts(calls: seq<ToolCall>)
    ensures Ask(map[], calls).Ok? <==> DistinctIds(calls) && forall i :: 0 <= i < |calls| ==> CallFields(calls[i])
    ensures Ask(map[], calls).Ok? ==> KnowsExactly(Ask(map[], calls).value, calls)
  {
    if calls != [] {
      var front, call := calls[..|calls| - 1], calls[|calls| - 1];
      assert calls == front + [call];
      AskAccepts(front);
    }
  }

  /** Exactly the calls are pending, under their names. */
  lemma {:induction false} AskPairs(calls: seq<ToolCall>)
    requires Ask(map[], calls).Ok?
    ensures PairsOf(Ask(map[], calls).value) == multiset(CallPairs(calls))
  {
    if calls == [] {
      assert CallPairs(calls) == [];
    } else {
      var front, call := calls[..|calls| - 1], calls[|calls| - 1];
      assert calls == front + [call];
      AskPairs(front);
      CallPairsSnoc(front, call);
      PairsAdd(Ask(map[], front).value, call.callId, call.name);
    }
  }

  // ---------------------------------------------------------------------------------------------
  // The bookkeeping accepts exactly the well-paired conversations
  // ---------------------------------------------------------------------------------------------

  /** The front of a conversation answers all that is pending. */
  ghost predicate AnswersFirst(pending: Pending, ms: seq<Message>) {
    var k := |pending|;
    && k <= |ms| && AllAnswers(ms[..k]) && Fields(ms[..k])
    && multiset(AnswerPairs(ms[..k])) == PairsOf(pending)
  }

  function AnswerPair(m: Message): Pair
    requires IsAnswer(m)
  {
    (m.toolCallId.value, m.toolName.value)
  }

  lemma {:induction false} FieldsCons(m: Message, rest: seq<Message>)
    ensures Fields([m] + rest) <==> MessageFields(m) && Fields(rest)
  {
    if Fields([m] + rest) {
      assert ([m] + rest)[0] == m;
      assert forall i :: 0 <= i < |rest| ==> rest[i] == ([m] + rest)[i + 1];
    }
  }

  lemma {:induction false} AnswersCons(m: Message, rest: seq<Message>)
    ensures AllAnswers([m] + rest) <==> IsAnswer(m) && AllAnswers(rest)
    ensures AllAnswers([m] + rest) ==> AnswerPairs([m] + rest) == [AnswerPair(m)] + AnswerPairs(rest)
  {
    if AllAnswers([m] + rest) {
      assert ([m] + rest)[0] == m;
      assert forall i :: 0 <= i < |rest| ==> rest[i] == ([m] + rest)[i + 1];
    }
  }

  /** What remains pending after the answer `m`. */
  lemma {:induction false} NextAnswer(pending: Pending, m: Message)
    requires pending != map[]
    ensures Next(pending, m).Ok? && m.role.Tool? <==> MessageFields(m) && IsAnswer(m) && AnswerPair(m) in Items(pending)
    ensures Next(pending, m).Ok? && m.role.Tool? ==>
              && Next(pending, m).value == pending - {m.toolCallId.value} && |Next(pending, m).value| == |pending| - 1
              && PairsOf(pending) == PairsOf(Next(pending, m).value) + multiset{AnswerPair(m)}
  {
    if IsAnswer(m) {
      InItems(pending, AnswerPair(m));
      if m.toolCallId.value in pending {
        PairsDrop(pending, m.toolCallId.value);
        DropSize(pending, m.toolCallId.value);
      }
    }
  }

  lemma {:induction false} Cancel(a: multiset<Pair>, b: multiset<Pair>, c: multiset<Pair>)
    requires a + c == c + b
    ensures a == b
  {
    forall p: Pair ensures a[p] == b[p] {
      assert (a + c)[p] == a[p] + c[p] && (c + b)[p] == c[p] + b[p];
    }
  }

  /** Answering one call first, and then the others. */
  lemma {:induction false} AnswersFirstStep(pending: Pending, m: Message, ms: seq<Message>)
    requires pending != map[] && |pending| <= |ms| + 1
    ensures AnswersFirst(pending, [m] + ms) <==>
            Next(pending, m).Ok? && m.role.Tool? && AnswersFirst(Next(pending, m).value, ms)
  {
    var k := |pending|;
    var rest := ms[..k - 1];
    assert ([m] + ms)[..k] == [m] + rest;
    FieldsCons(m, rest);
    AnswersCons(m, rest);
    NextAnswer(pending, m);
    if AllAnswers([m] + rest) {
      var pair, pairs := AnswerPair(m), AnswerPairs(rest);
      assert multiset(AnswerPairs([m] + rest)) == multiset{pair} + multiset(pairs);
      if AnswersFirst(pending, [m] + ms) {
        assert pair in PairsOf(pending);
        assert pair in Items(pending);
        var left := PairsOf(Next(pending, m).value);
        assert left + multiset{pair} == multiset{pair} + multiset(pairs);
        Cancel(left, multiset(pairs), multiset{pair});
      }
    }
  }

  lemma {:induction false} NextIsSmaller(pending: Pending, m: Message)
    requires pending != map[] && Next(pending, m).Ok?
    ensures m.role.Tool? && |Next(pending, m).value| == |pending| - 1
  {
    NextAnswer(pending, m);
  }

  /** From pending calls to none: the front answers them all, and the rest stands on its own. */
  lemma {:induction false} DrainMeaning(pending: Pending, ms: seq<Message>)
    ensures Drains(pending, ms) <==> AnswersFirst(pending, ms) && Drains(map[], ms[|pending|..])
    decreases |ms|
  {
    if pending == map[] {
      assert ms[..0] == [] && ms[0..] == ms;
      assert AnswerPairs([]) == [];
      assert Items(pending) == {};
    } else if ms == [] {
    } else {
      var m, rest := ms[0], ms[1..];
      assert ms == [m] + rest;
      var next := Next(pending, m);
      if next.Ok? {
        NextIsSmaller(pending, m);
        DrainMeaning(next.value, rest);
        assert |pending| <= |ms| ==> rest[|next.value|..] == ms[|pending|..];
      }
      if |pending| <= |rest| + 1 {
        AnswersFirstStep(pending, m, rest);
      }
    }
  }

  /**
   * The pairing law: the encoder's bookkeeping accepts a conversation exactly when every message is
   * within its own bounds and every turn with k calls is followed at once by k answers that are a
   * permutation of those calls. Ids may come back in later turns.
   */
  lemma {:induction false} PairingLaw(ms: seq<Message>)
    ensures Drains(map[], ms) <==> Fields(ms) && WellPaired(ms)
    decreases |ms|
  {
    if ms != [] {
      var m, rest := ms[0], ms[1..];
      assert ms == [m] + rest;
      FieldsCons(m, rest);
      match m.role {
        case Assistant => TurnLaw(ms);
        case Tool =>
        case _ => PairingLaw(rest);
      }
    }
  }

  lemma {:induction false} FieldsSplit(ms: seq<Message>, k: nat)
    requires k <= |ms|
    ensures Fields(ms) <==> Fields(ms[..k]) && Fields(ms[k..])
  {
    if Fields(ms[..k]) && Fields(ms[k..]) {
      forall i | 0 <= i < |ms| ensures MessageFields(ms[i]) {
        assert ms[i] == if i < k then ms[..k][i] else ms[k..][i - k];
      }
    }
  }

  lemma {:induction false} PairsSize(calls: seq<ToolCall>)
    requires Ask(map[], calls).Ok?
    ensures |Ask(map[], calls).value| == |calls|
  {
    if calls != [] {
      PairsSize(calls[..|calls| - 1]);
    }
  }

  /** One turn and its answers. */
  lemma {:induction false} TurnMeaning(m: Message, rest: seq<Message>)
    requires m.role.Assistant?
    ensures var k := |m.toolCalls|;
            Drains(map[], [m] + rest) <==>
            MessageFields(m) && DistinctIds(m.toolCalls) && k <= |rest| && Fields(rest[..k])
            && Answers(m.toolCalls, rest[..k]) && Drains(map[], rest[k..])
  {
    var calls := m.toolCalls;
    AskAccepts(calls);
    var asked := Ask(map[], calls);
    assert Next(map[], m) == if Spec.BoundedString(m.content).Ok? then asked else Err(TooLarge);
    assert ([m] + rest)[1..] == rest;
    if asked.Ok? {
      AskPairs(calls);
      PairsSize(calls);
      DrainMeaning(asked.value, rest);
    }
  }

  lemma {:induction false} TurnLaw(ms: seq<Message>)
    requires ms != [] && ms[0].role.Assistant?
    ensures Drains(map[], ms) <==> Fields(ms) && WellPaired(ms)
    decreases |ms|, 0
  {
    var m, rest, k := ms[0], ms[1..], |ms[0].toolCalls|;
    assert ms == [m] + rest;
    FieldsCons(m, rest);
    TurnMeaning(m, rest);
    if k <= |rest| {
      assert rest[..k] == ms[1..k + 1] && rest[k..] == ms[k + 1..];
      FieldsSplit(rest, k);
      PairingLaw(rest[k..]);
    }
  }

  // ---------------------------------------------------------------------------------------------
  // The projected conversation
  // ---------------------------------------------------------------------------------------------

  /** How the JSON library writes a value as text. */
  type Writer = Value -> string

  function ProjectCall(text: Writer, call: ToolCall): Value {
    Object(map[
      "id" := Str(call.callId),
      "type" := Str("function"),
      "function" := Object(map["name" := Str(call.name), "arguments" := Str(text(call.arguments))])])
  }

  function ProjectCalls(text: Writer, calls: seq<ToolCall>): seq<Value> {
    seq(|calls|, i requires 0 <= i < |calls| => ProjectCall(text, calls[i]))
  }

  function MessageId(runId: string, index: nat): string {
    "openbot:" + runId + ":message:" + Pointer.Decimal(index)
  }

  /** The wire form of one accepted message. */
  function Project(text: Writer, runId: string, index: nat, m: Message): Value
    requires m.role.Tool? ==> IsAnswer(m)
  {
    var id := map["id" := Str(MessageId(runId, index))];
    match m.role
    case System => Object(id["role" := Str("system")]["content" := Str(m.content)])
    case User => Object(id["role" := Str("user")]["content" := Str(m.content)])
    case Assistant =>
      var named := id["role" := Str("assistant")];
      var said := if m.content != "" then named["content" := Str(m.content)] else named;
      Object(if m.toolCalls != [] then said["toolCalls" := Array(ProjectCalls(text, m.toolCalls))] else said)
    case Tool =>
      Object(id["role" := Str("tool")]["content" := Str(m.content)]
               ["toolCallId" := Str(m.toolCallId.value)]["name" := Str(m.toolName.value)])
  }

  /** A refused call refuses the whole turn. */
  lemma {:induction false} AskStops(calls: seq<ToolCall>, n: nat)
    requires n <= |calls| && Ask(map[], calls[..n]).Err?
    ensures Ask(map[], calls) == Ask(map[], calls[..n])
    decreases |calls|
  {
    if n < |calls| {
      assert calls[..|calls| - 1][..n] == calls[..n];
      AskStops(calls[..|calls| - 1], n);
    } else {
      assert calls[..n] == calls;
    }
  }

  lemma {:induction false} ProjectCallsSnoc(text: Writer, calls: seq<ToolCall>, n: nat)
    requires n < |calls|
    ensures ProjectCalls(text, calls[..n + 1]) == ProjectCalls(text, calls[..n]) + [ProjectCall(text, calls[n])]
  {
  }

  /** Put the calls of one turn on the wire and note them as pending. */
  method EncodeCalls(text: Writer, calls: seq<ToolCall>) returns (r: Result<(Pending, seq<Value>), Error>)
    ensures Ask(map[], calls) == if r.Ok? then Ok(r.value.0) else Err(r.error)
    ensures r.Ok? ==> r.value.1 == ProjectCalls(text, calls)
  {
    var pending: Pending := map[];
    var out: seq<Value> := [];
    for i := 0 to |calls|
      invariant Ask(map[], calls[..i]) == Ok(pending)
      invariant out == ProjectCalls(text, calls[..i])
    {
      var call := calls[i];
      assert calls[..i + 1][..i] == calls[..i];
      if Ask(map[], calls[..i + 1]).Err? {
        AskStops(calls, i + 1);
      }
      var _ :- Spec.BoundedId(call.callId);
      var _ :- Spec.BoundedId(call.name);
      if !call.arguments.Object? || call.callId in pending {
        return Err(InvalidSequence);
      }
      pending := pending[call.callId := call.name];
      ProjectCallsSnoc(text, calls, i);
      out := out + [ProjectCall(text, call)];
    }
    assert calls[..|calls|] == calls;
    return Ok((pending, out));
  }

  /** One message: its wire form, and what is pending after it. */
  method EncodeMessage(text: Writer, runId: string, index: nat, m: Message, pending: Pending)
    returns (r: Result<(Pending, Value), Error>)
    ensures Next(pending, m) == if r.Ok? then Ok(r.value.0) else Err(r.error)
    ensures r.Ok? ==> (m.role.Tool? ==> IsAnswer(m)) && r.value.1 == Project(text, runId, index, m)
  {
    var _ :- Spec.BoundedString(m.content);
    var projected := map["id" := Str(MessageId(runId, index))];
    match m.role
    case System | User =>
      if pending != map[] || m.toolCalls != [] {
        return Err(InvalidSequence);
      }
      projected := projected["role" := Str(if m.role.System? then "system" else "user")];
      projected := projected["content" := Str(m.content)];
      r := Ok((pending, Object(projected)));
    case Assistant =>
      if pending != map[] {
        return Err(InvalidSequence);
      }
      projected := projected["role" := Str("assistant")];
      if m.content != "" {
        projected := projected["content" := Str(m.content)];
      }
      var asked := pending;
      if m.toolCalls != [] {
        var calls :- EncodeCalls(text, m.toolCalls);
        asked := calls.0;
        projected := projected["toolCalls" := Array(calls.1)];
      }
      r := Ok((asked, Object(projected)));
    case Tool =>
      if m.toolCallId.None? || m.toolName.None? {
        return Err(InvalidSequence);
      }
      var id, name := m.toolCallId.value, m.toolName.value;
      if m.toolCalls != [] || id !in pending || pending[id] != name {
        return Err(InvalidSequence);
      }
      projected := projected["role" := Str("tool")];
      projected := projected["content" := Str(m.content)];
      projected := projected["toolCallId" := Str(id)];
      projected := projected["name" := Str(name)];
      r := Ok((pending - {id}, Object(projected)));
  }

  /** The whole conversation: accepted exactly when it is well paired, and then kept in order. */
  method EncodeMessages(text: Writer, runId: string, ms: seq<Message>) returns (r: Result<seq<Value>, Error>)
    ensures r.Ok? <==> Fields(ms) && WellPaired(ms)
    ensures r.Ok? ==>
              |r.value| == |ms| && forall i :: 0 <= i < |ms| ==>
                                   (ms[i].role.Tool? ==> IsAnswer(ms[i])) && r.value[i] == Project(text, runId, i, ms[i])
  {
    var pending: Pending := map[];
    var projected: seq<Value> := [];
    PairingLaw(ms);
    for i := 0 to |ms|
      invariant Scan(map[], ms) == Scan(pending, ms[i..])
      invariant |projected| == i
      invariant forall k :: 0 <= k < i ==>
                  (ms[k].role.Tool? ==> IsAnswer(ms[k])) && projected[k] == Project(text, runId, k, ms[k])
    {
      assert ms[i..][0] == ms[i] && ms[i..][1..] == ms[i + 1..];
      var next :- EncodeMessage(text, runId, i, ms[i], pending);
      pending := next.0;
      projected := projected + [next.1];
    }
    if pending != map[] {
      return Err(InvalidSequence);
    }
    return Ok(projected);
  }

  // ---------------------------------------------------------------------------------------------
  // Nothing is lost on the wire
  // ---------------------------------------------------------------------------------------------

  function Text(v: Value, field: string): string {
    if v.Object? && field in v.fields && v.fields[field].Str? then v.fields[field].s else ""
  }

  function List(v: Value, field: string): seq<Value> {
    if v.Object? && field in v.fields && v.fields[field].Array? then v.fields[field].items else []
  }

  function Inner(v: Value, field: string): Value {
    if v.Object? && field in v.fields then v.fields[field] else Null
  }

  function ReadCall(lib: Library, v: Value): ToolCall {
    var inner := Inner(v, "function");
    var arguments := lib.parse(Text(inner, "arguments"));
    ToolCall(Text(v, "id"), Text(inner, "name"), if arguments.Some? then arguments.value else Null)
  }

  function ReadCalls(lib: Library, vs: seq<Value>): seq<ToolCall> {
    seq(|vs|, i requires 0 <= i < |vs| => ReadCall(lib, vs[i]))
  }

  /** What a receiver makes of one wire message. */
  function ReadMessage(lib: Library, v: Value): Message {
    var role, content := Text(v, "role"), Text(v, "content");
    if role == "tool" then Message(Tool, content, [], Some(Text(v, "toolCallId")), Some(Text(v, "name")))
    else if role == "assistant" then Message(Assistant, content, ReadCalls(lib, List(v, "toolCalls")), None, None)
    else Message(if role == "system" then System else User, content, [], None, None)
  }

  /** A message without the fields its role does not use. */
  function Canonical(m: Message): Message {
    if m.role.Tool? then m else m.(toolCallId := None, toolName := None)
  }

  lemma {:induction false} CallsReadBack(lib: Library, text: Writer, calls: seq<ToolCall>)
    requires forall v :: lib.parse(text(v)) == Some(v)
    ensures ReadCalls(lib, ProjectCalls(text, calls)) == calls
  {
    forall i | 0 <= i < |calls| ensures ReadCall(lib, ProjectCall(text, calls[i])) == calls[i] {
      assert lib.parse(text(calls[i].arguments)) == Some(calls[i].arguments);
    }
  }

  /** A receiver reads back the very message that was sent, arguments included. */
  lemma {:induction false} MessageReadBack(lib: Library, text: Writer, runId: string, index: nat, pending: Pending, m: Message)
    requires forall v :: lib.parse(text(v)) == Some(v)
    requires Next(pending, m).Ok?
    ensures ReadMessage(lib, Project(text, runId, index, m)) == Canonical(m)
  {
    CallsReadBack(lib, text, m.toolCalls);
  }

  /** No two messages of one request share an id. */
  lemma {:induction false} MessageIdsDiffer(runId: string, i: nat, j: nat)
    requires i != j
    ensures MessageId(runId, i) != MessageId(runId, j)
  {
    Pointer.DecimalValue(i);
    Pointer.DecimalValue(j);
    var prefix := "openbot:" + runId + ":message:";
    assert MessageId(runId, i)[|prefix|..] == Pointer.Decimal(i);
    assert MessageId(runId, j)[|prefix|..] == Pointer.Decimal(j);
  }
}
