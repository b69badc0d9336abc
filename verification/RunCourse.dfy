/** What happens to a run: what wakes its samplings, what its tools reply, and what the journal is owed for it. */
module RunCourse {
  import opened Json
  import opened Wrappers
  import opened Agent = AgentReducer
  import opened DurableRun
  import opened RunBinding
  import Chunk

  // ---------------------------------------------------------------------------------------------
  // What the world says
  // ---------------------------------------------------------------------------------------------

  datatype CancellationSource = User | Deadline

  datatype Usage = Usage(input: nat, output: nat, total: nat)

  type Utf8Text = text: Text | Chunk.Utf8(text) witness []

  const U32_MAX: nat := 0xFFFF_FFFF
  const U64_MAX: nat := 0xFFFF_FFFF_FFFF_FFFF

  type u32 = n: nat | n <= U32_MAX

  datatype StreamFailure =
    | Authentication | RateLimited | ServerUnavailable | Transport | InvalidResponse | StreamStalled | GenerationFailed

  datatype PortError = InvalidRequest | PortUnavailable | PortCommitUnknown

  datatype ProviderEvent =
    | Noted
    | TextDelta(text: Utf8Text)
    | ReasoningDelta(text: Utf8Text)
    | ToolCallCompleted(index: u32, call: ToolCall)
    | RemoteProjection(projection: Value)
    | UsageReported(usage: Usage)
    | Interrupted(protocolRunId: string)
    | Completed
    | Failing(failure: StreamFailure)

  /** What wakes the sampling loop. */
  datatype Wake =
    | Stop(source: CancellationSource, audited: bool)
    | Renewed
    | Expired
    | ChunkTimer
    | Next(event: ProviderEvent)
    | StreamOver
    | StreamBroken(error: PortError)

  /** A tool call that has begun. Whether it had an effect is unknown until it is answered. */
  datatype Invocation = Invocation(call: ToolCall, human: bool)

  datatype Control = Proceed | Cancel(source: CancellationSource) | LostLease

  datatype ToolOutcome = Reply(content: string) | ReconciliationRequired | ToolUnavailable

  /** What the world answers while one call is invoked by itself. */
  datatype SerialAnswers = SerialAnswers(
    first: Control, budget: bool, outcome: ToolOutcome, second: Control, audited: bool)

  datatype ContextError = Stale | ToolHistoryUnsupported | ContextUnavailable | ContextCorrupt | ContextTooLarge

  datatype InterruptError = StaleInterrupt | InterruptUnknown | CoordinatorUnavailable | InterruptConflict | InterruptCorrupt

  function StreamReason(f: StreamFailure): Failure {
    match f
    case Authentication => ProviderAuthentication
    case RateLimited => ProviderRateLimited
    case ServerUnavailable | Transport => ProviderUnavailable
    case InvalidResponse => ProviderInvalidResponse
    case StreamStalled => ProviderStreamStalled
    case GenerationFailed => ProviderGenerationFailed
  }

  function PortReason(e: PortError): Failure {
    match e
    case InvalidRequest => ProviderInvalidResponse
    case PortUnavailable => ProviderUnavailable
    case PortCommitUnknown => ProviderCommitUnknown
  }

  function ContextReason(e: ContextError): Failure {
    match e
    case Stale => RuntimeLeaseLost
    case ToolHistoryUnsupported => ToolLoopUnavailable
    case _ => ProviderInvalidResponse
  }

  // ---------------------------------------------------------------------------------------------
  // What can end a run
  // ---------------------------------------------------------------------------------------------

  /** The last thing the world has said to a run. */
  datatype News =
    | Silence
    | Activation(audited: bool)
    | Loading(control: Control, request: Result<Request, ContextError>, refusal: Option<Failure>, audited: bool)
    | Opening(control: Control, session: Result<(), PortError>, audited: bool)
    | Waking(wake: Wake)
    | Deciding(control: Control, resume: Result<Resume, InterruptError>, audited: bool)
    | Invoking(human: bool, answers: SerialAnswers)
    | Turning(control: Control, panicked: bool, audited: bool)
    | Resulting(outcome: ToolOutcome)
    | Appending(valid: bool)

  /** A cancelled run says that its children have stopped, unless the deadline that stops it cannot be audited. */
  function StopFact(source: CancellationSource, audited: bool): Agent.Event {
    if source.Deadline? && !audited then JournalCommitUnknown else ChildrenStopped
  }

  /** The caller cancels the run, or its lease is lost. */
  predicate ControlEnds(control: Control, audited: bool, e: Agent.Event) {
    match control
    case Proceed => false
    case Cancel(source) => e == StopFact(source, audited)
    case LostLease => e == LeaseLost
  }

  /** The journal did not take something. */
  predicate JournalEnds(e: Agent.Event) {
    e == LeaseLost || e == JournalCommitUnknown
  }

  /** A result that is no reply. */
  predicate OutcomeEnds(outcome: ToolOutcome, e: Agent.Event) {
    match outcome
    case Reply(_) => false
    case ReconciliationRequired => e == JournalCommitUnknown
    case ToolUnavailable => e == ToolRuntimeUnavailable
  }

  predicate SerialEnds(human: bool, a: SerialAnswers, e: Agent.Event) {
    if !a.first.Proceed? then ControlEnds(a.first, a.audited, e)
    else if !a.budget then e == ToolRuntimeUnavailable
    else match a.second
      case Proceed => OutcomeEnds(a.outcome, e)
      case Cancel(source) => if human then e == StopFact(source, a.audited) else e == JournalCommitUnknown
      case LostLease => e == LeaseLost
  }

  predicate EventEnds(event: ProviderEvent, e: Agent.Event) {
    match event
    case Noted => false
    case TextDelta(_) => JournalEnds(e)
    case ReasoningDelta(text) => if text == [] then e == ProviderReasoningDelta([]) else JournalEnds(e)
    case RemoteProjection(_) => JournalEnds(e)
    case ToolCallCompleted(_, _) => e == Agent.ProviderFailed(ProviderInvalidResponse)
    case Interrupted(_) => e == Agent.ProviderFailed(ProviderInvalidResponse)
    case Completed => e == ProviderCompleted || e == Agent.ProviderFailed(ProviderInvalidResponse) || e.ProviderToolCalls?
    case Failing(f) => e == Agent.ProviderFailed(StreamReason(f)) || (f.StreamStalled? && e == JournalCommitUnknown)
    case UsageReported(_) =>
      || JournalEnds(e)
      || (e.ProviderFailed? && (e.failure.ProviderInvalidResponse? || e.failure.ProviderTokenBudgetExceeded?
                                || e.failure.RunTokenBudgetExceeded? || e.failure.RunCostBudgetExceeded?))
  }

  predicate WakeEnds(wake: Wake, e: Agent.Event) {
    match wake
    case Stop(source, audited) => e == StopFact(source, audited)
    case Renewed => false
    case Expired => e == LeaseLost
    case ChunkTimer => JournalEnds(e)
    case Next(event) => EventEnds(event, e)
    case StreamOver => e == Agent.ProviderFailed(ProviderInvalidResponse)
    case StreamBroken(error) => e == Agent.ProviderFailed(PortReason(error))
  }

  /** A request that cannot be loaded, or that what earlier samplings fixed does not admit. */
  predicate LoadEnds(request: Result<Request, ContextError>, refusal: Option<Failure>, e: Agent.Event) {
    if request.Err? then e == ContextFailed(ContextReason(request.error))
    else refusal.Some? && (e == ContextFailed(refusal.value) || (CostFailure(refusal.value) && e == JournalCommitUnknown))
  }

  /** Why a loaded request is not admitted. */
  function RefusalOf(lease: Lease, b: Bindings, request: Result<Request, ContextError>): Option<Failure> {
    if request.Err? then None
    else
      var bound := Bind(lease, b, request.value);
      if bound.Err? then Some(bound.error.failure) else None
  }

  predicate CostFailure(f: Failure) {
    f.RunCostBudgetUnpriced? || f.RunCostBudgetCurrencyMismatch?
  }

  /** The coordinator has no answer, or one for another run. */
  predicate ResumeEnds(resume: Result<Resume, InterruptError>, e: Agent.Event) {
    match resume
    case Err(StaleInterrupt) => e == LeaseLost
    case Err(InterruptUnknown) => e == JournalCommitUnknown
    case Err(CoordinatorUnavailable) => e == RemoteResumeFailed(ProviderUnavailable)
    case _ => e == RemoteResumeFailed(ProviderInvalidResponse)
  }

  /** The news is why the reducer was told this fact, and so why the run has ended. */
  predicate Explains(news: News, e: Agent.Event) {
    match news
    case Silence => false
    case Activation(audited) => !audited && e == JournalCommitUnknown
    case Loading(control, request, refusal, audited) =>
      if control.Proceed? then LoadEnds(request, refusal, e) else ControlEnds(control, audited, e)
    case Opening(control, session, audited) =>
      if control.Proceed? then session.Err? && e == Agent.ProviderFailed(PortReason(session.error))
      else ControlEnds(control, audited, e)
    case Waking(wake) => WakeEnds(wake, e)
    case Deciding(control, resume, audited) =>
      if control.Proceed? then ResumeEnds(resume, e) else ControlEnds(control, audited, e)
    case Invoking(human, answers) => SerialEnds(human, answers, e)
    case Turning(control, panicked, audited) =>
      || ControlEnds(control, audited, e)
      || (e == JournalCommitUnknown && (control.Cancel? || (control.Proceed? && panicked)))
    case Resulting(outcome) => OutcomeEnds(outcome, e)
    case Appending(_) => JournalEnds(e)
  }

  // ---------------------------------------------------------------------------------------------
  // The history of a run, and what the journal is owed for it
  // ---------------------------------------------------------------------------------------------

  datatype Happening = Woke(wake: Wake) | Replied(exchange: Exchange)

  /** What one happening is worth in the journal; a text with a NUL is refused whole. */
  function Worth(h: Happening): seq<Item> {
    match h
    case Replied(x) => [Whole(Exchanged(x))]
    case Woke(Next(TextDelta(text))) => if 0 in text then [] else Tag(TextChannel, text)
    case Woke(Next(ReasoningDelta(text))) => if 0 in text then [] else Tag(ReasoningChannel, text)
    case Woke(Next(RemoteProjection(p))) => [Whole(Projected(p))]
    case Woke(_) => []
  }

  function Meant(history: seq<Happening>): seq<Item> {
    if history == [] then [] else Meant(history[..|history| - 1]) + Worth(history[|history| - 1])
  }

  /** One more happening comes on top of what the journal is owed. */
  lemma {:induction false} MeantMore(base: seq<Item>, history: seq<Happening>, h: Happening)
    ensures base + Meant(history + [h]) == base + Meant(history) + Worth(h)
    ensures Worth(h) == [] ==> base + Meant(history + [h]) == base + Meant(history)
  {
    assert (history + [h])[..|history|] == history;
    Associative(base, Meant(history), Worth(h));
    assert base + Meant(history) + [] == base + Meant(history);
  }

  // ---------------------------------------------------------------------------------------------
  // The course of a run: samplings, and the calls they ask for
  // ---------------------------------------------------------------------------------------------

  /** The calls of one sampling in the order of their index. */
  function InOrder(calls: map<nat, ToolCall>, below: nat): seq<ToolCall> {
    if below == 0 then []
    else InOrder(calls, below - 1) + if below - 1 in calls then [calls[below - 1]] else []
  }

  function Indices(calls: map<nat, ToolCall>, below: nat): set<nat> {
    set i | i in calls && i < below
  }

  /** There are as many as there are indices. */
  lemma {:induction false} InOrderCounts(calls: map<nat, ToolCall>, below: nat)
    ensures |InOrder(calls, below)| == |Indices(calls, below)|
  {
    if below > 0 {
      InOrderCounts(calls, below - 1);
      assert Indices(calls, below) == Indices(calls, below - 1) + if below - 1 in calls then {below - 1} else {};
    } else {
      assert Indices(calls, 0) == {};
    }
  }

  /** The call at index `i` stands behind those of smaller indices, and before those of greater ones. */
  lemma {:induction false} InOrderPlaces(calls: map<nat, ToolCall>, below: nat, i: nat)
    requires i in calls && i < below
    ensures var place := |Indices(calls, i)|;
            place < |InOrder(calls, below)| && InOrder(calls, below)[place] == calls[i]
  {
    InOrderCounts(calls, i);
    if i < below - 1 {
      InOrderPlaces(calls, below - 1, i);
    }
  }

  lemma {:induction false} InOrderNotEmpty(calls: map<nat, ToolCall>)
    requires calls != map[] && forall i :: i in calls ==> i <= U32_MAX
    ensures InOrder(calls, U32_MAX + 1) != []
  {
    var i :| i in calls;
    InOrderPlaces(calls, U32_MAX + 1, i);
  }

  predicate HasCall(calls: map<nat, ToolCall>, callId: string) {
    exists i :: i in calls && calls[i].callId == callId
  }

  /** A sampling listens, and collects calls; then they are owed, one after the other, before anything else. */
  datatype Course = Listening(calls: map<nat, ToolCall>) | Owing(owed: seq<ToolCall>) | Astray

  const FRESH := Listening(map[])

  function After(c: Course, h: Happening): Course {
    match h
    case Replied(x) =>
      if c.Owing? && c.owed != [] && c.owed[0] == x.call then
        if |c.owed| == 1 then FRESH else Owing(c.owed[1..])
      else Astray
    case Woke(wake) =>
      if !c.Listening? then Astray
      else match wake
        case Next(ToolCallCompleted(index, call)) => Listening(c.calls[index := call])
        case Next(Completed) => if c.calls == map[] then FRESH else Owing(InOrder(c.calls, U32_MAX + 1))
        case Next(Interrupted(_)) => FRESH
        case _ => c
  }

  /** Where a history has brought the run; astray if a reply was skipped, repeated, out of turn, or not owed. */
  function CourseOf(history: seq<Happening>): Course {
    if history == [] then FRESH else After(CourseOf(history[..|history| - 1]), history[|history| - 1])
  }

  lemma {:induction false} CourseSnoc(history: seq<Happening>, h: Happening)
    ensures CourseOf(history + [h]) == After(CourseOf(history), h)
  {
    assert (history + [h])[..|history|] == history;
  }

  predicate AnswersAt(history: seq<Happening>, i: nat, call: ToolCall) {
    i < |history| && history[i].Replied? && history[i].exchange.call == call
  }

  /** Since `before`, some of these calls have been answered, in their order, and nothing else has happened. */
  ghost predicate Answering(before: seq<Happening>, after: seq<Happening>, calls: seq<ToolCall>) {
    && before <= after && |after| <= |before| + |calls|
    && forall i :: 0 <= i < |after| - |before| ==> AnswersAt(after, |before| + i, calls[i])
  }

  /** Answering the calls that are owed never leads astray, and with all of them answered nothing is owed. */
  lemma {:induction false} AnsweringCourse(before: seq<Happening>, after: seq<Happening>, calls: seq<ToolCall>)
    requires Answering(before, after, calls) && calls != [] && CourseOf(before) == Owing(calls)
    ensures var n := |after| - |before|;
            CourseOf(after) == if n == |calls| then FRESH else Owing(calls[n..])
  {
    var n := |after| - |before|;
    if n == 0 {
      assert after == before && calls[0..] == calls;
    } else {
      var front, h := after[..|after| - 1], after[|after| - 1];
      forall i | 0 <= i < n - 1 ensures AnswersAt(front, |before| + i, calls[i]) {
        assert AnswersAt(after, |before| + i, calls[i]);
      }
      AnsweringCourse(before, front, calls);
      assert AnswersAt(after, |before| + (n - 1), calls[n - 1]);
      assert calls[n - 1..][0] == calls[n - 1];
      assert n < |calls| ==> calls[n - 1..][1..] == calls[n..];
    }
  }

  lemma {:induction false} AnsweringJoin(a: seq<Happening>, b: seq<Happening>, c: seq<Happening>, first: seq<ToolCall>,
                                         rest: seq<ToolCall>)
    requires Answering(a, b, first) && |b| == |a| + |first| && Answering(b, c, rest)
    ensures Answering(a, c, first + rest)
  {
    forall i | 0 <= i < |c| - |a| ensures AnswersAt(c, |a| + i, (first + rest)[i]) {
      if i < |first| {
        assert AnswersAt(b, |a| + i, first[i]);
      } else {
        assert AnswersAt(c, |b| + (i - |first|), rest[i - |first|]);
      }
    }
  }

  lemma {:induction false} AnsweringMore(a: seq<Happening>, b: seq<Happening>, first: seq<ToolCall>, rest: seq<ToolCall>)
    requires Answering(a, b, first)
    ensures Answering(a, b, first + rest)
  {
    forall i | 0 <= i < |b| - |a| ensures AnswersAt(b, |a| + i, (first + rest)[i]) {
      assert AnswersAt(b, |a| + i, first[i]);
    }
  }

  // ---------------------------------------------------------------------------------------------
  // A batch that has been run
  // ---------------------------------------------------------------------------------------------

  /** Each of these calls has been invoked exactly once since there were `n` invocations, and nothing else has. */
  ghost predicate Ran(human: string -> bool, calls: seq<ToolCall>, ids: seq<nat>, invoked: seq<Invocation>, n: nat) {
    && |ids| == |calls| && n <= |invoked|
    && (forall p :: 0 <= p < |ids| ==>
          n <= ids[p] < |invoked| && invoked[ids[p]] == Invocation(calls[p], human(calls[p].name)))
    && (forall p, q :: 0 <= p < q < |ids| ==> ids[p] != ids[q])
    && (forall k :: n <= k < |invoked| ==> k in ids)
  }

  lemma {:induction false} RanJoin(human: string -> bool, a: seq<ToolCall>, b: seq<ToolCall>, x: seq<nat>, y: seq<nat>,
                                   middle: seq<Invocation>, after: seq<Invocation>, n: nat)
    requires Ran(human, a, x, middle, n) && Ran(human, b, y, after, |middle|) && middle <= after
    ensures Ran(human, a + b, x + y, after, n)
  {
    var ids := x + y;
    forall k | n <= k < |after| ensures k in ids {
      if k < |middle| {
        assert k in x;
      } else {
        assert k in y;
      }
    }
  }

  /** What invocation `k` has replied. */
  function ReplyOf(replies: map<nat, string>, k: nat): string {
    if k in replies then replies[k] else ""
  }

  /** The replies to these calls, in the order of the calls. */
  function Replies(calls: seq<ToolCall>, ids: seq<nat>, replies: map<nat, string>): (r: seq<Happening>)
    requires |ids| == |calls|
    ensures |r| == |calls|
  {
    seq(|calls|, p requires 0 <= p < |calls| => Replied(Exchange(calls[p], ReplyOf(replies, ids[p]))))
  }

  ghost predicate Extends(before: map<nat, string>, after: map<nat, string>) {
    forall k :: k in before ==> k in after && after[k] == before[k]
  }

  lemma {:induction false} RepliesJoin(a: seq<ToolCall>, b: seq<ToolCall>, x: seq<nat>, y: seq<nat>,
                                       before: map<nat, string>, after: map<nat, string>)
    requires |x| == |a| && |y| == |b| && Extends(before, after) && forall p :: 0 <= p < |x| ==> x[p] in before
    ensures Replies(a + b, x + y, after) == Replies(a, x, before) + Replies(b, y, after)
  {
  }

  lemma {:induction false} RepliesAnswer(before: seq<Happening>, calls: seq<ToolCall>, ids: seq<nat>, replies: map<nat, string>)
    requires |ids| == |calls|
    ensures Answering(before, before + Replies(calls, ids, replies), calls)
  {
  }

  // ---------------------------------------------------------------------------------------------
  // One sampling
  // ---------------------------------------------------------------------------------------------

  /** What a sampling has gathered: its calls, its usage, and whether there was text. */
  datatype Facts = Facts(calls: map<nat, ToolCall>, usage: Option<nat>, text: bool)

  const NOTHING := Facts(map[], None, false)

  predicate WithinCap(output: nat, cap: Option<nat>) {
    cap.Some? ==> output <= cap.value
  }

  /** Usage that the provider cannot have meant. */
  predicate Garbled(u: Usage) {
    u.input + u.output > U64_MAX || u.total < u.input + u.output
  }

  /** A capped sampling must report its usage before it ends. */
  predicate Accountable(f: Facts, cap: Option<nat>) {
    cap.Some? ==> f.usage.Some?
  }

  /** The sampling after one more wake; none if this wake ends it, whatever else the world says. */
  function Gather(blank: Text -> bool, cap: Option<nat>, f: Facts, wake: Wake): Option<Facts> {
    match wake
    case Renewed => Some(f)
    case ChunkTimer => Some(f)
    case Next(Noted) => Some(f)
    case Next(RemoteProjection(_)) => Some(f)
    case Next(TextDelta(text)) =>
      if 0 in text then None else Some(f.(text := f.text || (text != [] && !blank(text))))
    case Next(ReasoningDelta(text)) => if text == [] || 0 in text then None else Some(f)
    case Next(ToolCallCompleted(index, call)) =>
      if HasCall(f.calls, call.callId) || index in f.calls then None else Some(f.(calls := f.calls[index := call]))
    case Next(UsageReported(u)) =>
      if f.usage.Some? || Garbled(u) || !WithinCap(u.output, cap) then None else Some(f.(usage := Some(u.output)))
    case _ => None
  }

  /** A wake that does not end the sampling keeps the run listening, with the calls gathered. */
  lemma {:induction false} GatherCourse(blank: Text -> bool, cap: Option<nat>, f: Facts, wake: Wake)
    requires Gather(blank, cap, f, wake).Some?
    ensures After(Listening(f.calls), Woke(wake)) == Listening(Gather(blank, cap, f, wake).value.calls)
    ensures (forall i :: i in f.calls ==> i <= U32_MAX) ==>
              forall i :: i in Gather(blank, cap, f, wake).value.calls ==> i <= U32_MAX
  {
  }

  /** No wake leads a listening run astray. */
  lemma {:induction false} WakeCourse(calls: map<nat, ToolCall>, wake: Wake)
    ensures var c := After(Listening(calls), Woke(wake));
            && !c.Astray?
            && (wake == Next(Completed) && calls != map[] ==> c == Owing(InOrder(calls, U32_MAX + 1)))
            && (wake.Next? && wake.event.Interrupted? ==> c == FRESH)
  {
  }

  /** What a sampling has gathered from these wakes; none if one of them has ended it. */
  function Gathered(blank: Text -> bool, cap: Option<nat>, wakes: seq<Wake>): Option<Facts> {
    if wakes == [] then Some(NOTHING)
    else
      var before := Gathered(blank, cap, wakes[..|wakes| - 1]);
      if before.None? then None else Gather(blank, cap, before.value, wakes[|wakes| - 1])
  }

  lemma {:induction false} GatheredSnoc(blank: Text -> bool, cap: Option<nat>, wakes: seq<Wake>, wake: Wake)
    ensures Gathered(blank, cap, wakes + [wake]) ==
            var before := Gathered(blank, cap, wakes);
            if before.None? then None else Gather(blank, cap, before.value, wake)
  {
    assert (wakes + [wake])[..|wakes|] == wakes;
  }

  function Woken(wakes: seq<Wake>): (r: seq<Happening>)
    ensures |r| == |wakes|
  {
    seq(|wakes|, i requires 0 <= i < |wakes| => Woke(wakes[i]))
  }

  /** One more wake comes on top of what was gathered and of what has happened. */
  lemma {:induction false} OneMoreWake(blank: Text -> bool, cap: Option<nat>, before: seq<Happening>, wakes: seq<Wake>,
                                       wake: Wake)
    ensures before + Woken(wakes + [wake]) == before + Woken(wakes) + [Woke(wake)]
    ensures (wakes + [wake])[..|wakes|] == wakes
    ensures Gathered(blank, cap, wakes + [wake]) ==
            var gathered := Gathered(blank, cap, wakes);
            if gathered.None? then None else Gather(blank, cap, gathered.value, wake)
  {
    GatheredSnoc(blank, cap, wakes, wake);
    assert Woken(wakes + [wake]) == Woken(wakes) + [Woke(wake)];
  }
}
