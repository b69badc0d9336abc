/** Runs that show that the exceptions to a clean ending do happen. */
module RunWitness {
  import opened Json
  import opened Wrappers
  import opened Agent = AgentReducer
  import opened AgentRun
  import opened DurableRun
  import opened RunCourse
  import Scheduling

  /** A tool named `h` is decided by a human; any other tool may overlap. */
  function Tools(): Config {
    Config(name => name == "h", name => Scheduling.ToolScheduling(name != "h", []), text => text == [])
  }

  function Call(id: string, name: string): ToolCall {
    ToolCall(id, name, Object(map[]))
  }

  /** A run in its first sampling. */
  method InFirstSampling() returns (run: Run)
    ensures fresh(run) && fresh(run.journal) && fresh(run.journal.store) && fresh(run.journal.accumulator)
    ensures run.config == Tools() && run.Live() && run.Settled() && run.journal.store.log == []
    ensures run.state == State(Sampling, 0, None) && run.invoked == [] && run.recorded == map[] && run.replies == map[]
  {
    var store := new RunStore();
    var journal := new DurableTextRun(store);
    run := new Run(Tools(), journal, 1);
    run.Take(DispatchActivated, [LoadContext]);
    run.Take(ContextPrepared, [StartProvider]);
  }

  /** The same run, once it executes these calls. */
  method Executing(calls: seq<ToolCall>) returns (run: Run)
    requires Runnable(State(Sampling, 0, None), calls)
    ensures fresh(run) && fresh(run.journal) && fresh(run.journal.store) && fresh(run.journal.accumulator)
    ensures run.config == Tools() && run.Live() && run.Settled()
    ensures run.state == State(ExecutingTools, |calls|, None)
    ensures run.invoked == [] && run.recorded == map[] && run.replies == map[]
  {
    run := InFirstSampling();
    run.Take(ProviderToolCalls(calls), [InvokeTools(calls)]);
  }

  /** A call by itself begins, and its tool then says that it is unavailable. */
  method UnavailableSerial() returns (run: Run)
    ensures run.Over() && run.ending.Attempted? && run.ending.terminal == Failure(ToolLoopUnavailable)
    ensures run.invoked == [Invocation(Call("1", "t"), false)] && !run.Settled()
  {
    var calls := [Call("1", "t")];
    run := Executing(calls);
    var _, _ := run.InvokeSerial(calls[0], SerialAnswers(Proceed, true, ToolUnavailable, Proceed, true));
    assert !run.invoked[0].human && 0 !in run.recorded;
  }

  /** The two calls of a wave. */
  const TWO: seq<ToolCall> := [Call("1", "t"), Call("2", "t")]

  /** Both have begun. */
  method TwoStarted() returns (run: Run, tasks: seq<Task>, ghost ids: seq<Option<nat>>)
    ensures fresh(run) && fresh(run.journal) && fresh(run.journal.store) && fresh(run.journal.accumulator)
    ensures run.Live() && run.In(ExecutingTools) && run.recorded == map[]
    ensures tasks == [Working, Working] && |ids| == 2 && ids[0].Some? && ids[1].Some?
    ensures Started(TWO, ids, run.invoked, 0) && Unreplied(tasks, ids, run.replies)
  {
    run := Executing(TWO);
    var started;
    tasks, started, ids := run.StartSome(TWO, [Waiting, Waiting], [true, true], [None, None], 0);
  }

  /** Both are joined: the second has replied, the first is unavailable. */
  method TwoJoined() returns (run: Run, outputs: seq<Option<Output>>, ghost id: nat)
    ensures fresh(run) && fresh(run.journal) && fresh(run.journal.store) && fresh(run.journal.accumulator)
    ensures run.Live() && run.In(ExecutingTools) && run.recorded == map[]
    ensures |run.invoked| > 1 && id < |run.invoked| && run.invoked[id] == Invocation(Call("1", "t"), false)
    ensures outputs == [Some(Output(Call("1", "t"), ToolUnavailable)), Some(Output(Call("2", "t"), Reply("done")))]
  {
    var tasks;
    ghost var ids;
    run, tasks, ids := TwoStarted();
    assert ids[0] != ids[1];
    id := ids[0].value;
    outputs := [None, None];
    tasks, outputs := run.JoinOne(TWO, tasks, outputs, 1, Reply("done"), ids, 0);
    tasks, outputs := run.JoinOne(TWO, tasks, outputs, 0, ToolUnavailable, ids, 0);
  }

  /** Since the first call is unavailable, the reply of the second is never journalled. */
  method UnavailableParallel() returns (run: Run)
    ensures run.Over() && run.ending.Attempted? && run.ending.terminal == Failure(ToolLoopUnavailable)
    ensures |run.invoked| > 1 && run.recorded == map[] && !run.Settled()
  {
    var outputs;
    ghost var id;
    run, outputs, id := TwoJoined();
    var _ := run.AnswerOne(outputs[0].value, true, Some(id));
    assert !run.invoked[id].human && id !in run.recorded;
  }

  /** A human decision waits for a budget that cannot be had. */
  method HumanWithoutBudget() returns (run: Run)
    ensures run.Over() && run.ending == Abandoned(Told(State(AwaitingHuman, 1, None), ToolRuntimeUnavailable))
  {
    var calls := [Call("1", "h")];
    run := Executing(calls);
    var _, _ := run.InvokeSerial(calls[0], SerialAnswers(Proceed, false, ToolUnavailable, Proceed, true));
  }

  function Batch(n: nat): seq<ToolCall>
    requires n <= 26
  {
    seq(n, i requires 0 <= i < n => Call([('a' as int + i) as char], "t"))
  }

  /** Nine calls at once are one more than a run may make. */
  method OverTheStepCap() returns (run: Run)
    ensures run.Over() && run.ending == Abandoned(Told(State(Sampling, 0, None), ProviderToolCalls(Batch(9))))
    ensures WellFormedCalls(Batch(9)) && run.journal.store.log == []
  {
    BatchIsWellFormed(9);
    run := InFirstSampling();
    run.Hear(Waking(Next(Completed)));
    var _, _ := run.RunTools(Batch(9));
  }

  lemma {:induction false} BatchIsWellFormed(n: nat)
    requires 0 < n <= 26
    ensures WellFormedCalls(Batch(n))
  {
    var calls := Batch(n);
    forall i | 0 <= i < n
      ensures calls[i].callId == [('a' as int + i) as char] && calls[i].name == "t" && calls[i].arguments.Object?
    {
      assert calls[i] == Call([('a' as int + i) as char], "t");
    }
    forall i, j | 0 <= i < j < n ensures calls[i].callId != calls[j].callId {
      assert calls[i].callId[0] != calls[j].callId[0];
    }
  }

  /** Two calls with one id. */
  method RepeatedId() returns (run: Run)
    ensures run.Over() && run.ending.Abandoned? && run.ending.told.fact.ProviderToolCalls? && run.journal.store.log == []
  {
    var calls := [Call("1", "t"), Call("1", "t")];
    run := InFirstSampling();
    assert calls[0].callId == calls[1].callId;
    run.Hear(Waking(Next(Completed)));
    var _, _ := run.RunTools(calls);
  }

  /** A piece of reasoning without text. */
  method EmptyReasoning() returns (run: Run)
    ensures run.Over() && run.ending == Abandoned(Told(State(Sampling, 0, None), ProviderReasoningDelta([])))
  {
    run := InFirstSampling();
    run.Hear(Waking(Next(ReasoningDelta([]))));
    var _ := run.HandleDelta(ReasoningDelta([]));
  }
}
