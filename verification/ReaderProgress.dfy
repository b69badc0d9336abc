/** When a reader goes on: the exact guard of each step, what can stop it, and how far it gets undisturbed. */
module ReaderProgress {
  import opened Wrappers
  import opened ReaderSpec
  import opened ReaderLaws

  // ---------------------------------------------------------------------------------------------
  // Exactly when each step succeeds
  // ---------------------------------------------------------------------------------------------

  /** Nobody holds the lock, and no control waits to be taken. */
  predicate Free(s: State) {
    s.holder.Nobody? && s.control.None?
  }

  /** Free, not stopped, and the caller is still attached. */
  predicate Admits(s: State, attached: bool) {
    Free(s) && !s.stopped && attached
  }

  lemma {:induction false} OpenCommitsExactly(s: State)
    requires Inv(s)
    ensures OpenCommits(s).reply.Served? <==> s.open.Prepared? && Admits(s, true)
  {
  }

  /** An attempt for the next block starts; only the very first one finds its block already there. */
  lemma {:induction false} NextStartsExactly(s: State, sequence: nat, attached: bool)
    requires Inv(s)
    ensures var r := NextStarts(s, sequence, attached);
            && (r.reply.Waiting? <==> Admits(s, attached) && s.phase.Ready? && s.sequence == sequence)
            && (r.reply.Waiting? ==>
                  r.state.holder == if s.first.Some? then NextRefreshing(sequence, s.first.value) else NextBlocked(sequence))
            && (!r.reply.Waiting? ==> r.state == s)
  {
  }

  /** A block that is there before it is asked for is the first one. */
  lemma {:induction false} FirstIsZero(s: State)
    requires Inv(s)
    ensures s.first.Some? ==> s.first.value == 0
  {
    if s.first.Some? {
      assert s.first.value in Holders(s);
    }
  }

  lemma {:induction false} NextProducedExactly(s: State, ok: bool)
    requires Inv(s)
    ensures NextProduced(s, ok).reply.Waiting? <==> s.holder.NextBlocked? && ok
  {
  }

  lemma {:induction false} NextRefreshedExactly(s: State, result: Refresh)
    requires Inv(s)
    ensures NextRefreshed(s, result).reply.Served? <==> s.holder.NextRefreshing? && result.Bytes?
    ensures NextRefreshed(s, result).reply.Waiting? <==> s.holder.NextRefreshing? && result.ZeroRead?
    ensures NextDrained(s, result.Bytes?).reply.Served? <==> s.holder.NextDraining? && result.Bytes?
  {
  }

  /** A described block, or an end of file, can be selected exactly by its sequence. */
  lemma {:induction false} TakeDeliveryExactly(s: State, sequence: nat)
    requires Inv(s)
    ensures TakeDelivery(s, sequence).reply.Served? <==>
              && s.holder.Nobody? && s.sequence == sequence
              && ((s.phase.DescriptorReady? && !s.stopped) || (s.phase.EofReady? && s.eofTail))
  {
  }

  lemma {:induction false} HandoffExactly(s: State, i: nat, matches: bool, current: bool)
    requires Inv(s)
    ensures Handoff(s, i, matches, current).reply.Served? <==>
              && i < |s.deliveries| && s.holder.Nobody? && matches && current
              && if s.deliveries[i].payload.Data? then s.phase.DeliverySelected? && !s.stopped
                 else s.deliveries[i].descriptor.eof
  {
  }

  lemma {:induction false} AckStartsExactly(s: State, sequence: nat, now: Instant, deadline: Instant, attached: bool,
                                            current: bool)
    requires Inv(s) && !IsDuplicate(s, sequence)
    ensures AckStarts(s, sequence, now, deadline, attached, current).reply.Waiting? <==>
              && Admits(s, attached) && s.sequence == sequence
              && (s.phase.AwaitingAcknowledgment? || s.phase.ReleasePending?)
  {
  }

  lemma {:induction false} AckObservedExactly(s: State, ok: bool)
    requires Inv(s)
    ensures AckObserved(s, ok).reply.Waiting? <==> s.holder.AckObserving? && ok
  {
  }

  lemma {:induction false} AckReleasedExactly(s: State, validBefore: Instant, current: bool, stillCurrent: bool)
    requires Inv(s)
    ensures AckReleased(s, validBefore, current, stillCurrent).reply.Served? <==>
              && s.holder.AckWaiting? && s.shared[s.sequence].disposal.Released? && current && stillCurrent
              && s.sequence < U32_MAX
  {
  }

  lemma {:induction false} CloseExactly(s: State, attached: bool, ok: bool, validBefore: Instant)
    requires Inv(s)
    ensures CloseStarts(s, attached).reply.Waiting? <==> Admits(s, attached) && s.prepared
    ensures CloseObserved(s, ok).reply.Waiting? <==> s.holder.CloseObserving? && ok
    ensures CloseDrained(s, ok, validBefore).reply.Served? <==> s.holder.CloseDraining? && ok
  {
  }

  // ---------------------------------------------------------------------------------------------
  // What stops a reader
  // ---------------------------------------------------------------------------------------------

  /** Reading stops a reader: a failed preparation or opening, an answer that fails or is stale, or an empty block. */
  predicate ReadStops(s: State, a: ReadAction) {
    match a
    case PreparationEnds(ok) => s.open.Preparing? && !ok
    case OpeningFails => s.open.Prepared?
    case OpeningCommits => s.open.Prepared? && s.holder.Nobody? && s.control.Some?
    case BlockArrives(ok) => s.holder.NextBlocked? && !ok
    case BlockRefreshes(result) => s.holder.NextRefreshing? && !result.Bytes?
    case _ => false
  }

  /** The transport stops a reader: a delivery that is dropped, or whose handoff is refused. */
  predicate TransportStops(s: State, a: TransportAction) {
    match a
    case DeliveryDropped(i) => i < |s.deliveries|
    case HandedOff(i, matches, current) =>
      i < |s.deliveries| && !(matches && current && s.holder.Nobody? && s.phase.DeliverySelected?)
    case _ => false
  }

  /** A client stops it, and so does the host: a stop, a cancelled attempt, a refused acknowledgement, or a close. */
  predicate ControlStops(s: State, a: ControlAction) {
    match a
    case AckBegins(sequence, now, deadline, _, current) =>
      Free(s) && IsDuplicate(s, sequence) && (now >= deadline || now >= s.lastAck.value.validBefore || !current)
    case AckObserves(ok) => s.holder.AckObserving? && !ok
    case AckCompletes(_, current, stillCurrent) =>
      s.holder.AckWaiting? && s.sequence < |s.shared| && s.shared[s.sequence].disposal.Released?
      && !(current && stillCurrent && s.sequence < U32_MAX)
    case CloseBegins(attached) => Admits(s, attached) && !s.prepared
    case CloseObserves(_) => s.holder.CloseObserving?
    case Cancelled => !s.holder.Nobody?
    case Stopped => true
    case _ => false
  }

  predicate Stops(s: State, a: Action) {
    match a
    case Read(r) => ReadStops(s, r)
    case Transport(t) => TransportStops(s, t)
    case Manage(c) => ControlStops(s, c)
  }

  lemma {:induction false} ReadStopsExactly(s: State, a: ReadAction)
    requires Inv(s) && !s.stopped
    ensures ActRead(s, a).stopped <==> ReadStops(s, a)
  {
  }

  lemma {:induction false} HandoffStops(s: State, i: nat, matches: bool, current: bool)
    requires Inv(s) && !s.stopped
    ensures Handoff(s, i, matches, current).state.stopped <==> TransportStops(s, HandedOff(i, matches, current))
  {
    HandoffExactly(s, i, matches, current);
  }

  lemma {:induction false} TransportStopsExactly(s: State, a: TransportAction)
    requires Inv(s) && !s.stopped
    ensures ActTransport(s, a).stopped <==> TransportStops(s, a)
  {
    match a
    case HandedOff(i, matches, current) => HandoffStops(s, i, matches, current);
    case _ =>
  }

  lemma {:induction false} AckBeginsStops(s: State, sequence: nat, now: Instant, deadline: Instant, attached: bool,
                                          current: bool)
    requires Inv(s) && !s.stopped
    ensures AckStarts(s, sequence, now, deadline, attached, current).state.stopped <==>
              ControlStops(s, AckBegins(sequence, now, deadline, attached, current))
  {
  }

  lemma {:induction false} AckCompletesStops(s: State, validBefore: Instant, current: bool, stillCurrent: bool)
    requires Inv(s) && !s.stopped
    ensures AckReleased(s, validBefore, current, stillCurrent).state.stopped <==>
              ControlStops(s, AckCompletes(validBefore, current, stillCurrent))
  {
  }

  lemma {:induction false} CloseStops(s: State, attached: bool, ok: bool, validBefore: Instant)
    requires Inv(s) && !s.stopped
    ensures CloseStarts(s, attached).state.stopped <==> ControlStops(s, CloseBegins(attached))
    ensures CloseObserved(s, ok).state.stopped <==> ControlStops(s, CloseObserves(ok))
    ensures !CloseDrained(s, ok, validBefore).state.stopped
  {
  }

  lemma {:induction false} OtherStops(s: State, now: Instant)
    requires Inv(s) && !s.stopped
    ensures CancelAttempt(s).stopped <==> ControlStops(s, Cancelled)
    ensures Cleanup(s, now) == s && !TakeControl(s).state.stopped
  {
  }

  lemma {:induction false} ControlStopsExactly(s: State, a: ControlAction)
    requires Inv(s) && !s.stopped
    ensures ActControl(s, a).stopped <==> ControlStops(s, a)
  {
    match a
    case AckBegins(sequence, now, deadline, attached, current) => AckBeginsStops(s, sequence, now, deadline, attached, current);
    case AckCompletes(validBefore, current, stillCurrent) => AckCompletesStops(s, validBefore, current, stillCurrent);
    case AckObserves(ok) => AckObservedExactly(s, ok);
    case CloseBegins(attached) => CloseStops(s, attached, true, 0);
    case CloseObserves(ok) => CloseStops(s, true, ok, 0);
    case CloseCompletes(ok, validBefore) => CloseStops(s, true, ok, validBefore);
    case CleanupPasses(now) => OtherStops(s, now);
    case _ => OtherStops(s, 0);
  }

  lemma {:induction false} RunMore(actions: seq<Action>, a: Action)
    ensures Run(actions + [a]) == Act(Run(actions), a)
  {
    assert (actions + [a])[..|actions|] == actions;
  }

  lemma {:induction false} RunTwo(actions: seq<Action>, a: Action, b: Action)
    ensures Run(actions + [a, b]) == Act(Act(Run(actions), a), b)
  {
    RunMore(actions, a);
    RunMore(actions + [a], b);
    assert actions + [a, b] == actions + [a] + [b];
  }

  lemma {:induction false} RunThree(actions: seq<Action>, a: Action, b: Action, c: Action)
    ensures Run(actions + [a, b, c]) == Act(Act(Act(Run(actions), a), b), c)
  {
    RunTwo(actions, a, b);
    RunMore(actions + [a, b], c);
    assert actions + [a, b, c] == actions + [a, b] + [c];
  }

  /** A running reader is stopped exactly by these steps, in any interleaving. */
  lemma {:induction false} StopsExactly(actions: seq<Action>, a: Action)
    requires !Run(actions).stopped
    ensures Run(actions + [a]).stopped <==> Stops(Run(actions), a)
  {
    RunKept(actions);
    RunMore(actions, a);
    var s := Run(actions);
    match a
    case Read(r) => ReadStopsExactly(s, r);
    case Transport(t) => TransportStopsExactly(s, t);
    case Manage(c) => ControlStopsExactly(s, c);
  }

  // ---------------------------------------------------------------------------------------------
  // A reader that nothing disturbs
  // ---------------------------------------------------------------------------------------------

  /** Ready for block `n`, with all blocks before it read, handed off, acknowledged and disposed of. */
  ghost predicate Healthy(s: State, n: nat) {
    && s.phase.Ready? && Free(s) && !s.stopped && !s.lost && !s.sawEof && s.open.Settled?
    && s.sequence == s.acknowledged == |s.shared| == n
    && s.first == (if n == 0 then Some(0) else None)
    && forall i :: 0 <= i < n ==> s.shared[i].block == s.shared[i].sequence == i && s.shared[i].disposal.Released?
  }

  /** Block `n`: the first one is there already, any other comes from the producer. */
  function Begins(n: nat): seq<Action> {
    [Read(NextBegins(n, true))] + if n == 0 then [] else [Read(BlockArrives(true))]
  }

  /** It is described, selected and handed to the transport. */
  function Hands(n: nat): seq<Action> {
    [Read(BlockRefreshes(Bytes)), Read(DeliveryTaken(n)), Transport(HandedOff(0, true, true))]
  }

  /** Its acknowledgement is asked for. */
  function Asks(n: nat, now: Instant, deadline: Instant): seq<Action> {
    [Manage(AckBegins(n, now, deadline, true, true)), Manage(AckObserves(true))]
  }

  /** Its one carrier goes, and its frame is disposed of. */
  function Releases(n: nat): seq<Action> {
    [Transport(CarrierDropped(n)), Transport(FrameDisposes(n)), Transport(FrameDisposes(n))]
  }

  function Grants(deadline: Instant): seq<Action> {
    [Manage(AckCompletes(deadline, true, true)), Manage(ControlTaken)]
  }

  /** Everything that happens to one block. */
  function Turn(n: nat, now: Instant, deadline: Instant): seq<Action> {
    Begins(n) + Hands(n) + Asks(n, now, deadline) + Releases(n) + Grants(deadline)
  }

  function Opens(): seq<Action> {
    [Read(PreparationEnds(true)), Read(OpeningCommits), Manage(ControlTaken)]
  }

  /** Opening, and then `n` blocks in turn; `clock` gives the time and the deadline of each acknowledgement. */
  function Undisturbed(n: nat, clock: nat -> (Instant, Instant)): seq<Action> {
    if n == 0 then Opens()
    else
      Undisturbed(n - 1, clock) + Turn(n - 1, clock(n - 1).0, clock(n - 1).1)
  }

  /** Block `n` is the one that is being read. */
  ghost predicate Reading(s: State, n: nat) {
    && s.phase.Ready? && s.holder == NextRefreshing(n, n) && s.control.None? && !s.stopped && s.open.Settled?
    && s.sequence == s.acknowledged == |s.shared| == n
    && forall i :: 0 <= i < n ==> s.shared[i].block == s.shared[i].sequence == i && s.shared[i].disposal.Released?
  }

  lemma {:induction false} BlockIsRead(s: State, n: nat)
    requires Inv(s) && Healthy(s, n)
    ensures var begun := Act(s, Read(NextBegins(n, true)));
            Reading(if n == 0 then begun else Act(begun, Read(BlockArrives(true))), n)
  {
    NextStartsExactly(s, n, true);
    if n == 0 {
      assert s.first.value in Holders(s);
    }
  }

  /** Block `n` is with the transport, in one carrier. */
  ghost predicate Carried(s: State, n: nat) {
    && s.phase.AwaitingAcknowledgment? && Free(s) && !s.stopped && s.open.Settled?
    && s.sequence == s.acknowledged == n && |s.shared| == n + 1
    && s.shared[n] == Shared(n, n, true, 1, Leased)
    && forall i :: 0 <= i < n ==> s.shared[i].block == s.shared[i].sequence == i && s.shared[i].disposal.Released?
  }

  lemma {:induction false} BlockIsHanded(s: State, n: nat)
    requires Inv(s) && Reading(s, n)
    ensures var described := Act(s, Read(BlockRefreshes(Bytes)));
            Carried(Act(Act(described, Read(DeliveryTaken(n))), Transport(HandedOff(0, true, true))), n)
  {
    var described := Act(s, Read(BlockRefreshes(Bytes)));
    assert described.deliveries == [];
    var selected := Act(described, Read(DeliveryTaken(n)));
    assert selected.deliveries == [Delivery(Descriptor(n, false), Data(n))];
  }

  /** The acknowledgement of block `n` waits for its frame. */
  ghost predicate Waits(s: State, n: nat, frame: Shared) {
    && s.phase.ReleasePending? && s.holder == AckWaiting(n, n) && s.control.None? && !s.stopped && s.open.Settled?
    && s.sequence == s.acknowledged == n && |s.shared| == n + 1 && s.shared[n] == frame
    && forall i :: 0 <= i < n ==> s.shared[i].block == s.shared[i].sequence == i && s.shared[i].disposal.Released?
  }

  lemma {:induction false} AcknowledgementWaits(s: State, n: nat, now: Instant, deadline: Instant)
    requires Inv(s) && Carried(s, n)
    ensures Waits(Act(Act(s, Manage(AckBegins(n, now, deadline, true, true))), Manage(AckObserves(true))),
                  n, Shared(n, n, false, 1, Leased))
  {
  }

  lemma {:induction false} FrameGoes(s: State, n: nat)
    requires Waits(s, n, Shared(n, n, false, 1, Leased))
    ensures var freed := Act(Act(s, Transport(CarrierDropped(n))), Transport(FrameDisposes(n)));
            Waits(freed, n, Shared(n, n, false, 0, LeaseFreed))
            && Waits(Act(freed, Transport(FrameDisposes(n))), n, Shared(n, n, false, 0, Released))
  {
  }

  lemma {:induction false} BlockIsAcknowledged(s: State, n: nat, deadline: Instant)
    requires Inv(s) && Waits(s, n, Shared(n, n, false, 0, Released)) && n < U32_MAX
    ensures Healthy(Act(Act(s, Manage(AckCompletes(deadline, true, true))), Manage(ControlTaken)), n + 1)
  {
  }

  lemma {:induction false} BeginsRun(actions: seq<Action>, n: nat)
    requires Healthy(Run(actions), n)
    ensures Reading(Run(actions + Begins(n)), n)
  {
    RunKept(actions);
    BlockIsRead(Run(actions), n);
    var begun := actions + [Begins(n)[0]];
    RunMore(actions, Begins(n)[0]);
    if n == 0 {
      assert actions + Begins(n) == begun;
    } else {
      RunMore(begun, Begins(n)[1]);
      assert actions + Begins(n) == begun + [Begins(n)[1]];
    }
  }

  lemma {:induction false} HandsRun(actions: seq<Action>, n: nat)
    requires Reading(Run(actions), n)
    ensures Carried(Run(actions + Hands(n)), n)
  {
    RunKept(actions);
    BlockIsHanded(Run(actions), n);
    RunThree(actions, Read(BlockRefreshes(Bytes)), Read(DeliveryTaken(n)), Transport(HandedOff(0, true, true)));
  }

  lemma {:induction false} WaitsRun(actions: seq<Action>, n: nat, now: Instant, deadline: Instant)
    requires Carried(Run(actions), n)
    ensures Waits(Run(actions + Asks(n, now, deadline)), n, Shared(n, n, false, 1, Leased))
  {
    RunKept(actions);
    AcknowledgementWaits(Run(actions), n, now, deadline);
    RunTwo(actions, Manage(AckBegins(n, now, deadline, true, true)), Manage(AckObserves(true)));
  }

  lemma {:induction false} ReleasesRun(actions: seq<Action>, n: nat)
    requires Waits(Run(actions), n, Shared(n, n, false, 1, Leased))
    ensures Waits(Run(actions + Releases(n)), n, Shared(n, n, false, 0, Released))
  {
    FrameGoes(Run(actions), n);
    RunThree(actions, Transport(CarrierDropped(n)), Transport(FrameDisposes(n)), Transport(FrameDisposes(n)));
  }

  lemma {:induction false} GrantsRun(actions: seq<Action>, n: nat, deadline: Instant)
    requires Waits(Run(actions), n, Shared(n, n, false, 0, Released)) && n < U32_MAX
    ensures Healthy(Run(actions + Grants(deadline)), n + 1)
  {
    RunKept(actions);
    BlockIsAcknowledged(Run(actions), n, deadline);
    RunTwo(actions, Manage(AckCompletes(deadline, true, true)), Manage(ControlTaken));
  }

  lemma {:induction false} OpensHealthy()
    ensures Healthy(Run(Opens()), 0)
  {
    var none: seq<Action> := [];
    RunThree(none, Read(PreparationEnds(true)), Read(OpeningCommits), Manage(ControlTaken));
    assert Opens() == none + Opens();
  }

  /** Any reader that is ready for block `n`, however it got there, can be taken to the next one. */
  lemma {:induction false} OneMoreBlock(actions: seq<Action>, n: nat, now: Instant, deadline: Instant)
    requires Healthy(Run(actions), n) && n < U32_MAX
    ensures Healthy(Run(actions + Turn(n, now, deadline)), n + 1)
  {
    var handed := actions + Begins(n) + Hands(n);
    var asked := handed + Asks(n, now, deadline);
    BeginsRun(actions, n);
    HandsRun(actions + Begins(n), n);
    WaitsRun(handed, n, now, deadline);
    ReleasesRun(asked, n);
    GrantsRun(asked + Releases(n), n, deadline);
    assert actions + Turn(n, now, deadline) == asked + Releases(n) + Grants(deadline);
  }

  /**
   * For every `n` up to the limit of the sequence: a reader that nothing disturbs reads, hands off and
   * acknowledges blocks 0 to `n - 1`, each frame is disposed of, and it is ready for block `n`.
   */
  lemma {:induction false} UndisturbedGoesOn(n: nat, clock: nat -> (Instant, Instant))
    requires n <= U32_MAX
    ensures Healthy(Run(Undisturbed(n, clock)), n)
  {
    if n == 0 {
      OpensHealthy();
    } else {
      UndisturbedGoesOn(n - 1, clock);
      OneMoreBlock(Undisturbed(n - 1, clock), n - 1, clock(n - 1).0, clock(n - 1).1);
    }
  }
}
