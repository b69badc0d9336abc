/** What every interleaving of a reader keeps: one owner per block, in order, and no early acknowledgement. */
module ReaderLaws {
  import opened Wrappers
  import opened ReaderSpec

  function AsSeq(b: Option<nat>): seq<nat> {
    if b.Some? then [b.value] else []
  }

  function DeliveredBlock(s: State): seq<nat> {
    if s.deliveries != [] && s.deliveries[0].payload.Data? then [s.deliveries[0].payload.block] else []
  }

  function OpeningBlock(s: State): seq<nat> {
    if s.open.Prepared? then [0] else []
  }

  /** Everyone who holds a block that has not been handed to the transport. */
  function Holders(s: State): seq<nat> {
    OpeningBlock(s) + AsSeq(s.first) + AsSeq(InFlight(s)) + AsSeq(s.pending) + DeliveredBlock(s)
  }

  /** At most one holder, of the next block in order; no block is missing unless the reader was stopped. */
  ghost predicate Account(s: State) {
    && (Holders(s) == [] || Holders(s) == [|s.shared|])
    && (s.lost ==> s.stopped && Holders(s) == [])
    && (s.sawEof ==> s.stopped && Holders(s) == [])
    && (!s.lost ==> s.produced == |s.shared| + |Holders(s)| + if s.sawEof then 1 else 0)
  }

  /** Frame `i` of the ones handed off; acknowledged frames are gone for good. */
  predicate FrameInv(f: Shared, i: nat, held: Option<nat>, acknowledged: nat) {
    && f.block == i && f.sequence == i
    && (f.disposal != Leased ==> Unreferenced(f))
    && (f.registry <==> held == Some(i))
    && (i < acknowledged ==> f.disposal == Released)
  }

  /** The frames handed to the transport are blocks 0, 1, 2, ... at sequences 0, 1, 2, ... */
  ghost predicate Frames(s: State) {
    && (forall i :: 0 <= i < |s.shared| ==> FrameInv(s.shared[i], i, s.registryBlock, s.sequence))
    && s.sequence <= |s.shared| <= s.sequence + 1
    && (s.registryBlock.Some? ==> s.registryBlock.value < |s.shared|)
  }

  predicate Unopened(s: State) {
    && !s.prepared && s.first.None? && s.pending.None? && s.deliveries == [] && s.shared == [] && s.holder.Nobody?
    && s.descriptor.None? && s.released.None? && s.registryBlock.None? && s.sequence == 0 && s.lastAck.None?
    && !s.eofTail && !s.sawEof && !s.lost && (s.phase.Opening? || s.phase.Closing?)
    && s.produced == if s.open.Prepared? then 1 else 0
  }

  /** What each phase says about the data. */
  predicate PhaseInv(s: State) {
    match s.phase
    case Opening => Unopened(s) || (s.stopped && s.open.Settled?)
    case Ready => s.prepared && |s.shared| == s.sequence && s.released.None? && s.descriptor.None? && s.deliveries == []
    case DescriptorReady =>
      s.pending.Some? && |s.shared| == s.sequence && s.descriptor == Some(Descriptor(s.sequence, false)) && s.deliveries == []
    case DeliverySelected =>
      |s.shared| == s.sequence && s.descriptor.Some? && s.descriptor.value.sequence == s.sequence
    case AwaitingAcknowledgment =>
      |s.shared| == s.sequence + 1 && s.released == Some(s.sequence) && s.registryBlock == Some(s.sequence) && s.deliveries == []
    case ReleasePending =>
      |s.shared| == s.sequence + 1 && s.released == Some(s.sequence) && s.registryBlock.None? && s.deliveries == []
      && (s.holder.Nobody? ==> s.stopped)
    case EofReady =>
      s.stopped && s.deliveries == [] && |s.shared| == s.sequence && s.descriptor == Some(Descriptor(s.sequence, true))
    case Closing => s.stopped
    case Closed => s.stopped
  }

  predicate DeliveriesInv(s: State) {
    && |s.deliveries| <= 1
    && (s.deliveries != [] ==>
          && (s.phase.DeliverySelected? || s.phase.Closing? || s.phase.Closed?)
          && (s.deliveries[0].payload.Data? ==>
                s.deliveries[0].descriptor == Descriptor(s.sequence, false) && |s.shared| == s.sequence)
          && s.descriptor == Some(s.deliveries[0].descriptor)
          && (s.deliveries[0].payload.Eof? ==> s.stopped))
    && (s.pending.Some? ==> s.phase.DescriptorReady?)
    && (s.first.Some? ==> s.phase.Ready? && s.shared == [])
    && (s.eofTail ==> s.phase.EofReady?)
    && (!s.phase.Opening? && !s.phase.Closing? && !s.phase.Closed? ==> s.prepared)
    && (!s.open.Settled? ==> Unopened(s))
  }

  /** What the attempt that holds the lock may rely on. */
  predicate HolderInv(s: State) {
    match s.holder
    case Nobody => true
    case NextBlocked(q) => s.prepared && s.phase.Ready? && q == s.sequence && s.first.None? && !s.lost && !s.sawEof
    case NextRefreshing(q, _) => s.prepared && s.phase.Ready? && q == s.sequence && s.first.None? && !s.lost && !s.sawEof
    case NextDraining(q, _) => s.prepared && s.phase.Closing? && q == s.sequence && |s.shared| == s.sequence && s.deliveries == []
    case AckObserving(q) => s.prepared && q == s.sequence == s.acknowledged
      && (s.phase.AwaitingAcknowledgment? || s.phase.ReleasePending?)
    case AckWaiting(q, r) => s.prepared && q == s.sequence == s.acknowledged == r && s.phase.ReleasePending?
    case CloseObserving => s.prepared
    case CloseDraining => s.phase.Closing?
  }

  /** No control waits to be taken while an attempt holds the lock. */
  predicate ControlInv(s: State) {
    s.control.Some? ==> s.holder.Nobody?
  }

  /**
   * The sequence counts the blocks acknowledged; one more only after a late refusal, which stops the
   * reader. Only a stopped reader is cleaned up.
   */
  predicate AckInv(s: State) {
    && (s.cleanupStarted ==> s.stopped)
    && (s.sequence == s.acknowledged || (s.sequence == s.acknowledged + 1 && s.stopped))
    && (s.lastAck.Some? ==> s.lastAck.value.sequence + 1 == s.sequence)
  }

  ghost predicate Inv(s: State) {
    Account(s) && Frames(s) && PhaseInv(s) && DeliveriesInv(s) && HolderInv(s) && ControlInv(s) && AckInv(s)
  }

  // ---------------------------------------------------------------------------------------------
  // Stopping
  // ---------------------------------------------------------------------------------------------

  lemma {:induction false} InitialInv()
    ensures Inv(Initial())
  {
  }

  lemma {:induction false} StopKept(s: State)
    requires Inv(s)
    ensures Inv(Stop(s))
  {
    SignalKept(s);
    ControlKept(s.(stopped := true), s.control, true);
  }

  lemma {:induction false} AbandonKept(s: State)
    requires Inv(s) && !s.holder.Nobody?
    ensures Inv(Abandon(s))
  {
  }

  // ---------------------------------------------------------------------------------------------
  // Frames
  // ---------------------------------------------------------------------------------------------

  lemma {:induction false} FrameUpdated(s: State, i: nat, f: Shared)
    requires Frames(s) && i < |s.shared| && FrameInv(f, i, s.registryBlock, s.sequence)
    ensures Frames(s.(shared := s.shared[i := f]))
  {
  }

  lemma {:induction false} HoldReleased(s: State)
    requires Frames(s)
    ensures Frames(s.(registryBlock := None, shared := Unheld(s.shared, s.registryBlock)))
  {
  }

  /** Once stopped, an entry may give up everything it owns. */
  lemma {:induction false} CloseOwnedKept(s: State)
    requires Inv(s) && s.stopped && (s.holder.Nobody? || s.holder.CloseObserving?)
    ensures Inv(CloseOwned(s))
  {
    HoldReleased(s);
  }

  lemma {:induction false} CloseOwnedShape(s: State)
    ensures CloseOwned(s).phase.Closing? && CloseOwned(s).holder == s.holder && CloseOwned(s).stopped == s.stopped
    ensures CloseOwned(s).control == s.control
  {
  }

  /** The phase and the owner of the lock after everything was given up. */
  lemma {:induction false} ClosedKept(s: State, phase: Phase, holder: Holder)
    requires Inv(s) && s.control.None? && s.phase.Closing? && s.stopped
              && (phase.Closing? || (phase.Closed? && s.holder.CloseDraining?))
    requires holder.Nobody? || (holder.CloseDraining? && phase.Closing? && !s.holder.Nobody?)
              || (holder.CloseObserving? && s.holder == holder)
    ensures Inv(s.(phase := phase, holder := holder))
  {
  }

  // ---------------------------------------------------------------------------------------------
  // Open and next
  // ---------------------------------------------------------------------------------------------

  lemma {:induction false} PrepareKept(s: State, ok: bool)
    requires Inv(s)
    ensures Inv(Prepare(s, ok))
  {
  }

  lemma {:induction false} OpenFailsKept(s: State)
    requires Inv(s)
    ensures Inv(OpenFails(s))
  {
  }

  lemma {:induction false} OpenCommitsKept(s: State)
    requires Inv(s)
    ensures Inv(OpenCommits(s).state)
  {
    OpenFailsKept(s);
  }

  lemma {:induction false} NextStartsKept(s: State, sequence: nat, attached: bool)
    requires Inv(s)
    ensures Inv(NextStarts(s, sequence, attached).state)
  {
  }

  lemma {:induction false} ArrivalKept(s: State)
    requires Inv(s) && s.holder.NextBlocked?
    ensures Inv(s.(produced := s.produced + 1, holder := NextRefreshing(s.holder.sequence, s.produced)))
  {
    var t := s.(produced := s.produced + 1, holder := NextRefreshing(s.holder.sequence, s.produced));
    assert Holders(s) == [] && Holders(t) == [s.produced];
  }

  lemma {:induction false} NextProducedKept(s: State, ok: bool)
    requires Inv(s)
    ensures Inv(NextProduced(s, ok).state)
  {
    if s.holder.NextBlocked? {
      if ok {
        ArrivalKept(s);
      } else {
        AbandonKept(s);
      }
    }
  }

  lemma {:induction false} NextRefreshedKept(s: State, result: Refresh)
    requires Inv(s)
    ensures Inv(NextRefreshed(s, result).state)
  {
    if s.holder.NextRefreshing? && result.Stale? {
      AbandonKept(s);
    }
  }

  lemma {:induction false} NextDrainedKept(s: State, ok: bool)
    requires Inv(s)
    ensures Inv(NextDrained(s, ok).state)
  {
    if s.holder.NextDraining? && !ok {
      AbandonKept(s);
    }
  }

  // ---------------------------------------------------------------------------------------------
  // Delivery
  // ---------------------------------------------------------------------------------------------

  lemma {:induction false} TakeDeliveryKept(s: State, sequence: nat)
    requires Inv(s)
    ensures Inv(TakeDelivery(s, sequence).state)
  {
  }

  lemma {:induction false} DropDeliveryKept(s: State, i: nat)
    requires Inv(s)
    ensures Inv(DropDelivery(s, i))
  {
  }

  /** With all earlier frames gone, a new one takes the next place. */
  lemma {:induction false} FrameAdded(s: State)
    requires Frames(s) && |s.shared| == s.sequence
    ensures var n := |s.shared|;
            Frames(s.(shared := s.shared + [Shared(n, n, true, 1, Leased)], registryBlock := Some(n)))
  {
    var n := |s.shared|;
    var after := s.shared + [Shared(n, n, true, 1, Leased)];
    forall i | 0 <= i < |after| ensures FrameInv(after[i], i, Some(n), s.sequence) {
      if i < n {
        assert FrameInv(s.shared[i], i, s.registryBlock, s.sequence);
      }
    }
  }

  lemma {:induction false} HandoffData(s: State)
    requires Inv(s) && s.deliveries != [] && s.deliveries[0].payload.Data?
    requires s.holder.Nobody? && s.phase.DeliverySelected? && !s.stopped
    ensures Inv(Handoff(s, 0, true, true).state)
  {
    FrameAdded(s);
    assert Holders(s)[|Holders(s)| - 1] == s.deliveries[0].payload.block;
    assert Without(s.deliveries, 0) == [];
  }

  lemma {:induction false} HandoffEof(s: State)
    requires Inv(s) && s.deliveries != [] && s.deliveries[0].payload.Eof? && s.holder.Nobody?
    ensures Inv(Handoff(s, 0, true, true).state)
  {
    DropDeliveryKept(s, 0);
    assert Without(s.deliveries, 0) == [];
  }

  lemma {:induction false} HandoffKept(s: State, i: nat, matches: bool, current: bool)
    requires Inv(s)
    ensures Inv(Handoff(s, i, matches, current).state)
  {
    DropDeliveryKept(s, i);
    if i < |s.deliveries| && matches && current && s.holder.Nobody? {
      if s.deliveries[0].payload.Eof? {
        HandoffEof(s);
      } else if s.phase.DeliverySelected? && !s.stopped {
        HandoffData(s);
      }
    }
  }

  // ---------------------------------------------------------------------------------------------
  // Carriers
  // ---------------------------------------------------------------------------------------------

  /** Replacing a frame by one that is in order. */
  lemma {:induction false} FrameKept(s: State, i: nat, f: Shared)
    requires Inv(s) && i < |s.shared| && FrameInv(f, i, s.registryBlock, s.sequence)
    ensures Inv(s.(shared := s.shared[i := f]))
  {
    FrameUpdated(s, i, f);
  }

  lemma {:induction false} CarrierKept(s: State, i: nat, carriers: nat)
    requires Inv(s) && i < |s.shared| && s.shared[i].carriers > 0
    ensures Inv(s.(shared := s.shared[i := s.shared[i].(carriers := carriers)]))
  {
    FrameKept(s, i, s.shared[i].(carriers := carriers));
  }

  lemma {:induction false} CloneKept(s: State, i: nat)
    requires Inv(s)
    ensures Inv(CloneCarrier(s, i))
  {
    if i < |s.shared| && s.shared[i].carriers > 0 {
      CarrierKept(s, i, s.shared[i].carriers + 1);
    }
  }

  lemma {:induction false} DropCarrierKept(s: State, i: nat)
    requires Inv(s)
    ensures Inv(DropCarrier(s, i))
  {
    if i < |s.shared| && s.shared[i].carriers > 0 {
      CarrierKept(s, i, s.shared[i].carriers - 1);
    }
  }

  lemma {:induction false} DisposeKept(s: State, i: nat)
    requires Inv(s)
    ensures Inv(Dispose(s, i))
  {
    if i < |s.shared| && Unreferenced(s.shared[i]) {
      var f := s.shared[i];
      if f.disposal.Leased? {
        FrameKept(s, i, f.(disposal := LeaseFreed));
      } else {
        FrameKept(s, i, f.(disposal := Released));
      }
    }
  }

  // ---------------------------------------------------------------------------------------------
  // Acknowledge, close, cleanup
  // ---------------------------------------------------------------------------------------------

  /** The invariant does not speak about controls and the cleanup flag. */
  lemma {:induction false} ControlKept(s: State, control: Option<Control>, cleanupStarted: bool)
    requires Inv(s) && (cleanupStarted ==> s.stopped) && (control.Some? ==> s.holder.Nobody?)
    ensures Inv(s.(control := control, cleanupStarted := cleanupStarted))
  {
    assert Holders(s.(control := control, cleanupStarted := cleanupStarted)) == Holders(s);
  }

  lemma {:induction false} AckHolds(s: State, sequence: nat)
    requires Inv(s) && s.holder.Nobody? && s.control.None? && !s.stopped && s.prepared && s.sequence == sequence
    requires s.phase.AwaitingAcknowledgment? || s.phase.ReleasePending?
    ensures Inv(s.(holder := AckObserving(sequence)))
  {
    assert Holders(s.(holder := AckObserving(sequence))) == Holders(s);
  }

  /** Giving up before anything is held. */
  lemma {:induction false} AbandonIdle(s: State)
    requires Inv(s) && s.holder.Nobody?
    ensures Inv(Abandon(s))
  {
    StopKept(s);
    assert Abandon(s) == Stop(s);
  }

  lemma {:induction false} AckStartsKept(s: State, sequence: nat, now: Instant, deadline: Instant, attached: bool, current: bool)
    requires Inv(s)
    ensures Inv(AckStarts(s, sequence, now, deadline, attached, current).state)
  {
    if s.holder.Nobody? && s.control.None? {
      if IsDuplicate(s, sequence) {
        StopKept(s);
        ControlKept(s, Some(AcknowledgedControl(s.lastAck.value)), s.cleanupStarted);
      } else {
        AbandonIdle(s);
        if s.sequence == sequence && (s.phase.AwaitingAcknowledgment? || s.phase.ReleasePending?)
          && Budget(s, attached) && s.prepared {
          AckHolds(s, sequence);
        }
      }
    }
  }

  /** The registry's hold is gone, and the attempt waits for the last carrier. */
  lemma {:induction false} WaitingKept(s: State, holder: Holder)
    requires Inv(s) && s.holder.AckObserving? && (s.phase.AwaitingAcknowledgment? || s.phase.ReleasePending?)
    requires holder == AckWaiting(s.sequence, s.sequence)
    ensures Inv(s.(phase := ReleasePending, registryBlock := None, shared := Unheld(s.shared, s.registryBlock), holder := holder))
  {
    HoldReleased(s);
  }

  lemma {:induction false} AckObservedKept(s: State, ok: bool)
    requires Inv(s)
    ensures Inv(AckObserved(s, ok).state)
  {
    if s.holder.AckObserving? {
      if !ok {
        AbandonKept(s);
      } else {
        WaitingKept(s, AckWaiting(s.sequence, s.sequence));
        assert s.phase.ReleasePending? ==> Unheld(s.shared, s.registryBlock) == s.shared;
      }
    }
  }

  /** The released frame is counted, and the reader is ready for its next block. */
  lemma {:induction false} GrantKept(s: State, ack: Acknowledgment)
    requires Inv(s) && s.holder.AckWaiting? && s.shared[s.sequence].disposal.Released? && ack.sequence == s.sequence
    ensures Inv(s.(sequence := s.sequence + 1, lastAck := Some(ack), released := None, descriptor := None, phase := Ready,
                   control := Some(AcknowledgedControl(ack)), holder := Nobody, acknowledged := s.acknowledged + 1))
  {
  }

  lemma {:induction false} LateKept(s: State, ack: Acknowledgment)
    requires Inv(s) && s.holder.AckWaiting? && s.shared[s.sequence].disposal.Released? && ack.sequence == s.sequence
    ensures Inv(Abandon(s.(sequence := s.sequence + 1, lastAck := Some(ack), released := None, descriptor := None, phase := Ready)))
  {
  }

  lemma {:induction false} AckReleasedKept(s: State, validBefore: Instant, current: bool, stillCurrent: bool)
    requires Inv(s)
    ensures Inv(AckReleased(s, validBefore, current, stillCurrent).state)
  {
    if s.holder.AckWaiting? && s.shared[s.sequence].disposal.Released? {
      AbandonKept(s);
      GrantKept(s, Acknowledgment(s.sequence, validBefore));
      LateKept(s, Acknowledgment(s.sequence, validBefore));
    }
  }

  lemma {:induction false} CloseHolds(s: State)
    requires Inv(s) && s.holder.Nobody? && s.control.None? && !s.stopped && s.prepared
    ensures Inv(s.(holder := CloseObserving))
  {
    assert Holders(s.(holder := CloseObserving)) == Holders(s);
  }

  lemma {:induction false} CloseStartsKept(s: State, attached: bool)
    requires Inv(s)
    ensures Inv(CloseStarts(s, attached).state)
  {
    if s.holder.Nobody? && s.control.None? {
      AbandonIdle(s);
      if Budget(s, attached) && s.prepared {
        CloseHolds(s);
      }
    }
  }

  lemma {:induction false} SignalKept(s: State)
    requires Inv(s)
    ensures Inv(s.(stopped := true))
  {
    assert Holders(s.(stopped := true)) == Holders(s);
  }

  lemma {:induction false} CloseObservedKept(s: State, ok: bool)
    requires Inv(s)
    ensures Inv(CloseObserved(s, ok).state)
  {
    if s.holder.CloseObserving? {
      if !ok {
        AbandonKept(s);
      } else {
        var stopped := s.(stopped := true);
        SignalKept(s);
        CloseOwnedKept(stopped);
        CloseOwnedShape(stopped);
        ClosedKept(CloseOwned(stopped), Closing, CloseDraining);
      }
    }
  }

  lemma {:induction false} CloseDrainedKept(s: State, ok: bool, validBefore: Instant)
    requires Inv(s)
    ensures Inv(CloseDrained(s, ok, validBefore).state)
  {
    if s.holder.CloseDraining? {
      if !ok {
        AbandonKept(s);
      } else {
        var closed := s.(phase := Closed, holder := Nobody);
        ClosedKept(s, Closed, Nobody);
        StopKept(closed);
        assert Abandon(s.(phase := Closed)) == Stop(closed);
        ControlKept(closed, Some(ClosedControl(validBefore)), true);
      }
    }
  }

  lemma {:induction false} EofKept(s: State)
    requires Inv(CloseOwned(s)) && Inv(s) && s.phase.EofReady? && s.holder.Nobody?
    ensures Inv(CloseOwned(s).(eofTail := true, phase := EofReady))
  {
  }

  lemma {:induction false} CleanupKept(s: State, now: Instant)
    requires Inv(s)
    ensures Inv(Cleanup(s, now))
  {
    if s.cleanupStarted && s.holder.Nobody? {
      CloseOwnedKept(s);
      ControlKept(CloseOwned(s), None, true);
      if s.phase.EofReady? {
        EofKept(s);
        ControlKept(CloseOwned(s).(eofTail := true, phase := EofReady), None, true);
      }
    }
  }

  // ---------------------------------------------------------------------------------------------
  // Every interleaving
  // ---------------------------------------------------------------------------------------------

  lemma {:induction false} CancelKept(s: State)
    requires Inv(s)
    ensures Inv(CancelAttempt(s))
  {
    if !s.holder.Nobody? {
      AbandonKept(s);
    }
  }

  lemma {:induction false} ReadKept(s: State, a: ReadAction)
    requires Inv(s)
    ensures Inv(ActRead(s, a))
  {
    match a
    case PreparationEnds(ok) => PrepareKept(s, ok);
    case OpeningFails => OpenFailsKept(s);
    case OpeningCommits => OpenCommitsKept(s);
    case NextBegins(sequence, attached) => NextStartsKept(s, sequence, attached);
    case BlockArrives(ok) => NextProducedKept(s, ok);
    case BlockRefreshes(result) => NextRefreshedKept(s, result);
    case ProducerDrains(ok) => NextDrainedKept(s, ok);
    case DeliveryTaken(sequence) => TakeDeliveryKept(s, sequence);
  }

  lemma {:induction false} TransportKept(s: State, a: TransportAction)
    requires Inv(s)
    ensures Inv(ActTransport(s, a))
  {
    match a
    case DeliveryDropped(i) => DropDeliveryKept(s, i);
    case HandedOff(i, matches, current) => HandoffKept(s, i, matches, current);
    case CarrierCloned(i) => CloneKept(s, i);
    case CarrierDropped(i) => DropCarrierKept(s, i);
    case FrameDisposes(i) => DisposeKept(s, i);
  }

  lemma {:induction false} ManageKept(s: State, a: ControlAction)
    requires Inv(s)
    ensures Inv(ActControl(s, a))
  {
    match a
    case AckBegins(sequence, now, deadline, attached, current) => AckStartsKept(s, sequence, now, deadline, attached, current);
    case AckObserves(ok) => AckObservedKept(s, ok);
    case AckCompletes(validBefore, current, stillCurrent) => AckReleasedKept(s, validBefore, current, stillCurrent);
    case CloseBegins(attached) => CloseStartsKept(s, attached);
    case CloseObserves(ok) => CloseObservedKept(s, ok);
    case CloseCompletes(ok, validBefore) => CloseDrainedKept(s, ok, validBefore);
    case ControlTaken => ControlKept(s, None, s.cleanupStarted);
    case Cancelled => CancelKept(s);
    case Stopped => StopKept(s);
    case CleanupPasses(now) => CleanupKept(s, now);
  }

  /** The invariant holds after every interleaving. */
  lemma {:induction false} RunKept(actions: seq<Action>)
    ensures Inv(Run(actions))
  {
    if actions == [] {
      InitialInv();
    } else {
      var s := Run(actions[..|actions| - 1]);
      RunKept(actions[..|actions| - 1]);
      match actions[|actions| - 1]
      case Read(r) => ReadKept(s, r);
      case Transport(t) => TransportKept(s, t);
      case Manage(c) => ManageKept(s, c);
    }
  }

  // ---------------------------------------------------------------------------------------------
  // What a client and the transport can rely on
  // ---------------------------------------------------------------------------------------------

  /** Blocks reach the transport in the order of the producer, none twice, none left out. */
  lemma {:induction false} HandedInOrder(actions: seq<Action>, i: nat)
    requires i < |Run(actions).shared|
    ensures Run(actions).shared[i].block == i && Run(actions).shared[i].sequence == i
  {
    RunKept(actions);
    assert FrameInv(Run(actions).shared[i], i, Run(actions).registryBlock, Run(actions).sequence);
  }

  /** Outside the transport a block has at most one owner, and it is the next block; a lost one stops the reader. */
  lemma {:induction false} OneOwner(actions: seq<Action>)
    ensures var s := Run(actions);
            && |Holders(s)| <= 1 && (forall b :: b in Holders(s) ==> b == |s.shared|)
            && (s.produced == |s.shared| + |Holders(s)| || s.stopped)
  {
    RunKept(actions);
  }

  /** At most one handed-off block is not acknowledged yet, and every other one is disposed of. */
  lemma {:induction false} OneOutstanding(actions: seq<Action>, i: nat)
    requires i < |Run(actions).shared|
    ensures var s := Run(actions);
            s.shared[i].disposal.Released? || (i == s.sequence && i == |s.shared| - 1)
  {
    RunKept(actions);
    var s := Run(actions);
    assert FrameInv(s.shared[i], i, s.registryBlock, s.sequence);
  }

  /** A fresh acknowledgement is granted only once the last carrier of its block is gone and its lease is free. */
  lemma {:induction false} AcknowledgedMeansDisposed(actions: seq<Action>, validBefore: Instant, current: bool,
                                                     stillCurrent: bool)
    requires AckReleased(Run(actions), validBefore, current, stillCurrent).reply.Served?
    ensures var s, after := Run(actions), AckReleased(Run(actions), validBefore, current, stillCurrent).state;
            && s.sequence < |s.shared| && Unreferenced(s.shared[s.sequence]) && s.shared[s.sequence].disposal.Released?
            && after.sequence == s.sequence + 1 == after.acknowledged
            && after.lastAck == Some(Acknowledgment(s.sequence, validBefore))
  {
    RunKept(actions);
    var s := Run(actions);
    assert FrameInv(s.shared[s.sequence], s.sequence, s.registryBlock, s.sequence);
  }

  /** The frame is released, the first look at the tail allows the acknowledgement, and the second refuses it. */
  predicate RefusesLate(s: State, a: Action) {
    && a.Manage? && a.control.AckCompletes? && a.control.current && !a.control.stillCurrent
    && s.holder.AckWaiting? && s.holder.release < |s.shared| && s.shared[s.holder.release].disposal.Released?
    && s.sequence < U32_MAX
  }

  /** Step `k` of this run was such a late refusal. */
  predicate RefusedLateAt(actions: seq<Action>, k: nat)
    requires k < |actions|
  {
    RefusesLate(Run(actions[..k]), actions[k])
  }

  /** Sequence and count only move together, but for a late refusal. */
  lemma {:induction false} OtherCounts(s: State, a: Action)
    requires !(a.Manage? && a.control.AckCompletes?)
    ensures SameCount(s, Act(s, a))
  {
  }

  lemma {:induction false} StepCounts(s: State, a: Action)
    requires Inv(s)
    ensures RefusesLate(s, a) ==>
              s.sequence == s.acknowledged && Act(s, a).sequence == s.sequence + 1 && Act(s, a).acknowledged == s.acknowledged
    ensures !RefusesLate(s, a) ==> Act(s, a).sequence - Act(s, a).acknowledged == s.sequence - s.acknowledged
  {
    if a.Manage? && a.control.AckCompletes? {
      AckReleasedCounts(s, a.control.validBefore, a.control.current, a.control.stillCurrent);
    } else {
      OtherCounts(s, a);
    }
  }

  lemma {:induction false} AckReleasedCounts(s: State, validBefore: Instant, current: bool, stillCurrent: bool)
    requires Inv(s)
    ensures var t, late := AckReleased(s, validBefore, current, stillCurrent).state,
                           RefusesLate(s, Manage(AckCompletes(validBefore, current, stillCurrent)));
            && (late ==> s.sequence == s.acknowledged && t.sequence == s.sequence + 1 && t.acknowledged == s.acknowledged)
            && (!late ==> t.sequence - t.acknowledged == s.sequence - s.acknowledged)
  {
  }

  lemma {:induction false} LastCounts(actions: seq<Action>)
    requires actions != []
    ensures var front := Run(actions[..|actions| - 1]);
            var late := RefusesLate(front, actions[|actions| - 1]);
            && (late ==> front.sequence == front.acknowledged && Run(actions).sequence == Run(actions).acknowledged + 1)
            && (!late ==> Run(actions).sequence - Run(actions).acknowledged == front.sequence - front.acknowledged)
  {
    RunKept(actions[..|actions| - 1]);
    StepCounts(Run(actions[..|actions| - 1]), actions[|actions| - 1]);
  }

  predicate RefusedLate(actions: seq<Action>) {
    exists k :: 0 <= k < |actions| && RefusedLateAt(actions, k)
  }

  lemma {:induction false} RefusedLateStep(actions: seq<Action>)
    requires actions != []
    ensures var front := actions[..|actions| - 1];
            RefusedLate(actions) <==> RefusedLate(front) || RefusesLate(Run(front), actions[|actions| - 1])
  {
    var front := actions[..|actions| - 1];
    forall k | 0 <= k < |front| ensures RefusedLateAt(actions, k) == RefusedLateAt(front, k) {
      assert front[..k] == actions[..k];
    }
    assert RefusedLateAt(actions, |front|) == RefusesLate(Run(front), actions[|front|]);
  }

  /** The sequence is the number of blocks acknowledged, or one more exactly if a late refusal has happened. */
  lemma {:induction false} SequenceCounts(actions: seq<Action>)
    ensures Run(actions).sequence == Run(actions).acknowledged + if RefusedLate(actions) then 1 else 0
  {
    if actions != [] {
      SequenceCounts(actions[..|actions| - 1]);
      LastCounts(actions);
      RefusedLateStep(actions);
    }
  }

  /** Such a reader is stopped. */
  lemma {:induction false} AheadIsStopped(actions: seq<Action>)
    requires RefusedLate(actions)
    ensures Run(actions).stopped
  {
    RunKept(actions);
    SequenceCounts(actions);
  }

  /** The first block is read, handed off, and its frame released while its acknowledgement waits. */
  const RELEASED: seq<Action> := [
    Read(PreparationEnds(true)), Read(OpeningCommits), Manage(ControlTaken),
    Read(NextBegins(0, true)), Read(BlockRefreshes(Bytes)), Read(DeliveryTaken(0)),
    Transport(HandedOff(0, true, true)), Manage(AckBegins(0, 0, 1, true, true)), Manage(AckObserves(true)),
    Transport(CarrierDropped(0)), Transport(FrameDisposes(0)), Transport(FrameDisposes(0))]

  lemma {:induction false} RunOne(actions: seq<Action>, n: nat)
    requires n < |actions|
    ensures Run(actions[..n + 1]) == Act(Run(actions[..n]), actions[n])
  {
    assert actions[..n + 1][..n] == actions[..n];
  }

  lemma {:induction false} ReadToReady()
    ensures var s := Run(RELEASED[..3]);
            && s.phase.Ready? && s.prepared && !s.stopped && s.holder.Nobody? && s.control.None?
            && s.sequence == 0 && s.acknowledged == 0 && s.lastAck.None? && s.first == Some(0)
            && s.deliveries == [] && s.shared == []
  {
    assert RELEASED[..0] == [];
    RunOne(RELEASED, 0);
    RunOne(RELEASED, 1);
    RunOne(RELEASED, 2);
  }

  lemma {:induction false} ReadToDescriptor()
    ensures var s := Run(RELEASED[..5]);
            && s.phase.DescriptorReady? && s.prepared && !s.stopped && s.holder.Nobody? && s.control.None?
            && s.sequence == 0 && s.acknowledged == 0 && s.lastAck.None? && s.pending == Some(0)
            && s.descriptor == Some(Descriptor(0, false)) && s.deliveries == [] && s.shared == []
  {
    ReadToReady();
    RunOne(RELEASED, 3);
    RunOne(RELEASED, 4);
  }

  lemma {:induction false} ReadToHandoff()
    ensures var s := Run(RELEASED[..7]);
            && s.phase.AwaitingAcknowledgment? && s.prepared && !s.stopped && s.holder.Nobody? && s.control.None?
            && s.sequence == 0 && s.lastAck.None? && s.registryBlock == Some(0) && s.released == Some(0)
            && s.shared == [Shared(0, 0, true, 1, Leased)] && s.acknowledged == 0
  {
    ReadToDescriptor();
    RunOne(RELEASED, 5);
    RunOne(RELEASED, 6);
  }

  lemma {:induction false} HandoffToWaiting()
    ensures var s := Run(RELEASED[..9]);
            && s.holder == AckWaiting(0, 0) && s.sequence == 0 && s.acknowledged == 0
            && s.shared == [Shared(0, 0, false, 1, Leased)]
  {
    ReadToHandoff();
    RunOne(RELEASED, 7);
    RunOne(RELEASED, 8);
  }

  lemma {:induction false} LastCarrierGoes()
    ensures var s := Run(RELEASED[..10]);
            && s.holder == AckWaiting(0, 0) && s.sequence == 0 && s.acknowledged == 0
            && s.shared == [Shared(0, 0, false, 0, Leased)]
  {
    HandoffToWaiting();
    RunOne(RELEASED, 9);
  }

  lemma {:induction false} LeaseIsFreed()
    ensures var s := Run(RELEASED[..11]);
            && s.holder == AckWaiting(0, 0) && s.sequence == 0 && s.acknowledged == 0
            && s.shared == [Shared(0, 0, false, 0, LeaseFreed)]
  {
    LastCarrierGoes();
    RunOne(RELEASED, 10);
  }

  lemma {:induction false} ReleasedWaits()
    ensures var s := Run(RELEASED);
            && s.holder == AckWaiting(0, 0) && s.sequence == 0 && s.acknowledged == 0
            && s.shared == [Shared(0, 0, false, 0, Released)]
  {
    LeaseIsFreed();
    RunOne(RELEASED, 11);
    assert |RELEASED| == 12;
    assert RELEASED[..12] == RELEASED;
  }

  /** A late refusal does happen: this run ends with sequence 1 and nothing acknowledged. */
  lemma {:induction false} LateRefusal(validBefore: Instant)
    ensures var s := Run(RELEASED + [Manage(AckCompletes(validBefore, true, false))]);
            s.sequence == 1 && s.acknowledged == 0 && s.stopped
  {
    var a := Manage(AckCompletes(validBefore, true, false));
    ReleasedWaits();
    assert (RELEASED + [a])[..|RELEASED|] == RELEASED;
  }

  /** Repeating the last acknowledgement changes neither the sequence nor the window it is valid in. */
  lemma {:induction false} RepeatChangesNothing(s: State, now: Instant, deadline: Instant, attached: bool, current: bool)
    requires Inv(s) && s.lastAck.Some?
    ensures var r := AckStarts(s, s.lastAck.value.sequence, now, deadline, attached, current);
            && r.state.sequence == s.sequence && r.state.acknowledged == s.acknowledged && r.state.lastAck == s.lastAck
            && r.state.shared == s.shared && r.state.phase == s.phase
            && (r.reply.Served? <==>
                  s.holder.Nobody? && s.control.None? && !s.stopped && now < deadline
                    && now < s.lastAck.value.validBefore && current)
            && (r.reply.Served? ==> r.state.control == Some(AcknowledgedControl(s.lastAck.value)))
  {
  }

  /** The registry's reference is the only one the acknowledgement gives up before it waits. */
  lemma {:induction false} AckObservedMeans(s: State, ok: bool)
    requires Inv(s)
    ensures var r := AckObserved(s, ok);
            && |r.state.shared| == |s.shared|
            && (r.reply.Waiting? ==>
                  |s.shared| == r.state.sequence + 1
                  && forall i :: 0 <= i < |s.shared| ==>
                    !r.state.shared[i].registry && r.state.shared[i].carriers == s.shared[i].carriers)
            && (r.reply.Refused? ==> r.state.stopped)
  {
    forall i | 0 <= i < |s.shared| ensures s.shared[i].registry <==> s.registryBlock == Some(i) {
      assert FrameInv(s.shared[i], i, s.registryBlock, s.sequence);
    }
  }

  /** A granted acknowledgement is of a frame that nobody refers to and that is released. */
  lemma {:induction false} AckReleasedMeans(s: State, validBefore: Instant, current: bool, stillCurrent: bool)
    requires Inv(s)
    ensures var r, k := AckReleased(s, validBefore, current, stillCurrent), s.sequence;
            && (r.reply.Served? ==>
                  k < |s.shared| && r.state.shared == s.shared && Unreferenced(s.shared[k]) && s.shared[k].disposal.Released?
                  && r.state.sequence == k + 1 == r.state.acknowledged
                  && r.state.control == Some(AcknowledgedControl(Acknowledgment(k, validBefore))))
            && (r.reply.Refused? ==> r.state.stopped && r.state.acknowledged == s.acknowledged)
  {
    if s.sequence < |s.shared| {
      assert FrameInv(s.shared[s.sequence], s.sequence, s.registryBlock, s.sequence);
    }
  }

  /** A close gives up everything but a selected delivery. */
  lemma {:induction false} CloseObservedMeans(s: State, ok: bool)
    requires Inv(s)
    ensures var r := CloseObserved(s, ok);
            && (r.reply.Waiting? ==>
                  r.state.stopped && Holders(r.state) == DeliveredBlock(r.state)
                  && forall i :: 0 <= i < |r.state.shared| ==> !r.state.shared[i].registry)
            && (r.reply.Refused? ==> r.state.stopped)
  {
    if CloseObserved(s, ok).reply.Waiting? {
      forall i | 0 <= i < |s.shared| ensures s.shared[i].registry <==> s.registryBlock == Some(i) {
        assert FrameInv(s.shared[i], i, s.registryBlock, s.sequence);
      }
      assert [] + [] + [] + [] + DeliveredBlock(s) == DeliveredBlock(s);
    }
  }

  /** A pending block is the next one, and nobody else holds it. */
  lemma {:induction false} PendingIsNext(s: State)
    requires Inv(s) && s.pending.Some?
    ensures s.pending.value == |s.shared| && Holders(s) == [|s.shared|]
  {
    assert s.pending.value in Holders(s);
  }

  lemma {:induction false} CloseOwnedHolds(s: State)
    requires Inv(s) && s.stopped && s.holder.Nobody?
    ensures Holders(CloseOwned(s)) == OpeningBlock(s) + DeliveredBlock(s)
    ensures forall i :: 0 <= i < |s.shared| ==> !CloseOwned(s).shared[i].registry
  {
    assert OpeningBlock(s) + [] + [] + [] + DeliveredBlock(s) == OpeningBlock(s) + DeliveredBlock(s);
    forall i | 0 <= i < |s.shared| ensures !CloseOwned(s).shared[i].registry {
      assert FrameInv(s.shared[i], i, s.registryBlock, s.sequence);
    }
  }

  /** What is left after a pass of the cleanup: an opening attempt's block, a selected one, and what may still be fetched. */
  lemma {:induction false} CleanupGivesUp(s: State, now: Instant)
    requires Inv(s) && s.cleanupStarted && s.holder.Nobody?
    ensures var t := Cleanup(s, now);
            && Holders(t) == OpeningBlock(s) + DeliveredBlock(s)
            && (forall i :: 0 <= i < |t.shared| ==> !t.shared[i].registry)
            && (t.eofTail <==> s.phase.EofReady? && s.eofTail && now < s.terminalBefore)
            && (t.control.Some? ==> t.control == s.control && t.control.value.ClosedControl? && now < t.control.value.validBefore)
  {
    CloseOwnedHolds(s);
    CleanupKeepsClosed(s, now);
  }

  lemma {:induction false} CleanupKeepsClosed(s: State, now: Instant)
    requires s.cleanupStarted && s.holder.Nobody?
    ensures var t, closed := Cleanup(s, now), CloseOwned(s);
            && Holders(t) == Holders(closed) && t.shared == closed.shared && |t.shared| == |s.shared|
            && (t.eofTail <==> s.phase.EofReady? && s.eofTail && now < s.terminalBefore)
            && (t.control.Some? ==> t.control == s.control && t.control.value.ClosedControl? && now < t.control.value.validBefore)
  {
  }

  /** While a reader with an unlocked entry waits for its release, it has been stopped. */
  lemma {:induction false} ReleasePendingIsFinal(actions: seq<Action>)
    requires Run(actions).phase.ReleasePending? && Run(actions).holder.Nobody?
    ensures Run(actions).stopped
  {
    RunKept(actions);
  }
}
