/** The entry object of one reader. Each method is one critical section under the data lock. */
module ReaderEntry {
  import opened Wrappers
  import opened ReaderSpec
  import opened ReaderLaws
  import opened ReaderProgress

  /** What the data lock guards. */
  datatype EntryData = EntryData(
    phase: Phase,
    prepared: bool,
    first: Option<nat>,
    sequence: nat,
    lastAck: Option<Acknowledgment>,
    pending: Option<nat>,
    descriptor: Option<Descriptor>,
    registryBlock: Option<nat>,
    released: Option<nat>,
    eofTail: bool,
    terminalBefore: Instant)

  datatype History = History(produced: nat, acknowledged: nat, sawEof: bool, lost: bool)

  class Entry {
    var data: EntryData
    var open: OpenStage
    var stopped: bool
    var cleanupStarted: bool
    var control: Option<Control>
    var holder: Holder
    /** Bodies outside the entry: selected deliveries, and frames the transport shares. */
    var deliveries: seq<Delivery>
    var shared: seq<Shared>
    ghost var history: History

    ghost function S(): State
      reads this
    {
      State(open, stopped, cleanupStarted, data.phase, data.prepared, data.first, data.sequence, data.lastAck, data.pending,
            data.descriptor, data.registryBlock, data.released, data.eofTail, data.terminalBefore, control, holder,
            history.produced, deliveries, shared, history.acknowledged, history.sawEof, history.lost)
    }

    ghost predicate Valid()
      reads this
    {
      Inv(S())
    }

    /** Everyone who holds a block that has not been handed to the transport. */
    ghost function Owned(): seq<nat>
      reads this
    {
      Holders(S())
    }

    constructor ()
      ensures S() == Initial() && Valid()
    {
      data := EntryData(Opening, false, None, 0, None, None, None, None, None, false, 0);
      open, stopped, cleanupStarted, control, holder := Preparing, false, false, None, Nobody;
      deliveries, shared := [], [];
      history := History(0, 0, false, false);
      new;
      InitialInv();
    }

    ghost method Lose(happened: bool)
      modifies this`history
      ensures S() == old(S()).(lost := old(S()).lost || happened)
    {
      history := history.(lost := history.lost || happened);
    }

    /** Idempotent, and never waits for the data lock. */
    method Stop()
      modifies this`stopped, this`cleanupStarted
      ensures S() == ReaderSpec.Stop(old(S()))
    {
      stopped := true;
      cleanupStarted := true;
    }

    /** An accepted attempt that is dropped before it completes. */
    method Abandon()
      modifies this`stopped, this`cleanupStarted, this`holder, this`history
      ensures S() == ReaderSpec.Abandon(old(S()))
    {
      Lose(holder.NextRefreshing?);
      Stop();
      holder := Nobody;
    }

    method CloseOwned()
      modifies this`data, this`shared, this`history
      ensures S() == ReaderSpec.CloseOwned(old(S()))
    {
      Lose(data.pending.Some? || data.first.Some?);
      shared := Unheld(shared, data.registryBlock);
      data := data.(phase := Closing, pending := None, registryBlock := None, eofTail := false, lastAck := None, first := None);
    }

    method OpenFails()
      requires open.Prepared?
      modifies this`open, this`stopped, this`cleanupStarted, this`history
      ensures S() == ReaderSpec.OpenFails(old(S()))
    {
      open := Settled;
      Lose(true);
      Stop();
    }

    method OpenCommits() returns (reply: Reply)
      requires Valid()
      modifies this
      ensures ReaderSpec.OpenCommits(old(S())) == Outcome(S(), reply)
      ensures Valid()
      ensures reply.Served? <==> old(open.Prepared? && Admits(S(), true))
      ensures reply.Served? ==> !stopped && Owned() == [0] && shared == [] && control == Some(OpenedControl)
      ensures reply.Refused? ==> stopped
    {
      OpenCommitsExactly(S());
      OpenCommitsKept(S());
      if !open.Prepared? || !holder.Nobody? {
        return Busy;
      }
      if stopped {
        OpenFails();
        return Refused;
      }
      open := Settled;
      data := data.(prepared := true, first := Some(0), phase := Ready);
      if control.Some? {
        Stop();
        return Refused;
      }
      control := Some(OpenedControl);
      return Served;
    }

    /** The whole control budget, and a reader that has been opened. */
    method Admit(attached: bool) returns (ok: bool)
      modifies this`stopped, this`cleanupStarted, this`holder, this`history
      ensures ok <==> Budget(old(S()), attached) && data.prepared
      ensures S() == if Budget(old(S()), attached) && !data.prepared then ReaderSpec.Abandon(old(S())) else old(S())
    {
      if stopped || !attached {
        return false;
      }
      if !data.prepared {
        Abandon();
        return false;
      }
      return true;
    }

    method NextStarts(wanted: nat, attached: bool) returns (reply: Reply)
      requires Valid()
      modifies this
      ensures ReaderSpec.NextStarts(old(S()), wanted, attached) == Outcome(S(), reply)
      ensures Valid()
      ensures reply.Waiting? <==> old(Admits(S(), attached) && data.phase.Ready? && data.sequence == wanted)
      ensures reply.Waiting? ==> holder == if old(data.first.Some?) then NextRefreshing(wanted, 0) else NextBlocked(wanted)
      ensures reply.Waiting? ==> wanted == data.sequence == |shared| && Owned() == old(Owned()) && !stopped
      ensures !reply.Waiting? ==> stopped || S() == old(S())
    {
      NextStartsExactly(S(), wanted, attached);
      FirstIsZero(S());
      NextStartsKept(S(), wanted, attached);
      if !holder.Nobody? || data.sequence != wanted || !data.phase.Ready? || control.Some? {
        return Busy;
      }
      var admitted := Admit(attached);
      if !admitted {
        return Refused;
      }
      if data.first.Some? {
        holder := NextRefreshing(wanted, data.first.value);
        data := data.(first := None);
      } else {
        holder := NextBlocked(wanted);
      }
      return Waiting;
    }

    /** `block` is what the producer answers with. */
    method NextProduced(ok: bool, block: nat) returns (reply: Reply)
      requires Valid()
      requires holder.NextBlocked? ==> block == history.produced
      modifies this
      ensures ReaderSpec.NextProduced(old(S()), ok) == Outcome(S(), reply)
      ensures Valid()
      ensures reply.Waiting? <==> old(holder.NextBlocked?) && ok
      ensures reply.Waiting? ==> old(Owned()) == [] && Owned() == [|shared|]
      ensures reply.Refused? ==> stopped
    {
      NextProducedExactly(S(), ok);
      NextProducedKept(S(), ok);
      if !holder.NextBlocked? {
        return Busy;
      }
      if !ok {
        Abandon();
        return Refused;
      }
      history := history.(produced := history.produced + 1);
      holder := NextRefreshing(holder.sequence, block);
      return Waiting;
    }

    method NextRefreshed(result: Refresh) returns (reply: Reply)
      requires Valid()
      modifies this
      ensures ReaderSpec.NextRefreshed(old(S()), result) == Outcome(S(), reply)
      ensures Valid()
      ensures reply.Served? <==> old(holder.NextRefreshing?) && result.Bytes?
      ensures reply.Waiting? <==> old(holder.NextRefreshing?) && result.ZeroRead?
      ensures reply.Served? ==>
                Owned() == [|shared|] && |shared| == data.sequence && data.descriptor == Some(Descriptor(|shared|, false))
      ensures reply.Waiting? ==> stopped && Owned() == []
      ensures reply.Refused? ==> stopped && Owned() == []
    {
      NextRefreshedExactly(S(), result);
      NextRefreshedKept(S(), result);
      if !holder.NextRefreshing? {
        return Busy;
      }
      var wanted, block := holder.sequence, holder.block;
      match result
      case Stale =>
        Abandon();
        return Refused;
      case Bytes =>
        data := data.(pending := Some(block), phase := DescriptorReady, descriptor := Some(Descriptor(wanted, false)));
        holder := Nobody;
        return Served;
      case ZeroRead(deadline) =>
        stopped := true;
        history := history.(sawEof := true);
        CloseOwned();
        holder := NextDraining(wanted, deadline);
        return Waiting;
    }

    method NextDrained(ok: bool) returns (reply: Reply)
      requires Valid()
      modifies this
      ensures ReaderSpec.NextDrained(old(S()), ok) == Outcome(S(), reply)
      ensures Valid()
      ensures reply.Served? <==> old(holder.NextDraining?) && ok
      ensures reply.Served? ==> data.eofTail && |shared| == data.sequence && data.descriptor == Some(Descriptor(|shared|, true))
      ensures reply.Served? || reply.Refused? ==> stopped && Owned() == []
    {
      NextDrainedKept(S(), ok);
      if !holder.NextDraining? {
        return Busy;
      }
      if !ok {
        Abandon();
        return Refused;
      }
      data := data.(eofTail := true, terminalBefore := holder.deadline, phase := EofReady,
                    descriptor := Some(Descriptor(holder.sequence, true)));
      holder := Nobody;
      cleanupStarted := true;
      return Served;
    }

    method TakeDelivery(wanted: nat) returns (reply: Reply)
      requires Valid()
      modifies this
      ensures ReaderSpec.TakeDelivery(old(S()), wanted) == Outcome(S(), reply)
      ensures Valid()
      ensures reply.Served? <==> old(holder.Nobody? && data.sequence == wanted
                                 && ((data.phase.DescriptorReady? && !stopped) || (data.phase.EofReady? && data.eofTail)))
      ensures reply.Served? ==>
                wanted == data.sequence == |shared| && |deliveries| == 1 && deliveries[0].descriptor.sequence == wanted
                && (if deliveries[0].payload.Data? then deliveries[0].payload == Data(wanted) && Owned() == [wanted] else stopped)
      ensures !reply.Served? ==> S() == old(S())
    {
      TakeDeliveryExactly(S(), wanted);
      TakeDeliveryKept(S(), wanted);
      if !holder.Nobody? || data.descriptor.None? || data.descriptor.value.sequence != wanted {
        return Busy;
      }
      var payload: Payload;
      if data.phase.DescriptorReady? && !stopped {
        if data.pending.None? {
          return Refused;
        }
        PendingIsNext(S());
        payload := Data(data.pending.value);
        data := data.(pending := None, phase := DeliverySelected);
      } else if data.phase.EofReady? && data.descriptor.value.eof {
        if !data.eofTail {
          return Refused;
        }
        payload := Eof;
        data := data.(eofTail := false, phase := DeliverySelected);
      } else {
        return Busy;
      }
      deliveries := deliveries + [Delivery(data.descriptor.value, payload)];
      return Served;
    }

    method DropDelivery(i: nat)
      requires Valid()
      modifies this`deliveries, this`stopped, this`cleanupStarted, this`history
      ensures S() == ReaderSpec.DropDelivery(old(S()), i)
      ensures Valid()
      ensures shared == old(shared) && (i < |old(deliveries)| ==> stopped && deliveries == [])
    {
      DropDeliveryKept(S(), i);
      if i < |deliveries| {
        Lose(deliveries[i].payload.Data?);
        deliveries := Without(deliveries, i);
        Stop();
      }
    }

    method Handoff(i: nat, matches: bool, current: bool) returns (reply: Reply)
      requires Valid()
      modifies this
      ensures ReaderSpec.Handoff(old(S()), i, matches, current) == Outcome(S(), reply)
      ensures Valid()
      ensures reply.Served? <==>
                && old(i < |deliveries| && holder.Nobody?) && matches && current
                && old(if deliveries[i].payload.Data? then data.phase.DeliverySelected? && !stopped else deliveries[i].descriptor.eof)
      ensures !reply.Busy? ==> deliveries == []
      ensures reply.Served? && shared != old(shared) ==>
                var n := |old(shared)|; n == data.sequence && shared == old(shared) + [Shared(n, n, true, 1, Leased)] && !stopped
      ensures reply.Served? && shared == old(shared) ==> data.phase.Closed? && stopped
      ensures reply.Refused? ==> stopped && shared == old(shared)
    {
      HandoffExactly(S(), i, matches, current);
      HandoffKept(S(), i, matches, current);
      if i >= |deliveries| {
        return Busy;
      }
      var d := deliveries[i];
      if !matches || !holder.Nobody? || data.descriptor != Some(d.descriptor) || !current {
        DropDelivery(i);
        return Refused;
      }
      match d.payload
      case Data(block) =>
        if !data.phase.DeliverySelected? || stopped || d.descriptor.eof {
          DropDelivery(i);
          return Refused;
        }
        deliveries := Without(deliveries, i);
        data := data.(registryBlock := Some(|shared|), released := Some(|shared|), phase := AwaitingAcknowledgment);
        shared := shared + [Shared(block, d.descriptor.sequence, true, 1, Leased)];
        return Served;
      case Eof =>
        if !d.descriptor.eof {
          DropDelivery(i);
          return Refused;
        }
        deliveries := Without(deliveries, i);
        data := data.(phase := Closed);
        cleanupStarted := true;
        return Served;
    }

    method AckStarts(wanted: nat, now: Instant, deadline: Instant, attached: bool, current: bool) returns (reply: Reply)
      requires Valid()
      modifies this
      ensures ReaderSpec.AckStarts(old(S()), wanted, now, deadline, attached, current) == Outcome(S(), reply)
      ensures Valid()
      ensures !old(IsDuplicate(S(), wanted)) ==>
                (reply.Waiting? <==> old(Admits(S(), attached) && data.sequence == wanted
                                         && (data.phase.AwaitingAcknowledgment? || data.phase.ReleasePending?)))
      ensures reply.Waiting? ==> wanted == data.sequence == |shared| - 1
      ensures reply.Served? ==>
                data == old(data) && shared == old(shared) && history == old(history) && data.lastAck.Some?
                && data.lastAck.value.sequence == wanted && control == Some(AcknowledgedControl(data.lastAck.value))
    {
      if !IsDuplicate(S(), wanted) {
        AckStartsExactly(S(), wanted, now, deadline, attached, current);
      }
      AckStartsKept(S(), wanted, now, deadline, attached, current);
      if !holder.Nobody? || control.Some? {
        return Busy;
      }
      if data.lastAck.Some? && data.lastAck.value.sequence == wanted {
        var previous := data.lastAck.value;
        if stopped || now >= deadline || now >= previous.validBefore || !current {
          Stop();
          return Refused;
        }
        control := Some(AcknowledgedControl(previous));
        return Served;
      }
      if data.sequence != wanted || !(data.phase.AwaitingAcknowledgment? || data.phase.ReleasePending?) {
        return Busy;
      }
      var admitted := Admit(attached);
      if !admitted {
        return Refused;
      }
      holder := AckObserving(wanted);
      return Waiting;
    }

    method Observe(ok: bool) returns (reply: Reply)
      modifies this
      ensures ReaderSpec.AckObserved(old(S()), ok) == Outcome(S(), reply)
    {
      if !holder.AckObserving? {
        return Busy;
      }
      if !ok {
        Abandon();
        return Refused;
      }
      if data.phase.AwaitingAcknowledgment? {
        shared := Unheld(shared, data.registryBlock);
        data := data.(phase := ReleasePending, registryBlock := None);
      }
      if data.released.None? {
        Abandon();
        return Refused;
      }
      holder := AckWaiting(holder.sequence, data.released.value);
      return Waiting;
    }

    method AckObserved(ok: bool) returns (reply: Reply)
      requires Valid()
      modifies this
      ensures ReaderSpec.AckObserved(old(S()), ok) == Outcome(S(), reply)
      ensures Valid()
      ensures reply.Waiting? <==> old(holder.AckObserving?) && ok
      ensures reply.Waiting? ==>
                |shared| == data.sequence + 1
                && forall i :: 0 <= i < |shared| ==> !shared[i].registry && shared[i].carriers == old(shared)[i].carriers
      ensures reply.Refused? ==> stopped
    {
      AckObservedExactly(S(), ok);
      AckObservedKept(S(), ok);
      AckObservedMeans(S(), ok);
      reply := Observe(ok);
    }

    method Grant(validBefore: Instant, current: bool, stillCurrent: bool) returns (reply: Reply)
      modifies this
      ensures ReaderSpec.AckReleased(old(S()), validBefore, current, stillCurrent) == Outcome(S(), reply)
    {
      if !holder.AckWaiting? || holder.release >= |shared| || !shared[holder.release].disposal.Released? {
        return Busy;
      }
      if !current || data.sequence >= U32_MAX {
        Abandon();
        return Refused;
      }
      var ack := Acknowledgment(holder.sequence, validBefore);
      data := data.(sequence := data.sequence + 1, lastAck := Some(ack), released := None, descriptor := None, phase := Ready);
      if !stillCurrent || control.Some? {
        Abandon();
        return Refused;
      }
      control := Some(AcknowledgedControl(ack));
      holder := Nobody;
      history := history.(acknowledged := history.acknowledged + 1);
      return Served;
    }

    method AckReleased(validBefore: Instant, current: bool, stillCurrent: bool) returns (reply: Reply)
      requires Valid()
      modifies this
      ensures ReaderSpec.AckReleased(old(S()), validBefore, current, stillCurrent) == Outcome(S(), reply)
      ensures Valid()
      ensures reply.Served? <==>
                && old(holder.AckWaiting? && data.sequence < |shared| && shared[data.sequence].disposal.Released?)
                && current && stillCurrent && old(data.sequence) < U32_MAX
      ensures reply.Served? ==>
                var k := old(data.sequence);
                k < |shared| && shared == old(shared) && Unreferenced(shared[k]) && shared[k].disposal.Released?
                && data.sequence == k + 1 == history.acknowledged
                  && control == Some(AcknowledgedControl(Acknowledgment(k, validBefore)))
      ensures reply.Refused? ==> stopped && history.acknowledged == old(history.acknowledged)
    {
      AckReleasedExactly(S(), validBefore, current, stillCurrent);
      AckReleasedKept(S(), validBefore, current, stillCurrent);
      AckReleasedMeans(S(), validBefore, current, stillCurrent);
      reply := Grant(validBefore, current, stillCurrent);
    }

    method CloseStarts(attached: bool) returns (reply: Reply)
      requires Valid()
      modifies this
      ensures ReaderSpec.CloseStarts(old(S()), attached) == Outcome(S(), reply)
      ensures Valid()
      ensures reply.Waiting? <==> old(Admits(S(), attached) && data.prepared)
      ensures reply.Waiting? ==> Owned() == old(Owned()) && !holder.Nobody?
    {
      CloseExactly(S(), attached, true, 0);
      CloseStartsKept(S(), attached);
      if !holder.Nobody? || control.Some? {
        return Busy;
      }
      var admitted := Admit(attached);
      if !admitted {
        return Refused;
      }
      holder := CloseObserving;
      return Waiting;
    }

    method CloseObserved(ok: bool) returns (reply: Reply)
      requires Valid()
      modifies this
      ensures ReaderSpec.CloseObserved(old(S()), ok) == Outcome(S(), reply)
      ensures Valid()
      ensures reply.Waiting? <==> old(holder.CloseObserving?) && ok
      ensures reply.Waiting? ==>
                stopped && Owned() == DeliveredBlock(S()) && forall i :: 0 <= i < |shared| ==> !shared[i].registry
      ensures reply.Refused? ==> stopped
    {
      CloseObservedKept(S(), ok);
      CloseObservedMeans(S(), ok);
      if !holder.CloseObserving? {
        return Busy;
      }
      if !ok {
        Abandon();
        return Refused;
      }
      stopped := true;
      CloseOwned();
      holder := CloseDraining;
      return Waiting;
    }

    /** The reader is closed, and its reply waits to be taken. */
    method Announce(validBefore: Instant) returns (ok: bool)
      modifies this
      ensures ok <==> old(control.None?)
      ensures var closed := old(S()).(phase := Closed);
              S() == if ok then closed.(control := Some(ClosedControl(validBefore)), holder := Nobody, cleanupStarted := true)
                     else ReaderSpec.Abandon(closed)
    {
      data := data.(phase := Closed);
      if control.Some? {
        Abandon();
        return false;
      }
      control := Some(ClosedControl(validBefore));
      holder := Nobody;
      cleanupStarted := true;
      return true;
    }

    method CloseDrained(ok: bool, validBefore: Instant) returns (reply: Reply)
      requires Valid()
      modifies this
      ensures ReaderSpec.CloseDrained(old(S()), ok, validBefore) == Outcome(S(), reply)
      ensures Valid()
      ensures reply.Served? <==> old(holder.CloseDraining?) && ok
      ensures reply.Served? ==>
                data.phase.Closed? && stopped && cleanupStarted && control == Some(ClosedControl(validBefore))
                  && Owned() == DeliveredBlock(S())
      ensures reply.Refused? ==> stopped
    {
      CloseExactly(S(), true, ok, validBefore);
      CloseDrainedKept(S(), ok, validBefore);
      if !holder.CloseDraining? {
        return Busy;
      }
      if !ok {
        Abandon();
        return Refused;
      }
      var closed := Announce(validBefore);
      return if closed then Served else Refused;
    }

    method TakeControl() returns (reply: Reply)
      requires Valid()
      modifies this`control
      ensures ReaderSpec.TakeControl(old(S())) == Outcome(S(), reply)
      ensures Valid()
      ensures reply.Served? <==> old(control.Some?)
    {
      ControlKept(S(), None, cleanupStarted);
      if control.None? {
        return Busy;
      }
      control := None;
      return Served;
    }

    method GiveUp(now: Instant)
      requires cleanupStarted && holder.Nobody?
      modifies this
      ensures S() == ReaderSpec.Cleanup(old(S()), now)
    {
      var keepEof := data.phase.EofReady? && data.eofTail && now < data.terminalBefore;
      CloseOwned();
      if keepEof {
        data := data.(eofTail := true, phase := EofReady);
      }
      var keep := control.Some? && control.value.ClosedControl? && now < control.value.validBefore;
      if !keep {
        control := None;
      }
    }

    /** One pass over the data of a stopped entry. */
    method Cleanup(now: Instant)
      requires Valid()
      modifies this
      ensures S() == ReaderSpec.Cleanup(old(S()), now)
      ensures Valid()
      ensures old(cleanupStarted && holder.Nobody?) ==>
                && Owned() == OpeningBlock(S()) + DeliveredBlock(S()) && (forall i :: 0 <= i < |shared| ==> !shared[i].registry)
                && (data.eofTail <==> old(data.phase.EofReady? && data.eofTail) && now < old(data.terminalBefore))
                && (control.Some? ==> control == old(control) && control.value.ClosedControl? && now < control.value.validBefore)
    {
      CleanupKept(S(), now);
      if cleanupStarted && holder.Nobody? {
        CleanupGivesUp(S(), now);
        GiveUp(now);
      }
    }

    // -------------------------------------------------------------------------------------------
    // The preparation, and the carriers of shared frames
    // -------------------------------------------------------------------------------------------

    method PreparationEnds(ok: bool)
      modifies this
      ensures S() == Prepare(old(S()), ok)
    {
      if !open.Preparing? {
        return;
      }
      if ok {
        open := Prepared;
        history := history.(produced := 1);
      } else {
        open := Settled;
        Stop();
      }
    }

    method CarrierCloned(i: nat)
      modifies this`shared
      ensures S() == CloneCarrier(old(S()), i)
    {
      if i < |shared| && shared[i].carriers > 0 {
        shared := shared[i := shared[i].(carriers := shared[i].carriers + 1)];
      }
    }

    method CarrierDropped(i: nat)
      modifies this`shared
      ensures S() == DropCarrier(old(S()), i)
    {
      if i < |shared| && shared[i].carriers > 0 {
        shared := shared[i := shared[i].(carriers := shared[i].carriers - 1)];
      }
    }

    /** The last reference goes: the lease ends first, and then the flag is set. */
    method FrameDisposes(i: nat)
      modifies this`shared
      ensures S() == Dispose(old(S()), i)
    {
      if i < |shared| && Unreferenced(shared[i]) {
        match shared[i].disposal
        case Leased => shared := shared[i := shared[i].(disposal := LeaseFreed)];
        case LeaseFreed => shared := shared[i := shared[i].(disposal := Released)];
        case Released =>
      }
    }

    // -------------------------------------------------------------------------------------------
    // Whole runs
    // -------------------------------------------------------------------------------------------

    method DoRead(a: ReadAction)
      requires Valid()
      modifies this
      ensures S() == ActRead(old(S()), a) && Valid()
    {
      ReadKept(S(), a);
      match a
      case PreparationEnds(ok) => PreparationEnds(ok);
      case OpeningFails =>
        if open.Prepared? {
          OpenFails();
        }
      case OpeningCommits => var _ := OpenCommits();
      case NextBegins(wanted, attached) => var _ := NextStarts(wanted, attached);
      case BlockArrives(ok) => var _ := NextProduced(ok, |shared|);
      case BlockRefreshes(result) => var _ := NextRefreshed(result);
      case ProducerDrains(ok) => var _ := NextDrained(ok);
      case DeliveryTaken(wanted) => var _ := TakeDelivery(wanted);
    }

    method DoTransport(a: TransportAction)
      requires Valid()
      modifies this
      ensures S() == ActTransport(old(S()), a) && Valid()
    {
      TransportKept(S(), a);
      match a
      case DeliveryDropped(i) => DropDelivery(i);
      case HandedOff(i, matches, current) => var _ := Handoff(i, matches, current);
      case CarrierCloned(i) => CarrierCloned(i);
      case CarrierDropped(i) => CarrierDropped(i);
      case FrameDisposes(i) => FrameDisposes(i);
    }

    method DoControl(a: ControlAction)
      requires Valid()
      modifies this
      ensures S() == ActControl(old(S()), a) && Valid()
    {
      ManageKept(S(), a);
      match a
      case AckBegins(wanted, now, deadline, attached, current) => var _ := AckStarts(wanted, now, deadline, attached, current);
      case AckObserves(ok) => var _ := AckObserved(ok);
      case AckCompletes(validBefore, current, stillCurrent) => var _ := AckReleased(validBefore, current, stillCurrent);
      case CloseBegins(attached) => var _ := CloseStarts(attached);
      case CloseObserves(ok) => var _ := CloseObserved(ok);
      case CloseCompletes(ok, validBefore) => var _ := CloseDrained(ok, validBefore);
      case ControlTaken => var _ := TakeControl();
      case Cancelled =>
        if !holder.Nobody? {
          Abandon();
        }
      case Stopped => Stop();
      case CleanupPasses(now) => Cleanup(now);
    }

    method Do(a: Action)
      requires Valid()
      modifies this
      ensures S() == Act(old(S()), a) && Valid()
    {
      match a
      case Read(r) => DoRead(r);
      case Transport(t) => DoTransport(t);
      case Manage(c) => DoControl(c);
    }
  }

  /** An entry that lives through these critical sections. */
  method Live(actions: seq<Action>) returns (e: Entry)
    ensures fresh(e) && e.S() == Run(actions) && e.Valid()
  {
    e := new Entry();
    for i := 0 to |actions|
      invariant fresh(e) && e.S() == Run(actions[..i]) && e.Valid()
    {
      RunOne(actions, i);
      e.Do(actions[i]);
    }
    assert actions[..|actions|] == actions;
  }
}
