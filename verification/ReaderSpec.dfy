/**
 * One public artifact reader. Each function is one critical section: what happens under the data lock
 * between two awaits. What the host, the clock and the producer decide is an argument.
 */
module ReaderSpec {
  import opened Wrappers

  datatype Phase =
    | Opening | Ready | DescriptorReady | DeliverySelected | AwaitingAcknowledgment | ReleasePending
    | EofReady | Closing | Closed

  type Instant = nat

  datatype Descriptor = Descriptor(sequence: nat, eof: bool)

  datatype Payload = Data(block: nat) | Eof

  /** A body selected for transport, not yet handed off. */
  datatype Delivery = Delivery(descriptor: Descriptor, payload: Payload)

  /** Disposal of a shared frame: its allocation and lease end before the release flag is set. */
  datatype Disposal = Leased | LeaseFreed | Released

  /** A handed-off frame, with the references that keep it alive. */
  datatype Shared = Shared(block: nat, sequence: nat, registry: bool, carriers: nat, disposal: Disposal)

  datatype Acknowledgment = Acknowledgment(sequence: nat, validBefore: Instant)

  datatype Control = OpenedControl | AcknowledgedControl(ack: Acknowledgment) | ClosedControl(validBefore: Instant)

  /** Who holds the data lock across an await, and what that attempt holds meanwhile. */
  datatype Holder =
    | Nobody
    | NextBlocked(sequence: nat)
    | NextRefreshing(sequence: nat, block: nat)
    | NextDraining(sequence: nat, deadline: Instant)
    | AckObserving(sequence: nat)
    | AckWaiting(sequence: nat, release: nat)
    | CloseObserving
    | CloseDraining

  datatype OpenStage = Preparing | Prepared | Settled

  datatype State = State(
    open: OpenStage,
    stopped: bool,
    cleanupStarted: bool,
    phase: Phase,
    prepared: bool,
    first: Option<nat>,
    sequence: nat,
    lastAck: Option<Acknowledgment>,
    pending: Option<nat>,
    descriptor: Option<Descriptor>,
    registryBlock: Option<nat>,
    released: Option<nat>,
    eofTail: bool,
    terminalBefore: Instant,
    control: Option<Control>,
    holder: Holder,
    // The world around the entry
    produced: nat,
    deliveries: seq<Delivery>,
    shared: seq<Shared>,
    // What has happened
    acknowledged: nat,
    sawEof: bool,
    lost: bool)

  const U32_MAX: nat := 0xFFFF_FFFF

  /** Nothing is acknowledged. */
  predicate SameCount(s: State, t: State) {
    t.sequence == s.sequence && t.acknowledged == s.acknowledged
  }

  function Initial(): State {
    State(Preparing, false, false, Opening, false, None, 0, None, None, None, None, None, false, 0, None, Nobody,
          0, [], [], 0, false, false)
  }

  /** What a caller gets from a critical section. */
  datatype Reply = Busy | Refused | Waiting | Served

  datatype Outcome = Outcome(state: State, reply: Reply)

  // ---------------------------------------------------------------------------------------------
  // Stopping
  // ---------------------------------------------------------------------------------------------

  /** Every stop starts the one cleanup. */
  function Stop(s: State): (t: State)
    ensures SameCount(s, t)
  {
    s.(stopped := true, cleanupStarted := true)
  }

  function InFlight(s: State): Option<nat> {
    if s.holder.NextRefreshing? then Some(s.holder.block) else None
  }

  /** An attempt that ends without success, or is cancelled at an await: it stops the entry, then unlocks. */
  function Abandon(s: State): (t: State)
    ensures SameCount(s, t)
  {
    Stop(s).(holder := Nobody, lost := s.lost || InFlight(s).Some?)
  }

  /** The registry's reference to a shared frame is dropped. */
  function Unheld(shared: seq<Shared>, held: Option<nat>): (r: seq<Shared>)
    ensures |r| == |shared|
  {
    if held.Some? && held.value < |shared| then shared[held.value := shared[held.value].(registry := false)] else shared
  }

  /** Everything the entry owns goes, the pending allocation first. */
  function CloseOwned(s: State): (t: State)
    ensures SameCount(s, t)
  {
    s.(
      phase := Closing, pending := None, registryBlock := None, shared := Unheld(s.shared, s.registryBlock),
      eofTail := false, lastAck := None, first := None, lost := s.lost || s.pending.Some? || s.first.Some?)
  }

  // ---------------------------------------------------------------------------------------------
  // Open
  // ---------------------------------------------------------------------------------------------

  /** The preparation ends; a good one carries the first block. */
  function Prepare(s: State, ok: bool): (t: State)
    ensures SameCount(s, t)
  {
    if !s.open.Preparing? then s
    else if ok then s.(open := Prepared, produced := 1)
    else Stop(s.(open := Settled))
  }

  /** A check after the preparation fails, or the opening client goes away. */
  function OpenFails(s: State): (t: State)
    ensures SameCount(s, t)
  {
    if s.open.Prepared? then Stop(s.(open := Settled, lost := true)) else s
  }

  function OpenCommits(s: State): (r: Outcome)
    ensures SameCount(s, r.state)
  {
    if !s.open.Prepared? || !s.holder.Nobody? then Outcome(s, Busy)
    else if s.stopped then Outcome(OpenFails(s), Refused)
    else
      var ready := s.(open := Settled, prepared := true, first := Some(0), phase := Ready);
      if s.control.Some? then Outcome(Stop(ready), Refused)
      else Outcome(ready.(control := Some(OpenedControl)), Served)
  }

  // ---------------------------------------------------------------------------------------------
  // Next
  // ---------------------------------------------------------------------------------------------

  /** The whole control budget: nothing starts on a stopped or expired entry. */
  predicate Budget(s: State, attached: bool) {
    !s.stopped && attached
  }

  function NextStarts(s: State, sequence: nat, attached: bool): (r: Outcome)
    ensures SameCount(s, r.state)
  {
    if !s.holder.Nobody? || s.sequence != sequence || !s.phase.Ready? || s.control.Some? then Outcome(s, Busy)
    else if !Budget(s, attached) then Outcome(s, Refused)
    else if !s.prepared then Outcome(Abandon(s), Refused)
    else if s.first.Some? then Outcome(s.(first := None, holder := NextRefreshing(sequence, s.first.value)), Waiting)
    else Outcome(s.(holder := NextBlocked(sequence)), Waiting)
  }

  /** The producer answers with its next block. */
  function NextProduced(s: State, ok: bool): (r: Outcome)
    ensures SameCount(s, r.state)
  {
    if !s.holder.NextBlocked? then Outcome(s, Busy)
    else if !ok then Outcome(Abandon(s), Refused)
    else Outcome(s.(produced := s.produced + 1, holder := NextRefreshing(s.holder.sequence, s.produced)), Waiting)
  }

  datatype Refresh = Stale | Bytes | ZeroRead(deadline: Instant)

  /** The block is still current: a real one becomes pending, an empty one ends the reader. */
  function NextRefreshed(s: State, result: Refresh): (r: Outcome)
    ensures SameCount(s, r.state)
  {
    if !s.holder.NextRefreshing? then Outcome(s, Busy)
    else
      var sequence := s.holder.sequence;
      match result
      case Stale => Outcome(Abandon(s), Refused)
      case Bytes =>
        Outcome(s.(pending := Some(s.holder.block), phase := DescriptorReady,
                   descriptor := Some(Descriptor(sequence, false)), holder := Nobody), Served)
      case ZeroRead(deadline) =>
        Outcome(CloseOwned(s.(stopped := true, sawEof := true, holder := Nobody)).(holder := NextDraining(sequence, deadline)),
                Waiting)
  }

  function NextDrained(s: State, ok: bool): (r: Outcome)
    ensures SameCount(s, r.state)
  {
    if !s.holder.NextDraining? then Outcome(s, Busy)
    else if !ok then Outcome(Abandon(s), Refused)
    else
      Outcome(s.(eofTail := true, terminalBefore := s.holder.deadline, phase := EofReady, holder := Nobody,
                 descriptor := Some(Descriptor(s.holder.sequence, true)), cleanupStarted := true), Served)
  }

  // ---------------------------------------------------------------------------------------------
  // Delivery
  // ---------------------------------------------------------------------------------------------

  function TakeDelivery(s: State, sequence: nat): (r: Outcome)
    ensures SameCount(s, r.state)
  {
    if !s.holder.Nobody? || s.descriptor.None? || s.descriptor.value.sequence != sequence then Outcome(s, Busy)
    else if s.phase.DescriptorReady? && !s.stopped then
      if s.pending.None? then Outcome(s, Refused)
      else
        Outcome(s.(pending := None, phase := DeliverySelected,
                   deliveries := s.deliveries + [Delivery(s.descriptor.value, Data(s.pending.value))]), Served)
    else if s.phase.EofReady? && s.descriptor.value.eof then
      if !s.eofTail then Outcome(s, Refused)
      else
        Outcome(s.(eofTail := false, phase := DeliverySelected,
                   deliveries := s.deliveries + [Delivery(s.descriptor.value, Eof)]), Served)
    else Outcome(s, Busy)
  }

  function Without(deliveries: seq<Delivery>, i: nat): seq<Delivery>
    requires i < |deliveries|
  {
    deliveries[..i] + deliveries[i + 1..]
  }

  /** A delivery that is dropped, or whose handoff fails, takes its block with it. */
  function DropDelivery(s: State, i: nat): (t: State)
    ensures SameCount(s, t)
  {
    if i < |s.deliveries|
    then Stop(s.(deliveries := Without(s.deliveries, i), lost := s.lost || s.deliveries[i].payload.Data?))
    else s
  }

  /** The synchronous transport boundary. `matches`: the same host; `current`: frame and tail are in order. */
  function Handoff(s: State, i: nat, matches: bool, current: bool): (r: Outcome)
    ensures SameCount(s, r.state)
  {
    if i >= |s.deliveries| then Outcome(s, Busy)
    else
      var d := s.deliveries[i];
      if || !matches || !s.holder.Nobody? || s.descriptor != Some(d.descriptor) || !current
         || (d.payload.Data? && (!s.phase.DeliverySelected? || s.stopped || d.descriptor.eof))
         || (d.payload.Eof? && !d.descriptor.eof)
      then Outcome(DropDelivery(s, i), Refused)
      else if d.payload.Eof? then
        Outcome(s.(deliveries := Without(s.deliveries, i), phase := Closed, cleanupStarted := true), Served)
      else
        Outcome(s.(deliveries := Without(s.deliveries, i), phase := AwaitingAcknowledgment,
                   shared := s.shared + [Shared(d.payload.block, d.descriptor.sequence, true, 1, Leased)],
                   registryBlock := Some(|s.shared|), released := Some(|s.shared|)), Served)
  }

  // ---------------------------------------------------------------------------------------------
  // The carriers of a shared frame
  // ---------------------------------------------------------------------------------------------

  function CloneCarrier(s: State, i: nat): (t: State)
    ensures SameCount(s, t)
  {
    if i < |s.shared| && s.shared[i].carriers > 0
    then s.(shared := s.shared[i := s.shared[i].(carriers := s.shared[i].carriers + 1)])
    else s
  }

  function DropCarrier(s: State, i: nat): (t: State)
    ensures SameCount(s, t)
  {
    if i < |s.shared| && s.shared[i].carriers > 0
    then s.(shared := s.shared[i := s.shared[i].(carriers := s.shared[i].carriers - 1)])
    else s
  }

  predicate Unreferenced(f: Shared) {
    !f.registry && f.carriers == 0
  }

  /** With the last reference gone: first the lease, then the flag. */
  function Dispose(s: State, i: nat): (t: State)
    ensures SameCount(s, t)
  {
    if i < |s.shared| && Unreferenced(s.shared[i]) then
      match s.shared[i].disposal
      case Leased => s.(shared := s.shared[i := s.shared[i].(disposal := LeaseFreed)])
      case LeaseFreed => s.(shared := s.shared[i := s.shared[i].(disposal := Released)])
      case Released => s
    else s
  }

  // ---------------------------------------------------------------------------------------------
  // Acknowledge
  // ---------------------------------------------------------------------------------------------

  predicate IsDuplicate(s: State, sequence: nat) {
    s.lastAck.Some? && s.lastAck.value.sequence == sequence
  }

  /** A repeated acknowledgement lives in the window of the first one. */
  function Repeat(s: State, now: Instant, deadline: Instant, current: bool): (r: Outcome)
    requires s.lastAck.Some?
    ensures SameCount(s, r.state)
  {
    if s.stopped || now >= deadline || now >= s.lastAck.value.validBefore || !current then Outcome(Stop(s), Refused)
    else Outcome(s.(control := Some(AcknowledgedControl(s.lastAck.value))), Served)
  }

  function AckStarts(s: State, sequence: nat, now: Instant, deadline: Instant, attached: bool, current: bool): (r: Outcome)
    ensures SameCount(s, r.state)
  {
    if !s.holder.Nobody? || s.control.Some? then Outcome(s, Busy)
    else if IsDuplicate(s, sequence) then Repeat(s, now, deadline, current)
    else if s.sequence != sequence || !(s.phase.AwaitingAcknowledgment? || s.phase.ReleasePending?) then Outcome(s, Busy)
    else if !Budget(s, attached) then Outcome(s, Refused)
    else if !s.prepared then Outcome(Abandon(s), Refused)
    else Outcome(s.(holder := AckObserving(sequence)), Waiting)
  }

  /** The registry gives up its hold exactly once, and then waits for the last carrier. */
  function AckObserved(s: State, ok: bool): (r: Outcome)
    ensures SameCount(s, r.state)
  {
    if !s.holder.AckObserving? then Outcome(s, Busy)
    else if !ok then Outcome(Abandon(s), Refused)
    else
      var waiting :=
        if s.phase.AwaitingAcknowledgment?
        then s.(phase := ReleasePending, registryBlock := None, shared := Unheld(s.shared, s.registryBlock))
        else s;
      if s.released.None? then Outcome(Abandon(waiting), Refused)
      else Outcome(waiting.(holder := AckWaiting(s.holder.sequence, s.released.value)), Waiting)
  }

  /** Only the release flag of the frame lets a fresh acknowledgement through. */
  function AckReleased(s: State, validBefore: Instant, current: bool, stillCurrent: bool): Outcome {
    if !s.holder.AckWaiting? || s.holder.release >= |s.shared| || !s.shared[s.holder.release].disposal.Released?
    then Outcome(s, Busy)
    else if !current || s.sequence >= U32_MAX then Outcome(Abandon(s), Refused)
    else
      var ack := Acknowledgment(s.holder.sequence, validBefore);
      var ready := s.(sequence := s.sequence + 1, lastAck := Some(ack), released := None, descriptor := None, phase := Ready);
      if !stillCurrent || s.control.Some? then Outcome(Abandon(ready), Refused)
      else
        Outcome(ready.(control := Some(AcknowledgedControl(ack)), holder := Nobody, acknowledged := s.acknowledged + 1), Served)
  }

  // ---------------------------------------------------------------------------------------------
  // Close, control and cleanup
  // ---------------------------------------------------------------------------------------------

  function CloseStarts(s: State, attached: bool): (r: Outcome)
    ensures SameCount(s, r.state)
  {
    if !s.holder.Nobody? || s.control.Some? then Outcome(s, Busy)
    else if !Budget(s, attached) then Outcome(s, Refused)
    else if !s.prepared then Outcome(Abandon(s), Refused)
    else Outcome(s.(holder := CloseObserving), Waiting)
  }

  function CloseObserved(s: State, ok: bool): (r: Outcome)
    ensures SameCount(s, r.state)
  {
    if !s.holder.CloseObserving? then Outcome(s, Busy)
    else if !ok then Outcome(Abandon(s), Refused)
    else Outcome(CloseOwned(s.(stopped := true)).(holder := CloseDraining), Waiting)
  }

  function CloseDrained(s: State, ok: bool, validBefore: Instant): (r: Outcome)
    ensures SameCount(s, r.state)
  {
    if !s.holder.CloseDraining? then Outcome(s, Busy)
    else if !ok || s.control.Some? then Outcome(Abandon(if ok then s.(phase := Closed) else s), Refused)
    else
      Outcome(s.(phase := Closed, control := Some(ClosedControl(validBefore)), holder := Nobody, cleanupStarted := true), Served)
  }

  function TakeControl(s: State): (r: Outcome)
    ensures SameCount(s, r.state)
  {
    if s.control.None? then Outcome(s, Busy) else Outcome(s.(control := None), Served)
  }

  /** One pass of the cleanup over the entry's data. A selected end of file, and a close reply, may still be fetched. */
  function Cleanup(s: State, now: Instant): (t: State)
    ensures SameCount(s, t)
  {
    if !s.cleanupStarted || !s.holder.Nobody? then s
    else
      var keepEof := s.phase.EofReady? && s.eofTail && now < s.terminalBefore;
      var closed := CloseOwned(s);
      var kept := if keepEof then closed.(eofTail := true, phase := EofReady) else closed;
      if s.control.Some? && s.control.value.ClosedControl? && now < s.control.value.validBefore then kept
      else kept.(control := None)
  }

  // ---------------------------------------------------------------------------------------------
  // All interleavings
  // ---------------------------------------------------------------------------------------------

  /** Opening and reading. */
  datatype ReadAction =
    | PreparationEnds(ok: bool)
    | OpeningFails
    | OpeningCommits
    | NextBegins(sequence: nat, attached: bool)
    | BlockArrives(ok: bool)
    | BlockRefreshes(result: Refresh)
    | ProducerDrains(ok: bool)
    | DeliveryTaken(sequence: nat)

  /** What the transport does with deliveries and frames. */
  datatype TransportAction =
    | DeliveryDropped(i: nat)
    | HandedOff(i: nat, matches: bool, current: bool)
    | CarrierCloned(i: nat)
    | CarrierDropped(i: nat)
    | FrameDisposes(i: nat)

  /** Acknowledging, closing, and being stopped. */
  datatype ControlAction =
    | AckBegins(sequence: nat, now: Instant, deadline: Instant, attached: bool, current: bool)
    | AckObserves(ok: bool)
    | AckCompletes(validBefore: Instant, current: bool, stillCurrent: bool)
    | CloseBegins(attached: bool)
    | CloseObserves(ok: bool)
    | CloseCompletes(ok: bool, validBefore: Instant)
    | ControlTaken
    | Cancelled
    | Stopped
    | CleanupPasses(now: Instant)

  datatype Action = Read(read: ReadAction) | Transport(transport: TransportAction) | Manage(control: ControlAction)

  /** The attempt that holds the lock is cancelled at its await. */
  function CancelAttempt(s: State): (t: State)
    ensures SameCount(s, t)
  {
    if s.holder.Nobody? then s else Abandon(s)
  }

  function ActRead(s: State, a: ReadAction): State {
    match a
    case PreparationEnds(ok) => Prepare(s, ok)
    case OpeningFails => OpenFails(s)
    case OpeningCommits => OpenCommits(s).state
    case NextBegins(sequence, attached) => NextStarts(s, sequence, attached).state
    case BlockArrives(ok) => NextProduced(s, ok).state
    case BlockRefreshes(result) => NextRefreshed(s, result).state
    case ProducerDrains(ok) => NextDrained(s, ok).state
    case DeliveryTaken(sequence) => TakeDelivery(s, sequence).state
  }

  function ActTransport(s: State, a: TransportAction): State {
    match a
    case DeliveryDropped(i) => DropDelivery(s, i)
    case HandedOff(i, matches, current) => Handoff(s, i, matches, current).state
    case CarrierCloned(i) => CloneCarrier(s, i)
    case CarrierDropped(i) => DropCarrier(s, i)
    case FrameDisposes(i) => Dispose(s, i)
  }

  function ActControl(s: State, a: ControlAction): State {
    match a
    case AckBegins(sequence, now, deadline, attached, current) => AckStarts(s, sequence, now, deadline, attached, current).state
    case AckObserves(ok) => AckObserved(s, ok).state
    case AckCompletes(validBefore, current, stillCurrent) => AckReleased(s, validBefore, current, stillCurrent).state
    case CloseBegins(attached) => CloseStarts(s, attached).state
    case CloseObserves(ok) => CloseObserved(s, ok).state
    case CloseCompletes(ok, validBefore) => CloseDrained(s, ok, validBefore).state
    case ControlTaken => TakeControl(s).state
    case Cancelled => CancelAttempt(s)
    case Stopped => Stop(s)
    case CleanupPasses(now) => Cleanup(s, now)
  }

  function Act(s: State, a: Action): State {
    match a
    case Read(r) => ActRead(s, r)
    case Transport(t) => ActTransport(s, t)
    case Manage(c) => ActControl(s, c)
  }

  function Run(actions: seq<Action>): State {
    if actions == [] then Initial() else Act(Run(actions[..|actions| - 1]), actions[|actions| - 1])
  }
}
