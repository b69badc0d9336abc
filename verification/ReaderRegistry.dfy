/** Admission, shutdown and removal of readers. Each action is one critical section of the registry or of one entry. */
module ReaderRegistry {
  import opened Wrappers

  type Id = nat

  /** Readers of one owner are those whose host binding and caller are the same. */
  type Owner = nat

  const MAX_OPEN_READERS: nat := 64
  const MAX_BINDING_READERS: nat := 8

  /** The producer's completion port: told to close, and known to have drained. */
  datatype Completion = Completion(closed: bool, drained: bool)

  /** Where the cleanup task of an entry is. */
  datatype Cleaning = Idle | Looping | Draining(enrolled: bool) | Finished | Gone

  datatype Reader = Reader(
    owner: Owner,
    stopped: bool,
    signals: nat,             // stops that have set the flag and not yet looked for a completion
    prepared: bool,           // the preparation has ended
    completion: Option<Completion>,
    lateEnrolled: bool,       // enrolled although the preparation had ended
    cleaning: Cleaning)

  /** A shutdown in progress: the flag is set first, then a snapshot is taken, then each reader is stopped. */
  datatype Closer = Flagged | Stopping(remaining: set<Id>)

  datatype Registry = Registry(stopped: bool, entries: set<Id>, readers: map<Id, Reader>, closers: seq<Closer>)

  function Empty(): Registry {
    Registry(false, {}, map[], [])
  }

  function Owned(r: Registry, owner: Owner): set<Id> {
    set id | id in r.entries && id in r.readers && r.readers[id].owner == owner
  }

  function Put(r: Registry, id: Id, reader: Reader): Registry {
    r.(readers := r.readers[id := reader])
  }

  // ---------------------------------------------------------------------------------------------
  // Critical sections
  // ---------------------------------------------------------------------------------------------

  /** Under the entries lock: the flag, both caps, and the new entry. */
  function Admit(r: Registry, id: Id, owner: Owner): Registry {
    if r.stopped || |r.entries| >= MAX_OPEN_READERS || |Owned(r, owner)| >= MAX_BINDING_READERS || id in r.readers then r
    else r.(entries := r.entries + {id}, readers := r.readers[id := Reader(owner, false, 0, false, None, false, Idle)])
  }

  function CloseAllFlags(r: Registry): Registry {
    r.(stopped := true, closers := r.closers + [Flagged])
  }

  function CloseAllLists(r: Registry, c: nat): Registry {
    if c < |r.closers| && r.closers[c].Flagged? then r.(closers := r.closers[c := Stopping(r.entries)]) else r
  }

  /** A shutdown stops one reader of its snapshot. */
  function CloseAllStops(r: Registry, c: nat, id: Id): Registry {
    if c < |r.closers| && r.closers[c].Stopping? && id in r.closers[c].remaining
    then StopBegins(r.(closers := r.closers[c := Stopping(r.closers[c].remaining - {id})]), id)
    else r
  }

  /** First half of a stop: the flag. */
  function StopBegins(r: Registry, id: Id): Registry {
    if id in r.readers
    then Put(r, id, r.readers[id].(stopped := true, signals := r.readers[id].signals + 1))
    else r
  }

  function CloseCompletion(c: Option<Completion>): Option<Completion> {
    if c.Some? then Some(c.value.(closed := true)) else None
  }

  function Started(c: Cleaning): Cleaning {
    if c.Idle? then Looping else c
  }

  /** Second half, under the completion lock; and then the one cleanup. */
  function StopEnds(r: Registry, id: Id): Registry {
    if id in r.readers && r.readers[id].signals > 0 then
      var x := r.readers[id];
      Put(r, id, x.(signals := x.signals - 1, completion := CloseCompletion(x.completion), cleaning := Started(x.cleaning)))
    else r
  }

  /** The producer enrolls, under the completion lock; a second one, or one that comes too late, is closed. */
  function Enroll(r: Registry, id: Id): Registry {
    if id in r.readers && r.readers[id].completion.None? then
      var x := r.readers[id];
      Put(r, id, x.(completion := Some(Completion(x.stopped, false)), lateEnrolled := x.prepared))
    else r
  }

  function PreparationEnds(r: Registry, id: Id): Registry {
    if id in r.readers then Put(r, id, r.readers[id].(prepared := true)) else r
  }

  /** The cleanup goes on only once the preparation has ended; then it looks for the completion. */
  function CleanupLooks(r: Registry, id: Id): Registry {
    if id in r.readers && r.readers[id].cleaning.Looping? && r.readers[id].prepared then
      var x := r.readers[id];
      Put(r, id, x.(completion := CloseCompletion(x.completion), cleaning := Draining(x.completion.Some?)))
    else r
  }

  /** The producer drains within the budget, or the cleanup tries again. */
  function CleanupDrains(r: Registry, id: Id, ok: bool): Registry {
    if id in r.readers && r.readers[id].cleaning.Draining? then
      var x := r.readers[id];
      if !x.cleaning.enrolled then Put(r, id, x.(cleaning := Finished))
      else if ok && x.completion.Some?
      then Put(r, id, x.(completion := Some(x.completion.value.(drained := true)), cleaning := Finished))
      else Put(r, id, x.(cleaning := Looping))
    else r
  }

  /** The entry leaves the map, unless a terminal reply is still to be fetched. */
  function CleanupRemoves(r: Registry, id: Id, keepTerminal: bool): Registry {
    if id in r.readers && r.readers[id].cleaning.Finished? then
      if keepTerminal then Put(r, id, r.readers[id].(cleaning := Looping))
      else Put(r, id, r.readers[id].(cleaning := Gone)).(entries := r.entries - {id})
    else r
  }

  datatype Action =
    | AdmitAction(id: Id, owner: Owner)
    | FlagAction
    | ListAction(closer: nat)
    | CloseAction(closer: nat, id: Id)
    | StopBeginsAction(id: Id)
    | StopEndsAction(id: Id)
    | EnrollAction(id: Id)
    | PreparationEndsAction(id: Id)
    | LooksAction(id: Id)
    | DrainsAction(id: Id, ok: bool)
    | RemovesAction(id: Id, keepTerminal: bool)

  function Act(r: Registry, a: Action): Registry {
    match a
    case AdmitAction(id, owner) => Admit(r, id, owner)
    case FlagAction => CloseAllFlags(r)
    case ListAction(c) => CloseAllLists(r, c)
    case CloseAction(c, id) => CloseAllStops(r, c, id)
    case StopBeginsAction(id) => StopBegins(r, id)
    case StopEndsAction(id) => StopEnds(r, id)
    case EnrollAction(id) => Enroll(r, id)
    case PreparationEndsAction(id) => PreparationEnds(r, id)
    case LooksAction(id) => CleanupLooks(r, id)
    case DrainsAction(id, ok) => CleanupDrains(r, id, ok)
    case RemovesAction(id, keepTerminal) => CleanupRemoves(r, id, keepTerminal)
  }

  function Run(actions: seq<Action>): Registry {
    if actions == [] then Empty() else Act(Run(actions[..|actions| - 1]), actions[|actions| - 1])
  }

  // ---------------------------------------------------------------------------------------------
  // Invariant
  // ---------------------------------------------------------------------------------------------

  predicate ReaderInv(x: Reader, present: bool) {
    // a completion of a stopped reader is closed, or a stop is on its way to it
    && (x.completion.Some? && x.stopped ==> x.completion.value.closed || x.signals > 0)
    && (x.signals > 0 || !x.cleaning.Idle? <==> x.stopped)
    && (x.cleaning.Draining? || x.cleaning.Finished? || x.cleaning.Gone? ==> x.prepared)
    && (x.cleaning.Draining? && x.cleaning.enrolled ==> x.completion.Some?)
    && (x.cleaning.Draining? && !x.cleaning.enrolled && x.completion.Some? ==> x.lateEnrolled)
    && (x.cleaning.Finished? || x.cleaning.Gone? ==> x.completion.None? || x.completion.value.drained || x.lateEnrolled)
    && (present <==> !x.cleaning.Gone?)
  }

  ghost predicate CapsInv(r: Registry) {
    |r.entries| <= MAX_OPEN_READERS && forall owner :: |Owned(r, owner)| <= MAX_BINDING_READERS
  }

  /** A shutdown that has its list has every reader that is not stopped yet on it. */
  ghost predicate CloserInv(r: Registry, c: Closer) {
    c.Stopping? ==> forall id :: id in r.readers && !r.readers[id].stopped ==> id in c.remaining
  }

  ghost predicate Inv(r: Registry) {
    && r.entries <= r.readers.Keys
    && (forall id :: id in r.readers ==> ReaderInv(r.readers[id], id in r.entries))
    && CapsInv(r)
    && (r.closers != [] ==> r.stopped)
    && (forall c :: 0 <= c < |r.closers| ==> CloserInv(r, r.closers[c]))
  }

  lemma {:induction false} EmptyInv()
    ensures Inv(Empty())
  {
  }

  lemma {:induction false} SubsetSize<T>(a: set<T>, b: set<T>)
    requires a <= b
    ensures |a| <= |b|
  {
    assert b == a + (b - a);
  }

  /** One reader changes, keeps its owner, and is not un-stopped. */
  lemma {:induction false} PutKept(r: Registry, id: Id, x: Reader)
    requires Inv(r) && id in r.readers && ReaderInv(x, id in r.entries)
    requires x.owner == r.readers[id].owner && (r.readers[id].stopped ==> x.stopped)
    ensures Inv(Put(r, id, x))
  {
    var after := Put(r, id, x);
    forall owner ensures |Owned(after, owner)| <= MAX_BINDING_READERS {
      assert Owned(after, owner) == Owned(r, owner);
    }
    forall c | 0 <= c < |after.closers| ensures CloserInv(after, after.closers[c]) {
      assert CloserInv(r, r.closers[c]);
    }
  }

  lemma {:induction false} AdmitKept(r: Registry, id: Id, owner: Owner)
    requires Inv(r)
    ensures Inv(Admit(r, id, owner))
  {
    var after := Admit(r, id, owner);
    if after != r {
      assert r.closers == [];
      forall other | other in after.readers ensures ReaderInv(after.readers[other], other in after.entries) {
        if other != id {
          assert after.readers[other] == r.readers[other] && ReaderInv(r.readers[other], other in r.entries);
        }
      }
      forall o ensures |Owned(after, o)| <= MAX_BINDING_READERS {
        if o == owner {
          assert Owned(after, o) == Owned(r, o) + {id};
        } else {
          assert Owned(after, o) == Owned(r, o);
        }
      }
    }
  }

  /** Whoever is not on the list of a shutdown has already been stopped. */
  lemma {:induction false} ListKept(r: Registry, c: nat)
    requires Inv(r)
    ensures Inv(CloseAllLists(r, c))
  {
    var after := CloseAllLists(r, c);
    if after != r {
      assert CloserInv(r, Stopping(r.entries));
      assert forall o :: Owned(after, o) == Owned(r, o);
    }
  }

  lemma {:induction false} FlagKept(r: Registry)
    requires Inv(r)
    ensures Inv(CloseAllFlags(r))
  {
    assert forall o :: Owned(CloseAllFlags(r), o) == Owned(r, o);
  }

  lemma {:induction false} StopBeginsKept(r: Registry, id: Id)
    requires Inv(r)
    ensures Inv(StopBegins(r, id))
  {
    if id in r.readers {
      PutKept(r, id, r.readers[id].(stopped := true, signals := r.readers[id].signals + 1));
    }
  }

  lemma {:induction false} CloseKept(r: Registry, c: nat, id: Id)
    requires Inv(r)
    ensures Inv(CloseAllStops(r, c, id))
  {
    if c < |r.closers| && r.closers[c].Stopping? && id in r.closers[c].remaining {
      var next := Stopping(r.closers[c].remaining - {id});
      StopBeginsKept(r, id);
      var stopped := StopBegins(r, id);
      var after := stopped.(closers := stopped.closers[c := next]);
      assert after == CloseAllStops(r, c, id);
      assert CloserInv(stopped, next) by {
        assert CloserInv(stopped, stopped.closers[c]);
      }
      assert forall o :: Owned(after, o) == Owned(stopped, o);
    }
  }

  lemma {:induction false} ReaderStepKept(r: Registry, id: Id)
    requires Inv(r)
    ensures Inv(StopEnds(r, id)) && Inv(Enroll(r, id)) && Inv(PreparationEnds(r, id))
  {
    if id in r.readers {
      var x := r.readers[id];
      if x.signals > 0 {
        PutKept(r, id, x.(signals := x.signals - 1, completion := CloseCompletion(x.completion), cleaning := Started(x.cleaning)));
      }
      if x.completion.None? {
        PutKept(r, id, x.(completion := Some(Completion(x.stopped, false)), lateEnrolled := x.prepared));
      }
      PutKept(r, id, x.(prepared := true));
    }
  }

  lemma {:induction false} CleanupKept(r: Registry, id: Id, ok: bool)
    requires Inv(r)
    ensures Inv(CleanupLooks(r, id)) && Inv(CleanupDrains(r, id, ok))
  {
    if id in r.readers {
      var x := r.readers[id];
      if x.cleaning.Looping? && x.prepared {
        PutKept(r, id, x.(completion := CloseCompletion(x.completion), cleaning := Draining(x.completion.Some?)));
      } else if x.cleaning.Draining? {
        if !x.cleaning.enrolled {
          PutKept(r, id, x.(cleaning := Finished));
        } else if ok && x.completion.Some? {
          PutKept(r, id, x.(completion := Some(x.completion.value.(drained := true)), cleaning := Finished));
        } else {
          PutKept(r, id, x.(cleaning := Looping));
        }
      }
    }
  }

  lemma {:induction false} RemovesKept(r: Registry, id: Id, keepTerminal: bool)
    requires Inv(r)
    ensures Inv(CleanupRemoves(r, id, keepTerminal))
  {
    if id in r.readers && r.readers[id].cleaning.Finished? {
      if keepTerminal {
        PutKept(r, id, r.readers[id].(cleaning := Looping));
      } else {
        var after := CleanupRemoves(r, id, keepTerminal);
        SubsetSize(after.entries, r.entries);
        forall o ensures |Owned(after, o)| <= MAX_BINDING_READERS {
          SubsetSize(Owned(after, o), Owned(r, o));
        }
      }
    }
  }

  lemma {:induction false} ActKept(r: Registry, a: Action)
    requires Inv(r)
    ensures Inv(Act(r, a))
  {
    match a
    case AdmitAction(id, owner) => AdmitKept(r, id, owner);
    case FlagAction => FlagKept(r);
    case ListAction(c) => ListKept(r, c);
    case CloseAction(c, id) => CloseKept(r, c, id);
    case StopBeginsAction(id) => StopBeginsKept(r, id);
    case StopEndsAction(id) => ReaderStepKept(r, id);
    case EnrollAction(id) => ReaderStepKept(r, id);
    case PreparationEndsAction(id) => ReaderStepKept(r, id);
    case LooksAction(id) => CleanupKept(r, id, true);
    case DrainsAction(id, ok) => CleanupKept(r, id, ok);
    case RemovesAction(id, keepTerminal) => RemovesKept(r, id, keepTerminal);
  }

  /** The invariant holds after every interleaving. */
  lemma {:induction false} RunKept(actions: seq<Action>)
    ensures Inv(Run(actions))
  {
    if actions == [] {
      EmptyInv();
    } else {
      RunKept(actions[..|actions| - 1]);
      ActKept(Run(actions[..|actions| - 1]), actions[|actions| - 1]);
    }
  }

  // ---------------------------------------------------------------------------------------------
  // What a shutdown can rely on
  // ---------------------------------------------------------------------------------------------

  /** Once some shutdown has gone through its list, every reader ever admitted has been stopped. */
  lemma {:induction false} ShutdownStopsAll(actions: seq<Action>, c: nat, id: Id)
    requires c < |Run(actions).closers| && Run(actions).closers[c] == Stopping({}) && id in Run(actions).readers
    ensures Run(actions).readers[id].stopped
  {
    RunKept(actions);
    assert CloserInv(Run(actions), Run(actions).closers[c]);
  }

  lemma {:induction false} StoppedStays(r: Registry, a: Action)
    requires r.stopped
    ensures Act(r, a).stopped && Act(r, a).readers.Keys == r.readers.Keys
  {
  }

  lemma {:induction false} RunMore(actions: seq<Action>, a: Action)
    ensures Run(actions + [a]) == Act(Run(actions), a)
  {
    assert (actions + [a])[..|actions|] == actions;
  }

  /** From the flag on, no reader is admitted, whatever happens. */
  lemma {:induction false} NobodyAfterTheFlag(before: seq<Action>, later: seq<Action>)
    requires Run(before).stopped
    ensures Run(before + later).stopped && Run(before + later).readers.Keys == Run(before).readers.Keys
  {
    if later == [] {
      assert before + later == before;
    } else {
      var front, last := later[..|later| - 1], later[|later| - 1];
      NobodyAfterTheFlag(before, front);
      StoppedStays(Run(before + front), last);
      RunMore(before + front, last);
      assert before + later == before + front + [last];
    }
  }

  /** A completion and a stop never miss each other: with no stop under way, a stopped reader's producer is closed. */
  lemma {:induction false} NoCompletionIsMissed(actions: seq<Action>, id: Id)
    requires id in Run(actions).readers
    ensures var x := Run(actions).readers[id];
            x.stopped && x.completion.Some? && x.signals == 0 ==> x.completion.value.closed
  {
    RunKept(actions);
    assert ReaderInv(Run(actions).readers[id], id in Run(actions).entries);
  }

  /**
   * A reader leaves the map only when its preparation has ended and its producer, if it had enrolled by
   * then, has drained. A producer that enrolls later still finds its reader stopped and is closed.
   */
  lemma {:induction false} RemovedMeansDrained(actions: seq<Action>, id: Id)
    requires id in Run(actions).readers && id !in Run(actions).entries
    ensures var x := Run(actions).readers[id];
            && x.stopped && x.prepared
            && (x.completion.None? || x.completion.value.drained
                || (x.lateEnrolled && (x.completion.value.closed || x.signals > 0)))
  {
    RunKept(actions);
    assert ReaderInv(Run(actions).readers[id], id in Run(actions).entries);
  }

  /** The caps count every reader in the map, closing ones included. */
  lemma {:induction false} CapsHold(actions: seq<Action>, owner: Owner)
    ensures |Run(actions).entries| <= MAX_OPEN_READERS && |Owned(Run(actions), owner)| <= MAX_BINDING_READERS
    ensures forall id :: id in Run(actions).readers && !Run(actions).readers[id].cleaning.Gone? ==> id in Run(actions).entries
  {
    RunKept(actions);
  }

  // ---------------------------------------------------------------------------------------------
  // What a caller whose reader has been stopped can rely on
  // ---------------------------------------------------------------------------------------------

  /** What is left to happen to a stopped reader whose producer drains and whose terminal reply is not awaited. */
  function Leaving(id: Id): seq<Action> {
    [StopEndsAction(id), PreparationEndsAction(id), LooksAction(id), DrainsAction(id, true), RemovesAction(id, false)]
  }

  /** How far the cleanup of a stopped reader has come once its stop has been told. */
  lemma {:induction false} CleanupBegins(actions: seq<Action>, id: Id)
    requires id in Run(actions).readers && Run(actions).readers[id].stopped
    ensures var after := Run(actions + [StopEndsAction(id)]);
            id in after.readers && !after.readers[id].cleaning.Idle? && after.entries == Run(actions).entries
  {
    RunKept(actions);
    assert ReaderInv(Run(actions).readers[id], id in Run(actions).entries);
    RunMore(actions, StopEndsAction(id));
  }

  /** A cleanup that has begun goes through, whatever step it is at. */
  lemma {:induction false} CleanupGoes(r: Registry, id: Id)
    requires Inv(r) && id in r.readers && !r.readers[id].cleaning.Idle?
    ensures var drained := CleanupDrains(CleanupLooks(PreparationEnds(r, id), id), id, true);
            CleanupRemoves(drained, id, false).entries == r.entries - {id}
  {
    assert ReaderInv(r.readers[id], id in r.entries);
    var prepared := PreparationEnds(r, id);
    var looked := CleanupLooks(prepared, id);
    assert prepared.entries == r.entries && prepared.readers[id].cleaning == r.readers[id].cleaning;
    assert looked.entries == r.entries && !looked.readers[id].cleaning.Looping? && !looked.readers[id].cleaning.Idle?;
    assert looked.readers[id].cleaning.Draining? && looked.readers[id].cleaning.enrolled ==> looked.readers[id].completion.Some?;
  }

  /** However far its cleanup has come, a stopped reader leaves the map by these steps, and no other reader does. */
  lemma {:induction false} StoppedLeaves(actions: seq<Action>, id: Id)
    requires id in Run(actions).readers && Run(actions).readers[id].stopped
    ensures Run(actions + Leaving(id)).entries == Run(actions).entries - {id}
  {
    var ended := actions + [StopEndsAction(id)];
    CleanupBegins(actions, id);
    RunKept(ended);
    CleanupGoes(Run(ended), id);
    LeavingRuns(actions, id);
  }

  lemma {:induction false} LeavingRuns(actions: seq<Action>, id: Id)
    ensures Run(actions + Leaving(id))
         == var r := Run(actions + [StopEndsAction(id)]);
            CleanupRemoves(CleanupDrains(CleanupLooks(PreparationEnds(r, id), id), id, true), id, false)
  {
    var ended := actions + [StopEndsAction(id)];
    var prepared := ended + [PreparationEndsAction(id)];
    var looked := prepared + [LooksAction(id)];
    var drained := looked + [DrainsAction(id, true)];
    RunMore(ended, PreparationEndsAction(id));
    RunMore(prepared, LooksAction(id));
    RunMore(looked, DrainsAction(id, true));
    RunMore(drained, RemovesAction(id, false));
    assert actions + Leaving(id) == drained + [RemovesAction(id, false)];
  }

  /** No action but an admission adds a reader, none but a shutdown sets the flag, and none changes an owner. */
  lemma {:induction false} Spares(actions: seq<Action>, a: Action)
    requires !a.AdmitAction? && !a.FlagAction?
    ensures var r, after := Run(actions), Run(actions + [a]);
            && after.stopped == r.stopped && after.readers.Keys == r.readers.Keys
            && forall other :: other in r.readers ==> after.readers[other].owner == r.readers[other].owner
  {
    RunMore(actions, a);
  }

  lemma {:induction false} AllSpare(actions: seq<Action>, steps: seq<Action>)
    requires forall i :: 0 <= i < |steps| ==> !steps[i].AdmitAction? && !steps[i].FlagAction?
    ensures var r, after := Run(actions), Run(actions + steps);
            && after.stopped == r.stopped && after.readers.Keys == r.readers.Keys
            && forall other :: other in r.readers ==> after.readers[other].owner == r.readers[other].owner
  {
    if steps == [] {
      assert actions + steps == actions;
    } else {
      var front, last := steps[..|steps| - 1], steps[|steps| - 1];
      AllSpare(actions, front);
      Spares(actions + front, last);
      assert actions + steps == actions + front + [last];
    }
  }

  /** And then its place is free: the owner may open another reader, unless a shutdown has begun. */
  lemma {:induction false} PlaceIsFree(actions: seq<Action>, id: Id, next: Id)
    requires id in Run(actions).readers && id in Run(actions).entries && Run(actions).readers[id].stopped
    requires !Run(actions).stopped && next !in Run(actions).readers
    ensures next in Run(actions + Leaving(id) + [AdmitAction(next, Run(actions).readers[id].owner)]).entries
  {
    var r, left := Run(actions), actions + Leaving(id);
    var owner := r.readers[id].owner;
    RunKept(actions);
    StoppedLeaves(actions, id);
    AllSpare(actions, Leaving(id));
    RunMore(left, AdmitAction(next, owner));
    assert Owned(Run(left), owner) == Owned(r, owner) - {id};
  }
}
