/** The registry object, run by one thread at a time. */
module RegistryObject {
  import opened Wrappers
  import opened ReaderRegistry

  /** Stopped, with its producer told to close. */
  predicate Silent(x: Reader) {
    x.stopped && (x.completion.Some? ==> x.completion.value.closed)
  }

  class RegistryInner {
    var stopped: bool
    var entries: set<Id>
    var readers: map<Id, Reader>
    ghost var closers: seq<Closer>

    ghost function R(): Registry
      reads this
    {
      Registry(stopped, entries, readers, closers)
    }

    constructor ()
      ensures R() == Empty()
    {
      stopped, entries, readers, closers := false, {}, map[], [];
    }

    /** All under the entries lock. */
    method AdmitReader(id: Id, owner: Owner) returns (admitted: bool)
      modifies this`entries, this`readers
      ensures R() == Admit(old(R()), id, owner)
      ensures admitted <==> id !in old(readers) && id in readers
    {
      if stopped {
        return false;
      }
      var owned := set e | e in entries && e in readers && readers[e].owner == owner;
      assert owned == Owned(R(), owner);
      if |entries| >= MAX_OPEN_READERS || |owned| >= MAX_BINDING_READERS || id in readers {
        return false;
      }
      entries := entries + {id};
      readers := readers[id := Reader(owner, false, 0, false, None, false, Idle)];
      return true;
    }

    method SignalStop(id: Id)
      modifies this`readers
      ensures R() == StopEnds(StopBegins(old(R()), id), id)
    {
      if id in readers {
        var x := readers[id];
        x := x.(stopped := true);
        if x.completion.Some? {
          x := x.(completion := Some(x.completion.value.(closed := true)));
        }
        if x.cleaning.Idle? {
          x := x.(cleaning := Looping);
        }
        readers := readers[id := x];
      }
    }

    method StopOne(id: Id)
      requires Inv(R()) && id in readers
      modifies this`readers
      ensures Inv(R()) && readers.Keys == old(readers).Keys && Silent(readers[id])
      ensures forall other :: other in readers && other != id ==> readers[other] == old(readers)[other]
    {
      StopBeginsKept(R(), id);
      ReaderStepKept(StopBegins(R(), id), id);
      SignalStop(id);
    }

    /** Accepted, or refused and then closed at once. */
    method Enrolled(id: Id) returns (accepted: bool)
      requires id in readers
      modifies this`readers
      ensures R() == Enroll(old(R()), id)
      ensures accepted <==> old(readers[id].completion.None? && !readers[id].stopped)
    {
      var x := readers[id];
      if x.completion.Some? {
        return false;
      }
      var completion := Completion(false, false);
      if x.stopped {
        completion := completion.(closed := true);
      }
      readers := readers[id := x.(completion := Some(completion), lateEnrolled := x.prepared)];
      return !x.stopped;
    }

    /** Undisturbed, a shutdown stops every entry and closes every producer that has enrolled. */
    method CloseAll()
      requires Inv(R())
      modifies this
      ensures stopped && entries == old(entries) && readers.Keys == old(readers).Keys && Inv(R())
      ensures forall id :: id in readers ==> readers[id].stopped
      ensures forall id :: id in entries ==> Silent(readers[id])
    {
      stopped := true;
      var snapshot := entries;
      FlagOnly(old(R()));
      while snapshot != {}
        invariant stopped && entries == old(entries) && readers.Keys == old(readers).Keys && Inv(R())
        invariant snapshot <= entries
        invariant forall id :: id in entries && id !in snapshot ==> Silent(readers[id])
        decreases |snapshot|
      {
        var id :| id in snapshot;
        snapshot := snapshot - {id};
        StopOne(id);
      }
      forall id | id in readers ensures readers[id].stopped {
        assert ReaderInv(readers[id], id in entries);
      }
    }
  }

  lemma {:induction false} FlagOnly(r: Registry)
    requires Inv(r)
    ensures Inv(r.(stopped := true))
  {
    assert forall o :: Owned(r.(stopped := true), o) == Owned(r, o);
    forall c | 0 <= c < |r.closers| ensures CloserInv(r.(stopped := true), r.closers[c]) {
      assert CloserInv(r, r.closers[c]);
    }
  }
}
