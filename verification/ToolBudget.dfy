/** Resource locks and the global permit pool that every tool invocation passes through. */
module ToolBudget {
  import opened Scheduling

  /** Identity of one semaphore allocation; a fresh allocation never reuses an old identity. */
  type SemId = nat

  /** `Acquiring(n)` owns the first `n` semaphores of its list, and next wants the permit pool. */
  datatype Phase = Idle | Acquiring(held: nat) | Running | Done

  datatype Task = Task(keys: seq<Key>, sems: seq<SemId>, phase: Phase)

  datatype State = State(tasks: seq<Task>, entries: map<Key, SemId>, next: SemId, permits: nat)

  // ---------------------------------------------------------------------------------------------
  // The weak table
  // ---------------------------------------------------------------------------------------------

  /** Entries whose semaphore somebody still owns. */
  function Retain(entries: map<Key, SemId>, alive: set<SemId>): map<Key, SemId> {
    map k | k in entries && entries[k] in alive :: entries[k]
  }

  /** Table, semaphores and next identity after looking up or allocating one semaphore a key. */
  function Assign(entries: map<Key, SemId>, keys: seq<Key>, next: SemId): (map<Key, SemId>, seq<SemId>, SemId) {
    if keys == [] then (entries, [], next)
    else
      var (e, sems, n) := Assign(entries, keys[..|keys| - 1], next);
      var key := keys[|keys| - 1];
      if key in e then (e, sems + [e[key]], n) else (e[key := n], sems + [n], n + 1)
  }

  /** The shared table; `alive` and `next` stand for reference counts and the allocator. */
  class ToolResourceLocks {
    var entries: map<Key, SemId>

    constructor ()
      ensures entries == map[]
    {
      entries := map[];
    }

    /** The part of an acquisition that runs under the table's mutex. */
    method Lookup(keys: seq<Key>, alive: set<SemId>, next: SemId) returns (sems: seq<SemId>, unused: SemId)
      modifies this
      ensures (entries, sems, unused) == Assign(Retain(old(entries), alive), keys, next)
    {
      entries := Retain(entries, alive);
      sems, unused := [], next;
      for i := 0 to |keys|
        invariant (entries, sems, unused) == Assign(Retain(old(entries), alive), keys[..i], next)
      {
        assert keys[..i + 1][..i] == keys[..i];
        if keys[i] in entries {
          sems := sems + [entries[keys[i]]];
        } else {
          entries := entries[keys[i] := unused];
          sems := sems + [unused];
          unused := unused + 1;
        }
      }
      assert keys[..|keys|] == keys;
    }
  }

  // ---------------------------------------------------------------------------------------------
  // Steps
  // ---------------------------------------------------------------------------------------------

  predicate Live(t: Task) {
    t.phase.Acquiring? || t.phase.Running?
  }

  /** How many of its semaphores a task owns. */
  function Held(t: Task): nat {
    match t.phase
    case Acquiring(n) => n
    case Running => |t.keys|
    case _ => 0
  }

  ghost predicate Owns(t: Task, sem: SemId) {
    exists a :: 0 <= a < Held(t) && a < |t.sems| && t.sems[a] == sem
  }

  /** Semaphores with a strong reference: queued waiters count as well as owners. */
  function Alive(tasks: seq<Task>): set<SemId> {
    set i, a | 0 <= i < |tasks| && Live(tasks[i]) && 0 <= a < |tasks[i].sems| :: tasks[i].sems[a]
  }

  datatype Step = Register(i: nat) | Acquire(i: nat) | TakePermit(i: nat) | Finish(i: nat) | Cancel(i: nat)

  ghost predicate Enabled(s: State, step: Step) {
    && step.i < |s.tasks|
    && var t := s.tasks[step.i];
       match step
       case Register(_) => t.phase.Idle?
       case Acquire(_) =>
         && t.phase.Acquiring? && t.phase.held < |t.sems|
         && forall j :: 0 <= j < |s.tasks| ==> !Owns(s.tasks[j], t.sems[t.phase.held])
       case TakePermit(_) => t.phase.Acquiring? && t.phase.held == |t.sems| && s.permits > 0
       case Finish(_) => t.phase.Running?
       case Cancel(_) => !t.phase.Done?
  }

  function SetTask(s: State, i: nat, t: Task): State
    requires i < |s.tasks|
  {
    s.(tasks := s.tasks[i := t])
  }

  ghost function Next(s: State, step: Step): State
    requires Enabled(s, step)
  {
    var t := s.tasks[step.i];
    match step
    case Register(i) =>
      var (entries, sems, next) := Assign(Retain(s.entries, Alive(s.tasks)), t.keys, s.next);
      State(s.tasks[i := Task(t.keys, sems, Acquiring(0))], entries, next, s.permits)
    case Acquire(i) => SetTask(s, i, t.(phase := Acquiring(t.phase.held + 1)))
    case TakePermit(i) => SetTask(s, i, t.(phase := Running)).(permits := s.permits - 1)
    case Finish(i) => SetTask(s, i, t.(phase := Done)).(permits := s.permits + 1)
    case Cancel(i) =>
      SetTask(s, i, t.(phase := Done)).(permits := if t.phase.Running? then s.permits + 1 else s.permits)
  }

  ghost predicate Init(s: State) {
    && s.entries == map[] && s.next == 0
    && forall i :: 0 <= i < |s.tasks| ==> s.tasks[i].phase.Idle? && StrictlySorted(s.tasks[i].keys)
  }

  // ---------------------------------------------------------------------------------------------
  // Invariant
  // ---------------------------------------------------------------------------------------------

  ghost predicate TaskInv(t: Task, entries: map<Key, SemId>) {
    && StrictlySorted(t.keys)
    && (Live(t) ==>
          && |t.sems| == |t.keys| && Held(t) <= |t.keys|
          && forall a :: 0 <= a < |t.keys| ==> t.keys[a] in entries && entries[t.keys[a]] == t.sems[a])
  }

  ghost predicate TableInv(entries: map<Key, SemId>, next: SemId) {
    && (forall k :: k in entries ==> entries[k] < next)
    && (forall k, l :: k in entries && l in entries && entries[k] == entries[l] ==> k == l)
  }

  ghost predicate HoldsKey(t: Task, k: Key) {
    exists a :: 0 <= a < Held(t) && a < |t.keys| && t.keys[a] == k
  }

  ghost predicate Exclusive(s: State) {
    forall i, j, k :: 0 <= i < j < |s.tasks| && HoldsKey(s.tasks[i], k) ==> !HoldsKey(s.tasks[j], k)
  }

  function RunningCount(tasks: seq<Task>): nat {
    if tasks == [] then 0
    else RunningCount(tasks[..|tasks| - 1]) + if tasks[|tasks| - 1].phase.Running? then 1 else 0
  }

  ghost predicate Inv(s: State, capacity: nat) {
    && (forall i :: 0 <= i < |s.tasks| ==> TaskInv(s.tasks[i], s.entries))
    && TableInv(s.entries, s.next)
    && Exclusive(s)
    && s.permits + RunningCount(s.tasks) == capacity
  }

  lemma {:induction false} NoneRunning(tasks: seq<Task>)
    requires forall i :: 0 <= i < |tasks| ==> !tasks[i].phase.Running?
    ensures RunningCount(tasks) == 0
  {
    if tasks != [] {
      NoneRunning(tasks[..|tasks| - 1]);
    }
  }

  lemma {:induction false} CountUpdate(tasks: seq<Task>, i: nat, t: Task)
    requires i < |tasks|
    ensures RunningCount(tasks[i := t]) + (if tasks[i].phase.Running? then 1 else 0)
         == RunningCount(tasks) + (if t.phase.Running? then 1 else 0)
  {
    var last := |tasks| - 1;
    if i == last {
      assert tasks[i := t][..last] == tasks[..last];
    } else {
      assert tasks[i := t][..last] == tasks[..last][i := t];
      CountUpdate(tasks[..last], i, t);
    }
  }

  lemma InitInv(s: State, capacity: nat)
    requires Init(s) && s.permits == capacity
    ensures Inv(s, capacity)
  {
    NoneRunning(s.tasks);
  }

  /** One more key, known or new. */
  lemma {:induction false} AssignOne(e: map<Key, SemId>, key: Key, n: SemId)
    requires TableInv(e, n)
    ensures key !in e ==> TableInv(e[key := n], n + 1)
  {
  }

  /** Looking keys up keeps every old entry and gives each key its entry. */
  lemma {:induction false} AssignInv(entries: map<Key, SemId>, keys: seq<Key>, next: SemId)
    requires TableInv(entries, next)
    ensures var (e, sems, n) := Assign(entries, keys, next);
            && TableInv(e, n) && |sems| == |keys|
            && (forall k :: k in entries ==> k in e && e[k] == entries[k])
            && (forall a :: 0 <= a < |keys| ==> keys[a] in e && e[keys[a]] == sems[a])
  {
    if keys != [] {
      var front, key := keys[..|keys| - 1], keys[|keys| - 1];
      AssignInv(entries, front, next);
      var (e, sems, n) := Assign(entries, front, next);
      var (e', sems', _) := Assign(entries, keys, next);
      AssignOne(e, key, n);
      forall a | 0 <= a < |keys| ensures keys[a] in e' && e'[keys[a]] == sems'[a] {
        if a < |front| {
          assert front[a] == keys[a] && sems'[a] == sems[a];
        }
      }
    }
  }

  /** Collecting unowned entries never unmaps a key somebody is using. */
  lemma RegisterKeepsTask(s: State, capacity: nat, step: Step, j: nat)
    requires Inv(s, capacity) && step.Register? && Enabled(s, step)
    requires j < |s.tasks|
    ensures TaskInv(Next(s, step).tasks[j], Next(s, step).entries)
  {
    var kept := Retain(s.entries, Alive(s.tasks));
    AssignInv(kept, s.tasks[step.i].keys, s.next);
    var t := s.tasks[j];
    if j != step.i && Live(t) {
      forall a | 0 <= a < |t.keys| ensures t.keys[a] in kept && kept[t.keys[a]] == t.sems[a] {
        assert t.sems[a] in Alive(s.tasks);
      }
    }
  }

  lemma HolderOwns(t: Task, entries: map<Key, SemId>, key: Key)
    requires TaskInv(t, entries) && HoldsKey(t, key)
    ensures key in entries && Owns(t, entries[key])
  {
    var a :| 0 <= a < Held(t) && a < |t.keys| && t.keys[a] == key;
    assert t.sems[a] == entries[key];
  }

  ghost predicate Blocked(t: Task) {
    t.phase.Acquiring? && t.phase.held < |t.keys|
  }

  function Awaited(t: Task): Key
    requires t.phase.Acquiring? && t.phase.held < |t.keys|
  {
    t.keys[t.phase.held]
  }

  /** Owning the semaphore of a key is holding the key. */
  lemma OwnerHolds(t: Task, entries: map<Key, SemId>, next: SemId, key: Key)
    requires TaskInv(t, entries) && TableInv(entries, next) && key in entries && Owns(t, entries[key])
    ensures HoldsKey(t, key)
  {
    var a :| 0 <= a < Held(t) && a < |t.sems| && t.sems[a] == entries[key];
    assert entries[t.keys[a]] == entries[key];
  }

  /** A call waits for its next key exactly while another call holds that very key. */
  lemma {:induction false} AcquireExactly(s: State, capacity: nat, i: nat)
    requires Inv(s, capacity) && i < |s.tasks| && Blocked(s.tasks[i])
    ensures Enabled(s, Acquire(i)) <==> forall j :: 0 <= j < |s.tasks| && j != i ==> !HoldsKey(s.tasks[j], Awaited(s.tasks[i]))
  {
    var t := s.tasks[i];
    var key := Awaited(t);
    assert TaskInv(t, s.entries);
    forall j | 0 <= j < |s.tasks| ensures Owns(s.tasks[j], t.sems[t.phase.held]) <==> HoldsKey(s.tasks[j], key) {
      if Owns(s.tasks[j], s.entries[key]) {
        OwnerHolds(s.tasks[j], s.entries, s.next, key);
      }
      if HoldsKey(s.tasks[j], key) {
        HolderOwns(s.tasks[j], s.entries, key);
      }
    }
    LessIrreflexive(key);
    assert !HoldsKey(t, key);
  }

  /** With all its keys, it waits for a permit exactly while the whole pool is taken by running calls. */
  lemma {:induction false} PermitExactly(s: State, capacity: nat, i: nat)
    requires Inv(s, capacity) && i < |s.tasks| && s.tasks[i].phase.Acquiring? && !Blocked(s.tasks[i])
    ensures Enabled(s, TakePermit(i)) <==> RunningCount(s.tasks) < capacity
  {
    assert TaskInv(s.tasks[i], s.entries);
  }

  lemma AcquireExclusive(s: State, capacity: nat, step: Step)
    requires Inv(s, capacity) && step.Acquire? && Enabled(s, step)
    ensures Exclusive(Next(s, step))
  {
    var t, u := s.tasks[step.i], Next(s, step).tasks[step.i];
    var key := t.keys[t.phase.held];
    forall j | 0 <= j < |s.tasks| ensures !HoldsKey(s.tasks[j], key) {
      if HoldsKey(s.tasks[j], key) {
        HolderOwns(s.tasks[j], s.entries, key);
      }
    }
    assert forall k :: HoldsKey(u, k) ==> HoldsKey(t, k) || k == key;
  }

  /** A step that leaves a task with no more keys than before keeps the locks exclusive. */
  lemma ShrinkExclusive(s: State, next: State, i: nat)
    requires Exclusive(s) && i < |s.tasks| && |next.tasks| == |s.tasks|
    requires forall j :: 0 <= j < |s.tasks| && j != i ==> next.tasks[j] == s.tasks[j]
    requires forall k :: HoldsKey(next.tasks[i], k) ==> HoldsKey(s.tasks[i], k)
    ensures Exclusive(next)
  {
  }

  lemma NextInv(s: State, capacity: nat, step: Step)
    requires Inv(s, capacity) && Enabled(s, step)
    ensures Inv(Next(s, step), capacity)
  {
    var i, t, next := step.i, s.tasks[step.i], Next(s, step);
    assert TaskInv(t, s.entries);
    CountUpdate(s.tasks, i, next.tasks[i]);
    if step.Register? {
      AssignInv(Retain(s.entries, Alive(s.tasks)), t.keys, s.next);
      forall j | 0 <= j < |s.tasks| ensures TaskInv(next.tasks[j], next.entries) {
        RegisterKeepsTask(s, capacity, step, j);
      }
    }
    if step.Acquire? {
      AcquireExclusive(s, capacity, step);
    } else {
      ShrinkExclusive(s, next, i);
    }
  }

  // ---------------------------------------------------------------------------------------------
  // Results
  // ---------------------------------------------------------------------------------------------

  ghost predicate IsRun(s: State, steps: seq<Step>)
    decreases |steps|
  {
    steps != [] ==> Enabled(s, steps[0]) && IsRun(Next(s, steps[0]), steps[1..])
  }

  ghost function After(s: State, steps: seq<Step>): State
    requires IsRun(s, steps)
    decreases |steps|
  {
    if steps == [] then s else After(Next(s, steps[0]), steps[1..])
  }

  lemma {:induction false} RunInv(s: State, capacity: nat, steps: seq<Step>)
    requires Inv(s, capacity) && IsRun(s, steps)
    ensures Inv(After(s, steps), capacity)
    decreases |steps|
  {
    if steps != [] {
      NextInv(s, capacity, steps[0]);
      RunInv(Next(s, steps[0]), capacity, steps[1..]);
    }
  }

  /** In every reachable state two running calls carry no common key, and the pool is respected. */
  lemma MutualExclusion(s: State, capacity: nat, steps: seq<Step>, i: nat, j: nat, k: Key)
    requires Init(s) && s.permits == capacity && IsRun(s, steps)
    requires i < j < |After(s, steps).tasks|
    requires After(s, steps).tasks[i].phase.Running? && After(s, steps).tasks[j].phase.Running?
    ensures !(k in After(s, steps).tasks[i].keys && k in After(s, steps).tasks[j].keys)
    ensures RunningCount(After(s, steps).tasks) <= capacity
  {
    InitInv(s, capacity);
    RunInv(s, capacity, steps);
    var end := After(s, steps);
    if k in end.tasks[i].keys && k in end.tasks[j].keys {
      assert HoldsKey(end.tasks[i], k) && HoldsKey(end.tasks[j], k);
    }
  }

  /** Among the blocked tasks one awaits a key that no other blocked task exceeds. */
  lemma {:induction false} GreatestAwaited(tasks: seq<Task>, n: nat) returns (m: nat)
    requires n <= |tasks| && exists i :: 0 <= i < n && Blocked(tasks[i])
    ensures m < n && Blocked(tasks[m])
    ensures forall i :: 0 <= i < n && Blocked(tasks[i]) ==> !Less(Awaited(tasks[m]), Awaited(tasks[i]))
  {
    if exists i :: 0 <= i < n - 1 && Blocked(tasks[i]) {
      m := GreatestAwaited(tasks, n - 1);
      var last := tasks[n - 1];
      if Blocked(last) && Less(Awaited(tasks[m]), Awaited(last)) {
        LessIrreflexive(Awaited(last));
        forall i | 0 <= i < n - 1 && Blocked(tasks[i]) ensures !Less(Awaited(last), Awaited(tasks[i])) {
          if Less(Awaited(last), Awaited(tasks[i])) {
            LessTransitive(Awaited(tasks[m]), Awaited(last), Awaited(tasks[i]));
          }
        }
        m := n - 1;
      }
    } else {
      m := n - 1;
      LessIrreflexive(Awaited(tasks[m]));
    }
  }

  /** A blocked owner of what `t` awaits has gone past that key. */
  lemma OwnerAwaitsMore(s: State, t: Task, owner: Task)
    requires TableInv(s.entries, s.next) && TaskInv(t, s.entries) && TaskInv(owner, s.entries)
    requires Blocked(t) && Owns(owner, t.sems[t.phase.held]) && (owner.phase.Done? || Blocked(owner))
    ensures Blocked(owner) && Less(Awaited(t), Awaited(owner))
  {
    var a :| 0 <= a < Held(owner) && a < |owner.sems| && owner.sems[a] == t.sems[t.phase.held];
    assert s.entries[owner.keys[a]] == s.entries[Awaited(t)];
  }

  /** Whoever awaits the greatest key cannot be waiting for anybody: ordered acquisition. */
  lemma GreatestCanAcquire(s: State, capacity: nat, m: nat)
    requires Inv(s, capacity) && m < |s.tasks| && Blocked(s.tasks[m])
    requires forall i :: 0 <= i < |s.tasks| ==> s.tasks[i].phase.Done? || Blocked(s.tasks[i])
    requires forall i :: 0 <= i < |s.tasks| && Blocked(s.tasks[i]) ==> !Less(Awaited(s.tasks[m]), Awaited(s.tasks[i]))
    ensures Enabled(s, Acquire(m))
  {
    var t := s.tasks[m];
    assert TaskInv(t, s.entries);
    forall j | 0 <= j < |s.tasks| ensures !Owns(s.tasks[j], t.sems[t.phase.held]) {
      if Owns(s.tasks[j], t.sems[t.phase.held]) {
        OwnerAwaitsMore(s, t, s.tasks[j]);
      }
    }
  }

  ghost predicate CanProgress(s: State) {
    exists step :: Enabled(s, step) && !step.Cancel?
  }

  /** No reachable state with an unfinished call is stuck. */
  lemma DeadlockFree(s: State, capacity: nat, u: nat)
    requires Inv(s, capacity) && capacity > 0
    requires u < |s.tasks| && !s.tasks[u].phase.Done?
    ensures CanProgress(s)
  {
    if i :| 0 <= i < |s.tasks| && s.tasks[i].phase.Running? {
      assert Enabled(s, Finish(i));
    } else if i :| 0 <= i < |s.tasks| && s.tasks[i].phase.Idle? {
      assert Enabled(s, Register(i));
    } else if i :| 0 <= i < |s.tasks| && s.tasks[i].phase.Acquiring? && !Blocked(s.tasks[i]) {
      NoneRunning(s.tasks);
      assert TaskInv(s.tasks[i], s.entries);
      assert Enabled(s, TakePermit(i));
    } else {
      assert Blocked(s.tasks[u]);
      var m := GreatestAwaited(s.tasks, |s.tasks|);
      GreatestCanAcquire(s, capacity, m);
    }
  }

  /** Steps a call still has ahead of it. */
  function Remaining(t: Task): nat {
    match t.phase
    case Idle => |t.keys| + 3
    case Acquiring(n) => (if n < |t.keys| then |t.keys| - n else 0) + 2
    case Running => 1
    case Done => 0
  }

  function Work(tasks: seq<Task>): nat {
    if tasks == [] then 0 else Work(tasks[..|tasks| - 1]) + Remaining(tasks[|tasks| - 1])
  }

  lemma {:induction false} WorkUpdate(tasks: seq<Task>, i: nat, t: Task)
    requires i < |tasks|
    ensures Work(tasks[i := t]) + Remaining(tasks[i]) == Work(tasks) + Remaining(t)
  {
    var last := |tasks| - 1;
    if i == last {
      assert tasks[i := t][..last] == tasks[..last];
    } else {
      assert tasks[i := t][..last] == tasks[..last][i := t];
      WorkUpdate(tasks[..last], i, t);
    }
  }

  /** No schedule is longer than the work it starts with, whatever is cancelled on the way. */
  lemma {:induction false} RunsAreBounded(s: State, capacity: nat, steps: seq<Step>)
    requires Inv(s, capacity) && IsRun(s, steps)
    ensures |steps| + Work(After(s, steps).tasks) <= Work(s.tasks)
    decreases |steps|
  {
    if steps != [] {
      var next := Next(s, steps[0]);
      assert TaskInv(s.tasks[steps[0].i], s.entries);
      NextInv(s, capacity, steps[0]);
      WorkUpdate(s.tasks, steps[0].i, next.tasks[steps[0].i]);
      RunsAreBounded(next, capacity, steps[1..]);
    }
  }

  /** So every schedule that is continued for as long as it can be finishes every call. */
  lemma EveryCallFinishes(s: State, capacity: nat, steps: seq<Step>)
    requires Init(s) && s.permits == capacity > 0 && IsRun(s, steps)
    ensures |steps| <= Work(s.tasks)
    ensures !CanProgress(After(s, steps)) ==> forall i :: 0 <= i < |After(s, steps).tasks| ==>
              After(s, steps).tasks[i].phase.Done?
  {
    InitInv(s, capacity);
    RunInv(s, capacity, steps);
    RunsAreBounded(s, capacity, steps);
    var end := After(s, steps);
    forall i | 0 <= i < |end.tasks| && !CanProgress(end) ensures end.tasks[i].phase.Done? {
      if !end.tasks[i].phase.Done? {
        DeadlockFree(end, capacity, i);
      }
    }
  }
}
