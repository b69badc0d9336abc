/** Tool scheduling metadata and the partition of one sampling's tool calls into waves. */
module Scheduling {

  /** An opaque resource-lock key; keys are ordered as Rust orders strings. */
  type Key = string

  const MAX_RESOURCE_LOCKS := 32

  /** Lexicographic order on scalars, which is also the byte order of the UTF-8 encodings. */
  predicate Less(a: Key, b: Key) {
    b != [] && (a == [] || a[0] < b[0] || (a[0] == b[0] && Less(a[1..], b[1..])))
  }

  lemma {:induction false} LessIrreflexive(a: Key)
    ensures !Less(a, a)
  {
    if a != [] {
      LessIrreflexive(a[1..]);
    }
  }

  lemma {:induction false} LessTransitive(a: Key, b: Key, c: Key)
    requires Less(a, b) && Less(b, c)
    ensures Less(a, c)
  {
    if a != [] && a[0] == b[0] == c[0] {
      LessTransitive(a[1..], b[1..], c[1..]);
    }
  }

  lemma {:induction false} LessTotal(a: Key, b: Key)
    ensures a == b || Less(a, b) || Less(b, a)
  {
    if a != [] && b != [] && a[0] == b[0] {
      LessTotal(a[1..], b[1..]);
      assert a == [a[0]] + a[1..] && b == [b[0]] + b[1..];
    }
  }

  ghost predicate StrictlySorted(keys: seq<Key>) {
    forall i, j :: 0 <= i < j < |keys| ==> Less(keys[i], keys[j])
  }

  /** Put one key in its place, unless it is there already. */
  function InsertKey(keys: seq<Key>, key: Key): (r: seq<Key>)
    requires StrictlySorted(keys)
    ensures StrictlySorted(r)
    ensures forall k :: k in r <==> k in keys || k == key
  {
    if keys == [] then [key]
    else if key == keys[0] then keys
    else if Less(key, keys[0]) then
      assert forall j | 0 <= j < |keys| :: Less(key, keys[j]) by {
        forall j | 0 < j < |keys| ensures Less(key, keys[j]) {
          LessTransitive(key, keys[0], keys[j]);
        }
      }
      [key] + keys
    else
      var rest := InsertKey(keys[1..], key);
      assert Less(keys[0], key) by { LessTotal(keys[0], key); }
      assert forall k | k in keys :: k == keys[0] || k in keys[1..];
      assert forall j | 0 <= j < |rest| :: rest[j] in rest;
      [keys[0]] + rest
  }

  /** Build-owned metadata: may this tool run beside others, and under which locks. */
  datatype ToolScheduling = ToolScheduling(parallelSafe: bool, locks: seq<Key>)

  const SERIAL := ToolScheduling(false, [])

  /** What every value of the type satisfies: canonical locks, and none on a serial tool. */
  ghost predicate Canonical(s: ToolScheduling) {
    StrictlySorted(s.locks) && |s.locks| <= MAX_RESOURCE_LOCKS && (!s.parallelSafe ==> s.locks == [])
  }

  /** Declare a tool parallel-safe: sort and deduplicate its keys, or fall back to serial. */
  method Parallel(resourceLocks: seq<Key>) returns (s: ToolScheduling)
    ensures Canonical(s)
    ensures s.parallelSafe <==> |set k | k in resourceLocks| <= MAX_RESOURCE_LOCKS
    ensures s.parallelSafe ==> forall k :: k in s.locks <==> k in resourceLocks
  {
    var sorted: seq<Key> := [];
    for i := 0 to |resourceLocks|
      invariant StrictlySorted(sorted)
      invariant forall k :: k in sorted <==> k in resourceLocks[..i]
    {
      sorted := InsertKey(sorted, resourceLocks[i]);
    }
    assert resourceLocks[..|resourceLocks|] == resourceLocks;
    assert (set k | k in resourceLocks) == (set k | k in sorted);
    SortedHasNoDuplicates(sorted);
    if |sorted| > MAX_RESOURCE_LOCKS {
      return SERIAL;
    }
    return ToolScheduling(true, sorted);
  }

  lemma {:induction false} SortedHasNoDuplicates(keys: seq<Key>)
    requires StrictlySorted(keys)
    ensures |set k | k in keys| == |keys|
  {
    if keys != [] {
      SortedHasNoDuplicates(keys[1..]);
      LessIrreflexive(keys[0]);
      assert (set k | k in keys) == {keys[0]} + (set k | k in keys[1..]);
    }
  }

  // ---------------------------------------------------------------------------------------------
  // Waves
  // ---------------------------------------------------------------------------------------------

  /** One call of the batch with the two facts that decide its wave. */
  datatype Call = Call(id: nat, human: bool, scheduling: ToolScheduling)

  datatype Wave = Wave(parallel: bool, calls: seq<Call>)

  predicate Concurrent(c: Call) {
    c.scheduling.parallelSafe && !c.human
  }

  ghost predicate Disjoint(a: Call, b: Call) {
    forall k :: k in a.scheduling.locks ==> k !in b.scheduling.locks
  }

  /** Calls that may all be in flight at once. */
  ghost predicate Compatible(calls: seq<Call>) {
    && (forall i :: 0 <= i < |calls| ==> Concurrent(calls[i]))
    && (forall i, j :: 0 <= i < j < |calls| ==> Disjoint(calls[i], calls[j]))
  }

  /** What a scheduler may put in one wave: a lone call, or calls that are pairwise compatible. */
  ghost predicate Legal(calls: seq<Call>) {
    |calls| == 1 || (|calls| > 1 && Compatible(calls))
  }

  function Flatten(waves: seq<Wave>): seq<Call> {
    if waves == [] then [] else Flatten(waves[..|waves| - 1]) + waves[|waves| - 1].calls
  }

  ghost predicate WellFormed(w: Wave) {
    && |w.calls| > 0
    && (w.parallel ==> Compatible(w.calls))
    && (!w.parallel ==> |w.calls| == 1 && !Concurrent(w.calls[0]))
  }

  /** The first call of `next` could not have joined `w`. */
  ghost predicate CannotJoin(w: Wave, next: Wave) {
    |next.calls| > 0 && !Legal(w.calls + [next.calls[0]])
  }

  /** Each wave was closed only because the next call could not have joined it. */
  ghost predicate Maximal(waves: seq<Wave>) {
    forall i :: 0 <= i < |waves| - 1 ==> ClosedAt(waves, i)
  }

  ghost predicate ClosedAt(waves: seq<Wave>, i: nat)
    requires i < |waves| - 1
  {
    CannotJoin(waves[i], waves[i + 1])
  }

  ghost predicate WellFormedAll(waves: seq<Wave>) {
    forall w :: w in waves ==> WellFormed(w)
  }

  ghost predicate Holds(group: seq<Call>, held: set<Key>) {
    forall k :: k in held <==> exists c :: c in group && k in c.scheduling.locks
  }

  lemma HoldsGrows(group: seq<Call>, held: set<Key>, call: Call)
    requires Holds(group, held)
    ensures Holds(group + [call], held + set k | k in call.scheduling.locks)
  {
    assert call in group + [call] && forall c :: c in group + [call] <==> c in group || c == call;
  }

  /** The scheduler's state between two calls: closed waves and the open parallel group. */
  ghost predicate Progress(waves: seq<Wave>, group: seq<Call>, held: set<Key>, done: seq<Call>) {
    && Compatible(group)
    && Holds(group, held)
    && WellFormedAll(Close(waves, group))
    && Maximal(Close(waves, group))
    && Flatten(Close(waves, group)) == done
  }

  /** The open group flushed into a wave of its own. */
  function Close(waves: seq<Wave>, group: seq<Call>): seq<Wave> {
    if group == [] then waves else waves + [Wave(true, group)]
  }

  lemma {:induction false} FlattenSnoc(waves: seq<Wave>, w: Wave)
    ensures Flatten(waves + [w]) == Flatten(waves) + w.calls
  {
    assert (waves + [w])[..|waves|] == waves;
  }

  lemma {:induction false} ClosedSnoc(waves: seq<Wave>, w: Wave, i: nat)
    requires Maximal(waves) && i < |waves|
    requires CannotJoin(waves[|waves| - 1], w)
    ensures ClosedAt(waves + [w], i)
  {
    if i < |waves| - 1 {
      assert ClosedAt(waves, i);
    }
  }

  lemma {:induction false} AppendWave(waves: seq<Wave>, w: Wave)
    requires WellFormedAll(waves) && Maximal(waves) && WellFormed(w)
    requires waves == [] || CannotJoin(waves[|waves| - 1], w)
    ensures WellFormedAll(waves + [w]) && Maximal(waves + [w])
    ensures Flatten(waves + [w]) == Flatten(waves) + w.calls
  {
    FlattenSnoc(waves, w);
    forall i | 0 <= i < |waves| ensures ClosedAt(waves + [w], i) {
      ClosedSnoc(waves, w, i);
    }
  }

  /** A call that must run alone closes whatever wave precedes it. */
  lemma SerialCannotJoin(w: Wave, call: Call)
    requires WellFormed(w) && !Concurrent(call)
    ensures CannotJoin(w, Wave(false, [call]))
  {
    assert (w.calls + [call])[|w.calls|] == call;
  }

  /** Nor can anything join a call that must run alone. */
  lemma NothingJoinsSerial(w: Wave, next: Wave)
    requires WellFormed(w) && !w.parallel && |next.calls| > 0
    ensures CannotJoin(w, next)
  {
    assert (w.calls + [next.calls[0]])[0] == w.calls[0];
  }

  lemma ConflictCannotJoin(group: seq<Call>, call: Call, k: Key)
    requires exists c :: c in group && k in c.scheduling.locks
    requires k in call.scheduling.locks
    ensures CannotJoin(Wave(true, group), Wave(true, [call]))
  {
    var c :| c in group && k in c.scheduling.locks;
    var i :| 0 <= i < |group| && group[i] == c;
    var all := group + [call];
    assert all[i] == c && all[|group|] == call;
    assert !Disjoint(all[i], all[|group|]);
  }

  lemma DropOpenWave(waves: seq<Wave>, group: seq<Call>, call: Call)
    requires group != [] && WellFormedAll(Close(waves, group)) && Maximal(Close(waves, group))
    ensures WellFormedAll(waves) && Maximal(waves)
    ensures waves != [] ==> CannotJoin(waves[|waves| - 1], Wave(true, group + [call]))
    ensures Flatten(Close(waves, group)) == Flatten(waves) + group
  {
    var all := Close(waves, group);
    assert all[..|waves|] == waves;
    forall i | 0 <= i < |waves| - 1 ensures ClosedAt(waves, i) {
      assert ClosedAt(all, i);
    }
    if waves != [] {
      assert ClosedAt(all, |waves| - 1);
    }
  }

  lemma CompatibleGrows(group: seq<Call>, held: set<Key>, call: Call)
    requires Compatible(group) && Concurrent(call)
    requires Holds(group, held)
    requires forall k :: k in call.scheduling.locks ==> k !in held
    ensures Compatible(group + [call])
  {
    var grown := group + [call];
    forall i, j | 0 <= i < j < |grown| ensures Disjoint(grown[i], grown[j]) {
      if j == |group| {
        assert grown[i] in group;
      }
    }
  }

  /** The open group with one more call, as the last wave. */
  lemma {:induction false} LastWaveGrows(waves: seq<Wave>, group: seq<Call>, call: Call)
    requires WellFormedAll(Close(waves, group)) && Maximal(Close(waves, group)) && Compatible(group + [call])
    requires group == [] && waves != [] ==> CannotJoin(waves[|waves| - 1], Wave(true, [call]))
    ensures WellFormedAll(Close(waves, group + [call])) && Maximal(Close(waves, group + [call]))
    ensures Flatten(Close(waves, group + [call])) == Flatten(Close(waves, group)) + [call]
  {
    var grown := group + [call];
    if group != [] {
      DropOpenWave(waves, group, call);
      assert Flatten(waves) + grown == (Flatten(waves) + group) + [call];
    } else {
      assert grown == [call];
    }
    AppendWave(waves, Wave(true, grown));
  }

  lemma {:induction false} GroupGrows(waves: seq<Wave>, group: seq<Call>, held: set<Key>, done: seq<Call>, call: Call)
    requires Progress(waves, group, held, done) && Concurrent(call)
    requires forall k :: k in call.scheduling.locks ==> k !in held
    requires group == [] && waves != [] ==> CannotJoin(waves[|waves| - 1], Wave(true, [call]))
    ensures Progress(waves, group + [call], held + (set k | k in call.scheduling.locks), done + [call])
  {
    CompatibleGrows(group, held, call);
    HoldsGrows(group, held, call);
    LastWaveGrows(waves, group, call);
  }

  /** A conflict closes the open group, and the call cannot join what was closed. */
  lemma {:induction false} ConflictCloses(waves: seq<Wave>, group: seq<Call>, held: set<Key>, done: seq<Call>, call: Call)
    requires Progress(waves, group, held, done) && exists k :: k in call.scheduling.locks && k in held
    ensures Progress(Close(waves, group), [], {}, done)
    ensures var closed := Close(waves, group);
            closed != [] && CannotJoin(closed[|closed| - 1], Wave(true, [call]))
  {
    var k :| k in call.scheduling.locks && k in held;
    ConflictCannotJoin(group, call, k);
  }

  lemma SerialWave(waves: seq<Wave>, group: seq<Call>, held: set<Key>, done: seq<Call>, call: Call)
    requires Progress(waves, group, held, done) && !Concurrent(call)
    ensures Progress(Close(waves, group) + [Wave(false, [call])], [], {}, done + [call])
  {
    var closed := Close(waves, group);
    if closed != [] {
      SerialCannotJoin(closed[|closed| - 1], call);
    }
    AppendWave(closed, Wave(false, [call]));
  }

  /** Greedy partition, in the order of the provider's calls. */
  method ScheduleToolWaves(calls: seq<Call>) returns (waves: seq<Wave>)
    ensures Flatten(waves) == calls
    ensures WellFormedAll(waves)
    ensures Maximal(waves)
    ensures forall other :: LegalPartition(other, calls) ==> |waves| <= |other|
  {
    waves := [];
    var group: seq<Call> := [];
    var held: set<Key> := {};
    for i := 0 to |calls|
      invariant Progress(waves, group, held, calls[..i])
      invariant group == [] && waves != [] ==> !waves[|waves| - 1].parallel
    {
      var call := calls[i];
      assert calls[..i + 1] == calls[..i] + [call];
      if call.human || !call.scheduling.parallelSafe {
        SerialWave(waves, group, held, calls[..i], call);
        waves := Close(waves, group);
        group, held := [], {};
        waves := waves + [Wave(false, [call])];
        continue;
      }
      var conflicts := exists k :: k in call.scheduling.locks && k in held;
      if conflicts {
        ConflictCloses(waves, group, held, calls[..i], call);
        waves := Close(waves, group);
        group, held := [], {};
      } else if group == [] && waves != [] {
        NothingJoinsSerial(waves[|waves| - 1], Wave(true, [call]));
      }
      GroupGrows(waves, group, held, calls[..i], call);
      held := held + set k | k in call.scheduling.locks;
      group := group + [call];
    }
    waves := Close(waves, group);
    assert calls[..|calls|] == calls;
    NoShorterPartition(waves);
  }

  // ---------------------------------------------------------------------------------------------
  // No legal partition into contiguous waves is shorter
  // ---------------------------------------------------------------------------------------------

  /** The first `n` waves, as a number of calls. */
  function Offset(parts: seq<seq<Call>>, n: nat): nat
    requires n <= |parts|
  {
    if n == 0 then 0 else Offset(parts, n - 1) + |parts[n - 1]|
  }

  function Concat(parts: seq<seq<Call>>): seq<Call> {
    if parts == [] then [] else Concat(parts[..|parts| - 1]) + parts[|parts| - 1]
  }

  /** A way to cut the batch into contiguous legal waves. */
  ghost predicate LegalPartition(parts: seq<seq<Call>>, calls: seq<Call>) {
    Concat(parts) == calls && forall p :: p in parts ==> Legal(p)
  }

  /** The schedule itself is such a partition, so the bound below is attained. */
  lemma WavesAreLegal(waves: seq<Wave>)
    requires WellFormedAll(waves)
    ensures LegalPartition(Parts(waves), Flatten(waves))
  {
    FlattenIsConcat(waves);
    forall p | p in Parts(waves) ensures Legal(p) {
      var i :| 0 <= i < |waves| && Parts(waves)[i] == p;
      assert WellFormed(waves[i]);
    }
  }

  function Parts(waves: seq<Wave>): (r: seq<seq<Call>>)
    ensures |r| == |waves| && forall i :: 0 <= i < |r| ==> r[i] == waves[i].calls
  {
    seq(|waves|, i requires 0 <= i < |waves| => waves[i].calls)
  }

  lemma {:induction false} FlattenIsConcat(waves: seq<Wave>)
    ensures Flatten(waves) == Concat(Parts(waves))
  {
    if waves != [] {
      FlattenIsConcat(waves[..|waves| - 1]);
      assert Parts(waves)[..|waves| - 1] == Parts(waves[..|waves| - 1]);
    }
  }

  /** Wave `n` is the slice of the whole between its two offsets. */
  lemma {:induction false} SliceOf(parts: seq<seq<Call>>, n: nat)
    requires n < |parts|
    ensures Offset(parts, n) <= Offset(parts, n + 1) <= |Concat(parts)| == Offset(parts, |parts|)
    ensures Concat(parts)[Offset(parts, n)..Offset(parts, n + 1)] == parts[n]
  {
    var front := parts[..|parts| - 1];
    OffsetPrefix(parts, |parts| - 1);
    LengthOfConcat(parts);
    LengthOfConcat(front);
    if n < |parts| - 1 {
      SliceOf(front, n);
      OffsetPrefix(parts, n);
      OffsetPrefix(parts, n + 1);
    }
  }

  lemma {:induction false} OffsetPrefix(parts: seq<seq<Call>>, n: nat)
    requires n < |parts|
    ensures Offset(parts, n) == Offset(parts[..|parts| - 1], n)
  {
    if n > 0 {
      OffsetPrefix(parts, n - 1);
    }
  }

  lemma {:induction false} LengthOfConcat(parts: seq<seq<Call>>)
    ensures |Concat(parts)| == Offset(parts, |parts|)
  {
    if parts != [] {
      LengthOfConcat(parts[..|parts| - 1]);
      OffsetPrefix(parts, |parts| - 1);
    }
  }

  lemma LegalIsHereditary(calls: seq<Call>, lo: nat, hi: nat)
    requires Legal(calls) && lo < hi <= |calls|
    ensures Legal(calls[lo..hi])
  {
  }

  /** A legal slice that reaches past `part` makes `part` legal together with the call after it. */
  lemma LegalWithNext(all: seq<Call>, part: seq<Call>, lo: nat, next: Call, slice: seq<Call>, base: nat)
    requires base <= lo && lo + |part| < base + |slice| <= |all|
    requires all[base..base + |slice|] == slice && Legal(slice)
    requires all[lo..lo + |part|] == part && all[lo + |part|] == next
    ensures Legal(part + [next])
  {
    var joined := all[lo..lo + |part| + 1];
    assert joined == part + [next];
    var i, j := lo - base, lo + |part| + 1 - base;
    assert slice[i..j] == joined by {
      forall k | 0 <= k < |joined| ensures slice[i..j][k] == joined[k] {
        assert all[base..base + |slice|][i + k] == all[lo + k];
      }
    }
    LegalIsHereditary(slice, i, j);
  }

  /** A legal slice that starts no later than a wave ends no later than it. */
  lemma WaveReachesSlice(waves: seq<Wave>, parts: seq<seq<Call>>, other: seq<seq<Call>>, n: nat)
    requires Maximal(waves) && parts == Parts(waves) && Concat(parts) == Concat(other)
    requires n < |other| && n < |waves| && Legal(other[n])
    requires Offset(other, n) <= Offset(parts, n)
    ensures Offset(other, n + 1) <= Offset(parts, n + 1)
  {
    SliceOf(parts, n);
    SliceOf(other, n);
    var hi := Offset(parts, n + 1);
    if hi < Offset(other, n + 1) {
      LengthOfConcat(parts);
      SliceOf(parts, n + 1);
      assert ClosedAt(waves, n);
      LegalWithNext(Concat(other), parts[n], Offset(parts, n), parts[n + 1][0], other[n], Offset(other, n));
    }
  }

  /** After any number of waves the greedy schedule has covered at least as many calls. */
  lemma {:induction false} GreedyStaysAhead(waves: seq<Wave>, other: seq<seq<Call>>, n: nat)
    requires Maximal(waves) && LegalPartition(other, Flatten(waves))
    requires n <= |other| && n <= |waves|
    ensures Offset(other, n) <= Offset(Parts(waves), n)
  {
    if n > 0 {
      GreedyStaysAhead(waves, other, n - 1);
      FlattenIsConcat(waves);
      WaveReachesSlice(waves, Parts(waves), other, n - 1);
    }
  }

  /** The schedule is optimal: every contiguous legal partition has at least as many waves. */
  lemma GreedyIsOptimal(waves: seq<Wave>, other: seq<seq<Call>>)
    requires Maximal(waves) && WellFormedAll(waves) && LegalPartition(other, Flatten(waves))
    ensures |waves| <= |other|
  {
    if |other| < |waves| {
      var parts, n := Parts(waves), |other|;
      assert |parts[n]| > 0 by { assert WellFormed(waves[n]); }
      GreedyStaysAhead(waves, other, n);
      FlattenIsConcat(waves);
      LengthOfConcat(other);
      SliceOf(parts, n);
    }
  }

  lemma NoShorterPartition(waves: seq<Wave>)
    requires Maximal(waves) && WellFormedAll(waves)
    ensures forall other :: LegalPartition(other, Flatten(waves)) ==> |waves| <= |other|
  {
    forall other | LegalPartition(other, Flatten(waves)) ensures |waves| <= |other| {
      GreedyIsOptimal(waves, other);
    }
  }
}
