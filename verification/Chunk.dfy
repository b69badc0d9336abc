/** Text deltas merged into durable chunks by size and by age, on UTF-8 bytes. */
module Chunk {
  import opened Wrappers

  newtype byte = x: int | 0 <= x < 256

  /** Nanoseconds of a monotonic clock. */
  type Instant = nat

  const MAX_DELAY: nat := 50_000_000
  const MAX_BYTES: nat := 8 * 1024

  // ---------------------------------------------------------------------------------------------
  // UTF-8 (RFC 3629, section 3): a scalar is one leading byte and its continuation bytes
  // ---------------------------------------------------------------------------------------------

  predicate Continuation(b: byte) {
    0x80 <= b < 0xC0
  }

  /** Bytes of the scalar that starts with `b`; 0 when no scalar does. */
  function ScalarLength(b: byte): nat {
    if b < 0x80 then 1
    else if b < 0xC0 then 0
    else if b < 0xE0 then 2
    else if b < 0xF0 then 3
    else if b < 0xF8 then 4
    else 0
  }

  predicate IsScalar(s: seq<byte>) {
    && 1 <= |s| <= 4 && ScalarLength(s[0]) == |s|
    && forall i :: 1 <= i < |s| ==> Continuation(s[i])
  }

  /** The bytes of a `&str`: whole scalars one after the other. */
  predicate Utf8(s: seq<byte>) {
    s == [] ||
    (var n := ScalarLength(s[0]);
     1 <= n <= |s| && IsScalar(s[..n]) && Utf8(s[n..]))
  }

  /** Rust's `is_char_boundary` within the string. */
  predicate CharBoundary(s: seq<byte>, i: nat)
    requires i <= |s|
  {
    i == |s| || !Continuation(s[i])
  }

  /** The first scalar of a string, and what follows it. */
  function Head(s: seq<byte>): (r: seq<byte>)
    requires Utf8(s) && s != []
    ensures IsScalar(r)
  {
    s[..ScalarLength(s[0])]
  }

  function Rest(s: seq<byte>): (r: seq<byte>)
    requires Utf8(s) && s != []
    ensures Utf8(r) && |r| < |s| && Head(s) + r == s
  {
    s[ScalarLength(s[0])..]
  }

  lemma {:induction false} HeadOfJoin(a: seq<byte>, b: seq<byte>)
    requires Utf8(a) && Utf8(b) && a != []
    ensures Utf8(a + b) && Head(a + b) == Head(a) && Rest(a + b) == Rest(a) + b
  {
    JoinUtf8(a, b);
  }

  lemma {:induction false} JoinUtf8(a: seq<byte>, b: seq<byte>)
    requires Utf8(a) && Utf8(b)
    ensures Utf8(a + b)
    decreases |a|
  {
    if a == [] {
      assert a + b == b;
    } else {
      var n := ScalarLength(a[0]);
      JoinUtf8(a[n..], b);
      assert (a + b)[0] == a[0];
      assert (a + b)[..n] == a[..n];
      assert (a + b)[n..] == a[n..] + b;
    }
  }

  lemma {:induction false} ScalarIsUtf8(s: seq<byte>)
    requires IsScalar(s)
    ensures Utf8(s)
  {
    assert s[..|s|] == s && s[|s|..] == [];
  }

  /** Cutting a string at a character boundary leaves two strings. */
  lemma {:induction false} CutAtBoundary(s: seq<byte>, i: nat)
    requires Utf8(s) && i <= |s| && CharBoundary(s, i)
    ensures Utf8(s[..i]) && Utf8(s[i..])
    decreases |s|
  {
    if i == 0 {
      assert s[..i] == [] && s[i..] == s;
    } else {
      var head, rest := Head(s), Rest(s);
      assert |head| <= i by {
        assert forall k :: 0 <= k < |head| ==> s[k] == head[k];
      }
      var j := i - |head|;
      assert CharBoundary(rest, j);
      CutAtBoundary(rest, j);
      ScalarIsUtf8(head);
      JoinUtf8(head, rest[..j]);
      assert s[..i] == head + rest[..j] && s[i..] == rest[j..];
    }
  }

  // ---------------------------------------------------------------------------------------------
  // Reference automaton: one scalar at a time
  // ---------------------------------------------------------------------------------------------

  datatype State = State(pending: seq<byte>, startedAt: Option<Instant>)

  const EMPTY := State([], None)

  /** A state and the chunks that reaching it made durable. */
  datatype Out = Out(state: State, ready: seq<seq<byte>>)

  function Emit(s: State): (r: Out) {
    Out(EMPTY, [s.pending])
  }

  /** A scalar that does not fit evicts the chunk; a scalar that fills the chunk completes it. */
  function Feed(s: State, scalar: seq<byte>, now: Instant): Out {
    if s.pending == [] then Out(State(scalar, Some(now)), [])
    else if |s.pending| + |scalar| > MAX_BYTES then Out(State(scalar, Some(now)), [s.pending])
    else
      var grown := s.(pending := s.pending + scalar);
      if |grown.pending| == MAX_BYTES then Emit(grown) else Out(grown, [])
  }

  function FeedAll(s: State, text: seq<byte>, now: Instant): Out
    requires Utf8(text)
    decreases |text|
  {
    if text == [] then Out(s, [])
    else
      var first := Feed(s, Head(text), now);
      Resume(FeedAll(first.state, Rest(text), now), first.ready)
  }

  /** What is still to come, after the chunks that are already out. */
  function Resume(rest: Out, ready: seq<seq<byte>>): Out {
    rest.(ready := ready + rest.ready)
  }

  lemma {:induction false} ResumeNothing(rest: Out)
    ensures Resume(rest, []) == rest
  {
    assert [] + rest.ready == rest.ready;
  }

  lemma {:induction false} ResumeTwice(rest: Out, a: seq<seq<byte>>, b: seq<seq<byte>>)
    ensures Resume(Resume(rest, b), a) == Resume(rest, a + b)
  {
    assert a + (b + rest.ready) == (a + b) + rest.ready;
  }

  /** 50 ms after the oldest pending byte the chunk is due; a clock behind it counts as no time. */
  predicate Due(s: State, now: Instant) {
    s.startedAt.Some? && now >= s.startedAt.value + MAX_DELAY
  }

  function DueResult(s: State, now: Instant): Out {
    if Due(s, now) then Emit(s) else Out(s, [])
  }

  function FinishResult(s: State): Out {
    if s.pending == [] then Out(s, []) else Emit(s)
  }

  function AsList(chunk: Option<seq<byte>>): seq<seq<byte>> {
    if chunk.Some? then [chunk.value] else []
  }

  /** One delta: an overdue chunk first, then the delta's scalars. */
  function PushResult(s: State, delta: seq<byte>, now: Instant): Out
    requires Utf8(delta)
  {
    var due := DueResult(s, now);
    Resume(FeedAll(due.state, delta, now), due.ready)
  }

  /** Between calls: short of full, whole scalars, dated exactly when there is something to date. */
  predicate StateInv(s: State) {
    && Utf8(s.pending) && |s.pending| < MAX_BYTES
    && (s.startedAt.Some? <==> s.pending != [])
  }

  function Flatten(chunks: seq<seq<byte>>): seq<byte> {
    if chunks == [] then [] else chunks[0] + Flatten(chunks[1..])
  }

  lemma {:induction false} FlattenAppend(a: seq<seq<byte>>, b: seq<seq<byte>>)
    ensures Flatten(a + b) == Flatten(a) + Flatten(b)
  {
    if a == [] {
      assert a + b == b;
    } else {
      FlattenAppend(a[1..], b);
      assert (a + b)[1..] == a[1..] + b;
      Associative(a[0], Flatten(a[1..]), Flatten(b));
    }
  }

  /** Everything that came out, and then what is still pending. */
  function AllText(o: Out): seq<byte> {
    Flatten(o.ready) + o.state.pending
  }

  lemma {:induction false} ResumeText(rest: Out, ready: seq<seq<byte>>)
    ensures AllText(Resume(rest, ready)) == Flatten(ready) + AllText(rest)
  {
    FlattenAppend(ready, rest.ready);
  }

  lemma {:induction false} Associative(a: seq<byte>, b: seq<byte>, c: seq<byte>)
    ensures a + (b + c) == (a + b) + c
  {
  }

  lemma {:induction false} ResumeAfter(first: Out, rest: Out, text: seq<byte>)
    requires AllText(rest) == first.state.pending + text
    ensures AllText(Resume(rest, first.ready)) == AllText(first) + text
  {
    ResumeText(rest, first.ready);
    Associative(Flatten(first.ready), first.state.pending, text);
  }

  /** What every chunk that size forces out looks like. */
  predicate SizedChunk(chunk: seq<byte>) {
    Utf8(chunk) && MAX_BYTES - 3 <= |chunk| <= MAX_BYTES
  }

  lemma {:induction false} FeedInv(s: State, scalar: seq<byte>, now: Instant)
    requires StateInv(s) && IsScalar(scalar)
    ensures var r := Feed(s, scalar, now);
            && StateInv(r.state) && AllText(r) == s.pending + scalar
            && forall c :: c in r.ready ==> SizedChunk(c)
  {
    ScalarIsUtf8(scalar);
    JoinUtf8(s.pending, scalar);
    assert Flatten([s.pending]) == s.pending + Flatten([]);
    assert Flatten([s.pending + scalar]) == s.pending + scalar + Flatten([]);
  }

  /** No byte is lost, repeated or reordered, and no scalar is split. */
  lemma {:induction false} FeedAllInv(s: State, text: seq<byte>, now: Instant)
    requires StateInv(s) && Utf8(text)
    ensures var r := FeedAll(s, text, now);
            && StateInv(r.state) && AllText(r) == s.pending + text
            && forall c :: c in r.ready ==> SizedChunk(c)
    decreases |text|
  {
    if text != [] {
      var first := Feed(s, Head(text), now);
      FeedInv(s, Head(text), now);
      FeedAllInv(first.state, Rest(text), now);
      ResumeAfter(first, FeedAll(first.state, Rest(text), now), Rest(text));
      Associative(s.pending, Head(text), Rest(text));
    }
  }

  lemma {:induction false} FeedAllAppend(s: State, a: seq<byte>, b: seq<byte>, now: Instant)
    requires Utf8(a) && Utf8(b)
    ensures Utf8(a + b)
    ensures var first := FeedAll(s, a, now);
            FeedAll(s, a + b, now) == Resume(FeedAll(first.state, b, now), first.ready)
    decreases |a|
  {
    JoinUtf8(a, b);
    if a == [] {
      assert a + b == b;
    } else {
      HeadOfJoin(a, b);
      var first := Feed(s, Head(a), now);
      FeedAllAppend(first.state, Rest(a), b, now);
      var mid := FeedAll(first.state, Rest(a), now);
      ResumeTwice(FeedAll(mid.state, b, now), first.ready, mid.ready);
    }
  }

  /** Pending bytes keep their date until the chunk is emitted; a new chunk is dated now. */
  lemma {:induction false} FeedAllDates(s: State, text: seq<byte>, now: Instant)
    requires StateInv(s) && Utf8(text)
    ensures var r := FeedAll(s, text, now).state;
            && |r.pending| <= |s.pending| + |text|
            && (r.pending != [] ==>
                  if |r.pending| > |text| then r.startedAt == s.startedAt && |r.pending| == |s.pending| + |text|
                  else r.startedAt == Some(now))
    decreases |text|
  {
    if text != [] {
      FeedInv(s, Head(text), now);
      FeedAllDates(Feed(s, Head(text), now).state, Rest(text), now);
    }
  }

  /** How a provider happens to cut its text at one instant changes nothing. */
  lemma {:induction false} PushAppend(s: State, a: seq<byte>, b: seq<byte>, now: Instant)
    requires StateInv(s) && Utf8(a) && Utf8(b)
    ensures Utf8(a + b)
    ensures var first := PushResult(s, a, now);
            PushResult(s, a + b, now) == Resume(PushResult(first.state, b, now), first.ready)
  {
    var due := DueResult(s, now);
    FeedAllAppend(due.state, a, b, now);
    FeedAllDates(due.state, a, now);
    DueInv(s, now);
    FeedAllInv(due.state, a, now);
    var mid := FeedAll(due.state, a, now);
    assert !Due(mid.state, now);
    var last := FeedAll(mid.state, b, now);
    assert Resume(last, []) == last;
    ResumeTwice(last, due.ready, mid.ready);
  }

  // ---------------------------------------------------------------------------------------------
  // The accumulator
  // ---------------------------------------------------------------------------------------------

  /** Bytes appended in one go, completing the chunk when it is full. */
  function Append(s: State, text: seq<byte>, now: Instant): Out {
    var grown := State(s.pending + text, if s.pending == [] then Some(now) else s.startedAt);
    if |grown.pending| == MAX_BYTES then Emit(grown) else Out(grown, [])
  }

  /** A scalar-by-scalar run that fits stays one append. */
  lemma {:induction false} FeedAllFits(s: State, text: seq<byte>, now: Instant)
    requires StateInv(s) && Utf8(text) && text != [] && |s.pending| + |text| <= MAX_BYTES
    ensures FeedAll(s, text, now) == Append(s, text, now)
    decreases |text|
  {
    FeedInv(s, Head(text), now);
    var first := Feed(s, Head(text), now);
    assert Head(text) + Rest(text) == text;
    if Rest(text) == [] {
      assert Head(text) == text;
      assert first.ready + [] == first.ready;
    } else {
      assert [] + Head(text) == Head(text);
      assert first == Append(s, Head(text), now);
      FeedAllFits(first.state, Rest(text), now);
      ResumeNothing(FeedAll(first.state, Rest(text), now));
      AppendTwice(s, Head(text), Rest(text), now);
    }
  }

  lemma {:induction false} AppendTwice(s: State, a: seq<byte>, b: seq<byte>, now: Instant)
    requires a != [] && b != [] && |s.pending| + |a| + |b| <= MAX_BYTES
    ensures Append(s, a, now).ready == []
    ensures Append(Append(s, a, now).state, b, now) == Append(s, a + b, now)
  {
    Associative(s.pending, a, b);
  }

  /** Largest cut at or below `maxBytes` that splits no scalar. */
  method PrefixBoundary(value: seq<byte>, maxBytes: nat) returns (boundary: nat)
    requires Utf8(value)
    ensures boundary <= |value| && boundary <= maxBytes && CharBoundary(value, boundary)
    ensures value != [] && ScalarLength(value[0]) <= maxBytes ==> boundary > 0
    ensures forall i :: boundary < i <= maxBytes && i <= |value| ==> !CharBoundary(value, i)
  {
    if |value| <= maxBytes {
      return |value|;
    }
    FirstScalarIsBoundary(value);
    boundary := maxBytes;
    while !CharBoundary(value, boundary)
      decreases boundary
      invariant boundary <= maxBytes
      invariant forall i :: boundary < i <= maxBytes ==> !CharBoundary(value, i)
    {
      boundary := boundary - 1;
    }
  }

  /** Room for the first scalar means the cut is not empty. */
  lemma {:induction false} FirstScalarIsBoundary(value: seq<byte>)
    requires Utf8(value) && value != []
    ensures var n := ScalarLength(value[0]); 1 <= n <= |value| && n <= 4 && CharBoundary(value, n)
  {
    var n := ScalarLength(value[0]);
    if n < |value| {
      assert value[n..][0] == value[n];
      assert Utf8(value[n..]);
    }
  }

  /** Evicting first and feeding then is what the automaton does in one step. */
  lemma {:induction false} EvictionIsNeutral(s: State, text: seq<byte>, now: Instant)
    requires Utf8(text) && text != [] && |s.pending| + ScalarLength(text[0]) > MAX_BYTES && s.pending != []
    ensures FeedAll(s, text, now) == Resume(FeedAll(EMPTY, text, now), [s.pending])
  {
    ResumeNothing(FeedAll(State(Head(text), Some(now)), Rest(text), now));
  }

  /** Feeding a whole prefix and then the rest is feeding everything. */
  lemma {:induction false} TakeIsFeeding(s: State, a: seq<byte>, b: seq<byte>, text: seq<byte>, now: Instant)
    requires Utf8(a) && Utf8(b) && Utf8(text) && |a| <= |text| && a == text[..|a|] && b == text[|a|..]
    ensures var taken := FeedAll(s, a, now);
            FeedAll(s, text, now) == Resume(FeedAll(taken.state, b, now), taken.ready)
  {
    assert text == a + b;
    FeedAllAppend(s, a, b, now);
  }

  lemma {:induction false} ResumeEnd(s: State, ready: seq<seq<byte>>)
    ensures Resume(Out(s, []), ready) == Out(s, ready)
  {
    assert ready + [] == ready;
  }

  lemma {:induction false} DueInv(s: State, now: Instant)
    requires StateInv(s)
    ensures StateInv(DueResult(s, now).state) && AllText(DueResult(s, now)) == s.pending
  {
    if Due(s, now) {
      assert Flatten([s.pending]) == s.pending + Flatten([]);
    } else {
      assert Flatten([]) + s.pending == s.pending;
    }
  }

  lemma {:induction false} OpKeepsText(s: State, op: Op)
    requires StateInv(s) && (op.PushOp? ==> Utf8(op.delta))
    ensures StateInv(OpResult(s, op).state) && AllText(OpResult(s, op)) == s.pending + OpText(op)
  {
    match op
    case PushOp(delta, now) => PushKeepsText(s, delta, now);
    case FlushOp(now) => DueInv(s, now);
    case FinishOp =>
      assert Flatten([]) + s.pending == s.pending;
      assert Flatten([s.pending]) == s.pending + Flatten([]);
  }

  /** A chunk forced out by size is nearly full; any other is what was pending. */
  lemma {:induction false} OpChunks(s: State, op: Op)
    requires StateInv(s) && (op.PushOp? ==> Utf8(op.delta))
    ensures forall c :: c in OpResult(s, op).ready ==> SizedChunk(c) || (c == s.pending && c != [])
  {
    if op.PushOp? {
      DueInv(s, op.now);
      FeedAllInv(DueResult(s, op.now).state, op.delta, op.now);
    }
  }

  lemma {:induction false} PushKeepsText(s: State, delta: seq<byte>, now: Instant)
    requires StateInv(s) && Utf8(delta)
    ensures StateInv(PushResult(s, delta, now).state)
    ensures AllText(PushResult(s, delta, now)) == s.pending + delta
  {
    var due := DueResult(s, now);
    DueInv(s, now);
    FeedAllInv(due.state, delta, now);
    ResumeAfter(due, FeedAll(due.state, delta, now), delta);
  }

  class SemanticChunkAccumulator {
    var pending: seq<byte>
    var startedAt: Option<Instant>

    ghost function View(): State
      reads this
    {
      State(pending, startedAt)
    }

    ghost predicate Valid()
      reads this
    {
      StateInv(View())
    }

    constructor ()
      ensures Valid() && View() == EMPTY
    {
      pending, startedAt := [], None;
    }

    method TakePending() returns (chunk: seq<byte>)
      modifies this
      ensures chunk == old(pending) && View() == EMPTY
    {
      startedAt := None;
      chunk := pending;
      pending := [];
    }

    method FlushDue(now: Instant) returns (chunk: Option<seq<byte>>)
      requires Valid()
      modifies this
      ensures Valid()
      ensures DueResult(old(View()), now) == Out(View(), AsList(chunk))
    {
      if startedAt.Some? && now >= startedAt.value + MAX_DELAY {
        var taken := TakePending();
        return Some(taken);
      }
      return None;
    }

    method Finish() returns (chunk: Option<seq<byte>>)
      requires Valid()
      modifies this
      ensures Valid()
      ensures FinishResult(old(View())) == Out(View(), AsList(chunk))
    {
      if pending != [] {
        var taken := TakePending();
        return Some(taken);
      }
      return None;
    }

    /** The latest instant at which the pending chunk must be flushed. */
    method NextDeadline() returns (deadline: Option<Instant>)
      requires Valid()
      ensures deadline.Some? <==> pending != []
      ensures forall now: Instant :: Due(View(), now) <==> deadline.Some? && now >= deadline.value
    {
      return if startedAt.Some? then Some(startedAt.value + MAX_DELAY) else None;
    }

    /** Move a prefix of whole scalars that fits into the pending chunk, completing a full one. */
    method Take(prefix: seq<byte>, now: Instant) returns (ready: seq<seq<byte>>)
      requires Valid() && Utf8(prefix) && prefix != [] && |pending| + |prefix| <= MAX_BYTES
      modifies this
      ensures Valid()
      ensures FeedAll(old(View()), prefix, now) == Out(View(), ready)
    {
      FeedAllFits(View(), prefix, now);
      JoinUtf8(pending, prefix);
      if pending == [] {
        startedAt := Some(now);
      }
      pending := pending + prefix;
      ready := [];
      if |pending| == MAX_BYTES {
        var taken := TakePending();
        ready := [taken];
      }
    }

    /** One turn of the push loop: evict a chunk with no room left, or take the prefix that fits. */
    method Turn(remaining: seq<byte>, now: Instant) returns (take: nat, ready: seq<seq<byte>>)
      requires Valid() && Utf8(remaining) && remaining != []
      modifies this
      ensures Valid()
      ensures take <= |remaining| && Utf8(remaining[take..])
      ensures take > 0 || |pending| < |old(pending)|
      ensures FeedAll(old(View()), remaining, now) == Resume(FeedAll(View(), remaining[take..], now), ready)
    {
      FirstScalarIsBoundary(remaining);
      var capacity := MAX_BYTES - |pending|;
      var firstScalar := ScalarLength(remaining[0]);
      if capacity < firstScalar {
        var taken := TakePending();
        assert remaining[0..] == remaining;
        EvictionIsNeutral(old(View()), remaining, now);
        return 0, [taken];
      }
      take := PrefixBoundary(remaining, capacity);
      CutAtBoundary(remaining, take);
      ready := Take(remaining[..take], now);
      TakeIsFeeding(old(View()), remaining[..take], remaining[take..], remaining, now);
    }

    method Push(delta: seq<byte>, now: Instant) returns (ready: seq<seq<byte>>)
      requires Valid() && Utf8(delta)
      modifies this
      ensures Valid()
      ensures PushResult(old(View()), delta, now) == Out(View(), ready)
    {
      ready := [];
      var due := FlushDue(now);
      if due.Some? {
        ready := [due.value];
      }
      var remaining := delta;
      while remaining != []
        invariant Utf8(remaining) && Valid()
        invariant PushResult(old(View()), delta, now) == Resume(FeedAll(View(), remaining, now), ready)
        decreases |remaining|, |pending|
      {
        var take, more := Turn(remaining, now);
        ResumeTwice(FeedAll(View(), remaining[take..], now), ready, more);
        remaining, ready := remaining[take..], ready + more;
      }
      ResumeEnd(View(), ready);
    }
  }

  // ---------------------------------------------------------------------------------------------
  // Whole runs
  // ---------------------------------------------------------------------------------------------

  datatype Op = PushOp(delta: seq<byte>, now: Instant) | FlushOp(now: Instant) | FinishOp

  ghost predicate ValidOps(ops: seq<Op>) {
    forall o :: o in ops && o.PushOp? ==> Utf8(o.delta)
  }

  function OpResult(s: State, op: Op): Out
    requires op.PushOp? ==> Utf8(op.delta)
  {
    match op
    case PushOp(delta, now) => PushResult(s, delta, now)
    case FlushOp(now) => DueResult(s, now)
    case FinishOp => FinishResult(s)
  }

  ghost function Run(ops: seq<Op>): Out
    requires ValidOps(ops)
  {
    if ops == [] then Out(EMPTY, [])
    else
      var before := Run(ops[..|ops| - 1]);
      Resume(OpResult(before.state, ops[|ops| - 1]), before.ready)
  }

  function OpText(op: Op): seq<byte> {
    if op.PushOp? then op.delta else []
  }

  function Input(ops: seq<Op>): seq<byte> {
    if ops == [] then [] else Input(ops[..|ops| - 1]) + OpText(ops[|ops| - 1])
  }

  /** When each input byte was pushed. */
  function Arrivals(ops: seq<Op>): (r: seq<Instant>)
    ensures |r| == |Input(ops)|
  {
    if ops == [] then []
    else
      var op := ops[|ops| - 1];
      Arrivals(ops[..|ops| - 1]) + if op.PushOp? then seq(|op.delta|, i => op.now) else []
  }

  /** Nothing is emitted while some byte from before the push stays pending. */
  lemma {:induction false} OpDates(s: State, op: Op)
    requires StateInv(s) && (op.PushOp? ==> Utf8(op.delta))
    ensures var r := OpResult(s, op).state;
            && |r.pending| <= |s.pending| + |OpText(op)|
            && (r.pending != [] ==>
                  if |r.pending| > |OpText(op)| then r.startedAt == s.startedAt && |r.pending| == |s.pending| + |OpText(op)|
                  else op.PushOp? && r.startedAt == Some(op.now))
  {
    if op.PushOp? {
      DueInv(s, op.now);
      FeedAllDates(DueResult(s, op.now).state, op.delta, op.now);
    }
  }

  /** The invariants of a run, and the text it has seen. */
  lemma {:induction false} RunKeepsText(ops: seq<Op>)
    requires ValidOps(ops)
    ensures StateInv(Run(ops).state) && AllText(Run(ops)) == Input(ops)
  {
    if ops != [] {
      var front, op := ops[..|ops| - 1], ops[|ops| - 1];
      RunKeepsText(front);
      var before := Run(front);
      OpKeepsText(before.state, op);
      ResumeAfter(before, OpResult(before.state, op), OpText(op));
    }
  }

  /** `startedAt` is the arrival time of the oldest pending byte. */
  lemma {:induction false} RunDates(ops: seq<Op>)
    requires ValidOps(ops)
    ensures |Run(ops).state.pending| <= |Input(ops)|
    ensures var s := Run(ops).state;
            s.startedAt == if s.pending == [] then None else Some(Arrivals(ops)[|Input(ops)| - |s.pending|])
  {
    RunKeepsText(ops);
    if ops != [] {
      var front, op := ops[..|ops| - 1], ops[|ops| - 1];
      RunDates(front);
      RunKeepsText(front);
      OpDates(Run(front).state, op);
    }
  }

  /** Every chunk of a run is whole scalars, non-empty and within the byte limit. */
  lemma {:induction false} RunChunks(ops: seq<Op>)
    requires ValidOps(ops)
    ensures forall c :: c in Run(ops).ready ==> Utf8(c) && 1 <= |c| <= MAX_BYTES
  {
    if ops != [] {
      var front, op := ops[..|ops| - 1], ops[|ops| - 1];
      RunChunks(front);
      RunKeepsText(front);
      OpChunks(Run(front).state, op);
    }
  }

  /** A push emits what was pending as a chunk of its own exactly when it is overdue; all other chunks are full. */
  lemma {:induction false} OverdueFirst(s: State, delta: seq<byte>, now: Instant)
    requires StateInv(s) && Utf8(delta)
    ensures var ready := PushResult(s, delta, now).ready;
            if Due(s, now)
            then ready != [] && ready[0] == s.pending && forall c :: c in ready[1..] ==> SizedChunk(c)
            else forall c :: c in ready ==> SizedChunk(c)
  {
    var due := DueResult(s, now);
    DueInv(s, now);
    FeedAllInv(due.state, delta, now);
    if Due(s, now) {
      assert PushResult(s, delta, now).ready[1..] == FeedAll(due.state, delta, now).ready;
    } else {
      ResumeNothing(FeedAll(due.state, delta, now));
    }
  }

  /** After a push or a timer nothing pending has waited as long as the limit; after a finish nothing is pending. */
  lemma {:induction false} RunTimely(ops: seq<Op>)
    requires ValidOps(ops) && ops != []
    ensures var op, s := ops[|ops| - 1], Run(ops).state;
            if op.FinishOp? then s.pending == []
            else s.pending != [] ==>
                   |s.pending| <= |Input(ops)| && op.now < Arrivals(ops)[|Input(ops)| - |s.pending|] + MAX_DELAY
  {
    var front, op := ops[..|ops| - 1], ops[|ops| - 1];
    RunKeepsText(front);
    RunDates(ops);
    if op.PushOp? {
      var due := DueResult(Run(front).state, op.now);
      DueInv(Run(front).state, op.now);
      FeedAllDates(due.state, op.delta, op.now);
    }
  }
}
