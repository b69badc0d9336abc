/** The durable writer of one run: everything it is given reaches the journal once, in order. */
module DurableRun {
  import opened Json
  import opened Wrappers
  import Chunk
  import Agent = AgentReducer

  type Text = Agent.Text

  datatype Channel = TextChannel | ReasoningChannel

  datatype Exchange = Exchange(call: Agent.ToolCall, content: string)

  datatype Entry =
    | Semantic(channel: Channel, chunk: Text)
    | Exchanged(exchange: Exchange)
    | Projected(projection: Value)
    | Ended(terminal: Agent.Terminal)

  datatype RunError = StaleLease | CommitUnknown | Unavailable | Corrupt | InvalidInput | Conflict

  /** What the writer was given: single bytes of a channel, and whole records. */
  datatype Item = Byte(channel: Channel, b: Chunk.byte) | Whole(entry: Entry)

  function Tag(channel: Channel, text: Text): (r: seq<Item>)
    ensures |r| == |text|
  {
    seq(|text|, i requires 0 <= i < |text| => Byte(channel, text[i]))
  }

  function ItemsOf(e: Entry): seq<Item> {
    if e.Semantic? then Tag(e.channel, e.chunk) else [Whole(e)]
  }

  function Items(log: seq<Entry>): seq<Item> {
    if log == [] then [] else Items(log[..|log| - 1]) + ItemsOf(log[|log| - 1])
  }

  lemma {:induction false} ItemsSnoc(log: seq<Entry>, e: Entry)
    ensures Items(log + [e]) == Items(log) + ItemsOf(e)
  {
    assert (log + [e])[..|log|] == log;
  }

  lemma {:induction false} Associative<T>(a: seq<T>, b: seq<T>, c: seq<T>)
    ensures (a + b) + c == a + (b + c)
  {
  }

  lemma {:induction false} ItemsJoin(a: seq<Entry>, b: seq<Entry>)
    ensures Items(a + b) == Items(a) + Items(b)
  {
    if b == [] {
      assert a + b == a;
    } else {
      var front, e := b[..|b| - 1], b[|b| - 1];
      ItemsJoin(a, front);
      ItemsSnoc(a + front, e);
      Associative(Items(a), Items(front), ItemsOf(e));
      Associative(a, front, [e]);
      assert b == front + [e];
    }
  }

  lemma {:induction false} TagJoin(channel: Channel, a: Text, b: Text)
    ensures Tag(channel, a + b) == Tag(channel, a) + Tag(channel, b)
  {
  }

  function Labelled(channel: Channel, chunks: seq<Text>): (r: seq<Entry>)
    ensures |r| == |chunks|
  {
    seq(|chunks|, i requires 0 <= i < |chunks| => Semantic(channel, chunks[i]))
  }

  lemma {:induction false} LabelledSnoc(channel: Channel, chunks: seq<Text>, last: Text)
    ensures Labelled(channel, chunks + [last]) == Labelled(channel, chunks) + [Semantic(channel, last)]
  {
  }

  lemma {:induction false} LabelledItems(channel: Channel, chunks: seq<Text>)
    ensures Items(Labelled(channel, chunks)) == Tag(channel, Chunk.Flatten(chunks))
  {
    if chunks != [] {
      var front, last := chunks[..|chunks| - 1], chunks[|chunks| - 1];
      assert chunks == front + [last];
      LabelledItems(channel, front);
      LabelledSnoc(channel, front, last);
      ItemsSnoc(Labelled(channel, front), Semantic(channel, last));
      FlattenSnoc(front, last);
      TagJoin(channel, Chunk.Flatten(front), last);
    }
  }

  lemma {:induction false} FlattenSnoc(chunks: seq<Text>, last: Text)
    ensures Chunk.Flatten(chunks + [last]) == Chunk.Flatten(chunks) + last
  {
    Chunk.FlattenAppend(chunks, [last]);
    assert [last][1..] == [];
    assert last + [] == last;
  }

  /** A chunk the store accepts. */
  predicate Storable(e: Entry) {
    e.Semantic? && 1 <= |e.chunk| <= Chunk.MAX_BYTES
  }

  /** Nothing but semantic chunks has been added. */
  ghost predicate OnlySemantic(before: seq<Entry>, after: seq<Entry>) {
    before <= after && forall i :: |before| <= i < |after| ==> after[i].Semantic?
  }

  /** Semantic chunks, and after them perhaps one record. */
  ghost predicate SemanticThen(before: seq<Entry>, after: seq<Entry>, e: Entry) {
    || OnlySemantic(before, after)
    || (|before| < |after| && after[|after| - 1] == e && OnlySemantic(before, after[..|after| - 1]))
  }

  /**
   * The run journal in the database. An append names the position it expects. It may fail without
   * effect, it may take effect and still report an unknown commit, and repeating the very same
   * append at the same position is answered by what is already there.
   */
  class RunStore {
    var log: seq<Entry>
    /** Some append has not been answered with its position. */
    ghost var failed: bool

    constructor ()
      ensures log == [] && !failed
    {
      log, failed := [], false;
    }

    method Append(expected: nat, e: Entry) returns (r: Result<nat, RunError>)
      modifies this
      ensures log == old(log) || (expected == |old(log)| && log == old(log) + [e])
      ensures r.Ok? ==> r.value == expected < |log| && log[expected] == e
      ensures r.Err? && !r.error.CommitUnknown? ==> log == old(log)
      ensures failed == (old(failed) || r.Err?)
    {
      var reachable, applied, known := *, *, *;
      var refusal: RunError := *;
      if !reachable {
        failed := true;
        return Err(if refusal.CommitUnknown? then Unavailable else refusal);
      }
      if expected < |log| && log[expected] == e {
        return Ok(expected);
      }
      if expected != |log| {
        failed := true;
        return Err(Conflict);
      }
      if applied {
        log := log + [e];
      }
      if applied && known {
        return Ok(expected);
      }
      failed := true;
      return Err(CommitUnknown);
    }
  }

  class DurableTextRun {
    const store: RunStore
    const accumulator: Chunk.SemanticChunkAccumulator
    var expectedSequence: nat
    var pendingDurable: seq<Entry>

    ghost predicate Valid()
      reads this, store, accumulator
    {
      && accumulator.Valid()
      && expectedSequence <= |store.log| <= expectedSequence + 1
      && forall i :: 0 <= i < |pendingDurable| ==> Storable(pendingDurable[i])
    }

    /** Everything given so far: journalled, queued, and still being gathered. */
    ghost function Account(): seq<Item>
      reads this, store, accumulator
      requires Valid()
    {
      AccountAt(3)
    }

    /** The depth means nothing; it keeps the account folded where only its changes matter. */
    ghost function AccountAt(depth: nat): seq<Item>
      reads this, store, accumulator
      requires Valid()
      decreases depth
    {
      if depth > 0 then AccountAt(depth - 1)
      else Items(store.log[..expectedSequence] + pendingDurable) + Tag(TextChannel, accumulator.pending)
    }

    lemma AccountIs()
      requires Valid()
      ensures Account() == Items(store.log[..expectedSequence] + pendingDurable) + Tag(TextChannel, accumulator.pending)
    {
      assert AccountAt(3) == AccountAt(2) == AccountAt(1) == AccountAt(0);
    }

    /** No append is in doubt. */
    ghost predicate Synced()
      reads this, store
    {
      expectedSequence == |store.log|
    }

    /** Nothing is held back. */
    ghost predicate Flushed()
      reads this, store, accumulator
    {
      pendingDurable == [] && accumulator.pending == []
    }

    constructor (store: RunStore)
      ensures this.store == store && fresh(accumulator) && expectedSequence == |store.log|
      ensures Valid() && Flushed() && Synced() && Account() == Items(store.log)
    {
      this.store := store;
      accumulator := new Chunk.SemanticChunkAccumulator();
      expectedSequence := |store.log|;
      pendingDurable := [];
      new;
      AccountIs();
      assert store.log[..expectedSequence] + pendingDurable == store.log;
      assert Items(store.log) + Tag(TextChannel, []) == Items(store.log);
    }

    /** The first queued chunk, at the position the journal expects. */
    method DrainOne() returns (r: Result<(), RunError>)
      requires Valid() && pendingDurable != []
      modifies this, store
      ensures Valid() && Account() == old(Account()) && OnlySemantic(old(store.log), store.log)
      ensures r.Ok? ==> pendingDurable == old(pendingDurable)[1..] && (old(Synced()) ==> Synced())
      ensures r.Err? ==> pendingDurable == old(pendingDurable)
      ensures store.failed == (old(store.failed) || r.Err?)
    {
      AccountIs();
      var front := pendingDurable[0];
      var corrupt := front.chunk == [] || |front.chunk| > Chunk.MAX_BYTES;
      store.failed := store.failed || corrupt;
      if corrupt {
        AccountIs();
        return Err(Corrupt);
      }
      var receipt := store.Append(expectedSequence, front);
      Drained(old(store.log), store.log, expectedSequence, pendingDurable);
      if receipt.Ok? {
        expectedSequence := receipt.value + 1;
        pendingDurable := pendingDurable[1..];
      }
      AccountIs();
      return if receipt.Ok? then Ok(()) else Err(receipt.error);
    }

    method DrainPending() returns (r: Result<(), RunError>)
      requires Valid()
      modifies this, store
      ensures Valid() && Account() == old(Account()) && OnlySemantic(old(store.log), store.log)
      ensures r.Ok? ==> pendingDurable == [] && (old(Synced()) ==> Synced())
      ensures store.failed == (old(store.failed) || r.Err?)
    {
      while pendingDurable != []
        invariant store.failed == old(store.failed)
        invariant old(Synced()) ==> Synced()
        invariant Valid() && Account() == old(Account()) && OnlySemantic(old(store.log), store.log)
        decreases |pendingDurable|
      {
        var _ :- DrainOne();
      }
      return Ok(());
    }

    /** Queue chunks that leave the gathered text. */
    method Queue(channel: Channel, chunks: seq<Text>)
      requires accumulator.Valid() && expectedSequence <= |store.log| <= expectedSequence + 1
      requires forall i :: 0 <= i < |pendingDurable| ==> Storable(pendingDurable[i])
      requires forall i :: 0 <= i < |chunks| ==> 1 <= |chunks[i]| <= Chunk.MAX_BYTES
      modifies this`pendingDurable
      ensures Valid() && pendingDurable == old(pendingDurable) + Labelled(channel, chunks)
      ensures Items(store.log[..expectedSequence] + pendingDurable)
           == Items(store.log[..expectedSequence] + old(pendingDurable)) + Tag(channel, Chunk.Flatten(chunks))
    {
      pendingDurable := pendingDurable + Labelled(channel, chunks);
      Associative(store.log[..expectedSequence], old(pendingDurable), Labelled(channel, chunks));
      ItemsJoin(store.log[..expectedSequence] + old(pendingDurable), Labelled(channel, chunks));
      LabelledItems(channel, chunks);
    }

    /** Move gathered text that is due or full into the queue. */
    method Gather(chunks: seq<Text>, ghost given: Text, ghost before: Chunk.State)
      requires accumulator.Valid() && expectedSequence <= |store.log| <= expectedSequence + 1
      requires forall i :: 0 <= i < |pendingDurable| ==> Storable(pendingDurable[i])
      requires forall i :: 0 <= i < |chunks| ==> 1 <= |chunks[i]| <= Chunk.MAX_BYTES
      requires Chunk.AllText(Chunk.Out(accumulator.View(), chunks)) == before.pending + given
      modifies this`pendingDurable
      ensures Valid()
      ensures Account()
           == Items(store.log[..expectedSequence] + old(pendingDurable)) + Tag(TextChannel, before.pending)
              + Tag(TextChannel, given)
    {
      Queue(TextChannel, chunks);
      ghost var base := Items(store.log[..expectedSequence] + old(pendingDurable));
      TagJoin(TextChannel, Chunk.Flatten(chunks), accumulator.pending);
      TagJoin(TextChannel, before.pending, given);
      Associative(base, Tag(TextChannel, Chunk.Flatten(chunks)), Tag(TextChannel, accumulator.pending));
      Associative(base, Tag(TextChannel, before.pending), Tag(TextChannel, given));
      AccountIs();
    }

    /** A text delta: what it completes is made durable at once. */
    method Push(delta: Text, now: Chunk.Instant) returns (r: Result<(), RunError>)
      requires Valid() && Chunk.Utf8(delta)
      modifies this, store, accumulator
      ensures Valid() && OnlySemantic(old(store.log), store.log)
      ensures if 0 in delta then r == Err(InvalidInput) && Account() == old(Account())
              else Account() == old(Account()) + Tag(TextChannel, delta)
      ensures 0 !in delta ==> accumulator.View() == Chunk.PushResult(old(accumulator.View()), delta, now).state
      ensures r.Ok? ==> pendingDurable == [] && (old(Synced()) ==> Synced())
      ensures store.failed == (old(store.failed) || (r.Err? && 0 !in delta))
    {
      AccountIs();
      if 0 in delta {
        return Err(InvalidInput);
      }
      ghost var before := accumulator.View();
      Chunk.PushKeepsText(before, delta, now);
      PushSizes(before, delta, now);
      var chunks := accumulator.Push(delta, now);
      Gather(chunks, delta, before);
      r := DrainPending();
    }

    /** The timer has fired: text that is due is gathered no longer. */
    method FlushDue(now: Chunk.Instant) returns (r: Result<(), RunError>)
      requires Valid()
      modifies this, store, accumulator
      ensures Valid() && OnlySemantic(old(store.log), store.log) && Account() == old(Account())
      ensures accumulator.View() == Chunk.DueResult(old(accumulator.View()), now).state
      ensures r.Ok? ==> pendingDurable == [] && (old(Synced()) ==> Synced())
      ensures store.failed == (old(store.failed) || r.Err?)
    {
      AccountIs();
      ghost var before := accumulator.View();
      var chunk := accumulator.FlushDue(now);
      Chunk.OpKeepsText(before, Chunk.FlushOp(now));
      GatherOne(chunk, before);
      r := DrainPending();
    }

    method GatherOne(chunk: Option<Text>, ghost before: Chunk.State)
      requires accumulator.Valid() && expectedSequence <= |store.log| <= expectedSequence + 1
      requires forall i :: 0 <= i < |pendingDurable| ==> Storable(pendingDurable[i])
      requires chunk.Some? ==> 1 <= |chunk.value| <= Chunk.MAX_BYTES
      requires Chunk.AllText(Chunk.Out(accumulator.View(), Chunk.AsList(chunk))) == before.pending
      modifies this`pendingDurable
      ensures Valid()
      ensures Account() == Items(store.log[..expectedSequence] + old(pendingDurable)) + Tag(TextChannel, before.pending)
    {
      assert before.pending + [] == before.pending;
      Gather(Chunk.AsList(chunk), [], before);
      ghost var base := Items(store.log[..expectedSequence] + old(pendingDurable)) + Tag(TextChannel, before.pending);
      assert base + Tag(TextChannel, []) == base;
    }

    /** Everything gathered so far becomes durable. */
    method Flush() returns (r: Result<(), RunError>)
      requires Valid()
      modifies this, store, accumulator
      ensures Valid() && OnlySemantic(old(store.log), store.log) && Account() == old(Account())
      ensures accumulator.pending == [] && (r.Ok? ==> Flushed() && (old(Synced()) ==> Synced()))
      ensures store.failed == (old(store.failed) || r.Err?)
    {
      AccountIs();
      ghost var before := accumulator.View();
      var chunk := accumulator.Finish();
      Chunk.OpKeepsText(before, Chunk.FinishOp);
      GatherOne(chunk, before);
      r := DrainPending();
    }

    /** A reasoning delta: the text before it first, then the delta in chunks of its own. */
    method PushReasoning(delta: Text, now: Chunk.Instant) returns (r: Result<(), RunError>)
      requires Valid() && Chunk.Utf8(delta)
      modifies this, store, accumulator
      ensures Valid() && OnlySemantic(old(store.log), store.log)
      ensures if 0 in delta then r == Err(InvalidInput) && Account() == old(Account())
              else Account() == old(Account()) + Tag(ReasoningChannel, delta)
      ensures r.Ok? ==> Flushed() && (old(Synced()) ==> Synced())
      ensures store.failed == (old(store.failed) || (r.Err? && 0 !in delta))
    {
      AccountIs();
      if 0 in delta {
        return Err(InvalidInput);
      }
      ghost var before := accumulator.View();
      var text := accumulator.Finish();
      Chunk.OpKeepsText(before, Chunk.FinishOp);
      GatherOne(text, before);
      ghost var given := Account();
      var chunks := Split(delta, now);
      AccountIs();
      ghost var base := Items(store.log[..expectedSequence] + pendingDurable);
      assert base + Tag(TextChannel, []) == base;
      Queue(ReasoningChannel, chunks);
      AccountIs();
      assert (base + Tag(ReasoningChannel, delta)) + Tag(TextChannel, []) == base + Tag(ReasoningChannel, delta);
      r := DrainPending();
    }

    /** With nothing held back, a record takes the next position. */
    method Place(e: Entry) returns (r: Result<nat, RunError>)
      requires Valid() && Flushed() && !e.Semantic?
      modifies this`expectedSequence, store
      ensures Valid() && (store.log == old(store.log) || store.log == old(store.log) + [e])
      ensures r.Ok? ==> |store.log| > 0 && store.log[|store.log| - 1] == e && Items(store.log) == Account()
      ensures Account() == old(Account()) + if r.Ok? then [Whole(e)] else []
      ensures r.Ok? && old(Synced()) ==> Synced() && |old(store.log)| < |store.log|
      ensures store.failed == (old(store.failed) || r.Err?)
    {
      AccountIs();
      ghost var done := store.log[..expectedSequence];
      FlushedAccount(done, pendingDurable);
      var receipt := store.Append(expectedSequence, e);
      assert store.log[..expectedSequence] == done;
      AccountIs();
      var sequence :- receipt;
      expectedSequence := sequence + 1;
      assert store.log == done + [e] == store.log[..expectedSequence];
      ItemsSnoc(done, e);
      FlushedAccount(store.log, pendingDurable);
      AccountIs();
      return Ok(sequence);
    }

    /** A record: the text before it is flushed first. */
    method AppendRecord(e: Entry) returns (r: Result<nat, RunError>)
      requires Valid() && !e.Semantic?
      modifies this, store, accumulator
      ensures Valid() && SemanticThen(old(store.log), store.log, e)
      ensures r.Ok? ==> |store.log| > 0 && store.log[|store.log| - 1] == e && Items(store.log) == Account()
      ensures Account() == old(Account()) + if r.Ok? then [Whole(e)] else []
      ensures r.Ok? && old(Synced()) ==> Synced() && |old(store.log)| < |store.log|
      ensures store.failed == (old(store.failed) || r.Err?)
    {
      var flushed := Flush();
      if flushed.Err? {
        return Err(flushed.error);
      }
      ghost var middle := store.log;
      r := Place(e);
      GrowsByOne(old(store.log), middle, store.log, e);
    }

    method AppendToolExchange(x: Exchange) returns (r: Result<nat, RunError>)
      requires Valid()
      modifies this, store, accumulator
      ensures Valid() && SemanticThen(old(store.log), store.log, Exchanged(x))
      ensures r.Ok? ==> |store.log| > 0 && store.log[|store.log| - 1] == Exchanged(x) && Items(store.log) == Account()
      ensures Account() == old(Account()) + if r.Ok? then [Whole(Exchanged(x))] else []
      ensures r.Ok? && old(Synced()) ==> Synced() && |old(store.log)| < |store.log|
      ensures store.failed == (old(store.failed) || r.Err?)
    {
      r := AppendRecord(Exchanged(x));
    }

    method AppendRemoteProjection(projection: Value) returns (r: Result<nat, RunError>)
      requires Valid()
      modifies this, store, accumulator
      ensures Valid() && SemanticThen(old(store.log), store.log, Projected(projection))
      ensures Account() == old(Account()) + if r.Ok? then [Whole(Projected(projection))] else []
      ensures r.Ok? && old(Synced()) ==> Synced() && |old(store.log)| < |store.log|
      ensures store.failed == (old(store.failed) || r.Err?)
    {
      r := AppendRecord(Projected(projection));
    }

    /** The terminal: once it is in, the journal is exactly what was given, in the order it was given. */
    method Finish(terminal: Agent.Terminal) returns (r: Result<nat, RunError>)
      requires Valid()
      modifies this, store, accumulator
      ensures Valid() && SemanticThen(old(store.log), store.log, Ended(terminal))
      ensures r.Ok? ==> |store.log| > 0 && store.log[|store.log| - 1] == Ended(terminal)
      ensures r.Ok? ==> Items(store.log) == old(Account()) + [Whole(Ended(terminal))]
      ensures Account() == old(Account()) + if r.Ok? then [Whole(Ended(terminal))] else []
      ensures store.failed == (old(store.failed) || r.Err?)
    {
      r := AppendRecord(Ended(terminal));
    }
  }

  /** A whole text cut into storable chunks by an accumulator of its own. */
  method Split(text: Text, now: Chunk.Instant) returns (chunks: seq<Text>)
    requires Chunk.Utf8(text)
    ensures Chunk.Flatten(chunks) == text
    ensures forall i :: 0 <= i < |chunks| ==> 1 <= |chunks[i]| <= Chunk.MAX_BYTES
  {
    var own := new Chunk.SemanticChunkAccumulator();
    Chunk.PushKeepsText(own.View(), text, now);
    PushSizes(own.View(), text, now);
    chunks := own.Push(text, now);
    ghost var middle := own.View();
    assert [] + text == text;
    assert Chunk.Flatten(chunks) + middle.pending == text;
    var rest := own.Finish();
    if rest.Some? {
      FlattenSnoc(chunks, rest.value);
      chunks := chunks + [rest.value];
    } else {
      assert Chunk.Flatten(chunks) + [] == Chunk.Flatten(chunks);
    }
  }

  lemma {:induction false} FlushedAccount(log: seq<Entry>, queue: seq<Entry>)
    requires queue == []
    ensures Items(log + queue) + Tag(TextChannel, []) == Items(log)
  {
    assert log + queue == log;
  }

  /** The front of the queue has gone to the journal, or it has not. */
  lemma {:induction false} Drained(before: seq<Entry>, after: seq<Entry>, n: nat, queue: seq<Entry>)
    requires queue != [] && Storable(queue[0]) && n <= |before|
    requires after == before || (n == |before| && after == before + [queue[0]])
    ensures OnlySemantic(before, after) && after[..n] == before[..n]
    ensures n < |after| && after[n] == queue[0] ==> after[..n + 1] + queue[1..] == before[..n] + queue
  {
    if n < |after| && after[n] == queue[0] {
      assert after[..n + 1] == before[..n] + [queue[0]];
      assert queue == [queue[0]] + queue[1..];
      Associative(before[..n], [queue[0]], queue[1..]);
    }
  }

  lemma {:induction false} GrowsByOne(before: seq<Entry>, middle: seq<Entry>, after: seq<Entry>, e: Entry)
    requires OnlySemantic(before, middle) && (after == middle || after == middle + [e])
    ensures SemanticThen(before, after, e)
  {
    if after == middle + [e] {
      assert after[..|after| - 1] == middle;
    }
  }

  lemma {:induction false} PushSizes(s: Chunk.State, delta: Text, now: Chunk.Instant)
    requires Chunk.StateInv(s) && Chunk.Utf8(delta)
    ensures forall i :: 0 <= i < |Chunk.PushResult(s, delta, now).ready| ==>
                          1 <= |Chunk.PushResult(s, delta, now).ready[i]| <= Chunk.MAX_BYTES
  {
    Chunk.OpChunks(s, Chunk.PushOp(delta, now));
    assert Chunk.OpResult(s, Chunk.PushOp(delta, now)) == Chunk.PushResult(s, delta, now);
    var ready := Chunk.PushResult(s, delta, now).ready;
    forall i | 0 <= i < |ready| ensures 1 <= |ready[i]| <= Chunk.MAX_BYTES {
      assert ready[i] in ready;
    }
  }
}
