/** Bounded retries of a provider start, with exponential backoff and fixed-point jitter. */
module Retry {
  import opened Wrappers

  const U64_MAX: nat := 0xFFFF_FFFF_FFFF_FFFF
  const U128_MAX: nat := 0xFFFF_FFFF_FFFF_FFFF_FFFF_FFFF_FFFF_FFFF
  const GIGA: nat := 1_000_000_000

  /** A Rust `Duration` in nanoseconds: 64-bit seconds and a nanosecond part below one second. */
  type Duration = d: nat | d <= U64_MAX * GIGA + (GIGA - 1)

  datatype Config = Config(maxRetries: nat, baseDelay: Duration, maxDelay: Duration, jitter: bool)

  predicate Validated(c: Config) {
    c.maxRetries <= 16 && c.baseDelay > 0 && c.baseDelay <= c.maxDelay
  }

  function Min(a: nat, b: nat): nat {
    if a < b then a else b
  }

  function Pow2(n: nat): (r: nat)
    ensures r >= 1
  {
    if n == 0 then 1 else 2 * Pow2(n - 1)
  }

  /** Base delay times two to the index, capped; an overflowing product counts as the cap. */
  function Exponential(c: Config, index: nat): Duration {
    Capped(c.baseDelay * Pow2(Min(index, 31)), c.maxDelay)
  }

  function Capped(product: nat, max: Duration): Duration {
    if product > U64_MAX * GIGA + (GIGA - 1) then max else Min(product, max)
  }

  /** Seconds saturate at 64 bits; the nanosecond part does not follow them. */
  function DurationFromNanos(value: nat): Duration {
    Min(value / GIGA, U64_MAX) * GIGA + value % GIGA
  }

  /** The share of one interval that a 64-bit draw stands for; the product saturates at 128 bits. */
  function Extra(base: Duration, fraction: nat): nat {
    Min(base * fraction, U128_MAX) / (U64_MAX + 1)
  }

  function SaturatingAdd(a: nat, b: nat): nat {
    Min(a + b, U128_MAX)
  }

  /** `draw` is the random number, or none when the generator failed. */
  function Jittered(base: Duration, max: Duration, draw: Option<nat>): Duration {
    if draw.None? then base
    else Min(DurationFromNanos(SaturatingAdd(base, Extra(base, draw.value))), max)
  }

  predicate ValidDraw(draw: Option<nat>) {
    draw.Some? ==> draw.value <= U64_MAX
  }

  function RetryDelay(c: Config, index: nat, hint: Option<Duration>, draw: Option<nat>): Duration {
    var exponential := Exponential(c, index);
    var delay := if c.jitter then Jittered(exponential, c.maxDelay, draw) else exponential;
    if hint.None? || hint.value < delay then delay else hint.value
  }

  // ---------------------------------------------------------------------------------------------
  // Bounds
  // ---------------------------------------------------------------------------------------------

  lemma {:induction false} Pow2Monotone(i: nat, j: nat)
    requires i <= j
    ensures Pow2(i) <= Pow2(j)
  {
    if i < j {
      Pow2Monotone(i, j - 1);
    }
  }

  lemma {:induction false} MulMonotone(a: nat, b: nat, c: nat)
    requires b <= c
    ensures a * b <= a * c
  {
  }

  lemma {:induction false} ExponentialRange(c: Config, index: nat)
    requires Validated(c)
    ensures c.baseDelay <= Exponential(c, index) <= c.maxDelay
  {
    MulMonotone(c.baseDelay, 1, Pow2(Min(index, 31)));
  }

  /** Unjittered delays never shrink. */
  lemma {:induction false} ExponentialMonotone(c: Config, i: nat, j: nat)
    requires Validated(c) && i <= j
    ensures Exponential(c, i) <= Exponential(c, j)
  {
    Pow2Monotone(Min(i, 31), Min(j, 31));
    MulMonotone(c.baseDelay, Pow2(Min(i, 31)), Pow2(Min(j, 31)));
  }

  /** The interval starts at the base delay and doubles, up to the cap, for 31 retries; then it stays. */
  lemma {:induction false} ExponentialDoubles(c: Config, index: nat)
    requires Validated(c)
    ensures Exponential(c, 0) == c.baseDelay
    ensures Exponential(c, index + 1)
         == if index < 31 then Min(2 * Exponential(c, index), c.maxDelay) else Exponential(c, index)
  {
    assert Pow2(0) == 1;
    if index < 31 {
      Product(c.baseDelay, index);
      CappedDoubles(c.baseDelay * Pow2(index), c.maxDelay);
    }
  }

  lemma {:induction false} Product(base: nat, index: nat)
    ensures base * Pow2(index + 1) == 2 * (base * Pow2(index))
  {
    assert Pow2(index + 1) == 2 * Pow2(index);
  }

  lemma {:induction false} CappedDoubles(product: nat, max: Duration)
    ensures Capped(2 * product, max) == Min(2 * Capped(product, max), max)
  {
  }

  lemma {:induction false} DivBelow(value: nat, bound: nat, d: nat)
    requires d > 0 && value < bound * d
    ensures value / d < bound
  {
    if value / d >= bound {
      MulMonotone(d, bound, value / d);
    }
  }

  /** Jitter adds less than the interval itself, saturated product or not. */
  lemma {:induction false} ExtraBelowBase(base: Duration, fraction: nat)
    requires base > 0 && fraction <= U64_MAX
    ensures Extra(base, fraction) < base
  {
    MulMonotone(base, fraction, U64_MAX);
    assert base * (U64_MAX + 1) == base * U64_MAX + base;
    DivBelow(Min(base * fraction, U128_MAX), base, U64_MAX + 1);
  }

  /** What jitter adds is the drawn share of the interval, in whole nanoseconds. */
  lemma {:induction false} ExtraIsShare(base: Duration, fraction: nat)
    requires base * fraction <= U128_MAX
    ensures Extra(base, fraction) * (U64_MAX + 1) <= base * fraction < (Extra(base, fraction) + 1) * (U64_MAX + 1)
  {
    var product := base * fraction;
    assert product == product / (U64_MAX + 1) * (U64_MAX + 1) + product % (U64_MAX + 1);
  }

  lemma {:induction false} FromNanosBelow(value: nat)
    ensures DurationFromNanos(value) <= value
  {
    assert value == value / GIGA * GIGA + value % GIGA;
    MulMonotone(GIGA, Min(value / GIGA, U64_MAX), value / GIGA);
  }

  /** While seconds fit in 64 bits the conversion is exact. */
  lemma {:induction false} FromNanosExact(value: nat)
    requires value <= U64_MAX * GIGA + (GIGA - 1)
    ensures DurationFromNanos(value) == value
  {
    assert value == value / GIGA * GIGA + value % GIGA;
    assert value / GIGA <= U64_MAX;
  }

  lemma {:induction false} FromNanosSaturates(value: nat)
    requires value > U64_MAX * GIGA + (GIGA - 1)
    ensures DurationFromNanos(value) == U64_MAX * GIGA + value % GIGA
  {
    assert value / GIGA >= U64_MAX;
  }

  lemma {:induction false} JitterRange(base: Duration, max: Duration, draw: Option<nat>)
    requires 0 < base <= max && ValidDraw(draw)
    ensures Jittered(base, max, draw) <= max && Jittered(base, max, draw) < 2 * base
  {
    if draw.Some? {
      ExtraBelowBase(base, draw.value);
      FromNanosBelow(SaturatingAdd(base, Extra(base, draw.value)));
    }
  }

  /** No delay without a hint exceeds the cap, or twice the interval it is drawn from. */
  lemma {:induction false} DelayAbove(c: Config, index: nat, draw: Option<nat>)
    requires Validated(c) && ValidDraw(draw)
    ensures RetryDelay(c, index, None, draw) <= c.maxDelay
    ensures RetryDelay(c, index, None, draw) < 2 * Exponential(c, index)
  {
    ExponentialRange(c, index);
    JitterRange(Exponential(c, index), c.maxDelay, draw);
  }

  /** A hint only ever lengthens a delay. */
  lemma {:induction false} HintRaises(c: Config, index: nat, hint: Duration, draw: Option<nat>)
    ensures var plain := RetryDelay(c, index, None, draw);
            RetryDelay(c, index, Some(hint), draw) == if hint < plain then plain else hint
  {
  }

  /** A base delay so long that adding jitter to it carries out of the 64-bit seconds. */
  predicate Saturating(c: Config) {
    c.jitter && c.baseDelay / GIGA == U64_MAX && c.baseDelay % GIGA > 0
  }

  lemma {:induction false} JitterKeepsInterval(base: Duration, max: Duration, draw: Option<nat>, floor: Duration)
    requires 0 < floor <= base <= max && ValidDraw(draw)
    requires floor <= U64_MAX * GIGA
    ensures floor <= Jittered(base, max, draw)
  {
    if draw.Some? {
      ExtraBelowBase(base, draw.value);
      var sum := SaturatingAdd(base, Extra(base, draw.value));
      if sum <= U64_MAX * GIGA + (GIGA - 1) {
        FromNanosExact(sum);
      } else {
        FromNanosSaturates(sum);
      }
    }
  }

  /** The smallest positive draw adds one nanosecond less than a second to such a delay. */
  lemma {:induction false} SmallestDrawCarries(base: Duration)
    requires base / GIGA == U64_MAX && base % GIGA > 0
    ensures Extra(base, 1) == GIGA - 1
    ensures DurationFromNanos(SaturatingAdd(base, Extra(base, 1))) == base - 1
  {
    assert base == U64_MAX * GIGA + base % GIGA;
    assert base * 1 == base;
    var rest := base - (GIGA - 1) * (U64_MAX + 1);
    assert 0 <= rest <= U64_MAX;
    assert base / (U64_MAX + 1) == GIGA - 1;
    var sum := base + (GIGA - 1);
    FromNanosSaturates(sum);
    assert sum == (U64_MAX + 1) * GIGA + (base % GIGA - 1);
    assert sum % GIGA == base % GIGA - 1;
  }

  /** Every delay is at least the base delay exactly when the base delay is not a saturating one. */
  lemma {:induction false} DelayBelow(c: Config)
    requires Validated(c)
    ensures (forall index: nat, draw :: ValidDraw(draw) ==> c.baseDelay <= RetryDelay(c, index, None, draw))
       <==> !Saturating(c)
  {
    if Saturating(c) {
      SmallestDrawCarries(c.baseDelay);
      ExponentialRange(c, 0);
      assert Pow2(0) == 1;
      assert Exponential(c, 0) == c.baseDelay;
      assert ValidDraw(Some(1)) && RetryDelay(c, 0, None, Some(1)) < c.baseDelay;
    } else {
      forall index: nat, draw | ValidDraw(draw) ensures c.baseDelay <= RetryDelay(c, index, None, draw) {
        ExponentialRange(c, index);
        if c.jitter {
          assert c.baseDelay == c.baseDelay / GIGA * GIGA + c.baseDelay % GIGA;
          JitterKeepsInterval(Exponential(c, index), c.maxDelay, draw, c.baseDelay);
        }
      }
    }
  }

  // ---------------------------------------------------------------------------------------------
  // The wrapper
  // ---------------------------------------------------------------------------------------------

  datatype PortError = Unavailable | OtherPortError(code: nat)

  datatype Failure =
    | RateLimited(retryAfter: Option<Duration>)
    | ServerUnavailable(retryAfter: Option<Duration>)
    | OtherFailure(code: nat)

  datatype Poll = Failed(failure: Failure) | Event(id: nat) | End | PollError(error: PortError)

  /** What one inner start does: refuse, or open a session that will answer its polls like this. */
  datatype Attempt = Refused(error: PortError) | Opened(answers: seq<Poll>)

  /** The answer to poll `n` of a session. */
  function AnswerAt(answers: seq<Poll>, n: nat): Poll {
    if n < |answers| then answers[n] else End
  }

  /** The delay hint of an attempt that may be retried; none when it may not. */
  function Retryable(a: Attempt): Option<Option<Duration>> {
    match a
    case Refused(Unavailable) => Some(None)
    case Refused(_) => None
    case Opened(answers) =>
      match AnswerAt(answers, 0)
      case Failed(RateLimited(hint)) => Some(hint)
      case Failed(ServerUnavailable(hint)) => Some(hint)
      case _ => None
  }

  /** An answer that says the provider may be ready later. */
  predicate Transient(p: Poll) {
    p.Failed? && !p.failure.OtherFailure?
  }

  class Session {
    const answers: seq<Poll>
    var position: nat

    constructor (answers: seq<Poll>)
      ensures this.answers == answers && position == 0
    {
      this.answers := answers;
      position := 0;
    }

    method NextEvent() returns (p: Poll)
      modifies this
      ensures p == AnswerAt(answers, old(position)) && position == old(position) + 1
    {
      p := AnswerAt(answers, position);
      position := position + 1;
    }
  }

  class PrefetchedSession {
    var first: Option<Poll>
    const inner: Session

    ghost predicate Valid()
      reads this, inner
    {
      first.Some? ==> inner.position == 1 && first.value == AnswerAt(inner.answers, 0)
    }

    /** How many answers the caller has seen. */
    ghost function Consumed(): nat
      reads this, inner
    {
      if first.Some? then 0 else inner.position
    }

    constructor (first: Poll, inner: Session)
      requires inner.position == 1 && first == AnswerAt(inner.answers, 0)
      ensures Valid() && this.inner == inner && Consumed() == 0
    {
      this.first := Some(first);
      this.inner := inner;
    }

    /** Poll `n` of the wrapper is poll `n` of the session it wraps. */
    method NextEvent() returns (p: Poll)
      requires Valid()
      modifies this, inner
      ensures Valid()
      ensures p == AnswerAt(inner.answers, old(Consumed())) && Consumed() == old(Consumed()) + 1
    {
      if first.Some? {
        p := first.value;
        first := None;
      } else {
        p := inner.NextEvent();
      }
    }
  }

  /** The waits before retries 1 to `n`. */
  function Waits(c: Config, inner: nat -> Attempt, draws: nat -> Option<nat>, n: nat): seq<nat>
    requires forall k :: 0 <= k < n ==> Retryable(inner(k)).Some?
  {
    if n == 0 then [] else Waits(c, inner, draws, n - 1) + [RetryDelay(c, n - 1, Retryable(inner(n - 1)).value, draws(n - 1))]
  }

  datatype StartResult = Started(session: PrefetchedSession) | StartFailed(error: PortError)

  /** What one attempt leads to: a wait before the next one, or the result of the start. */
  method TryOnce(c: Config, attempt: Attempt, retries: nat, draw: Option<nat>)
    returns (wait: Option<nat>, r: StartResult)
    requires Validated(c) && retries <= c.maxRetries
    ensures wait == if Retryable(attempt).Some? && retries < c.maxRetries
                    then Some(RetryDelay(c, retries, Retryable(attempt).value, draw)) else None
    ensures wait.None? ==> (r.StartFailed? <==> attempt.Refused?) && (r.StartFailed? ==> r.error == attempt.error)
    ensures wait.None? && r.Started? ==>
              r.session.Valid() && r.session.Consumed() == 0 && r.session.inner.answers == attempt.answers
  {
    if attempt.Refused? {
      r := StartFailed(attempt.error);
      if attempt.error.Unavailable? && retries < c.maxRetries {
        return Some(RetryDelay(c, retries, None, draw)), r;
      }
      return None, r;
    }
    var session := new Session(attempt.answers);
    var first := session.NextEvent();
    var prefetched := new PrefetchedSession(first, session);
    r := Started(prefetched);
    if first.Failed? && (first.failure.RateLimited? || first.failure.ServerUnavailable?) && retries < c.maxRetries {
      return Some(RetryDelay(c, retries, first.failure.retryAfter, draw)), r;
    }
    return None, r;
  }

  /** Start until an attempt may not be retried or the retries are used up. */
  method Start(c: Config, inner: nat -> Attempt, draws: nat -> Option<nat>)
    returns (r: StartResult, starts: nat, waits: seq<nat>)
    requires Validated(c)
    ensures 1 <= starts <= c.maxRetries + 1
    ensures forall k :: 0 <= k < starts - 1 ==> Retryable(inner(k)).Some?
    ensures starts <= c.maxRetries ==> Retryable(inner(starts - 1)).None?
    // the caller sees a fault that may pass only when the retries are used up
    ensures r == StartFailed(Unavailable) ==> starts == c.maxRetries + 1
    ensures r.Started? && Transient(AnswerAt(r.session.inner.answers, 0)) ==> starts == c.maxRetries + 1
    // and nothing else is ever tried again
    ensures forall k :: 0 <= k < starts - 1 ==>
              inner(k) == Refused(Unavailable) || (inner(k).Opened? && Transient(AnswerAt(inner(k).answers, 0)))
    ensures waits == Waits(c, inner, draws, starts - 1)
    ensures r.StartFailed? <==> inner(starts - 1).Refused?
    ensures r.StartFailed? ==> r.error == inner(starts - 1).error
    ensures r.Started? ==> r.session.Valid() && r.session.Consumed() == 0 && r.session.inner.answers == inner(starts - 1).answers
  {
    var retries := 0;
    waits := [];
    while true
      invariant 0 <= retries <= c.maxRetries
      invariant forall k :: 0 <= k < retries ==> Retryable(inner(k)).Some?
      invariant waits == Waits(c, inner, draws, retries)
      decreases c.maxRetries - retries
    {
      var wait;
      wait, r := TryOnce(c, inner(retries), retries, draws(retries));
      starts := retries + 1;
      if wait.None? {
        return;
      }
      waits := waits + [wait.value];
      retries := retries + 1;
    }
  }
}
