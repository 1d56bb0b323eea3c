/** Sending one transaction over HTTP: how often it is tried, how long each retry waits,
    and what the error it ends with says. Durations are int64 nanoseconds. */
module HttpRetry {
  import opened Arithmetic
  import opened Units

  // ---------- int64 arithmetic ----------

  const TWO63: int := 0x8000_0000_0000_0000
  const TWO64: int := 0x1_0000_0000_0000_0000

  /** The int64 that a result wraps to. */
  function Wrap(x: int): int {
    (x + TWO63) % TWO64 - TWO63
  }

  function Pow2(n: nat): int {
    if n == 0 then 1 else 2 * Pow2(n - 1)
  }

  function Pow4(n: nat): int {
    if n == 0 then 1 else 4 * Pow4(n - 1)
  }

  const MILLISECOND: int := 1_000_000
  const SECOND: int := 1_000_000_000
  const MAX_BACKOFF_ATTEMPT: nat := 16
  const MAX_RATE_LIMITED: nat := 2
  const MAX_RETRY_AFTER: int := 60 * SECOND

  function Min(a: int, b: int): int {
    if a < b then a else b
  }

  // ---------- the schedule ----------

  /** The delay before jitter, in the machine's arithmetic. */
  function Backoff(maxDelay: int, attempt: nat): int {
    if attempt <= MAX_BACKOFF_ATTEMPT then
      var d := Wrap(Wrap(Pow2(2 * attempt)) * SECOND);
      if d < maxDelay then d else maxDelay
    else
      maxDelay
  }

  lemma {:induction false} Pow2IsPow4(n: nat)
    ensures Pow2(2 * n) == Pow4(n)
  {
    if n > 0 {
      Pow2IsPow4(n - 1);
    }
  }

  lemma {:induction false} Pow4Grows(m: nat, n: nat)
    requires m <= n
    ensures 1 <= Pow4(m) <= Pow4(n)
    decreases n
  {
    if m < n {
      Pow4Grows(m, n - 1);
    } else if n > 0 {
      Pow4Grows(n - 1, n - 1);
    }
  }

  lemma Pow4Of16()
    ensures Pow4(16) == 4_294_967_296 && Pow4(17) == 17_179_869_184
  {
    assert Pow4(4) == 256;
    assert Pow4(8) == 65_536;
    assert Pow4(12) == 16_777_216;
  }

  lemma WrapFits(x: int)
    requires 0 <= x < TWO63
    ensures Wrap(x) == x
  {
  }

  lemma ShiftFits(attempt: nat)
    requires Pow4(attempt) <= 4_294_967_296
    ensures Wrap(Wrap(Pow2(2 * attempt)) * SECOND) == Pow4(attempt) * SECOND
  {
    Pow2IsPow4(attempt);
    Pow4Grows(0, attempt);
    WrapFits(Pow4(attempt));
    WrapFits(Pow4(attempt) * SECOND);
  }

  /** Main: for every attempt and every cap that fits an int64, the delay is exactly the
      smaller of 4^attempt seconds and the cap: nothing overflows on the way. */
  lemma BackoffIsCapped(maxDelay: int, attempt: nat)
    requires 0 < maxDelay < TWO63
    ensures Backoff(maxDelay, attempt) == Min(Pow4(attempt) * SECOND, maxDelay)
    ensures 0 < Backoff(maxDelay, attempt) <= maxDelay
  {
    Pow4Of16();
    if attempt <= MAX_BACKOFF_ATTEMPT {
      Pow4Grows(attempt, 16);
      ShiftFits(attempt);
    } else {
      Pow4Grows(17, attempt);
      assert Pow4(attempt) * SECOND >= 17_179_869_184 * SECOND;
    }
  }

  /** The shift gives the power of four it stands for on exactly the attempts the guard
      lets through: it is as wide as it can be. */
  lemma ShiftFitsIff(attempt: nat)
    ensures Wrap(Wrap(Pow2(2 * attempt)) * SECOND) == Pow4(attempt) * SECOND <==> attempt <= MAX_BACKOFF_ATTEMPT
  {
    Pow4Of16();
    if attempt <= MAX_BACKOFF_ATTEMPT {
      Pow4Grows(attempt, 16);
      ShiftFits(attempt);
    } else {
      Pow4Grows(17, attempt);
      assert Pow4(attempt) * SECOND >= 17_179_869_184 * SECOND;
    }
  }

  /** What a retry waits when the remote gave no hint. */
  lemma WaitBounds(maxDelay: int, attempt: nat, jitter: real)
    requires 0 < maxDelay < TWO63 && 0.8 <= jitter < 1.4
    ensures var base := Min(Pow4(attempt) * SECOND, maxDelay) as real;
            var wait := Jittered(Backoff(maxDelay, attempt), jitter);
            0 <= wait && Times(base, 0.8) - 1.0 < wait as real < Times(base, 1.4)
  {
    BackoffIsCapped(maxDelay, attempt);
    JitterBounds(Backoff(maxDelay, attempt), jitter, 0.8, 1.4);
  }

  // ---------- the remote's hint ----------

  /** retry_after_ms in the body, or the Retry-After header in whole seconds; zero is none. */
  function RetryAfter(ms: int, secs: int): int {
    if ms > 0 then Min(Wrap(ms * MILLISECOND), MAX_RETRY_AFTER)
    else if secs > 0 then Min(Wrap(secs * SECOND), MAX_RETRY_AFTER)
    else 0
  }

  /** No hint parks a transaction for more than a minute, and one that fits is taken as it is. */
  lemma RetryAfterIsCapped(ms: int, secs: int)
    ensures RetryAfter(ms, secs) <= 60_000_000_000
    ensures 0 < ms * 1_000_000 < TWO63 ==> RetryAfter(ms, secs) == Min(ms * 1_000_000, 60_000_000_000)
    ensures ms <= 0 && 0 < secs * 1_000_000_000 < TWO63 ==>
              RetryAfter(ms, secs) == Min(secs * 1_000_000_000, 60_000_000_000)
    ensures ms <= 0 && secs <= 0 ==> RetryAfter(ms, secs) == 0
  {
  }

  // ---------- errors ----------

  datatype Error =
    | Building
    | Unreachable
    | BrokenBody
    | Status(code: int)
    | Limited(inner: Error, after: int)
    | Cancelled
    | Wrapped(inner: Error)

  /** errors.As looks through what an error wraps. */
  predicate Answered(e: Error) {
    match e
    case Status(_) => true
    case Limited(inner, _) => Answered(inner)
    case Wrapped(inner) => Answered(inner)
    case _ => false
  }

  function IsRateLimited(e: Error): (r: (bool, int))
    ensures !r.0 ==> r.1 == 0
  {
    match e
    case Limited(_, after) => (true, after)
    case Wrapped(inner) => IsRateLimited(inner)
    case _ => (false, 0)
  }

  // ---------- one attempt ----------

  /** What the remote, or the way to it, does with a request. */
  datatype Answer =
    | Malformed                                    // the request cannot be built
    | NoAnswer                                     // refused, timed out, not found
    | CutShort                                     // the body does not arrive
    | Replied(code: int, ms: int, secs: int)

  datatype Result = Ok | Err(error: Error)

  function ErrorOf(a: Answer): Error
    requires !Delivered(a)
  {
    match a
    case Malformed => Building
    case NoAnswer => Unreachable
    case CutShort => BrokenBody
    case Replied(code, ms, secs) => if code == 429 then Limited(Status(code), RetryAfter(ms, secs)) else Status(code)
  }

  /** The error classifies as the answer does. */
  predicate Says(e: Error, a: Answer) {
    Answered(e) == a.Replied? &&
    IsRateLimited(e) == if Limits(a) then (true, RetryAfter(a.ms, a.secs)) else (false, 0)
  }

  lemma ErrorSays(a: Answer)
    requires !Delivered(a)
    ensures Says(ErrorOf(a), a) && Says(Wrapped(ErrorOf(a)), a)
  {
    assert Answered(Wrapped(ErrorOf(a))) == Answered(ErrorOf(a));
    assert a.Replied? ==> Answered(Status(a.code));
  }

  predicate Delivered(a: Answer) {
    a.Replied? && a.code == 200
  }

  predicate Limits(a: Answer) {
    a.Replied? && a.code == 429
  }

  predicate Retryable(a: Answer) {
    a.NoAnswer? || a.CutShort? || (a.Replied? && (a.code >= 500 || a.code == 429))
  }

  function CountLimited(answers: nat -> Answer, n: nat): nat {
    if n == 0 then 0 else CountLimited(answers, n - 1) + if Limits(answers(n - 1)) then 1 else 0
  }

  /** Whether a run of attempts ends with attempt k. */
  predicate Final(answers: nat -> Answer, retries: nat, k: nat) {
    !Retryable(answers(k)) || k == retries || (Limits(answers(k)) && CountLimited(answers, k + 1) >= MAX_RATE_LIMITED)
  }

  /** An attempt ends the run if it is the last there may be, if it is the second that is
      rate limited, or if it came to anything but silence, a cut body, a 5xx or a 429. */
  lemma FinalIff(answers: nat -> Answer, retries: nat, k: nat)
    ensures var a := answers(k);
            Final(answers, retries, k) <==>
              || k == retries
              || a.Malformed? || (a.Replied? && a.code < 500 && a.code != 429)
              || (a.Replied? && a.code == 429 && CountLimited(answers, k + 1) >= 2)
    ensures Delivered(answers(k)) <==> answers(k).Replied? && answers(k).code == 200
  {
  }

  /** The wait before attempt k + 1: the remote's hint as it stands, or the jittered backoff. */
  function WaitAfter(answers: nat -> Answer, maxDelay: int, jitters: nat -> real, k: nat): int {
    var a := answers(k);
    if Limits(a) && RetryAfter(a.ms, a.secs) > 0 then RetryAfter(a.ms, a.secs)
    else Jittered(Backoff(maxDelay, k + 1), jitters(k + 1))
  }

  /** It is the hint of a rate limit that gives one; otherwise it lies within the two jitter
      factors of 4^(k+1) seconds, or of the cap. */
  lemma WaitAfterIs(answers: nat -> Answer, maxDelay: int, jitters: nat -> real, k: nat)
    requires 0 < maxDelay < TWO63 && 0.8 <= jitters(k + 1) < 1.4
    ensures var a, wait := answers(k), WaitAfter(answers, maxDelay, jitters, k);
            if a.Replied? && a.code == 429 && RetryAfter(a.ms, a.secs) > 0 then wait == RetryAfter(a.ms, a.secs)
            else var base := Min(Pow4(k + 1) * 1_000_000_000, maxDelay) as real;
                 0 <= wait && Times(base, 0.8) - 1.0 < wait as real < Times(base, 1.4)
  {
    WaitBounds(maxDelay, k + 1, jitters(k + 1));
  }

  /** Nothing was cancelled after any of the first n attempts, nor in the wait that followed. */
  predicate Uncut(cancelled: nat -> bool, n: nat) {
    n == 0 || (Uncut(cancelled, n - 1) && !cancelled(2 * n - 1) && !cancelled(2 * n))
  }

  lemma {:induction false} UncutMeans(cancelled: nat -> bool, n: nat)
    ensures Uncut(cancelled, n) <==> forall k :: 1 <= k <= 2 * n ==> !cancelled(k)
  {
    if n > 0 { UncutMeans(cancelled, n - 1); }
  }

  class HTTP {
    const retries: nat
    const maxDelay: int

    constructor (retries: int, maxDelay: int)
      ensures this.retries == if retries <= 0 then 3 else retries
      ensures this.maxDelay == if maxDelay <= 0 then 60 * SECOND else maxDelay
    {
      this.retries := if retries <= 0 then 3 else retries;
      this.maxDelay := if maxDelay <= 0 then 60 * SECOND else maxDelay;
    }

    /** Whether to retry at all, how long to wait, and the count of rate limits so far. */
    method RateLimitDelay(base: int, lastErr: Error, seen: nat) returns (delay: int, ok: bool, now: nat)
      ensures now == seen + if IsRateLimited(lastErr).0 then 1 else 0
      ensures ok == !(IsRateLimited(lastErr).0 && now >= MAX_RATE_LIMITED)
      ensures ok ==> delay == if IsRateLimited(lastErr).1 > 0 then IsRateLimited(lastErr).1 else base
    {
      var (limited, after) := IsRateLimited(lastErr);
      if !limited {
        return base, true, seen;
      }
      now := seen + 1;
      if now >= MAX_RATE_LIMITED {
        return 0, false, now;
      }
      if after > 0 {
        return after, true, now;
      }
      return base, true, now;
    }

    /** What is waited before this attempt, if it is made. */
    method DelayBefore(attempt: nat, ghost answers: nat -> Answer, jitters: nat -> real, lastErr: Error, seen: nat)
      returns (delay: int, ok: bool, now: nat)
      requires attempt > 0 && Says(lastErr, answers(attempt - 1)) && seen == CountLimited(answers, attempt - 1)
      ensures now == CountLimited(answers, attempt)
      ensures ok == !(Limits(answers(attempt - 1)) && now >= MAX_RATE_LIMITED)
      ensures ok ==> delay == WaitAfter(answers, maxDelay, jitters, attempt - 1)
    {
      delay := Jittered(Backoff(maxDelay, attempt), jitters(attempt));
      delay, ok, now := RateLimitDelay(delay, lastErr, seen);
    }

    /** The wait before this attempt, if there is to be one, and why it is not made, if so. */
    method WaitBefore(attempt: nat, ghost answers: nat -> Answer, jitters: nat -> real, lastErr: Error, seen: nat, cut: bool)
      returns (delay: Option<int>, stop: Option<Error>, now: nat)
      requires attempt > 0 && !Delivered(answers(attempt - 1)) && lastErr == ErrorOf(answers(attempt - 1))
      requires seen == CountLimited(answers, attempt - 1)
      ensures now == CountLimited(answers, attempt)
      ensures var over := Limits(answers(attempt - 1)) && now >= MAX_RATE_LIMITED;
              && stop == (if over then Some(Wrapped(lastErr)) else if cut then Some(Cancelled) else None)
              && delay == if over then None else Some(WaitAfter(answers, maxDelay, jitters, attempt - 1))
    {
      ErrorSays(answers(attempt - 1));
      var wait, ok;
      wait, ok, now := DelayBefore(attempt, answers, jitters, lastErr, seen);
      if !ok {
        return None, Some(Wrapped(lastErr)), now;
      }
      return Some(wait), if cut then Some(Cancelled) else None, now;
    }

    /** Sends, and retries. Unless it is cancelled it makes attempts up to the first final
        one. What it returns is the error of the last, wrapped or not (ErrorSays), or that
        it was cancelled in a wait. waits has the delay before each retry, and one
        more if it is cancelled in the wait. */
    method Send(answers: nat -> Answer, jitters: nat -> real, cancelled: nat -> bool)
      returns (res: Result, attempts: nat, waits: seq<int>)
      ensures 1 <= attempts <= retries + 1 && CountLimited(answers, attempts) <= MAX_RATE_LIMITED
      ensures forall k :: 0 <= k < attempts - 1 ==> !Final(answers, retries, k)
      ensures res.Ok? <==> Delivered(answers(attempts - 1))
      ensures Final(answers, retries, attempts - 1) || cancelled(2 * attempts - 1) || res == Err(Cancelled)
      ensures res.Err? && res.error != Cancelled ==>
                !Delivered(answers(attempts - 1)) &&
                (res.error == ErrorOf(answers(attempts - 1)) || res.error == Wrapped(ErrorOf(answers(attempts - 1))))
      ensures |waits| == if res == Err(Cancelled) then attempts else attempts - 1
      ensures res == Err(Cancelled) ==> cancelled(2 * attempts)
      ensures Uncut(cancelled, attempts - 1)
      ensures forall k :: 0 <= k < |waits| ==> waits[k] == WaitAfter(answers, maxDelay, jitters, k)
    {
      waits := [];
      var lastErr := Unreachable;
      var seen, attempt := 0, 0;
      while attempt <= retries
        invariant 0 <= attempt <= retries + 1 && |waits| == if attempt == 0 then 0 else attempt - 1
        invariant forall k :: 0 <= k < |waits| ==> waits[k] == WaitAfter(answers, maxDelay, jitters, k)
        invariant forall k :: 0 <= k < attempt - 1 ==> !Final(answers, retries, k)
        invariant attempt > 0 ==> Retryable(answers(attempt - 1)) && !Delivered(answers(attempt - 1))
        invariant attempt > 0 ==> Uncut(cancelled, attempt - 1) && !cancelled(2 * attempt - 1)
        invariant attempt > 0 ==> lastErr == ErrorOf(answers(attempt - 1))
        invariant seen == CountLimited(answers, if attempt == 0 then 0 else attempt - 1) && seen < MAX_RATE_LIMITED
        decreases retries + 1 - attempt
      {
        if attempt > 0 {
          var delay, stop;
          delay, stop, seen := WaitBefore(attempt, answers, jitters, lastErr, seen, cancelled(2 * attempt));
          waits := waits + if delay.Some? then [delay.value] else [];
          if stop.Some? {
            return Err(stop.value), attempt, waits;
          }
        }
        var answer := answers(attempt);
        if Delivered(answer) {
          return Ok, attempt + 1, waits;
        }
        lastErr := ErrorOf(answer);
        if !Retryable(answer) || cancelled(2 * attempt + 1) {
          return Err(lastErr), attempt + 1, waits;
        }
        attempt := attempt + 1;
      }
      return Err(Wrapped(lastErr)), attempt, waits;
    }
  }
}
