/** The SDK's bounded retry loop, and the blob upload that runs in it. */
module RelayerRetry {
  import opened Wrappers

  /** What a call throws: an HTTP status that is not a success, or a network failure. */
  datatype CallError = Status(status: int, retryAfterMs: Option<int>) | Network(transient: bool)

  datatype Outcome<+T> = Value(value: T) | Threw(error: CallError)

  datatype Policy = Policy(maxAttempts: int, maxElapsedMs: int, baseDelayMs: nat, maxDelayMs: nat)

  /** What the loop meets: each call's answer and duration, how late each timer fires, and when the caller aborts. */
  datatype Script<!T> = Script(
    answer: nat -> Outcome<T>, tookMs: nat -> nat, lateMs: nat -> nat,
    abortBefore: nat -> bool, abortAfter: nat -> bool, abortWait: nat -> bool)

  datatype Ending<+T> = Returned(value: T) | Rethrown(error: CallError) | Aborted

  /** A Retry-After replaces the exponential backoff. */
  function Delay(p: Policy, attempt: nat, e: CallError): nat
    requires 1 <= attempt
  {
    if e.Status? && e.retryAfterMs.Some? && 0 <= e.retryAfterMs.value then e.retryAfterMs.value
    else
      var backoff := p.baseDelayMs * Pow2(attempt - 1);
      if p.maxDelayMs <= backoff then p.maxDelayMs else backoff
  }

  /** The delay asked for after the n-th call threw. */
  function DelayAfter<T>(p: Policy, s: Script<T>, n: nat): nat
    requires 1 <= n && s.answer(n).Threw?
  {
    Delay(p, n, s.answer(n).error)
  }

  predicate AllThrew<T>(s: Script<T>, n: nat) {
    forall m :: 1 <= m <= n ==> s.answer(m).Threw?
  }

  /** All the waiting asked for after the first n calls. */
  function Waited<T>(p: Policy, s: Script<T>, n: nat): nat
    requires AllThrew(s, n)
  {
    if n == 0 then 0 else Waited(p, s, n - 1) + DelayAfter(p, s, n)
  }

  /** The clock when the n-th call has answered: calls, waits, and timers that fire late. */
  function Elapsed<T>(p: Policy, s: Script<T>, n: nat): nat
    requires 1 <= n && AllThrew(s, n - 1)
  {
    s.tookMs(n) + if n == 1 then 0 else Elapsed(p, s, n - 1) + DelayAfter(p, s, n - 1) + s.lateMs(n - 1)
  }

  /** The clock never shows less than the waiting it was asked for. */
  lemma {:induction false} WaitsShowOnTheClock<T>(p: Policy, s: Script<T>, n: nat)
    requires 1 <= n && AllThrew(s, n - 1)
    ensures Waited(p, s, n - 1) <= Elapsed(p, s, n)
  {
    if n > 1 { WaitsShowOnTheClock(p, s, n - 1); }
  }

  /** The loop goes round again after the n-th call. */
  predicate Again<T>(p: Policy, s: Script<T>, shouldRetry: CallError -> bool, n: nat) {
    && 1 <= n && AllThrew(s, n - 1)
    && s.answer(n).Threw? && n < p.maxAttempts && shouldRetry(s.answer(n).error)
    && Elapsed(p, s, n) + DelayAfter(p, s, n) <= p.maxElapsedMs
  }

  predicate AllAgain<T>(p: Policy, s: Script<T>, shouldRetry: CallError -> bool, n: nat) {
    forall m :: 1 <= m <= n ==> Again(p, s, shouldRetry, m)
  }

  lemma OnceMore<T>(p: Policy, s: Script<T>, shouldRetry: CallError -> bool, n: nat)
    requires 1 <= n && AllAgain(p, s, shouldRetry, n - 1) && Again(p, s, shouldRetry, n)
    ensures AllThrew(s, n) && AllAgain(p, s, shouldRetry, n)
    ensures Waited(p, s, n) <= p.maxElapsedMs
  {
    WaitsShowOnTheClock(p, s, n);
    forall m | 1 <= m <= n ensures Again(p, s, shouldRetry, m) {
      assert m < n ==> Again(p, s, shouldRetry, m);
    }
  }

  ghost predicate NeverAborted<T>(s: Script<T>) {
    forall n: nat :: !s.abortBefore(n) && !s.abortAfter(n) && !s.abortWait(n)
  }

  /** Calls are bounded, waiting is bounded, and the end is honest: a value from a call, or the last error. */
  method WithRelayerRetry<T>(p: Policy, s: Script<T>, shouldRetry: CallError -> bool)
    returns (end: Ending<T>, calls: nat, waits: nat)
    ensures waits <= calls && calls <= waits + 1
    ensures calls <= if p.maxAttempts < 1 then 1 else p.maxAttempts
    ensures AllAgain(p, s, shouldRetry, waits) && AllThrew(s, waits)
    ensures Waited(p, s, waits) <= if waits == 0 then 0 else p.maxElapsedMs
    ensures end.Returned? ==> calls == waits + 1 && s.answer(calls) == Value(end.value)
    ensures end.Rethrown? ==> calls == waits + 1 && s.answer(calls) == Threw(end.error) && !Again(p, s, shouldRetry, calls)
    ensures end.Aborted? ==> s.abortBefore(calls + 1) || (1 <= calls && (s.abortAfter(calls) || s.abortWait(calls)))
  {
    var attempt, elapsed := 1, 0;
    calls, waits := 0, 0;
    ghost var waited := 0;
    while true
      invariant attempt == calls + 1 == waits + 1
      invariant waits == 0 || waits < p.maxAttempts
      invariant AllAgain(p, s, shouldRetry, waits) && AllThrew(s, waits)
      invariant Waited(p, s, waits) <= if waits == 0 then 0 else p.maxElapsedMs
      invariant elapsed == if waits == 0 then 0 else Elapsed(p, s, waits) + DelayAfter(p, s, waits) + s.lateMs(waits)
      decreases if p.maxAttempts < attempt then 0 else p.maxAttempts - attempt + 1
    {
      if s.abortBefore(attempt) {
        return Aborted, calls, waits;
      }
      calls := attempt;
      elapsed := elapsed + s.tookMs(attempt);
      match s.answer(attempt) {
        case Value(value) =>
          return Returned(value), calls, waits;
        case Threw(error) =>
          if s.abortAfter(attempt) {
            return Aborted, calls, waits;
          }
          if attempt >= p.maxAttempts || !shouldRetry(error) {
            return Rethrown(error), calls, waits;
          }
          var delay := Delay(p, attempt, error);
          if elapsed + delay > p.maxElapsedMs {
            return Rethrown(error), calls, waits;
          }
          OnceMore(p, s, shouldRetry, attempt);
          waits := attempt;
          if s.abortWait(attempt) {
            return Aborted, calls, waits;
          }
          elapsed := elapsed + delay + s.lateMs(attempt);
          attempt := attempt + 1;
      }
    }
  }

  // ---------- uploadBlob ----------

  /** The relayer's answer to one POST of the bytes. */
  datatype Reply = Answered(status: int, retryAfterMs: Option<int>) | Unreachable(transient: bool)

  predicate IsSuccess(status: int) {
    200 <= status < 300
  }

  predicate IsRetryableStatus(status: int) {
    status == 408 || status == 429 || status >= 500
  }

  predicate ShouldRetryUpload(e: CallError) {
    match e
    case Status(status, _) => status == 404 || IsRetryableStatus(status)
    case Network(transient) => transient
  }

  /** A 409 to a retry means an earlier attempt was ingested; to the first attempt it is a rejection. */
  function UploadAttempt(n: nat, reply: Reply): Outcome<()> {
    match reply
    case Unreachable(transient) => Threw(Network(transient))
    case Answered(status, retryAfterMs) =>
      if IsSuccess(status) || (status == 409 && 2 <= n) then Value(()) else Threw(Status(status, retryAfterMs))
  }

  predicate Accepted(n: nat, reply: Reply) {
    reply.Answered? && (IsSuccess(reply.status) || (reply.status == 409 && 2 <= n))
  }

  /** Answers after which the upload is sent again, bounds permitting. */
  predicate Transient(reply: Reply) {
    match reply
    case Unreachable(transient) => transient
    case Answered(status, _) => status in {404, 408, 429} || 500 <= status
  }

  method UploadBlob(replies: nat -> Reply, clock: Script<()>, retry: Option<Policy>) returns (end: Ending<()>, calls: nat)
    requires forall n :: clock.answer(n) == UploadAttempt(n, replies(n))
    ensures calls <= if retry.Some? && 1 < retry.value.maxAttempts then retry.value.maxAttempts else 1
    ensures end.Returned? ==> 1 <= calls && Accepted(calls, replies(calls))
    ensures end.Rethrown? ==> 1 <= calls && !Accepted(calls, replies(calls))
    ensures forall n :: 1 <= n < calls ==> !Accepted(n, replies(n)) && Transient(replies(n))
    ensures retry.None? ==> calls == 1 && !end.Aborted?
    // the first accepted answer within the bounds ends the upload, successfully
    ensures retry.Some? && NeverAborted(clock) ==> forall first: nat ::
              1 <= first && AllAgain(retry.value, clock, ShouldRetryUpload, first - 1) && Accepted(first, replies(first))
              ==> end.Returned? && calls == first
    ensures NeverAborted(clock) ==> !end.Aborted?
    ensures NeverAborted(clock) && replies(1).Answered? && replies(1).status == 409 ==> calls == 1 && end.Rethrown?
  {
    if retry.None? {
      var only := clock.answer(1);
      return if only.Value? then Returned(only.value) else Rethrown(only.error), 1;
    }
    var waits;
    end, calls, waits := WithRelayerRetry(retry.value, clock, ShouldRetryUpload);
    forall n | 1 <= n < calls ensures !Accepted(n, replies(n)) && Transient(replies(n)) {
      assert Again(retry.value, clock, ShouldRetryUpload, n);
    }
    if NeverAborted(clock) {
      forall first: nat | 1 <= first && AllAgain(retry.value, clock, ShouldRetryUpload, first - 1) && Accepted(first, replies(first))
        ensures end.Returned? && calls == first
      {
        EndsAtFirst(retry.value, clock, end, calls, waits, first);
      }
    }
  }

  /** A loop that neither stops before it need nor goes past a value ends at the first value. */
  lemma EndsAtFirst(p: Policy, s: Script<()>, end: Ending<()>, calls: nat, waits: nat, first: nat)
    requires 1 <= first && s.answer(first).Value? && AllAgain(p, s, ShouldRetryUpload, first - 1)
    requires !end.Aborted? && calls == waits + 1 && AllThrew(s, waits)
    requires end.Rethrown? ==> s.answer(calls).Threw? && !Again(p, s, ShouldRetryUpload, calls)
    requires end.Returned? ==> s.answer(calls).Value?
    ensures end.Returned? && calls == first
  {
    if calls < first { AgainAt(p, s, first - 1, calls); }
  }

  lemma AgainAt(p: Policy, s: Script<()>, n: nat, m: nat)
    requires AllAgain(p, s, ShouldRetryUpload, n) && 1 <= m <= n
    ensures Again(p, s, ShouldRetryUpload, m)
  {
  }

  // ---------- the delays asked for ----------

  /** A Retry-After is waited for in full, whatever the policy's own bounds; a negative one is ignored. */
  lemma RetryAfterWins(p: Policy, attempt: nat, status: int, ms: int)
    requires 1 <= attempt
    ensures Delay(p, attempt, Status(status, Some(ms))) == if 0 <= ms then ms else Delay(p, attempt, Status(status, None))
  {
  }

  /** Without one: the base at first, then twice the wait before, never past the cap. */
  lemma BackoffDoubles(p: Policy, attempt: nat, e: CallError)
    requires 1 <= attempt && (e.Network? || e.retryAfterMs.None?)
    ensures Delay(p, 1, e) == Least(p.baseDelayMs, p.maxDelayMs)
    ensures Delay(p, attempt + 1, e) == Least(2 * Delay(p, attempt, e), p.maxDelayMs)
  {
    Doubled(p.baseDelayMs, attempt);
  }

  function Least(a: nat, b: nat): nat {
    if a < b then a else b
  }

  lemma Doubled(base: nat, attempt: nat)
    requires 1 <= attempt
    ensures base * Pow2(attempt) == 2 * (base * Pow2(attempt - 1))
    ensures base * Pow2(0) == base
  {
    assert Pow2(attempt) == 2 * Pow2(attempt - 1);
  }

  // ---------- when the loop does go on ----------

  /** The clock never goes back. */
  lemma ElapsedGrows<T>(p: Policy, s: Script<T>, n: nat)
    requires 1 <= n && AllThrew(s, n)
    ensures Elapsed(p, s, n) + DelayAfter(p, s, n) <= Elapsed(p, s, n + 1)
  {
  }

  /** It goes round after each of n retryable errors as long as another call is allowed and the last wait still ends in time. */
  lemma {:induction false} GoesOn<T>(p: Policy, s: Script<T>, shouldRetry: CallError -> bool, n: nat)
    requires AllThrew(s, n) && forall m :: 1 <= m <= n ==> shouldRetry(s.answer(m).error)
    requires n < p.maxAttempts
    requires 1 <= n ==> Elapsed(p, s, n) + DelayAfter(p, s, n) <= p.maxElapsedMs
    ensures AllAgain(p, s, shouldRetry, n)
  {
    if n > 1 {
      ElapsedGrows(p, s, n - 1);
      GoesOn(p, s, shouldRetry, n - 1);
    }
    if n >= 1 {
      assert Again(p, s, shouldRetry, n);
    }
  }
}
