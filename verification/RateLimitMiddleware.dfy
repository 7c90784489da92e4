/** The middleware's budgets for one request: charged in order, the first empty one refuses. */
module RateLimitMiddleware {
  import opened Wrappers
  import opened RateLimit

  datatype Scope = Ip | Encode | App

  datatype Budget = Budget(scope: Scope, hit: Request)

  datatype Verdict =
    | Next(tightest: Option<HitResult>)
    | TooManyRequests(scope: Scope, limit: int, retryAfter: int)

  /** The limiter after some budgets were charged, and its answers to them. */
  datatype Trace = Trace(store: Store, answers: seq<HitResult>)

  function Charged(c: Limits, t: Trace, h: Request): Trace {
    Trace(BoundedHit(c, t.store, h), t.answers + [BoundedAnswer(c, t.store, h)])
  }

  function ChargeFirst(c: Limits, s: Store, budgets: seq<Budget>, n: nat): (t: Trace)
    requires n <= |budgets|
    ensures |t.answers| == n
  {
    if n == 0 then Trace(s, []) else Charged(c, ChargeFirst(c, s, budgets, n - 1), budgets[n - 1].hit)
  }

  predicate AllAllowed(answers: seq<HitResult>) {
    forall m :: 0 <= m < |answers| ==> answers[m].allowed
  }

  function RetryAfter(resetInMs: int): (seconds: int)
    ensures 1 <= seconds && resetInMs <= 1000 * seconds
    ensures 1 < seconds ==> 1000 * (seconds - 1) < resetInMs
  {
    var up := (resetInMs + 999) / 1000;
    if up < 1 then 1 else up
  }

  predicate IsTightest(answers: seq<HitResult>, r: HitResult) {
    r in answers && forall m :: 0 <= m < |answers| ==> r.remaining <= answers[m].remaining
  }

  /** The request goes on, every budget charged and the tightest reported. */
  predicate GoesOn(answers: seq<HitResult>, budgets: seq<Budget>, v: Verdict) {
    && v.Next? && |answers| == |budgets| && AllAllowed(answers)
    && (v.tightest.None? <==> budgets == [])
    && (v.tightest.Some? ==> IsTightest(answers, v.tightest.value))
  }

  /** The last budget charged is the first without room; the verdict names it and when to come back. */
  predicate Refused(answers: seq<HitResult>, budgets: seq<Budget>, v: Verdict) {
    && 1 <= |answers| <= |budgets|
    && var last := |answers| - 1;
       && AllAllowed(answers[..last]) && !answers[last].allowed
       && v == TooManyRequests(budgets[last].scope, answers[last].limit, RetryAfter(answers[last].resetInMs))
  }

  /** Lets the request on exactly when every budget has room; else names the first without, leaving the later ones alone. */
  method Limit(limiter: FixedWindowLimiter, budgets: seq<Budget>) returns (v: Verdict, charged: nat)
    requires Wf(limiter.Contents())
    modifies limiter
    ensures Wf(limiter.Contents()) && charged <= |budgets|
    ensures limiter.Contents() == ChargeFirst(limiter.c, old(limiter.Contents()), budgets, charged).store
    ensures var answers := ChargeFirst(limiter.c, old(limiter.Contents()), budgets, charged).answers;
            GoesOn(answers, budgets, v) || Refused(answers, budgets, v)
  {
    ghost var t := Trace(limiter.Contents(), []);
    var tightest := None;
    for n := 0 to |budgets|
      invariant Wf(limiter.Contents()) && limiter.Contents() == t.store
      invariant t == ChargeFirst(limiter.c, old(limiter.Contents()), budgets, n)
      invariant AllAllowed(t.answers)
      invariant tightest.None? <==> n == 0
      invariant tightest.Some? ==> IsTightest(t.answers, tightest.value)
    {
      ghost var before := t;
      var result := Charge(limiter, t, budgets[n].hit);
      t := Charged(limiter.c, t, budgets[n].hit);
      TightestGrows(before.answers, tightest, result);
      assert t.answers[..n] == before.answers && t.answers[n] == result;
      if !result.allowed {
        return TooManyRequests(budgets[n].scope, result.limit, RetryAfter(result.resetInMs)), n + 1;
      }
      tightest := Tighter(tightest, result);
    }
    return Next(tightest), |budgets|;
  }

  function Tighter(best: Option<HitResult>, r: HitResult): Option<HitResult> {
    if best.None? || r.remaining < best.value.remaining then Some(r) else best
  }

  lemma TightestGrows(answers: seq<HitResult>, best: Option<HitResult>, r: HitResult)
    requires best.None? <==> answers == []
    requires best.Some? ==> IsTightest(answers, best.value)
    ensures IsTightest(answers + [r], Tighter(best, r).value)
  {
  }

  method Charge(limiter: FixedWindowLimiter, ghost t: Trace, h: Request) returns (r: HitResult)
    requires Wf(limiter.Contents()) && limiter.Contents() == t.store
    modifies limiter
    ensures Wf(limiter.Contents()) && limiter.Contents() == Charged(limiter.c, t, h).store
    ensures Charged(limiter.c, t, h).answers == t.answers + [r]
  {
    r := limiter.Hit(h.key, h.limit, h.now);
    assert h == Request(h.key, h.limit, h.now);
  }

  // ---------- budgets do not interfere ----------

  /** The budgets of one request have keys of their own. */
  predicate DistinctKeys(budgets: seq<Budget>) {
    forall m, n :: 0 <= m < n < |budgets| ==> budgets[m].hit.key != budgets[n].hit.key
  }

  function FreeCharged(windowMs: int, u: Windows, budgets: seq<Budget>, n: nat): Windows
    requires n <= |budgets|
  {
    if n == 0 then u else FreeHit(FreeCharged(windowMs, u, budgets, n - 1), budgets[n - 1].hit, windowMs)
  }

  lemma {:induction false} OtherKeysUntouched(windowMs: int, u: Windows, budgets: seq<Budget>, n: nat, key: string)
    requires n <= |budgets| && forall m :: 0 <= m < n ==> budgets[m].hit.key != key
    ensures key in FreeCharged(windowMs, u, budgets, n) <==> key in u
    ensures key in u ==> FreeCharged(windowMs, u, budgets, n)[key] == u[key]
  {
    if n > 0 { OtherKeysUntouched(windowMs, u, budgets, n - 1, key); }
  }

  /** Charging the earlier budgets does not change a later one's answer. */
  lemma BudgetsAreIndependent(windowMs: int, u: Windows, budgets: seq<Budget>, n: nat)
    requires n < |budgets| && DistinctKeys(budgets)
    ensures FreeAnswer(FreeCharged(windowMs, u, budgets, n), budgets[n].hit, windowMs) == FreeAnswer(u, budgets[n].hit, windowMs)
  {
    OtherKeysUntouched(windowMs, u, budgets, n, budgets[n].hit.key);
  }

  function Clock(budgets: seq<Budget>, n: nat, since: int): int
    requires n <= |budgets|
  {
    if n == 0 then since else budgets[n - 1].hit.now
  }

  /** Each of the first n charges has room, and the clock does not go back. */
  predicate RoomFor(c: Limits, u: Windows, budgets: seq<Budget>, since: int, n: nat)
    requires n <= |budgets|
  {
    n == 0 ||
    (&& RoomFor(c, u, budgets, since, n - 1)
     && HasRoom(c, FreeCharged(c.windowMs, u, budgets, n - 1), budgets[n - 1].hit)
     && Clock(budgets, n - 1, since) <= budgets[n - 1].hit.now)
  }

  lemma OneCharge(c: Limits, t: Store, v: Windows, h: Request, since: int)
    requires Wf(t) && Agree(t.windows, v, since) && since <= h.now && HasRoom(c, v, h)
    ensures Wf(BoundedHit(c, t, h)) && Agree(BoundedHit(c, t, h).windows, FreeHit(v, h, c.windowMs), h.now)
    ensures BoundedAnswer(c, t, h) == FreeAnswer(v, h, c.windowMs)
  {
    AgreeLater(t.windows, v, since, h.now);
    HitAgrees(c, t, v, h);
    HitKeepsForm(c, t, h);
  }

  /** After n charges the limiter agrees with the unbounded one, and each answer is what the budget alone would get. */
  ghost predicate InStep(t: Trace, v: Windows, u: Windows, budgets: seq<Budget>, n: nat, now: int, windowMs: int) {
    && n <= |budgets| && |t.answers| == n && Wf(t.store) && Agree(t.store.windows, v, now)
    && forall m :: 0 <= m < n ==> t.answers[m] == FreeAnswer(u, budgets[m].hit, windowMs)
  }

  lemma ChargeInStep(c: Limits, t: Trace, v: Windows, u: Windows, budgets: seq<Budget>, n: nat, now: int)
    requires InStep(t, v, u, budgets, n, now, c.windowMs) && n < |budgets| && now <= budgets[n].hit.now
    requires HasRoom(c, v, budgets[n].hit)
    requires FreeAnswer(v, budgets[n].hit, c.windowMs) == FreeAnswer(u, budgets[n].hit, c.windowMs)
    ensures InStep(Charged(c, t, budgets[n].hit), FreeHit(v, budgets[n].hit, c.windowMs), u, budgets, n + 1,
                   budgets[n].hit.now, c.windowMs)
  {
    OneCharge(c, t.store, v, budgets[n].hit, now);
  }

  lemma {:induction false} ChargesAgree(c: Limits, s: Store, u: Windows, budgets: seq<Budget>, since: int, n: nat)
    requires n <= |budgets| && Wf(s) && Agree(s.windows, u, since)
    requires RoomFor(c, u, budgets, since, n) && DistinctKeys(budgets)
    ensures InStep(ChargeFirst(c, s, budgets, n), FreeCharged(c.windowMs, u, budgets, n), u, budgets, n,
                   Clock(budgets, n, since), c.windowMs)
  {
    if n > 0 {
      var t, v := ChargeFirst(c, s, budgets, n - 1), FreeCharged(c.windowMs, u, budgets, n - 1);
      ChargesAgree(c, s, u, budgets, since, n - 1);
      BudgetsAreIndependent(c.windowMs, u, budgets, n - 1);
      ChargeInStep(c, t, v, u, budgets, n - 1, Clock(budgets, n - 1, since));
    }
  }

  /** A request gets through exactly when each of its budgets, taken alone, still has room. */
  lemma PassesWhenEachHasRoom(c: Limits, s: Store, u: Windows, budgets: seq<Budget>, since: int)
    requires Wf(s) && Agree(s.windows, u, since) && RoomFor(c, u, budgets, since, |budgets|) && DistinctKeys(budgets)
    ensures AllAllowed(ChargeFirst(c, s, budgets, |budgets|).answers)
       <==> forall n :: 0 <= n < |budgets| ==> FreeAnswer(u, budgets[n].hit, c.windowMs).allowed
  {
    ChargesAgree(c, s, u, budgets, since, |budgets|);
  }
}
