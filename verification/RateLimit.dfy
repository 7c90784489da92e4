/** The fixed-window limiter: a swept and capped map that answers as an unbounded one would. */
module RateLimit {
  
  datatype Window = Window(count: int, resetAt: int)

  datatype HitResult = HitResult(allowed: bool, limit: int, remaining: int, resetInMs: int)

  datatype Request = Request(key: string, limit: int, now: int)

  type Windows = map<string, Window>

  datatype Limits = Limits(windowMs: int, sweepEvery: int, maxKeys: int)

  function Answer(w: Window, limit: int, now: int): HitResult {
    if w.count >= limit then HitResult(false, limit, 0, w.resetAt - now)
    else HitResult(true, limit, limit - (w.count + 1), w.resetAt - now)
  }

  function Counted(w: Window, limit: int): Window {
    if w.count >= limit then w else w.(count := w.count + 1)
  }

  // ---------- the obvious limiter: nothing is ever forgotten ----------

  predicate Running(u: Windows, key: string, now: int) {
    key in u && u[key].resetAt > now
  }

  function Current(u: Windows, key: string, now: int, windowMs: int): Window {
    if Running(u, key, now) then u[key] else Window(0, now + windowMs)
  }

  function FreeHit(u: Windows, h: Request, windowMs: int): Windows {
    u[h.key := Counted(Current(u, h.key, h.now, windowMs), h.limit)]
  }

  function FreeAnswer(u: Windows, h: Request, windowMs: int): HitResult {
    Answer(Current(u, h.key, h.now, windowMs), h.limit, h.now)
  }

  // ---------- the limiter as it is ----------

  /** The Map: its entries, and its keys in insertion order. */
  datatype Store = Store(windows: Windows, order: seq<string>, hitsSinceSweep: int)

  ghost predicate Wf(s: Store) {
    && (forall k :: k in s.windows <==> k in s.order)
    && (forall i, j :: 0 <= i < j < |s.order| ==> s.order[i] != s.order[j])
  }

  function Live(m: Windows, now: int): Windows {
    map k | k in m && m[k].resetAt > now :: m[k]
  }

  function LiveOrder(order: seq<string>, m: Windows, now: int): seq<string> {
    if order == [] then []
    else
      var rest := LiveOrder(order[..|order| - 1], m, now);
      if Running(m, order[|order| - 1], now) then rest + [order[|order| - 1]] else rest
  }

  function Swept(s: Store, now: int): Store {
    Store(Live(s.windows, now), LiveOrder(s.order, s.windows, now), 0)
  }

  /** The sweep after visiting the first n keys. */
  ghost function SweptSoFar(all: Windows, order: seq<string>, n: nat, now: int): Windows
    requires n <= |order|
  {
    map k | k in all && (all[k].resetAt > now || k !in order[..n]) :: all[k]
  }

  lemma SweepOne(s: Store, n: nat, now: int)
    requires Wf(s) && n < |s.order|
    ensures SweptSoFar(s.windows, s.order, 0, now) == s.windows
    ensures s.order[n] in SweptSoFar(s.windows, s.order, n, now)
    ensures SweptSoFar(s.windows, s.order, n, now)[s.order[n]] == s.windows[s.order[n]]
    ensures SweptSoFar(s.windows, s.order, n + 1, now)
         == if s.windows[s.order[n]].resetAt <= now then SweptSoFar(s.windows, s.order, n, now) - {s.order[n]}
            else SweptSoFar(s.windows, s.order, n, now)
    ensures s.order[..n + 1][..n] == s.order[..n]
  {
    assert s.order[..n + 1] == s.order[..n] + [s.order[n]];
    assert s.order[n] !in s.order[..n];
  }

  lemma SweepEnds(s: Store, now: int)
    requires Wf(s)
    ensures SweptSoFar(s.windows, s.order, 0, now) == s.windows
    ensures SweptSoFar(s.windows, s.order, |s.order|, now) == Live(s.windows, now)
  {
    assert s.order[..|s.order|] == s.order;
  }

  /** Oldest entries dropped until a new key fits, or none is left. */
  function Evicted(s: Store, maxKeys: int): Store
    decreases |s.order|
  {
    if |s.order| >= maxKeys && s.order != []
    then Evicted(s.(windows := s.windows - {s.order[0]}, order := s.order[1..]), maxKeys)
    else s
  }

  function Ticked(c: Limits, s: Store, now: int): Store {
    var counted := s.(hitsSinceSweep := s.hitsSinceSweep + 1);
    if counted.hitsSinceSweep >= c.sweepEvery then Swept(counted, now) else counted
  }

  function WithRoom(c: Limits, s: Store, key: string, now: int): Store {
    if key !in s.windows && |s.order| >= c.maxKeys then Evicted(Swept(s, now), c.maxKeys) else s
  }

  function Prepared(c: Limits, s: Store, h: Request): Store {
    var t := Ticked(c, s, h.now);
    if Running(t.windows, h.key, h.now) then t else WithRoom(c, t, h.key, h.now)
  }

  function Entered(s: Store, key: string, w: Window): Store {
    s.(windows := s.windows[key := w], order := if key in s.windows then s.order else s.order + [key])
  }

  function BoundedHit(c: Limits, s: Store, h: Request): Store {
    var t := Prepared(c, s, h);
    Entered(t, h.key, Counted(Current(t.windows, h.key, h.now, c.windowMs), h.limit))
  }

  function BoundedAnswer(c: Limits, s: Store, h: Request): HitResult {
    Answer(Current(Prepared(c, s, h).windows, h.key, h.now, c.windowMs), h.limit, h.now)
  }

  class FixedWindowLimiter {
    const c: Limits
    var windows: Windows
    var order: seq<string>
    var hitsSinceSweep: int

    constructor (c: Limits)
      ensures this.c == c && Contents() == Store(map[], [], 0)
    {
      this.c := c;
      windows, order, hitsSinceSweep := map[], [], 0;
    }

    function Contents(): Store
      reads this
    {
      Store(windows, order, hitsSinceSweep)
    }

    method Sweep(now: int)
      requires Wf(Contents())
      modifies this
      ensures Contents() == Swept(old(Contents()), now)
    {
      hitsSinceSweep := 0;
      var kept: seq<string> := [];
      ghost var s := Contents();
      SweepEnds(s, now);
      for n := 0 to |order|
        invariant order == s.order && hitsSinceSweep == 0
        invariant kept == LiveOrder(s.order[..n], s.windows, now)
        invariant windows == SweptSoFar(s.windows, s.order, n, now)
      {
        assert s.order[..n + 1][..n] == s.order[..n];
        var live := SweepKey(order[n], now, s, n);
        if live {
          kept := kept + [order[n]];
        }
      }
      assert s.order[..|s.order|] == s.order;
      order := kept;
    }

    /** Deletes the key's window if it has run out. */
    method SweepKey(key: string, now: int, ghost s: Store, ghost n: nat) returns (live: bool)
      requires Wf(s) && n < |s.order| && key == s.order[n] && windows == SweptSoFar(s.windows, s.order, n, now)
      modifies this`windows
      ensures windows == SweptSoFar(s.windows, s.order, n + 1, now)
      ensures live <==> Running(s.windows, key, now)
    {
      SweepOne(s, n, now);
      live := windows[key].resetAt > now;
      if !live {
        windows := windows - {key};
      }
    }

    method Evict()
      requires Wf(Contents())
      modifies this
      ensures Contents() == Evicted(old(Contents()), c.maxKeys)
    {
      while |order| >= c.maxKeys && order != []
        invariant Wf(Contents())
        invariant Evicted(Contents(), c.maxKeys) == Evicted(old(Contents()), c.maxKeys)
        decreases |order|
      {
        var oldest := order[0];
        DropFirst(Contents());
        windows := windows - {oldest};
        order := order[1..];
      }
    }

    /** Sweeps when it is time to, and makes room for a key not yet tracked. */
    method Prepare(h: Request)
      requires Wf(Contents())
      modifies this
      ensures Contents() == Prepared(c, old(Contents()), h)
    {
      var now := h.now;
      hitsSinceSweep := hitsSinceSweep + 1;
      SweptWf(Contents(), now);
      if hitsSinceSweep >= c.sweepEvery {
        Sweep(now);
      }
      if !(h.key in windows && windows[h.key].resetAt > now) && h.key !in windows && |order| >= c.maxKeys {
        SweptWf(Contents(), now);
        Sweep(now);
        Evict();
      }
    }

    /** Answers and updates exactly as BoundedHit; never tracks more than the cap. */
    method Hit(key: string, limit: int, now: int) returns (r: HitResult)
      requires Wf(Contents())
      modifies this
      ensures Wf(Contents())
      ensures Contents() == BoundedHit(c, old(Contents()), Request(key, limit, now))
      ensures r == BoundedAnswer(c, old(Contents()), Request(key, limit, now))
      ensures |old(windows)| <= Cap(c) ==> |windows| <= Cap(c)
    {
      HitKeepsForm(c, Contents(), Request(key, limit, now));
      Prepare(Request(key, limit, now));
      var w := if key in windows && windows[key].resetAt > now then windows[key] else Window(0, now + c.windowMs);
      if key !in windows {
        order := order + [key];
      }
      r := Answer(w, limit, now);
      windows := windows[key := Counted(w, limit)];
    }
  }

  // ---------- the map's form and its bound ----------

  function Cap(c: Limits): int {
    if c.maxKeys < 1 then 1 else c.maxKeys
  }

  lemma DropFirst(s: Store)
    requires Wf(s) && s.order != []
    ensures Wf(s.(windows := s.windows - {s.order[0]}, order := s.order[1..]))
  {
    var t := s.(windows := s.windows - {s.order[0]}, order := s.order[1..]);
    forall k ensures k in t.windows <==> k in t.order {
      if k in s.order {
        var i :| 0 <= i < |s.order| && s.order[i] == k;
        if i > 0 { assert s.order[1..][i - 1] == k; }
      }
    }
  }

  lemma {:induction false} EvictedForm(s: Store, maxKeys: int)
    requires Wf(s)
    ensures Wf(Evicted(s, maxKeys))
    ensures |Evicted(s, maxKeys).order| < maxKeys || Evicted(s, maxKeys).order == []
    ensures forall k :: k in Evicted(s, maxKeys).windows ==> k in s.windows
    decreases |s.order|
  {
    if |s.order| >= maxKeys && s.order != [] {
      DropFirst(s);
      EvictedForm(s.(windows := s.windows - {s.order[0]}, order := s.order[1..]), maxKeys);
    }
  }

  lemma {:induction false} LiveOrderIs(order: seq<string>, m: Windows, now: int)
    requires forall i, j :: 0 <= i < j < |order| ==> order[i] != order[j]
    ensures forall k :: k in LiveOrder(order, m, now) <==> k in order && Running(m, k, now)
    ensures forall i, j :: 0 <= i < j < |LiveOrder(order, m, now)| ==> LiveOrder(order, m, now)[i] != LiveOrder(order, m, now)[j]
  {
    if order != [] {
      var rest := order[..|order| - 1];
      assert order == rest + [order[|order| - 1]];
      LiveOrderIs(rest, m, now);
    }
  }

  lemma SweptWf(s: Store, now: int)
    requires Wf(s)
    ensures Wf(Swept(s, now))
  {
    LiveOrderIs(s.order, s.windows, now);
  }

  lemma {:induction false} SizeIsOrder(m: Windows, order: seq<string>)
    requires Wf(Store(m, order, 0))
    ensures |m| == |order|
    decreases |order|
  {
    if order != [] {
      var s := Store(m, order, 0);
      DropFirst(s);
      SizeIsOrder(m - {order[0]}, order[1..]);
      assert m.Keys == (m - {order[0]}).Keys + {order[0]};
      assert |m.Keys| == |(m - {order[0]}).Keys| + 1;
    } else {
      assert m == map[];
    }
  }

  lemma PreparedForm(c: Limits, s: Store, h: Request)
    requires Wf(s)
    ensures Wf(Prepared(c, s, h))
    ensures |s.order| <= Cap(c) ==> |Entered(Prepared(c, s, h), h.key, Window(0, 0)).order| <= Cap(c)
  {
    var counted := s.(hitsSinceSweep := s.hitsSinceSweep + 1);
    SweptWf(counted, h.now);
    LiveOrderShorter(s.order, s.windows, h.now);
    var t := Ticked(c, s, h.now);
    SweptWf(t, h.now);
    EvictedForm(Swept(t, h.now), c.maxKeys);
  }

  lemma {:induction false} LiveOrderShorter(order: seq<string>, m: Windows, now: int)
    ensures |LiveOrder(order, m, now)| <= |order|
  {
    if order != [] { LiveOrderShorter(order[..|order| - 1], m, now); }
  }

  /** The map stays a map, and never tracks more keys than the cap (one, when the cap admits none). */
  lemma HitKeepsForm(c: Limits, s: Store, h: Request)
    requires Wf(s)
    ensures Wf(BoundedHit(c, s, h))
    ensures |s.windows| <= Cap(c) ==> |BoundedHit(c, s, h).windows| <= Cap(c)
  {
    PreparedForm(c, s, h);
    var t := BoundedHit(c, s, h);
    assert Wf(t);
    SizeIsOrder(s.windows, s.order);
    SizeIsOrder(t.windows, t.order);
  }

  // ---------- refinement ----------

  /** Two maps agree on every window still running. */
  predicate Agree(m: Windows, u: Windows, now: int) {
    Live(m, now) == Live(u, now)
  }

  lemma AgreeLater(m: Windows, u: Windows, now: int, later: int)
    requires Agree(m, u, now) && now <= later
    ensures Agree(m, u, later)
  {
    assert forall k :: k in Live(m, later) ==> k in Live(m, now) && Live(m, now)[k] == m[k];
    assert forall k :: k in Live(u, later) ==> k in Live(u, now) && Live(u, now)[k] == u[k];
    forall k ensures (k in Live(m, later) <==> k in Live(u, later)) {
      assert k in Live(m, now) <==> k in Live(u, now);
    }
  }

  lemma LiveOfLive(m: Windows, now: int)
    ensures Live(Live(m, now), now) == Live(m, now)
  {
  }

  /** A hit forgets no running window: its key's own is running, or fewer than maxKeys are. */
  predicate HasRoom(c: Limits, u: Windows, h: Request) {
    Running(u, h.key, h.now) || |Live(u, h.now)| < c.maxKeys
  }

  lemma PreparedAgrees(c: Limits, s: Store, u: Windows, h: Request)
    requires Wf(s) && Agree(s.windows, u, h.now) && HasRoom(c, u, h)
    ensures Agree(Prepared(c, s, h).windows, u, h.now)
  {
    var t := Ticked(c, s, h.now);
    LiveOfLive(s.windows, h.now);
    SweptWf(s.(hitsSinceSweep := s.hitsSinceSweep + 1), h.now);
    LiveOfLive(t.windows, h.now);
    SweptWf(t, h.now);
    if Running(t.windows, h.key, h.now) {
      return;
    }
    var w := Swept(t, h.now);
    SizeIsOrder(w.windows, w.order);
    assert !Running(u, h.key, h.now) by { SameRunning(t.windows, u, h.key, h.now); }
    assert Evicted(w, c.maxKeys) == w;
  }

  /** One hit: the same answer, and agreement afterwards. */
  lemma HitAgrees(c: Limits, s: Store, u: Windows, h: Request)
    requires Wf(s) && Agree(s.windows, u, h.now) && HasRoom(c, u, h)
    ensures BoundedAnswer(c, s, h) == FreeAnswer(u, h, c.windowMs)
    ensures Agree(BoundedHit(c, s, h).windows, FreeHit(u, h, c.windowMs), h.now)
  {
    PreparedAgrees(c, s, u, h);
    var m := Prepared(c, s, h).windows;
    SameCurrent(m, u, h.key, h.now, c.windowMs);
    SameAfterWrite(m, u, h.key, Counted(Current(u, h.key, h.now, c.windowMs), h.limit), h.now);
  }

  lemma SameRunning(m: Windows, u: Windows, key: string, now: int)
    requires Agree(m, u, now)
    ensures Running(m, key, now) <==> Running(u, key, now)
  {
    assert Running(m, key, now) <==> key in Live(m, now);
    assert Running(u, key, now) <==> key in Live(u, now);
  }

  lemma SameCurrent(m: Windows, u: Windows, key: string, now: int, windowMs: int)
    requires Agree(m, u, now)
    ensures Current(m, key, now, windowMs) == Current(u, key, now, windowMs)
  {
    assert Running(m, key, now) <==> key in Live(m, now);
    assert Running(u, key, now) <==> key in Live(u, now);
  }

  lemma SameAfterWrite(m: Windows, u: Windows, key: string, w: Window, now: int)
    requires Agree(m, u, now)
    ensures Agree(m[key := w], u[key := w], now)
  {
    var a, b := Live(m[key := w], now), Live(u[key := w], now);
    forall k ensures (k in a <==> k in b) && (k in a ==> a[k] == b[k]) {
      assert k in Live(m, now) <==> k in Live(u, now);
      assert k in Live(m, now) ==> Live(m, now)[k] == Live(u, now)[k];
    }
  }

  // ---------- runs ----------

  predicate Monotone(hits: seq<Request>, since: int) {
    hits == [] || (since <= hits[0].now && Monotone(hits[1..], hits[0].now))
  }

  function FreeRun(windowMs: int, u: Windows, hits: seq<Request>): (answers: seq<HitResult>)
    ensures |answers| == |hits|
    decreases |hits|
  {
    if hits == [] then [] else [FreeAnswer(u, hits[0], windowMs)] + FreeRun(windowMs, FreeHit(u, hits[0], windowMs), hits[1..])
  }

  function BoundedRun(c: Limits, s: Store, hits: seq<Request>): (answers: seq<HitResult>)
    ensures |answers| == |hits|
    decreases |hits|
  {
    if hits == [] then [] else [BoundedAnswer(c, s, hits[0])] + BoundedRun(c, BoundedHit(c, s, hits[0]), hits[1..])
  }

  /** Every hit has room: fewer than maxKeys windows are running, or the key's own is one of them. */
  predicate Roomy(c: Limits, u: Windows, hits: seq<Request>)
    decreases |hits|
  {
    hits == [] || (HasRoom(c, u, hits[0]) && Roomy(c, FreeHit(u, hits[0], c.windowMs), hits[1..]))
  }

  /** With a monotone clock and room for the live keys, sweeping and the cap are invisible. */
  lemma {:induction false} Refines(c: Limits, s: Store, u: Windows, hits: seq<Request>, since: int)
    requires Wf(s) && Agree(s.windows, u, since) && Monotone(hits, since) && Roomy(c, u, hits)
    ensures BoundedRun(c, s, hits) == FreeRun(c.windowMs, u, hits)
    decreases |hits|
  {
    if hits != [] {
      var h := hits[0];
      AgreeLater(s.windows, u, since, h.now);
      HitAgrees(c, s, u, h);
      HitKeepsForm(c, s, h);
      Refines(c, BoundedHit(c, s, h), FreeHit(u, h, c.windowMs), hits[1..], h.now);
    }
  }

  // ---------- how much an interval admits ----------

  function Admitted(hits: seq<Request>, answers: seq<HitResult>, key: string, since: int, windowMs: int): nat
    requires |hits| == |answers|
  {
    if hits == [] then 0
    else (if hits[0].key == key && since <= hits[0].now < since + windowMs && answers[0].allowed then 1 else 0)
         + Admitted(hits[1..], answers[1..], key, since, windowMs)
  }

  predicate FixedLimit(hits: seq<Request>, key: string, limit: int) {
    forall n :: 0 <= n < |hits| && hits[n].key == key ==> hits[n].limit == limit
  }

  /** A window that exists has let one hit in, and never more than the limit. */
  predicate Sane(u: Windows, key: string, limit: int) {
    key in u ==> 1 <= u[key].count <= limit
  }

  /** What the key can still be allowed before `until`, seen at or after `since`. */
  function Potential(u: Windows, key: string, limit: int, since: int, until: int): int {
    if key !in u || u[key].resetAt <= since then limit
    else limit - u[key].count + (if u[key].resetAt < until then limit else 0)
  }

  lemma {:induction false} FromSince(windowMs: int, u: Windows, hits: seq<Request>, key: string, limit: int, since: int)
    requires 1 <= limit && Sane(u, key, limit) && FixedLimit(hits, key, limit) && Monotone(hits, since)
    ensures Admitted(hits, FreeRun(windowMs, u, hits), key, since, windowMs) <= Potential(u, key, limit, since, since + windowMs)
    decreases |hits|
  {
    FromAnywhere(windowMs, u, hits, key, limit, since, since);
  }

  /** The same with the clock already at `now`. */
  lemma {:induction false} FromAnywhere(windowMs: int, u: Windows, hits: seq<Request>, key: string, limit: int, since: int, now: int)
    requires 1 <= limit && Sane(u, key, limit) && FixedLimit(hits, key, limit) && since <= now && Monotone(hits, now)
    ensures Admitted(hits, FreeRun(windowMs, u, hits), key, since, windowMs) <= Potential(u, key, limit, since, since + windowMs)
    decreases |hits|
  {
    if hits != [] {
      var h := hits[0];
      var v := FreeHit(u, h, windowMs);
      assert FreeRun(windowMs, u, hits)[1..] == FreeRun(windowMs, v, hits[1..]);
      assert FixedLimit(hits[1..], key, limit);
      if h.key == key { assert hits[0].limit == limit; }
      if h.now < since + windowMs || h.key != key {
        FromAnywhere(windowMs, v, hits[1..], key, limit, since, h.now);
      } else {
        NoneAfter(hits, FreeRun(windowMs, u, hits), key, since, windowMs, now);
      }
    }
  }

  lemma {:induction false} NoneAfter(hits: seq<Request>, answers: seq<HitResult>, key: string, since: int, windowMs: int, now: int)
    requires |hits| == |answers| && Monotone(hits, now) && (hits != [] ==> since + windowMs <= hits[0].now)
    ensures Admitted(hits, answers, key, since, windowMs) == 0
    decreases |hits|
  {
    if hits != [] { NoneAfter(hits[1..], answers[1..], key, since, windowMs, hits[0].now); }
  }

  /** No half-open interval of one window's length admits twice the limit of a key. */
  lemma {:induction false} LessThanTwice(windowMs: int, u: Windows, hits: seq<Request>, key: string, limit: int, since: int, now: int)
    requires 1 <= limit && Sane(u, key, limit) && FixedLimit(hits, key, limit) && Monotone(hits, now)
    ensures Admitted(hits, FreeRun(windowMs, u, hits), key, since, windowMs) <= 2 * limit - 1
    decreases |hits|
  {
    if hits != [] {
      var h := hits[0];
      if since <= h.now {
        assert Monotone(hits, since);
        FromSince(windowMs, u, hits, key, limit, since);
      } else {
        var v := FreeHit(u, h, windowMs);
        assert FreeRun(windowMs, u, hits)[1..] == FreeRun(windowMs, v, hits[1..]);
        assert FixedLimit(hits[1..], key, limit);
        if h.key == key { assert hits[0].limit == limit; }
        LessThanTwice(windowMs, v, hits[1..], key, limit, since, h.now);
      }
    }
  }

  /** A key without a budget is never let in. */
  lemma {:induction false} NoBudgetNoHit(windowMs: int, u: Windows, hits: seq<Request>, key: string, limit: int, since: int)
    requires limit <= 0 && FixedLimit(hits, key, limit) && (key in u ==> 0 <= u[key].count)
    ensures Admitted(hits, FreeRun(windowMs, u, hits), key, since, windowMs) == 0
    decreases |hits|
  {
    if hits != [] {
      var v := FreeHit(u, hits[0], windowMs);
      assert FreeRun(windowMs, u, hits)[1..] == FreeRun(windowMs, v, hits[1..]);
      assert FixedLimit(hits[1..], key, limit);
      if hits[0].key == key { assert hits[0].limit == limit; }
      NoBudgetNoHit(windowMs, v, hits[1..], key, limit, since);
    }
  }

  /** The limiter itself, from empty: with room for its live keys it keeps the same bound. */
  lemma LimiterAdmitsLessThanTwice(c: Limits, hits: seq<Request>, key: string, limit: int, since: int, start: int)
    requires 1 <= limit && FixedLimit(hits, key, limit) && Monotone(hits, start) && Roomy(c, map[], hits)
    ensures Admitted(hits, BoundedRun(c, Store(map[], [], 0), hits), key, since, c.windowMs) <= 2 * limit - 1
  {
    Refines(c, Store(map[], [], 0), map[], hits, start);
    LessThanTwice(c.windowMs, map[], hits, key, limit, since, start);
  }

  function Repeat(h: Request, n: nat): (hits: seq<Request>)
    ensures |hits| == n
  {
    if n == 0 then [] else [h] + Repeat(h, n - 1)
  }

  /** n hits in a running window with room for them are all let in, whatever follows. */
  lemma {:induction false} BurstLetIn(windowMs: int, u: Windows, h: Request, n: nat, w: Window, since: int, rest: seq<Request>)
    requires h.key in u && u[h.key] == w && w.resetAt > h.now && w.count + n <= h.limit
    requires since <= h.now < since + windowMs
    ensures var after := u[h.key := Window(w.count + n, w.resetAt)];
            Admitted(Repeat(h, n) + rest, FreeRun(windowMs, u, Repeat(h, n) + rest), h.key, since, windowMs)
            == n + Admitted(rest, FreeRun(windowMs, after, rest), h.key, since, windowMs)
    decreases n
  {
    if n == 0 {
      assert Repeat(h, 0) + rest == rest && u[h.key := Window(w.count, w.resetAt)] == u;
    } else {
      var hits, v := Repeat(h, n) + rest, FreeHit(u, h, windowMs);
      assert hits[0] == h && hits[1..] == Repeat(h, n - 1) + rest;
      assert FreeRun(windowMs, u, hits)[1..] == FreeRun(windowMs, v, hits[1..]);
      BurstLetIn(windowMs, v, h, n - 1, Window(w.count + 1, w.resetAt), since, rest);
      assert v[h.key := Window(w.count + n, w.resetAt)] == u[h.key := Window(w.count + n, w.resetAt)];
    }
  }

  /** One hit that opens a window, then more in the same instant up to the limit. */
  lemma FullWindow(windowMs: int, u: Windows, h: Request, since: int)
    requires 1 <= h.limit && 1 <= windowMs && since <= h.now < since + windowMs && !Running(u, h.key, h.now)
    ensures Admitted(Repeat(h, h.limit), FreeRun(windowMs, u, Repeat(h, h.limit)), h.key, since, windowMs) == h.limit
  {
    var hits, v := Repeat(h, h.limit), FreeHit(u, h, windowMs);
    assert hits[0] == h && hits[1..] == Repeat(h, h.limit - 1) + [];
    assert FreeRun(windowMs, u, hits)[1..] == FreeRun(windowMs, v, hits[1..]);
    BurstLetIn(windowMs, v, h, h.limit - 1, Window(1, h.now + windowMs), since, []);
  }

  /** The worst case: one hit opens a window, the rest of it goes just before it resets, and the next is used up at once. */
  function WorstCase(key: string, limit: int, windowMs: int): seq<Request>
    requires 1 <= limit
  {
    [Request(key, limit, 0)]
    + (Repeat(Request(key, limit, windowMs - 1), limit - 1) + Repeat(Request(key, limit, windowMs), limit))
  }

  /** The bound is met for every limit of at least one and every window of at least two milliseconds. */
  lemma TwiceLessOneIsReached(key: string, limit: int, windowMs: int)
    requires 1 <= limit && 2 <= windowMs
    ensures var hits := WorstCase(key, limit, windowMs);
            && Monotone(hits, 0) && FixedLimit(hits, key, limit)
            && Admitted(hits, FreeRun(windowMs, map[], hits), key, windowMs - 1, windowMs) == 2 * limit - 1
  {
    var hits := WorstCase(key, limit, windowMs);
    var late, next := Request(key, limit, windowMs - 1), Request(key, limit, windowMs);
    var u := FreeHit(map[], hits[0], windowMs);
    assert hits[1..] == Repeat(late, limit - 1) + Repeat(next, limit);
    assert u[key] == Window(1, windowMs);
    assert FreeRun(windowMs, map[], hits)[1..] == FreeRun(windowMs, u, hits[1..]);
    BurstLetIn(windowMs, u, late, limit - 1, Window(1, windowMs), windowMs - 1, Repeat(next, limit));
    FullWindow(windowMs, u[key := Window(limit, windowMs)], next, windowMs - 1);
    RepeatIs(late, limit - 1);
    RepeatIs(next, limit);
    MonotoneJoin(Repeat(late, limit - 1), Repeat(next, limit), windowMs - 1, windowMs);
  }

  lemma {:induction false} RepeatIs(h: Request, n: nat)
    ensures Monotone(Repeat(h, n), h.now) && forall k :: 0 <= k < n ==> Repeat(h, n)[k] == h
  {
    if n > 0 {
      RepeatIs(h, n - 1);
      assert Repeat(h, n)[1..] == Repeat(h, n - 1);
    }
  }

  lemma {:induction false} MonotoneJoin(a: seq<Request>, b: seq<Request>, since: int, later: int)
    requires Monotone(a, since) && Monotone(b, later) && since <= later && forall n :: 0 <= n < |a| ==> a[n].now <= later
    ensures Monotone(a + b, since)
    decreases |a|
  {
    if a == [] {
      assert a + b == b;
    } else {
      assert (a + b)[1..] == a[1..] + b;
      MonotoneJoin(a[1..], b, a[0].now, later);
    }
  }

  // ---------- what an answer promises the caller ----------

  /** The windows after these hits. */
  function FreeAfter(windowMs: int, u: Windows, hits: seq<Request>): Windows {
    if hits == [] then u else FreeHit(FreeAfter(windowMs, u, hits[..|hits| - 1]), hits[|hits| - 1], windowMs)
  }

  /** Hits on the same key, under the same limit, before the answer's window ends. */
  predicate WithinWindow(h: Request, a: HitResult, hits: seq<Request>) {
    forall n :: 0 <= n < |hits| ==> hits[n].key == h.key && hits[n].limit == h.limit && hits[n].now < h.now + a.resetInMs
  }

  /** Its window still stands, and has as much room left as the answer said, less what these hits took. */
  predicate RoomLeft(u: Windows, h: Request, a: HitResult, taken: nat) {
    && h.key in u && u[h.key].resetAt == h.now + a.resetInMs
    && if taken < a.remaining then u[h.key].count == h.limit - (a.remaining - taken) else h.limit <= u[h.key].count
  }

  lemma {:induction false} RoomGoes(windowMs: int, u: Windows, h: Request, hits: seq<Request>)
    requires WithinWindow(h, FreeAnswer(u, h, windowMs), hits)
    ensures RoomLeft(FreeAfter(windowMs, FreeHit(u, h, windowMs), hits), h, FreeAnswer(u, h, windowMs), |hits|)
  {
    if hits != [] {
      RoomGoes(windowMs, u, h, hits[..|hits| - 1]);
    }
  }

  /** `remaining` is exactly how many more are let in before `resetInMs` has passed; from then on a positive limit lets in again. */
  lemma AnswerIsKept(windowMs: int, u: Windows, h: Request, hits: seq<Request>, next: Request)
    requires WithinWindow(h, FreeAnswer(u, h, windowMs), hits) && next.key == h.key && next.limit == h.limit
    ensures var a := FreeAnswer(u, h, windowMs);
            var later := FreeAnswer(FreeAfter(windowMs, FreeHit(u, h, windowMs), hits), next, windowMs);
            if next.now < h.now + a.resetInMs
            then (later.allowed <==> |hits| < a.remaining) && next.now + later.resetInMs == h.now + a.resetInMs
            else (later.allowed <==> 0 < h.limit) && later.resetInMs == windowMs
  {
    RoomGoes(windowMs, u, h, hits);
  }
}
