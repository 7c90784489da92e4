/** What a byte-recovery sweep makes of the table. */
module ByteRecovery {
  import opened Wrappers
  import opened StagedTable
  import opened StagedBytesBudget
  import opened StagedIntentStores
  import opened IntentProtocol

  /** What comes of each candidate's fetch: bytes with their size and blob id, or nothing where it fails or ingest turns it away unread. */
  type Fetched = string -> Option<StagedBytes>

  function Delayed(t: Table, id: string, nextAt: int, now: int): Table {
    if id in t then t[id := BackOffRecovery(t[id], nextAt, now)] else t
  }

  /** One candidate: backed off first, then ingested if its blob came, is the committed one and fits. */
  ghost function RecoveredOne(c: Config, t: Table, id: string, now: int, nextAt: int, cap: nat, blob: Option<StagedBytes>): Table {
    var delayed := Delayed(t, id, nextAt, now);
    if blob.Some? && Ingestible(c, id, blob.value) then Admitted(delayed, id, blob.value, Some(cap), now) else delayed
  }

  ghost function Recovered(c: Config, t: Table, ids: seq<string>, n: nat, now: int, nextAt: int, cap: nat, fetched: Fetched): Table
    requires n <= |ids|
  {
    if n == 0 then t
    else RecoveredOne(c, Recovered(c, t, ids, n - 1, now, nextAt, cap, fetched), ids[n - 1], now, nextAt, cap, fetched(ids[n - 1]))
  }

  // ---------- what a sweep leaves alone ----------

  /** `u` is `t` with active row `id` still active and waiting for the backoff, and no other row touched. */
  predicate BackedOff(t: Table, u: Table, id: string, nextAt: int) {
    && id in t && u.Keys == t.Keys && (forall x :: x in t && x != id ==> u[x] == t[x])
    && u[id].state == Active && u[id].bytesRecoveryAt == Some(nextAt)
  }

  lemma OneBacksOff(c: Config, t: Table, id: string, now: int, nextAt: int, cap: nat, blob: Option<StagedBytes>)
    requires id in t && t[id].state == Active
    ensures BackedOff(t, RecoveredOne(c, t, id, now, nextAt, cap, blob), id, nextAt)
  {
  }

  /** The first n candidates are active and wait for the backoff; no other row is touched. */
  predicate OnlyBackedOff(t: Table, u: Table, ids: seq<string>, n: nat, nextAt: int)
    requires n <= |ids|
  {
    && u.Keys == t.Keys
    && (forall id :: id in t && id !in ids[..n] ==> u[id] == t[id])
    && (forall id :: id in ids[..n] ==> id in u && u[id].state == Active && u[id].bytesRecoveryAt == Some(nextAt))
  }

  lemma OneMoreBackedOff(t: Table, before: Table, u: Table, ids: seq<string>, n: nat, nextAt: int)
    requires n < |ids| && OnlyBackedOff(t, before, ids, n, nextAt) && BackedOff(before, u, ids[n], nextAt)
    ensures OnlyBackedOff(t, u, ids, n + 1, nextAt)
  {
    assert ids[..n + 1] == ids[..n] + [ids[n]];
  }

  /** A sweep touches its candidates only, and leaves each waiting for the backoff, so a missing blob never hot-loops. */
  lemma {:induction false} RecoveryBacksOff(c: Config, t: Table, ids: seq<string>, n: nat, now: int, nextAt: int, cap: nat, fetched: Fetched)
    requires n <= |ids| && forall m :: 0 <= m < |ids| ==> ids[m] in t && t[ids[m]].state == Active
    ensures OnlyBackedOff(t, Recovered(c, t, ids, n, now, nextAt, cap, fetched), ids, n, nextAt)
  {
    if n > 0 {
      var before, id := Recovered(c, t, ids, n - 1, now, nextAt, cap, fetched), ids[n - 1];
      RecoveryBacksOff(c, t, ids, n - 1, now, nextAt, cap, fetched);
      OneBacksOff(c, before, id, now, nextAt, cap, fetched(id));
      OneMoreBackedOff(t, before, RecoveredOne(c, before, id, now, nextAt, cap, fetched(id)), ids, n - 1, nextAt);
    }
  }

  // ---------- what it delivers ----------

  /** The candidate's blob came, is the committed one, and leaves the bytes of all rows within the cap when its turn comes. */
  ghost predicate Delivers(c: Config, before: Table, id: string, cap: nat, blob: Option<StagedBytes>) {
    && blob.Some? && |blob.value.bytes| == blob.value.size == c.committedSize(id)
    && blob.value.blobId == c.blobIdOf(blob.value.bytes) && c.blobIdMatches(blob.value.blobId, c.committedRef(id))
    && Total(before) + |blob.value.bytes| <= cap
  }

  /** The row is `was` with its bytes, size and blob id in place, ready for the claim loop. */
  predicate Staged(was: Row, r: Row, blob: StagedBytes, nextAt: int, now: int) {
    && Actionable(r)
    && r == was.(bytes := Some(blob.bytes), size := Some(|blob.bytes|), blobId := Some(blob.blobId),
                 appId := blob.appId.Or(was.appId), deadline := was.deadline.Or(blob.deadline),
                 bytesRecoveryAt := Some(nextAt), updatedAt := now)
  }

  /** Bytes for exactly those that deliver; the others only wait. */
  ghost predicate Settles(c: Config, before: Table, was: Row, r: Row, id: string, now: int, nextAt: int, cap: nat, blob: Option<StagedBytes>) {
    if Delivers(c, before, id, cap, blob) then Staged(was, r, blob.value, nextAt, now)
    else r == was.(bytesRecoveryAt := Some(nextAt), updatedAt := now)
  }

  lemma OneSettles(c: Config, t: Table, id: string, now: int, nextAt: int, cap: nat, blob: Option<StagedBytes>)
    requires id in t && NeedsBytes(t[id])
    ensures Settles(c, t, t[id], RecoveredOne(c, t, id, now, nextAt, cap, blob)[id], id, now, nextAt, cap, blob)
  {
    var delayed := Delayed(t, id, nextAt, now);
    DelayHoldsSame(t, id, nextAt, now);
    TotalSplits(delayed, id);
    assert Held(Get(delayed, id)) == 0;
  }

  /** Before its turn a candidate's row is as the sweep found it. */
  lemma UntouchedBefore(c: Config, t: Table, ids: seq<string>, m: nat, now: int, nextAt: int, cap: nat, fetched: Fetched)
    requires m < |ids| && (forall k :: 0 <= k < |ids| ==> ids[k] in t && t[ids[k]].state == Active)
    requires forall j, k :: 0 <= j < k < |ids| ==> ids[j] != ids[k]
    ensures ids[m] in Recovered(c, t, ids, m, now, nextAt, cap, fetched)
    ensures Recovered(c, t, ids, m, now, nextAt, cap, fetched)[ids[m]] == t[ids[m]]
  {
    RecoveryBacksOff(c, t, ids, m, now, nextAt, cap, fetched);
    assert ids[m] !in ids[..m];
  }

  /** Another candidate's turn leaves a row alone. */
  lemma UntouchedByNext(c: Config, t: Table, ids: seq<string>, n: nat, m: nat, now: int, nextAt: int, cap: nat, fetched: Fetched)
    requires m < n < |ids| && (forall k :: 0 <= k < |ids| ==> ids[k] in t && t[ids[k]].state == Active)
    requires forall j, k :: 0 <= j < k < |ids| ==> ids[j] != ids[k]
    requires ids[m] in Recovered(c, t, ids, n, now, nextAt, cap, fetched)
    ensures ids[m] in Recovered(c, t, ids, n + 1, now, nextAt, cap, fetched)
    ensures Recovered(c, t, ids, n + 1, now, nextAt, cap, fetched)[ids[m]] == Recovered(c, t, ids, n, now, nextAt, cap, fetched)[ids[m]]
  {
    UntouchedBefore(c, t, ids, n, now, nextAt, cap, fetched);
    OneBacksOff(c, Recovered(c, t, ids, n, now, nextAt, cap, fetched), ids[n], now, nextAt, cap, fetched(ids[n]));
  }

  /** After a sweep a candidate holds its bytes exactly when its blob came, is the committed one and fitted in its turn; else it holds none. */
  lemma {:induction false} RecoveryDelivers(c: Config, t: Table, ids: seq<string>, n: nat, m: nat, now: int, nextAt: int, cap: nat, fetched: Fetched)
    requires m < n <= |ids| && (forall k :: 0 <= k < |ids| ==> ids[k] in t && NeedsBytes(t[ids[k]]))
    requires forall j, k :: 0 <= j < k < |ids| ==> ids[j] != ids[k]
    ensures ids[m] in Recovered(c, t, ids, n, now, nextAt, cap, fetched)
    ensures Settles(c, Recovered(c, t, ids, m, now, nextAt, cap, fetched), t[ids[m]],
                    Recovered(c, t, ids, n, now, nextAt, cap, fetched)[ids[m]], ids[m], now, nextAt, cap, fetched(ids[m]))
  {
    if m == n - 1 {
      UntouchedBefore(c, t, ids, m, now, nextAt, cap, fetched);
      OneSettles(c, Recovered(c, t, ids, m, now, nextAt, cap, fetched), ids[m], now, nextAt, cap, fetched(ids[m]));
    } else {
      RecoveryDelivers(c, t, ids, n - 1, m, now, nextAt, cap, fetched);
      UntouchedByNext(c, t, ids, n - 1, m, now, nextAt, cap, fetched);
    }
  }

  /** The m-th candidate as RecoveryDelivers says. */
  ghost predicate SettledAt(c: Config, t: Table, u: Table, ids: seq<string>, m: nat, now: int, nextAt: int, cap: nat, fetched: Fetched)
    requires m < |ids|
  {
    && ids[m] in t && ids[m] in u
    && Settles(c, Recovered(c, t, ids, m, now, nextAt, cap, fetched), t[ids[m]], u[ids[m]], ids[m], now, nextAt, cap, fetched(ids[m]))
  }

  ghost predicate EachSettled(c: Config, t: Table, u: Table, ids: seq<string>, now: int, nextAt: int, cap: nat, fetched: Fetched) {
    forall m {:trigger SettledAt(c, t, u, ids, m, now, nextAt, cap, fetched)} :: 0 <= m < |ids| ==>
      SettledAt(c, t, u, ids, m, now, nextAt, cap, fetched)
  }

  lemma SweepSettles(c: Config, t: Table, ids: seq<string>, now: int, nextAt: int, cap: nat, fetched: Fetched)
    requires forall k :: 0 <= k < |ids| ==> ids[k] in t && NeedsBytes(t[ids[k]])
    requires forall j, k :: 0 <= j < k < |ids| ==> ids[j] != ids[k]
    ensures EachSettled(c, t, Recovered(c, t, ids, |ids|, now, nextAt, cap, fetched), ids, now, nextAt, cap, fetched)
  {
    forall m | 0 <= m < |ids|
      ensures SettledAt(c, t, Recovered(c, t, ids, |ids|, now, nextAt, cap, fetched), ids, m, now, nextAt, cap, fetched)
    {
      RecoveryDelivers(c, t, ids, |ids|, m, now, nextAt, cap, fetched);
    }
  }

  /** The oldest rows in need of bytes were tried in turn, and each holds its bytes or waits, as its blob and the cap allowed. */
  ghost predicate Swept(c: Config, t: Table, u: Table, ids: seq<string>, limit: nat, now: int, graceMs: int, nextAt: int, cap: nat,
                        fetched: Fetched) {
    && OldestFirst(t, BytesMissing(t, now, graceMs), limit, ids)
    && u == Recovered(c, t, ids, |ids|, now, nextAt, cap, fetched)
    && EachSettled(c, t, u, ids, now, nextAt, cap, fetched)
  }

  // ---------- the byte budget ----------

  lemma DelayHoldsSame(t: Table, id: string, nextAt: int, now: int)
    ensures Total(Delayed(t, id, nextAt, now)) == Total(t)
  {
    if id in t {
      var after := BackOffRecovery(t[id], nextAt, now);
      TotalSplits(t, id);
      TotalAfterPut(t, id, Some(after));
    }
  }

  lemma OneWithinCap(c: Config, t: Table, id: string, now: int, nextAt: int, cap: nat, blob: Option<StagedBytes>)
    requires Total(t) <= cap
    ensures Total(RecoveredOne(c, t, id, now, nextAt, cap, blob)) <= cap
  {
    DelayHoldsSame(t, id, nextAt, now);
    if blob.Some? && Ingestible(c, id, blob.value) { AdmissionKeepsBudget(Delayed(t, id, nextAt, now), id, blob.value, cap, now); }
  }

  /** Recovered bytes pass the same cap as delivered ones. */
  lemma {:induction false} RecoveryWithinCap(c: Config, t: Table, ids: seq<string>, n: nat, now: int, nextAt: int, cap: nat, fetched: Fetched)
    requires n <= |ids| && Total(t) <= cap
    ensures Total(Recovered(c, t, ids, n, now, nextAt, cap, fetched)) <= cap
  {
    if n > 0 {
      RecoveryWithinCap(c, t, ids, n - 1, now, nextAt, cap, fetched);
      OneWithinCap(c, Recovered(c, t, ids, n - 1, now, nextAt, cap, fetched), ids[n - 1], now, nextAt, cap, fetched(ids[n - 1]));
    }
  }
}
