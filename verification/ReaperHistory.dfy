/** Each of the reaper's statements, which touch many rows at once, is a history of single-row steps. */
module ReaperHistory {
  import opened Wrappers
  import opened StagedTable
  import opened StagedIntentStores
  import opened StagedReapers
  import opened IntentProtocol
  import opened IntentRuns
  import opened Fleet
  import opened ProcessorWorld

  /** What one statement of the reaper does to the chosen rows. */
  function SweptTable(t: Table, ids: set<string>, o: Outside, now: int): Table {
    if o.PurgeRow? then t - ids else ExpiredRows(t, ids, now)
  }

  predicate OfReaper(o: Outside) {
    o.ExpireRow? || o.ExpireOrphan? || o.PurgeRow?
  }

  lemma SweepOneMore(t: Table, ids: set<string>, id: string, o: Outside, now: int)
    requires id in ids && id in t && OfReaper(o)
    ensures SweptTable(SweptTable(t, {id}, o, now), ids - {id}, o, now) == SweptTable(t, ids, o, now)
  {
  }

  lemma SingleSweep(c: Config, w: World, id: string, o: Outside, now: int)
    requires OfReaper(o) && ExternalReady(At(w, id), o, now)
    ensures var v := Made(c, w, Move(id, External(o, now)));
            && TableOf(v) == SweptTable(TableOf(w), {id}, o, now) && LedgerOf(v) == LedgerOf(w)
            && id in TableOf(w) && forall x :: x != id ==> At(v, x) == At(w, x)
  {
    var m := Move(id, External(o, now));
    MoveIsLocal(c, w, m);
    LedgerIsLocal(c, w, m);
    PutSameEntry(LedgerOf(w), id);
    PutIsSweep(TableOf(w), id, o, now);
  }

  lemma PutIsSweep(t: Table, id: string, o: Outside, now: int)
    requires OfReaper(o) && id in t
    ensures Put(t, id, if o.PurgeRow? then None else Some(Expire(t[id], now))) == SweptTable(t, {id}, o, now)
  {
  }

  /** The statement over a set of rows is its rows' steps in turn, in any order. */
  lemma {:induction false} EachInTurn(c: Config, w: World, ids: set<string>, o: Outside, now: int) returns (moves: seq<Move>)
    requires OfReaper(o) && forall id :: id in ids ==> ExternalReady(At(w, id), o, now)
    ensures IsHistory(c, None, w, moves)
    ensures TableOf(Later(c, None, w, moves)) == SweptTable(TableOf(w), ids, o, now)
    ensures LedgerOf(Later(c, None, w, moves)) == LedgerOf(w)
    decreases |ids|
  {
    if ids == {} {
      moves := [];
    } else {
      var id :| id in ids;
      var m := Move(id, External(o, now));
      SingleSweep(c, w, id, o, now);
      var rest := EachInTurn(c, Made(c, w, m), ids - {id}, o, now);
      SweepOneMore(TableOf(w), ids, id, o, now);
      moves := [m] + rest;
      assert moves[1..] == rest;
    }
  }

  lemma {:induction false} HistoriesJoin(c: Config, w: World, a: seq<Move>, b: seq<Move>)
    requires IsHistory(c, None, w, a) && IsHistory(c, None, Later(c, None, w, a), b)
    ensures IsHistory(c, None, w, a + b)
    ensures Later(c, None, w, a + b) == Later(c, None, Later(c, None, w, a), b)
    decreases |a|
  {
    if a == [] {
      assert a + b == b;
    } else {
      assert (a + b)[1..] == a[1..] + b;
      HistoriesJoin(c, Made(c, w, a[0]), a[1..], b);
    }
  }

  lemma DueAreReady(w: World, now: int, cutoff: int)
    ensures forall id :: id in PastDue(TableOf(w), now) ==> ExternalReady(At(w, id), ExpireRow, now)
    ensures forall id :: id in Orphans(TableOf(w), cutoff) ==> ExternalReady(At(w, id), ExpireOrphan(cutoff), now)
    ensures forall id :: id in Retired(TableOf(w), cutoff) ==> ExternalReady(At(w, id), PurgeRow(cutoff), now)
  {
  }

  /** The moves take the table from `w`'s to `t` and leave the ledger alone. */
  ghost predicate Leads(c: Config, w: World, moves: seq<Move>, t: Table) {
    && IsHistory(c, None, w, moves)
    && TableOf(Later(c, None, w, moves)) == t && LedgerOf(Later(c, None, w, moves)) == LedgerOf(w)
  }

  lemma ExpirePass(c: Config, w: World, now: int) returns (moves: seq<Move>)
    ensures Leads(c, w, moves, ExpiredRows(TableOf(w), PastDue(TableOf(w), now), now))
  {
    DueAreReady(w, now, 0);
    moves := EachInTurn(c, w, PastDue(TableOf(w), now), ExpireRow, now);
  }

  lemma OrphanPass(c: Config, w: World, cutoff: int, now: int) returns (moves: seq<Move>)
    ensures Leads(c, w, moves, ExpiredRows(TableOf(w), Orphans(TableOf(w), cutoff), now))
  {
    DueAreReady(w, now, cutoff);
    moves := EachInTurn(c, w, Orphans(TableOf(w), cutoff), ExpireOrphan(cutoff), now);
  }

  lemma PurgePass(c: Config, w: World, cutoff: int, now: int) returns (moves: seq<Move>)
    ensures Leads(c, w, moves, TableOf(w) - Retired(TableOf(w), cutoff))
  {
    DueAreReady(w, now, cutoff);
    moves := EachInTurn(c, w, Retired(TableOf(w), cutoff), PurgeRow(cutoff), now);
  }

  lemma LeadsOn(c: Config, w: World, a: seq<Move>, t: Table, b: seq<Move>, u: Table)
    requires Leads(c, w, a, t) && Leads(c, Later(c, None, w, a), b, u)
    ensures Leads(c, w, a + b, u)
  {
    HistoriesJoin(c, w, a, b);
  }

  /** A whole pass of the reaper is a history: every theorem about histories holds across it. */
  lemma ReapIsAHistory(c: Config, w: World, reaper: StagedReaper, now: int) returns (moves: seq<Move>)
    ensures Leads(c, w, moves, reaper.Reaped(TableOf(w), now))
  {
    moves := ExpirePass(c, w, now);
    var t := ExpiredRows(TableOf(w), PastDue(TableOf(w), now), now);
    var orphaned := OrphanPass(c, Later(c, None, w, moves), now - reaper.unreceivedTtlMs, now);
    var u := ExpiredRows(t, Orphans(t, now - reaper.unreceivedTtlMs), now);
    LeadsOn(c, w, moves, t, orphaned, u);
    moves := moves + orphaned;
    var purged := PurgePass(c, Later(c, None, w, moves), now - reaper.retentionMs, now);
    LeadsOn(c, w, moves, u, purged, u - Retired(u, now - reaper.retentionMs));
    moves := moves + purged;
  }

  /** From any reachable world: once reaped, every active row has a live deadline or is young and still un-received. */
  lemma NoLimboAfterReap(c: Config, w: World, reaper: StagedReaper, now: int)
    requires EachReachable(c, w)
    ensures var t := reaper.Reaped(TableOf(w), now);
            forall id :: id in t ==> Tended(t[id], now, reaper.unreceivedTtlMs)
  {
    forall id | id in TableOf(w) && TableOf(w)[id].received ensures TableOf(w)[id].deadline.Some? {
      ReachableIsHealthy(c, w[id]);
    }
    ReapedIsTended(reaper, TableOf(w), now);
  }
}
