/** The ledger table and its two writers: inline after a store, and the backfill sweep. */
module OpsLedgerService {
  import opened Wrappers
  import opened StagedTable
  import opened StagedIntentStores
  import opened OpsLedger

  type Ledger = map<string, StorageOpEntry>

  /** INSERT ... ON CONFLICT (intent_id) DO NOTHING. */
  function WithEntry(l: Ledger, e: StorageOpEntry): Ledger {
    if e.intentId in l then l else l[e.intentId := e]
  }

  class StorageOpLedgerStore {
    var rows: Ledger

    constructor ()
      ensures rows == map[]
    {
      rows := map[];
    }

    /** First write wins; reports whether this call inserted. */
    method Record(e: StorageOpEntry) returns (inserted: bool)
      modifies this
      ensures rows == WithEntry(old(rows), e)
      ensures inserted <==> e.intentId !in old(rows)
    {
      inserted := e.intentId !in rows;
      if inserted {
        rows := rows[e.intentId := e];
      }
    }
  }

  /** How a ledger write can go wrong; a failed statement may still have reached its table. */
  datatype Fault = NoFault | RecordFails(landed: bool) | MarkFails(landed: bool)

  datatype Lookup = Unavailable | Found(sender: Option<string>, committedBlobId: Option<string>)

  /** `ledgered` never runs ahead of the ledger. */
  predicate FlagsBacked(t: Table, l: Ledger) {
    forall id :: id in t && t[id].ledgered ==> id in l
  }

  /** The ledger kept every entry it had, unchanged. */
  predicate Grew(was: Ledger, l: Ledger) {
    forall id :: id in was ==> id in l && l[id] == was[id]
  }

  /** Only the `ledgered` flag of rows the ledger holds may have been set. */
  predicate OnlyFlagged(was: Table, t: Table) {
    && t.Keys == was.Keys
    && forall id :: id in was ==> t[id] == was[id] || t[id] == StagedTable.MarkLedgered(was[id])
  }

  /** The entry a sweep leaves for a row and the commitment read for it. */
  function EntryFor(id: string, row: Row, answer: Lookup, network: string, now: int): StorageOpEntry
    requires answer.Found?
  {
    BuildLedgerEntry(id, CompletedStore(row, answer.sender, answer.committedBlobId, None, None), network, now)
  }

  /** Every entry the ledger gained was built from its own row and commitment. */
  predicate GainedHonestly(l0: Ledger, l: Ledger, t: Table, lookup: string -> Lookup, network: string, now: int) {
    forall id :: id in l && id !in l0 ==>
      id in t && lookup(id).Found? && l[id] == EntryFor(id, t[id], lookup(id), network, now)
  }

  /** The flag is no part of an entry. */
  lemma FlagKeepsEntry(id: string, was: Table, t: Table, answer: Lookup, network: string, now: int)
    requires answer.Found? && OnlyFlagged(was, t) && id in was
    ensures EntryFor(id, t[id], answer, network, now) == EntryFor(id, was[id], answer, network, now)
  {
    var row := was[id];
    assert EntryFor(id, StagedTable.MarkLedgered(row), answer, network, now) == EntryFor(id, row, answer, network, now);
  }

  predicate Goes(lookup: string -> Lookup, faults: string -> Fault, id: string) {
    lookup(id).Found? && faults(id).NoFault?
  }

  /** The store is in the ledger and its row knows it. */
  predicate Caught(t: Table, l: Ledger, id: string) {
    id in l && id in t && t[id].ledgered
  }

  /** Both tables only ever move forward under the ledger's writers. */
  lemma OnlyForward(t0: Table, l0: Ledger, t1: Table, l1: Ledger, t2: Table, l2: Ledger)
    requires Grew(l0, l1) && Grew(l1, l2) && OnlyFlagged(t0, t1) && OnlyFlagged(t1, t2)
    ensures Grew(l0, l2) && OnlyFlagged(t0, t2)
    ensures forall id :: Caught(t1, l1, id) ==> Caught(t2, l2, id)
  {
  }

  /** The `ledgered` flag of one row set. */
  function Flagged(t: Table, id: string): Table {
    if id in t then t[id := StagedTable.MarkLedgered(t[id])] else t
  }

  class StorageOpLedger {
    const network: string
    const ledger: StorageOpLedgerStore
    const staged: StagedIntentStore
    var backfilling: bool

    constructor (network: string, ledger: StorageOpLedgerStore, staged: StagedIntentStore)
      ensures this.network == network && this.ledger == ledger && this.staged == staged && !backfilling
    {
      this.network := network;
      this.ledger := ledger;
      this.staged := staged;
      backfilling := false;
    }

    /** Never throws. True exactly when both writes went through; the flag is set only after the entry is in. */
    method RecordCompletedStore(id: string, done: CompletedStore, fault: Fault, now: int) returns (ok: bool)
      modifies ledger, staged
      ensures ok <==> fault.NoFault?
      ensures ledger.rows == if fault == RecordFails(false) then old(ledger.rows)
                             else WithEntry(old(ledger.rows), BuildLedgerEntry(id, done, network, now))
      ensures staged.rows == if fault.RecordFails? || fault == MarkFails(false) then old(staged.rows)
                             else Flagged(old(staged.rows), id)
      ensures old(FlagsBacked(staged.rows, ledger.rows)) ==> FlagsBacked(staged.rows, ledger.rows)
      ensures Grew(old(ledger.rows), ledger.rows) && OnlyFlagged(old(staged.rows), staged.rows)
      ensures ok ==> id in ledger.rows
    {
      var entry := BuildLedgerEntry(id, done, network, now);
      if fault == RecordFails(false) {
        return false;
      }
      var inserted := ledger.Record(entry);
      if fault.RecordFails? || fault == MarkFails(false) {
        return false;
      }
      staged.MarkLedgered(id);
      ok := fault.NoFault?;
    }

    /** One row of the sweep: whatever was caught before stays caught. */
    method RecordPending(id: string, answer: Lookup, fault: Fault, now: int, ghost t0: Table, ghost l0: Ledger) returns (ok: bool)
      requires answer.Found? && id in staged.rows
      requires FlagsBacked(staged.rows, ledger.rows) && Grew(l0, ledger.rows) && OnlyFlagged(t0, staged.rows)
      modifies ledger, staged
      ensures FlagsBacked(staged.rows, ledger.rows) && Grew(l0, ledger.rows) && OnlyFlagged(t0, staged.rows)
      ensures forall other :: old(Caught(staged.rows, ledger.rows, other)) ==> Caught(staged.rows, ledger.rows, other)
      ensures ok <==> fault.NoFault?
      ensures ok ==> Caught(staged.rows, ledger.rows, id)
      ensures ledger.rows == old(ledger.rows)
              || ledger.rows == WithEntry(old(ledger.rows), EntryFor(id, t0[id], answer, network, now))
    {
      FlagKeepsEntry(id, t0, staged.rows, answer, network, now);
      ghost var t1, l1 := staged.rows, ledger.rows;
      var done := CompletedStore(staged.rows[id], answer.sender, answer.committedBlobId, None, None);
      ok := RecordCompletedStore(id, done, fault, now);
      OnlyForward(t0, l0, t1, l1, staged.rows, ledger.rows);
    }

    /** What a sweep has kept true after its first n rows, from the tables it started with. */
    ghost predicate SweptSoFar(t0: Table, l0: Ledger, tried: seq<string>, n: nat,
                               lookup: string -> Lookup, faults: string -> Fault, now: int)
      reads ledger, staged
    {
      && n <= |tried|
      && FlagsBacked(staged.rows, ledger.rows)
      && Grew(l0, ledger.rows) && OnlyFlagged(t0, staged.rows)
      && GainedHonestly(l0, ledger.rows, t0, lookup, network, now)
      && forall m :: 0 <= m < n && Goes(lookup, faults, tried[m]) ==> Caught(staged.rows, ledger.rows, tried[m])
    }

    method SweepRow(ghost t0: Table, ghost l0: Ledger, tried: seq<string>, n: nat,
                    lookup: string -> Lookup, faults: string -> Fault, now: int) returns (ok: bool)
      requires n < |tried| && tried[n] in t0 && SweptSoFar(t0, l0, tried, n, lookup, faults, now)
      modifies ledger, staged
      ensures SweptSoFar(t0, l0, tried, n + 1, lookup, faults, now)
    {
      var answer := lookup(tried[n]);
      ok := answer.Found?;
      if ok {
        ok := RecordPending(tried[n], answer, faults(tried[n]), now, t0, l0);
      }
    }

    /** Records every pending store whose commitment is readable and whose writes go through; loses none. */
    method Backfill(limit: nat, lookup: string -> Lookup, faults: string -> Fault, now: int) returns (recorded: nat, tried: seq<string>)
      requires FlagsBacked(staged.rows, ledger.rows)
      modifies this, ledger, staged
      ensures backfilling == old(backfilling) && recorded <= |tried|
      ensures old(backfilling) ==> recorded == 0 && tried == [] && staged.rows == old(staged.rows) && ledger.rows == old(ledger.rows)
      ensures !old(backfilling) ==> OldestFirst(old(staged.rows), AwaitingLedger(old(staged.rows)), limit, tried)
      ensures SweptSoFar(old(staged.rows), old(ledger.rows), tried, |tried|, lookup, faults, now)
    {
      recorded, tried := 0, [];
      if backfilling {
        return;
      }
      backfilling := true;
      tried := staged.PendingLedgerRows(limit);
      for n := 0 to |tried|
        invariant recorded <= n && backfilling
        invariant SweptSoFar(old(staged.rows), old(ledger.rows), tried, n, lookup, faults, now)
      {
        var ok := SweepRow(old(staged.rows), old(ledger.rows), tried, n, lookup, faults, now);
        if ok {
          recorded := recorded + 1;
        }
      }
      backfilling := false;
    }
  }
}
