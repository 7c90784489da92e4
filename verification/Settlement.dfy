/** The in-memory profit-and-loss ledger and the reconciler that books into it. */
module Settlement {
  import opened Wrappers
  import Pricing

  datatype PnlStatus = Completed | Skipped

  datatype PnlEntry = PnlEntry(
    intentId: string, status: PnlStatus, collectedUsd: real, spentUsd: real, netUsd: real, timestampMs: int)

  datatype PnlSummary = PnlSummary(
    count: nat, completed: nat, skipped: nat,
    totalCollectedUsd: real, totalSpentUsd: real, totalNetUsd: real, negativeCount: nat)

  // ---------- the ledger as a value: entries in the order they were first recorded ----------

  predicate Recorded(entries: seq<PnlEntry>, id: string) {
    exists i :: 0 <= i < |entries| && entries[i].intentId == id
  }

  function WithNet(e: PnlEntry): PnlEntry {
    e.(netUsd := e.collectedUsd - e.spentUsd)
  }

  /** First entry per intent wins. */
  function Book(entries: seq<PnlEntry>, e: PnlEntry): seq<PnlEntry> {
    if Recorded(entries, e.intentId) then entries else entries + [WithNet(e)]
  }

  lemma BookRecords(entries: seq<PnlEntry>, e: PnlEntry)
    ensures Recorded(Book(entries, e), e.intentId)
  {
    if !Recorded(entries, e.intentId) {
      assert Book(entries, e)[|entries|].intentId == e.intentId;
    }
  }

  predicate WellKept(entries: seq<PnlEntry>) {
    && (forall i, j :: 0 <= i < j < |entries| ==> entries[i].intentId != entries[j].intentId)
    && (forall i :: 0 <= i < |entries| ==> entries[i].netUsd == entries[i].collectedUsd - entries[i].spentUsd)
  }

  /** Every completed entry nets at least the margin on what it cost; a skip spends and collects nothing. */
  predicate Profitable(e: PnlEntry, margin: real) {
    match e.status
    case Completed => e.netUsd >= margin * e.spentUsd && 0.0 <= e.spentUsd
    case Skipped => e.collectedUsd == 0.0 && e.spentUsd == 0.0
  }

  predicate AllProfitable(entries: seq<PnlEntry>, margin: real) {
    forall i :: 0 <= i < |entries| ==> Profitable(entries[i], margin)
  }

  // ---------- the summary's meaning ----------

  function NetSum(entries: seq<PnlEntry>): real {
    if entries == [] then 0.0 else NetSum(entries[..|entries| - 1]) + entries[|entries| - 1].netUsd
  }

  function Negative(e: PnlEntry): bool {
    e.status == Completed && e.netUsd < 0.0
  }

  function NegativeCount(entries: seq<PnlEntry>): nat {
    if entries == [] then 0
    else NegativeCount(entries[..|entries| - 1]) + if Negative(entries[|entries| - 1]) then 1 else 0
  }

  lemma {:induction false} ProfitableIsNeverNegative(entries: seq<PnlEntry>, margin: real)
    requires AllProfitable(entries, margin) && 0.0 <= margin
    ensures NegativeCount(entries) == 0
  {
    if entries != [] {
      var last := entries[|entries| - 1];
      ProfitableIsNeverNegative(entries[..|entries| - 1], margin);
      if last.status == Completed { Pricing.MulPositive(margin, last.spentUsd); }
    }
  }

  function CollectedSum(entries: seq<PnlEntry>): real {
    if entries == [] then 0.0 else CollectedSum(entries[..|entries| - 1]) + entries[|entries| - 1].collectedUsd
  }

  function SpentSum(entries: seq<PnlEntry>): real {
    if entries == [] then 0.0 else SpentSum(entries[..|entries| - 1]) + entries[|entries| - 1].spentUsd
  }

  /** The positions of the entries with that status. */
  function WithStatus(entries: seq<PnlEntry>, status: PnlStatus): set<nat> {
    set i: nat | i < |entries| && entries[i].status == status
  }

  lemma CountOneMore(entries: seq<PnlEntry>, i: nat, status: PnlStatus)
    requires i < |entries|
    ensures |WithStatus(entries[..i + 1], status)| == |WithStatus(entries[..i], status)| + if entries[i].status == status then 1 else 0
  {
    var before := WithStatus(entries[..i], status);
    assert WithStatus(entries[..i + 1], status) == before + if entries[i].status == status then {i} else {};
  }

  class PnlLedger {
    var entries: seq<PnlEntry>

    constructor ()
      ensures entries == []
    {
      entries := [];
    }

    method Find(id: string) returns (found: Option<PnlEntry>)
      ensures found.Some? <==> Recorded(entries, id)
      ensures found.Some? ==> found.value in entries && found.value.intentId == id
    {
      for i := 0 to |entries|
        invariant forall j :: 0 <= j < i ==> entries[j].intentId != id
      {
        if entries[i].intentId == id {
          return Some(entries[i]);
        }
      }
      return None;
    }

    /** Idempotent per intent: a second record of the same id returns the first entry and changes nothing. */
    method Record(e: PnlEntry) returns (stored: PnlEntry)
      modifies this
      ensures entries == Book(old(entries), e)
      ensures old(WellKept(entries)) ==> WellKept(entries)
      ensures stored in entries && stored.intentId == e.intentId
      ensures !Recorded(old(entries), e.intentId) ==> stored == WithNet(e)
    {
      var existing := Find(e.intentId);
      if existing.Some? {
        return existing.value;
      }
      stored := WithNet(e);
      entries := entries + [stored];
    }

    /** Running totals over the entries; the net total is the sum of the entries' own nets. */
    method Summary() returns (s: PnlSummary)
      requires WellKept(entries)
      ensures s.count == |entries| == s.completed + s.skipped
      ensures s.completed == |WithStatus(entries, Completed)| && s.skipped == |WithStatus(entries, Skipped)|
      ensures s.totalCollectedUsd == CollectedSum(entries) && s.totalSpentUsd == SpentSum(entries)
      ensures s.totalNetUsd == s.totalCollectedUsd - s.totalSpentUsd == NetSum(entries)
      ensures s.negativeCount == NegativeCount(entries)
      ensures forall margin :: 0.0 <= margin && AllProfitable(entries, margin) ==> s.negativeCount == 0
    {
      var completed, skipped, negative := 0, 0, 0;
      var collected, spent := 0.0, 0.0;
      for i := 0 to |entries|
        invariant completed + skipped == i
        invariant completed == |WithStatus(entries[..i], Completed)| && skipped == |WithStatus(entries[..i], Skipped)|
        invariant collected == CollectedSum(entries[..i]) && spent == SpentSum(entries[..i])
        invariant collected - spent == NetSum(entries[..i])
        invariant negative == NegativeCount(entries[..i])
      {
        var e := entries[i];
        CountOneMore(entries, i, Completed);
        CountOneMore(entries, i, Skipped);
        if e.status == Completed { completed := completed + 1; } else { skipped := skipped + 1; }
        collected := collected + e.collectedUsd;
        spent := spent + e.spentUsd;
        if e.status == Completed && e.netUsd < 0.0 { negative := negative + 1; }
        assert entries[..i + 1][..i] == entries[..i];
      }
      assert entries[..|entries|] == entries;
      s := PnlSummary(|entries|, completed, skipped, collected, spent, collected - spent, negative);
      forall margin | 0.0 <= margin && AllProfitable(entries, margin) ensures s.negativeCount == 0 {
        ProfitableIsNeverNegative(entries, margin);
      }
    }
  }

  function CompletionEntry(id: string, collectedUsd: real, spentUsd: real, now: int): PnlEntry {
    PnlEntry(id, Completed, collectedUsd, spentUsd, 0.0, now)
  }

  function SkipEntry(id: string, now: int): PnlEntry {
    PnlEntry(id, Skipped, 0.0, 0.0, 0.0, now)
  }

  class SettlementReconciler {
    const ledger: PnlLedger

    constructor ()
      ensures fresh(ledger) && ledger.entries == []
    {
      ledger := new PnlLedger();
    }

    /** Books a completion. Whatever the guard let through keeps the whole ledger profitable. */
    method RecordCompletion(id: string, collectedUsd: real, spentUsd: real, now: int) returns (e: PnlEntry)
      requires WellKept(ledger.entries)
      modifies ledger
      ensures ledger.entries == Book(old(ledger.entries), CompletionEntry(id, collectedUsd, spentUsd, now))
      ensures WellKept(ledger.entries)
      ensures forall margin :: old(AllProfitable(ledger.entries, margin)) && Pricing.Covers(collectedUsd, spentUsd, margin)
                ==> AllProfitable(ledger.entries, margin)
    {
      e := ledger.Record(CompletionEntry(id, collectedUsd, spentUsd, now));
      forall margin | old(AllProfitable(ledger.entries, margin)) && Pricing.Covers(collectedUsd, spentUsd, margin)
        ensures AllProfitable(ledger.entries, margin)
      {
        Pricing.CoveredNetsMargin(collectedUsd, spentUsd, margin);
      }
    }

    method RecordSkip(id: string, now: int) returns (e: PnlEntry)
      requires WellKept(ledger.entries)
      modifies ledger
      ensures ledger.entries == Book(old(ledger.entries), SkipEntry(id, now))
      ensures WellKept(ledger.entries)
      ensures forall margin :: old(AllProfitable(ledger.entries, margin)) ==> AllProfitable(ledger.entries, margin)
    {
      e := ledger.Record(SkipEntry(id, now));
    }
  }
}
