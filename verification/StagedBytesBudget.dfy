/** The byte budget: the SUM over rows that still hold bytes, and the admission decision taken on it. */
module StagedBytesBudget {
  import opened Wrappers
  import opened StagedTable

  /** What a row adds to SUM(size) ... WHERE bytes IS NOT NULL. */
  function Held(r: Option<Row>): nat {
    if r.Some? && r.value.bytes.Some? then r.value.size.GetOr(0) else 0
  }

  ghost function Total(t: Table): nat
    decreases |t|
  {
    if t == map[] then 0
    else
      var id :| id in t;
      assert |t - {id}| < |t| by { Shrinks(t, id); }
      Held(Some(t[id])) + Total(t - {id})
  }

  lemma Shrinks(t: Table, id: string)
    requires id in t
    ensures |t - {id}| == |t| - 1
  {
    assert (t - {id}).Keys == t.Keys - {id};
    assert |(t - {id}).Keys| == |t.Keys| - 1;
  }

  /** The sum does not depend on the order the rows are visited in. */
  lemma {:induction false} TotalWithout(t: Table, id: string)
    requires id in t
    ensures Total(t) == Held(Some(t[id])) + Total(t - {id})
    decreases |t|
  {
    var first :| id in t && first in t && Total(t) == Held(Some(t[first])) + Total(t - {first});
    if first != id {
      Shrinks(t, first);
      Shrinks(t, id);
      TotalWithout(t - {first}, id);
      TotalWithout(t - {id}, first);
      assert t - {first} - {id} == t - {id} - {first};
    }
  }

  /** Staged total excluding one intent's own contribution. */
  ghost function Excluding(t: Table, id: string): nat {
    Total(t - {id})
  }

  lemma TotalSplits(t: Table, id: string)
    ensures Total(t) == Held(Get(t, id)) + Excluding(t, id)
  {
    if id in t { TotalWithout(t, id); } else { assert t - {id} == t; }
  }

  lemma TotalAfterPut(t: Table, id: string, r: Option<Row>)
    ensures Total(Put(t, id, r)) == Held(r) + Excluding(t, id)
  {
    var u := Put(t, id, r);
    assert u - {id} == t - {id};
    TotalSplits(u, id);
  }

  // ---------- admission ----------

  ghost predicate Fits(t: Table, id: string, size: nat, cap: Option<nat>) {
    cap.None? || Excluding(t, id) + size <= cap.value
  }

  predicate Writable(t: Table, id: string) {
    id !in t || t[id].state == Active
  }

  /** What the capped upsert does to the table. */
  ghost function Admitted(t: Table, id: string, blob: StagedBytes, cap: Option<nat>, now: int): Table {
    if Fits(t, id, blob.size, cap) then Put(t, id, Upsert(Get(t, id), blob, now)) else t
  }

  /** The write's own verdict: accepted, refused by the cap, or a settled row. */
  ghost function TrueOutcome(t: Table, id: string, size: nat, cap: Option<nat>): UpsertOutcome {
    if !Fits(t, id, size, cap) then Backpressure else if Writable(t, id) then Accepted else Terminal
  }

  /** A capped write never takes the total over the cap, and re-buffering an intent replaces its own share. */
  lemma AdmissionKeepsBudget(t: Table, id: string, blob: StagedBytes, cap: nat, now: int)
    requires Total(t) <= cap
    ensures Total(Admitted(t, id, blob, Some(cap), now)) <= cap
    ensures TrueOutcome(t, id, blob.size, Some(cap)).Accepted?
            ==> Total(Admitted(t, id, blob, Some(cap), now)) == Excluding(t, id) + blob.size
  {
    if Fits(t, id, blob.size, Some(cap)) {
      TotalSplits(t, id);
      TotalAfterPut(t, id, Upsert(Get(t, id), blob, now));
    }
  }

  /** The reported outcome reads the total again, in a second statement, possibly after other writes. */
  ghost function Reported(atWrite: Table, atRead: Table, id: string, size: nat, cap: Option<nat>): UpsertOutcome {
    if Fits(atWrite, id, size, cap) && Writable(atWrite, id) then Accepted
    else if !Fits(atRead, id, size, cap) then Backpressure
    else Terminal
  }

  /** The report is right exactly when the write landed or the second read sees the cap the way the write did. */
  lemma ReportIsTrueWhen(atWrite: Table, atRead: Table, id: string, size: nat, cap: Option<nat>)
    ensures Reported(atWrite, atRead, id, size, cap) == TrueOutcome(atWrite, id, size, cap)
       <==> TrueOutcome(atWrite, id, size, cap).Accepted? || (Fits(atWrite, id, size, cap) <==> Fits(atRead, id, size, cap))
  {
  }

  /** A write that does not land leaves the table as it was. */
  lemma WholeOutcome(t: Table, id: string, blob: StagedBytes, cap: nat, now: int)
    ensures !(Fits(t, id, blob.size, Some(cap)) && Writable(t, id)) ==> Admitted(t, id, blob, Some(cap), now) == t
  {
  }

  /** Bytes freed between the two statements: a full queue is reported as a settled row. */
  lemma FreedBetweenStatements(id: string, other: string)
    requires id != other
    ensures exists full, drained ::
      && other in full && drained == full[other := FreeBytes(full[other], 1)]
      && TrueOutcome(full, id, 1, Some(1)) == Backpressure
      && Reported(full, drained, id, 1, Some(1)) == Terminal
  {
    var blob := StagedBytes([0], "blob", 1, None, None);
    var row := WithBytes(NewRow(0), blob);
    var full: Table := map[other := row];
    var drained: Table := map[other := FreeBytes(row, 1)];
    TotalSplits(full, other);
    TotalSplits(drained, other);
    assert full - {other} == map[] && drained - {other} == map[];
    assert full - {id} == full && drained - {id} == drained;
    assert TrueOutcome(full, id, 1, Some(1)) == Backpressure;
    assert Reported(full, drained, id, 1, Some(1)) == Terminal;
  }
}
