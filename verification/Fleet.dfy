/** All intents together: one table, one ledger, any interleaving of steps on any intents, and the byte budget. */
module Fleet {
  import opened Wrappers
  import opened StagedTable
  import opened StagedBytesBudget
  import opened OpsLedger
  import opened IntentProtocol
  import opened IntentRuns

  /** Every intent some step has touched, under its own id. */
  type World = map<string, Intent>

  function At(w: World, id: string): Intent {
    if id in w then w[id] else Fresh(id)
  }

  function TableOf(w: World): Table {
    map id | id in w && w[id].row.Some? :: w[id].row.value
  }

  function LedgerOf(w: World): map<string, StorageOpEntry> {
    map id | id in w && w[id].entry.Some? :: w[id].entry.value
  }

  datatype Move = Move(id: string, st: Step)

  /** A capped ingest is enabled only when the cap admits its bytes; one the cap refuses writes nothing. */
  ghost predicate Admits(w: World, m: Move, cap: Option<nat>) {
    m.st.External? && m.st.o.Ingest? ==> Fits(TableOf(w), m.id, m.st.o.blob.size, cap)
  }

  ghost predicate Possible(c: Config, cap: Option<nat>, w: World, m: Move) {
    Enabled(c, At(w, m.id), m.st) && Admits(w, m, cap)
  }

  function Made(c: Config, w: World, m: Move): World
    requires Ready(At(w, m.id), m.st)
  {
    w[m.id := Apply(c, At(w, m.id), m.st)]
  }

  ghost predicate IsHistory(c: Config, cap: Option<nat>, w: World, moves: seq<Move>)
    decreases |moves|
  {
    moves == [] || (Possible(c, cap, w, moves[0]) && IsHistory(c, cap, Made(c, w, moves[0]), moves[1..]))
  }

  ghost function Later(c: Config, cap: Option<nat>, w: World, moves: seq<Move>): World
    requires IsHistory(c, cap, w, moves)
    decreases |moves|
  {
    if moves == [] then w else Later(c, cap, Made(c, w, moves[0]), moves[1..])
  }

  /** A move of one intent changes that intent's row and ledger entry and no other. */
  lemma MoveIsLocal(c: Config, w: World, m: Move)
    requires Ready(At(w, m.id), m.st)
    ensures TableOf(Made(c, w, m)) == Put(TableOf(w), m.id, Apply(c, At(w, m.id), m.st).row)
    ensures forall id :: id != m.id ==> At(Made(c, w, m), id) == At(w, id)
    ensures Get(TableOf(w), m.id) == At(w, m.id).row
  {
    var i := Apply(c, At(w, m.id), m.st);
    var t := TableOf(Made(c, w, m));
    forall id ensures Get(t, id) == Get(Put(TableOf(w), m.id, i.row), id) {
      PutGet(TableOf(w), m.id, i.row, id);
    }
    SameRows(t, Put(TableOf(w), m.id, i.row));
  }

  lemma SameRows(t: Table, u: Table)
    requires forall id :: Get(t, id) == Get(u, id)
    ensures t == u
  {
    forall id ensures id in t <==> id in u {
      assert Get(t, id) == Get(u, id);
    }
    forall id | id in t ensures t[id] == u[id] {
      assert Get(t, id) == Get(u, id);
    }
  }

  // ---------- each intent follows its own protocol ----------

  ghost predicate EachReachable(c: Config, w: World) {
    && (forall id :: id in w ==> w[id].id == id)
    && (forall id {:trigger Reachable(c, w[id])} :: id in w ==> Reachable(c, w[id]))
  }

  lemma StepReachable(c: Config, i: Intent, st: Step)
    requires Reachable(c, i) && Enabled(c, i, st)
    ensures Reachable(c, Apply(c, i, st)) && Apply(c, i, st).id == i.id
  {
    ReachableIsHealthy(c, i);
    StepHealthy(c, i, st);
    var run :| IsRun(c, Fresh(i.id), run) && After(c, Fresh(i.id), run) == i;
    RunExtends(c, Fresh(i.id), run, i, st);
  }

  lemma FreshReachable(c: Config, id: string)
    requires 1 <= c.maxStoreAttempts && 1 <= c.returnMaxAttempts
    ensures Reachable(c, Fresh(id))
  {
    assert IsRun(c, Fresh(id), []) && After(c, Fresh(id), []) == Fresh(id);
  }

  lemma {:induction false} HistoryReachable(c: Config, cap: Option<nat>, w: World, moves: seq<Move>)
    requires 1 <= c.maxStoreAttempts && 1 <= c.returnMaxAttempts
    requires EachReachable(c, w) && IsHistory(c, cap, w, moves)
    ensures EachReachable(c, Later(c, cap, w, moves))
    decreases |moves|
  {
    if moves != [] {
      MoveReachable(c, w, moves[0]);
      HistoryReachable(c, cap, Made(c, w, moves[0]), moves[1..]);
    }
  }

  // ---------- the byte budget over whole histories ----------

  lemma ExternalAddsNoBytes(i: Intent, o: Outside, now: int)
    requires ExternalReady(i, o, now) && !o.Ingest?
    ensures Held(ApplyExternal(i, o, now).row) <= Held(i.row)
  {
  }

  lemma WorkAddsNoBytes(c: Config, i: Intent, st: Step)
    requires Ready(i, st) && (st.ClaimRow? || st.Checking? || st.Buying?)
    ensures Held(Apply(c, i, st).row) <= Held(i.row)
  {
  }

  lemma RegisterAddsNoBytes(c: Config, i: Intent, st: Step)
    requires Ready(i, st) && (st.Registering? || st.Sweeping?)
    ensures Held(Apply(c, i, st).row) <= Held(i.row)
  {
  }

  lemma DeliverAddsNoBytes(c: Config, i: Intent, k: nat, d: Deliver, now: int)
    requires k < |i.attempts| && DeliverReady(i.attempts[k], d)
    ensures Held(ApplyDeliver(i, k, d, now).row) <= Held(i.row)
  {
  }

  lemma ControlAddsNoBytes(c: Config, i: Intent, k: nat, r: Control, now: int)
    requires k < |i.attempts| && ControlReady(i.attempts[k], r)
    ensures Held(ApplyControl(c, i, k, r, now).row) <= Held(i.row)
  {
  }

  lemma StepAddsNoBytes(c: Config, i: Intent, st: Step)
    requires Ready(i, st) && !(st.External? && st.o.Ingest?)
    ensures Held(Apply(c, i, st).row) <= Held(i.row)
  {
    if st.External? { ExternalAddsNoBytes(i, st.o, st.now); }
    else if st.ClaimRow? || st.Checking? || st.Buying? { WorkAddsNoBytes(c, i, st); }
    else if st.Registering? || st.Sweeping? { RegisterAddsNoBytes(c, i, st); }
    else if st.Delivering? { DeliverAddsNoBytes(c, i, st.k, st.d, st.now); }
    else { ControlAddsNoBytes(c, i, st.k, st.r, st.now); }
  }

  lemma MoveKeepsBudget(c: Config, cap: nat, w: World, m: Move)
    requires Possible(c, Some(cap), w, m) && Total(TableOf(w)) <= cap
    ensures Total(TableOf(Made(c, w, m))) <= cap
  {
    MoveIsLocal(c, w, m);
    var t, i := TableOf(w), At(w, m.id);
    if m.st.External? && m.st.o.Ingest? {
      AdmissionKeepsBudget(t, m.id, m.st.o.blob, cap, m.st.now);
    } else {
      StepAddsNoBytes(c, i, m.st);
      TotalSplits(t, m.id);
      TotalAfterPut(t, m.id, Apply(c, i, m.st).row);
    }
  }

  /** When every write passes the cap, the bytes held never exceed it, whatever interleaves. */
  lemma {:induction false} BytesStayWithinCap(c: Config, cap: nat, w: World, moves: seq<Move>)
    requires IsHistory(c, Some(cap), w, moves) && Total(TableOf(w)) <= cap
    ensures Total(TableOf(Later(c, Some(cap), w, moves))) <= cap
    decreases |moves|
  {
    if moves != [] {
      MoveKeepsBudget(c, cap, w, moves[0]);
      BytesStayWithinCap(c, cap, Made(c, w, moves[0]), moves[1..]);
    }
  }

  // ---------- the ledger over whole histories ----------

  predicate Extends(l: map<string, StorageOpEntry>, m: map<string, StorageOpEntry>) {
    forall id :: id in l ==> id in m && m[id] == l[id]
  }

  lemma EntryKept(c: Config, i: Intent, st: Step)
    requires Reachable(c, i) && Enabled(c, i, st)
    ensures i.entry.Some? ==> Apply(c, i, st).entry == i.entry
  {
    ReachableIsHealthy(c, i);
    StepHealthy(c, i, st);
  }

  lemma MoveExtendsLedger(c: Config, w: World, m: Move)
    requires Enabled(c, At(w, m.id), m.st) && Reachable(c, At(w, m.id))
    ensures Extends(LedgerOf(w), LedgerOf(Made(c, w, m)))
  {
    EntryKept(c, At(w, m.id), m.st);
    forall id | id in LedgerOf(w) ensures id in LedgerOf(Made(c, w, m)) && LedgerOf(Made(c, w, m))[id] == LedgerOf(w)[id] {
    }
  }

  lemma MoveReachable(c: Config, w: World, m: Move)
    requires 1 <= c.maxStoreAttempts && 1 <= c.returnMaxAttempts
    requires EachReachable(c, w) && Enabled(c, At(w, m.id), m.st)
    ensures Reachable(c, At(w, m.id)) && EachReachable(c, Made(c, w, m))
  {
    if m.id !in w { FreshReachable(c, m.id); }
    StepReachable(c, At(w, m.id), m.st);
  }

  /** No completed store is rewritten: over any history the ledger only grows. */
  lemma {:induction false} LedgerOnlyGrows(c: Config, cap: Option<nat>, w: World, moves: seq<Move>)
    requires 1 <= c.maxStoreAttempts && 1 <= c.returnMaxAttempts
    requires EachReachable(c, w) && IsHistory(c, cap, w, moves)
    ensures Extends(LedgerOf(w), LedgerOf(Later(c, cap, w, moves)))
    decreases |moves|
  {
    if moves != [] {
      MoveReachable(c, w, moves[0]);
      MoveExtendsLedger(c, w, moves[0]);
      LedgerOnlyGrows(c, cap, Made(c, w, moves[0]), moves[1..]);
    }
  }

  lemma LedgerCoversStores(c: Config, w: World, id: string)
    requires EachReachable(c, w) && id in w && w[id].log.firstDigest.Some?
    ensures id in LedgerOf(w) || (id in TableOf(w) && TableOf(w)[id].storeDigest.Some?)
    ensures OneRecorderAtATime(w[id]) && id !in LedgerOf(w) ==> TableOf(w)[id].storeDigest == w[id].log.firstDigest
  {
    NoStoreLostOrRewritten(c, w[id], []);
  }
}
