/** What one relayer process relies on while the others, and its own earlier attempts, keep moving. */
module ProcessorWorld {
  import opened Wrappers
  import opened StagedTable
  import opened OpsLedger
  import opened IntentProtocol
  import opened IntentRuns
  import opened Fleet
  import opened Settlement
  import opened BreakEvenService

  // ---------- the process's own attempts ----------

  /** No attempt of `proc` but the k-th moved, and none was added. */
  ghost predicate KeptAt(i: Intent, j: Intent, proc: string, k: int) {
    && j.id == i.id
    && |i.attempts| <= |j.attempts|
    && (forall n :: 0 <= n < |i.attempts| && n != k && i.attempts[n].proc == proc ==> j.attempts[n] == i.attempts[n])
    && (forall n :: 0 <= n < |j.attempts| && j.attempts[n].proc == proc ==> n < |i.attempts| && i.attempts[n].proc == proc)
  }

  /** The attempt of intent `x` that may have moved: the k-th of `id`, and of no other. */
  function Spared(x: string, id: string, k: int): int {
    if x == id then k else -1
  }

  ghost predicate OwnKept(w: World, v: World, proc: string, id: string, k: int) {
    forall x {:trigger KeptAt(At(w, x), At(v, x), proc, Spared(x, id, k))} :: KeptAt(At(w, x), At(v, x), proc, Spared(x, id, k))
  }

  lemma KeptFor(w: World, v: World, proc: string, id: string, k: int, x: string)
    requires OwnKept(w, v, proc, id, k)
    ensures KeptAt(At(w, x), At(v, x), proc, Spared(x, id, k))
  {
  }

  lemma OwnKeptTrans(w: World, v: World, u: World, proc: string, id: string, k: int)
    requires OwnKept(w, v, proc, id, k) && OwnKept(v, u, proc, id, k)
    ensures OwnKept(w, u, proc, id, k)
  {
    forall x ensures KeptAt(At(w, x), At(u, x), proc, Spared(x, id, k)) {
      assert KeptAt(At(w, x), At(v, x), proc, Spared(x, id, k));
      assert KeptAt(At(v, x), At(u, x), proc, Spared(x, id, k));
    }
  }

  // ---------- other processes ----------

  /** The attempt whose step it is, if any. */
  function AttemptOf(st: Step): Option<nat> {
    match st
    case Checking(n, _, _) => Some(n)
    case Buying(n, _, _) => Some(n)
    case Registering(n, _, _) => Some(n)
    case Delivering(n, _, _) => Some(n)
    case Controlling(n, _, _) => Some(n)
    case _ => None
  }

  /** The step is not one of `proc`'s own. */
  predicate Foreign(i: Intent, st: Step, proc: string) {
    && (st.ClaimRow? ==> st.proc != proc)
    && match AttemptOf(st)
       case Some(k) => k < |i.attempts| && i.attempts[k].proc != proc
       case None => true
  }

  predicate SameBook(i: Intent, j: Intent, proc: string) {
    (proc in j.pnl <==> proc in i.pnl) && (proc in i.pnl ==> j.pnl[proc] == i.pnl[proc])
  }

  // ---------- this process's step ----------

  /** A step of attempt k. */
  predicate OfAttempt(st: Step, k: nat) {
    AttemptOf(st) == Some(k)
  }

  /** Only attempt k moved, and it keeps whose it is and what it was started with. */
  predicate MovesOnly(i: Intent, j: Intent, k: nat) {
    && k < |i.attempts| == |j.attempts| && j.attempts == i.attempts[k := j.attempts[k]] && j.id == i.id
    && j.attempts[k].proc == i.attempts[k].proc && j.attempts[k].row == i.attempts[k].row
    && j.attempts[k].commitment == i.attempts[k].commitment
  }

  lemma CheckMovesOnly(c: Config, i: Intent, k: nat, p: Check, now: int)
    requires k < |i.attempts| && CheckReady(i.attempts[k], p)
    ensures MovesOnly(i, ApplyCheck(c, i, k, p, now), k)
  {
  }

  lemma BuyMovesOnly(c: Config, i: Intent, k: nat, b: Buy, now: int)
    requires k < |i.attempts| && BuyReady(i.attempts[k], b)
    ensures MovesOnly(i, ApplyBuy(c, i, k, b, now), k)
  {
  }

  lemma RegisterMovesOnly(c: Config, i: Intent, k: nat, g: Register, now: int)
    requires k < |i.attempts| && RegisterReady(i, i.attempts[k], g)
    ensures MovesOnly(i, ApplyRegister(c, i, k, g, now), k)
  {
  }

  lemma DeliverMovesOnly(i: Intent, k: nat, d: Deliver, now: int)
    requires k < |i.attempts| && DeliverReady(i.attempts[k], d)
    ensures MovesOnly(i, ApplyDeliver(i, k, d, now), k)
  {
  }

  lemma ControlMovesOnly(c: Config, i: Intent, k: nat, r: Control, now: int)
    requires k < |i.attempts| && ControlReady(i.attempts[k], r)
    ensures MovesOnly(i, ApplyControl(c, i, k, r, now), k)
  {
  }

  /** A step of an attempt moves that attempt only. */
  lemma StepMovesOnly(c: Config, i: Intent, st: Step, k: nat)
    requires Ready(i, st) && OfAttempt(st, k)
    ensures MovesOnly(i, Apply(c, i, st), k)
  {
    match st
    case Checking(_, p, now) => CheckMovesOnly(c, i, k, p, now);
    case Buying(_, b, now) => BuyMovesOnly(c, i, k, b, now);
    case Registering(_, g, now) => RegisterMovesOnly(c, i, k, g, now);
    case Delivering(_, d, now) => DeliverMovesOnly(i, k, d, now);
    case Controlling(_, r, now) => ControlMovesOnly(c, i, k, r, now);
  }

  /** A process books only for its own attempts. */
  lemma BooksOwnOnly(c: Config, i: Intent, st: Step, k: nat, proc: string)
    requires Ready(i, st) && OfAttempt(st, k) && k < |i.attempts| && i.attempts[k].proc != proc
    ensures SameBook(i, Apply(c, i, st), proc)
  {
  }

  lemma ForeignAttemptKeepsOwn(c: Config, i: Intent, st: Step, k: nat, proc: string)
    requires Ready(i, st) && OfAttempt(st, k) && Foreign(i, st, proc)
    ensures KeptAt(i, Apply(c, i, st), proc, -1) && SameBook(i, Apply(c, i, st), proc)
  {
    StepMovesOnly(c, i, st, k);
    BooksOwnOnly(c, i, st, k, proc);
  }

  lemma OutsideKeepsOwn(c: Config, i: Intent, st: Step, proc: string)
    requires Ready(i, st) && Foreign(i, st, proc) && (st.External? || st.ClaimRow? || st.Sweeping?)
    ensures KeptAt(i, Apply(c, i, st), proc, -1) && SameBook(i, Apply(c, i, st), proc)
  {
  }

  lemma ForeignKeepsOwn(c: Config, i: Intent, st: Step, proc: string)
    requires Ready(i, st) && Foreign(i, st, proc)
    ensures KeptAt(i, Apply(c, i, st), proc, -1) && SameBook(i, Apply(c, i, st), proc)
  {
    match AttemptOf(st)
    case Some(k) => ForeignAttemptKeepsOwn(c, i, st, k, proc);
    case None => OutsideKeepsOwn(c, i, st, proc);
  }

  // ---------- the tables and the book follow the world ----------

  function PutEntry(l: map<string, StorageOpEntry>, id: string, e: Option<StorageOpEntry>): map<string, StorageOpEntry> {
    if e.Some? then l[id := e.value] else l - {id}
  }

  lemma LedgerIsLocal(c: Config, w: World, m: Move)
    requires Ready(At(w, m.id), m.st)
    ensures LedgerOf(Made(c, w, m)) == PutEntry(LedgerOf(w), m.id, Apply(c, At(w, m.id), m.st).entry)
    ensures At(w, m.id).entry == if m.id in LedgerOf(w) then Some(LedgerOf(w)[m.id]) else None
  {
    var l, r := LedgerOf(Made(c, w, m)), PutEntry(LedgerOf(w), m.id, Apply(c, At(w, m.id), m.st).entry);
    forall id ensures (id in l <==> id in r) && (id in l ==> l[id] == r[id]) {
    }
  }

  /** The in-memory book holds, entry for entry, what the world says the process booked. */
  ghost predicate Books(w: World, proc: string, entries: seq<PnlEntry>) {
    && WellKept(entries)
    && (forall n :: 0 <= n < |entries| ==> BookedAs(At(w, entries[n].intentId), proc, entries[n]))
    && (forall x :: proc in At(w, x).pnl ==> Recorded(entries, x))
  }

  predicate BookedAs(i: Intent, proc: string, e: PnlEntry) {
    proc in i.pnl && i.pnl[proc] == e
  }

  lemma BooksKept(w: World, v: World, proc: string, entries: seq<PnlEntry>)
    requires Books(w, proc, entries) && forall x :: SameBook(At(w, x), At(v, x), proc)
    ensures Books(v, proc, entries)
  {
    forall n | 0 <= n < |entries| ensures BookedAs(At(v, entries[n].intentId), proc, entries[n]) {
      assert SameBook(At(w, entries[n].intentId), At(v, entries[n].intentId), proc);
      assert BookedAs(At(w, entries[n].intentId), proc, entries[n]);
    }
    forall x | proc in At(v, x).pnl ensures Recorded(entries, x) {
      assert SameBook(At(w, x), At(v, x), proc);
    }
  }

  lemma BooksGrow(w: World, v: World, proc: string, entries: seq<PnlEntry>, e: PnlEntry)
    requires Books(w, proc, entries) && forall x :: x != e.intentId ==> At(v, x) == At(w, x)
    requires At(v, e.intentId).pnl == Booked(At(w, e.intentId), proc, e).pnl
    ensures Books(v, proc, Book(entries, e))
  {
    var after := Book(entries, e);
    var i := At(w, e.intentId);
    if Recorded(entries, e.intentId) {
      var n :| 0 <= n < |entries| && entries[n].intentId == e.intentId;
      assert BookedAs(At(w, entries[n].intentId), proc, entries[n]);
      assert At(v, e.intentId).pnl == i.pnl;
      BooksKept(w, v, proc, entries);
    } else {
      forall n | 0 <= n < |after| ensures BookedAs(At(v, after[n].intentId), proc, after[n]) {
        if n < |entries| {
          assert after[n] == entries[n];
          assert BookedAs(At(w, entries[n].intentId), proc, entries[n]);
        }
      }
      forall x | proc in At(v, x).pnl ensures Recorded(after, x) {
        if x == e.intentId {
          assert after[|entries|].intentId == x;
        } else {
          var n :| 0 <= n < |entries| && entries[n].intentId == x;
          assert after[n].intentId == x;
        }
      }
    }
  }

  /** Never lose money, seen from the P&L summary: every entry the process holds is profitable. */
  lemma BooksAreProfitable(c: Config, w: World, proc: string, entries: seq<PnlEntry>)
    requires EachReachable(c, w) && Books(w, proc, entries) && GuardsWithBreakEven(c)
    ensures AllProfitable(entries, c.minMargin)
  {
    forall n | 0 <= n < |entries| ensures Profitable(entries[n], c.minMargin) {
      assert BookedAs(At(w, entries[n].intentId), proc, entries[n]);
      NeverLoseMoney(c, w[entries[n].intentId]);
    }
  }

  /** The world after one step of attempt k: other own attempts stay, both tables change in one place. */
  lemma OwnStep(c: Config, w: World, id: string, k: nat, st: Step, proc: string)
    requires 1 <= c.maxStoreAttempts && 1 <= c.returnMaxAttempts
    requires EachReachable(c, w) && Enabled(c, At(w, id), st) && OfAttempt(st, k)
    ensures EachReachable(c, Made(c, w, Move(id, st)))
    ensures OwnKept(w, Made(c, w, Move(id, st)), proc, id, k)
    ensures TableOf(Made(c, w, Move(id, st))) == Put(TableOf(w), id, Apply(c, At(w, id), st).row)
    ensures LedgerOf(Made(c, w, Move(id, st))) == PutEntry(LedgerOf(w), id, Apply(c, At(w, id), st).entry)
    ensures Get(TableOf(w), id) == At(w, id).row
    ensures At(w, id).entry == if id in LedgerOf(w) then Some(LedgerOf(w)[id]) else None
    ensures At(Made(c, w, Move(id, st)), id) == Apply(c, At(w, id), st)
    ensures forall x :: x != id ==> At(Made(c, w, Move(id, st)), x) == At(w, x)
  {
    var m := Move(id, st);
    var i := At(w, id);
    var v := Made(c, w, m);
    MoveReachable(c, w, m);
    MoveIsLocal(c, w, m);
    LedgerIsLocal(c, w, m);
    StepMovesOnly(c, i, st, k);
    forall x ensures KeptAt(At(w, x), At(v, x), proc, Spared(x, id, k)) {
    }
  }

  lemma ForeignStep(c: Config, w: World, m: Move, proc: string, entries: seq<PnlEntry>, id: string, k: int)
    requires 1 <= c.maxStoreAttempts && 1 <= c.returnMaxAttempts
    requires EachReachable(c, w) && Enabled(c, At(w, m.id), m.st) && Foreign(At(w, m.id), m.st, proc)
    requires Books(w, proc, entries)
    ensures EachReachable(c, Made(c, w, m)) && Books(Made(c, w, m), proc, entries)
    ensures OwnKept(w, Made(c, w, m), proc, id, k)
  {
    var v, i := Made(c, w, m), At(w, m.id);
    MoveReachable(c, w, m);
    ForeignKeepsOwn(c, i, m.st, proc);
    ElsewhereSame(w, v, proc, m.id, id, k);
    BooksKept(w, v, proc, entries);
  }

  lemma ElsewhereSame(w: World, v: World, proc: string, moved: string, id: string, k: int)
    requires forall x :: x != moved ==> At(v, x) == At(w, x)
    requires KeptAt(At(w, moved), At(v, moved), proc, -1) && SameBook(At(w, moved), At(v, moved), proc)
    ensures OwnKept(w, v, proc, id, k) && forall x :: SameBook(At(w, x), At(v, x), proc)
  {
    forall x ensures KeptAt(At(w, x), At(v, x), proc, Spared(x, id, k)) {
      assert KeptAt(At(w, x), At(v, x), proc, -1);
    }
  }

  lemma PutSame(t: Table, id: string)
    ensures Put(t, id, Get(t, id)) == t
  {
  }

  lemma PutSameEntry(l: map<string, StorageOpEntry>, id: string)
    ensures PutEntry(l, id, if id in l then Some(l[id]) else None) == l
  {
  }

  function Begun(proc: string, row: Row, start: Option<IntentCommitment>): seq<Attempt> {
    if start.Some? then [StartAttempt(proc, row, start.value)] else []
  }

  /** The claim of one row: leased, and its attempt begun when `start` says so. */
  lemma ClaimStep(c: Config, w: World, id: string, proc: string, leaseMs: int, start: Option<IntentCommitment>, now: int,
                  entries: seq<PnlEntry>)
    requires 1 <= c.maxStoreAttempts && 1 <= c.returnMaxAttempts
    requires EachReachable(c, w) && Books(w, proc, entries)
    requires id in TableOf(w) && Claimable(TableOf(w)[id], proc, now)
    requires start.Some? ==> !InProcess(At(w, id), proc) && Startable(TableOf(w)[id], now)
    ensures Enabled(c, At(w, id), ClaimRow(proc, leaseMs, start, now))
    ensures var v := Made(c, w, Move(id, ClaimRow(proc, leaseMs, start, now)));
            var row := Claim(TableOf(w)[id], proc, now, leaseMs);
            && EachReachable(c, v) && Books(v, proc, entries)
            && TableOf(v) == TableOf(w)[id := row] && LedgerOf(v) == LedgerOf(w)
            && At(v, id).attempts == At(w, id).attempts + Begun(proc, row, start)
            && forall x :: x != id ==> At(v, x) == At(w, x)
  {
    var m := Move(id, ClaimRow(proc, leaseMs, start, now));
    MoveReachable(c, w, m);
    MoveIsLocal(c, w, m);
    LedgerIsLocal(c, w, m);
    PutSameEntry(LedgerOf(w), id);
    BooksKept(w, Made(c, w, m), proc, entries);
  }
}
