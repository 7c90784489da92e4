/** Where the WAL went: every upload accounted for, whatever races, crashes and purges. */
module IntentSpend {
  import opened Wrappers
  import opened StagedTable
  import opened OpsLedger
  import opened IntentProtocol

  /** Attempts that hold an upload they have not persisted yet. */
  function InFlight(s: seq<Attempt>): nat {
    if s == [] then 0 else InFlight(s[..|s| - 1]) + LostUpload(s[|s| - 1])
  }

  lemma {:induction false} InFlightUpdate(s: seq<Attempt>, k: nat, a: Attempt)
    requires k < |s|
    ensures InFlight(s[k := a]) + LostUpload(s[k]) == InFlight(s) + LostUpload(a)
  {
    var n := |s| - 1;
    if k == n {
      assert s[k := a][..n] == s[..n];
    } else {
      assert s[k := a][..n] == s[..n][k := a];
      InFlightUpdate(s[..n], k, a);
    }
  }

  lemma InFlightAppend(s: seq<Attempt>, a: Attempt)
    ensures InFlight(s + [a]) == InFlight(s) + LostUpload(a)
  {
    assert (s + [a])[..|s|] == s;
  }

  function OnRow(i: Intent): nat {
    if i.row.Some? && i.row.value.upload.Some? then 1 else 0
  }

  /** Every Walrus upload was lost, overwritten, purged with its row, is about to be persisted, or is the one the row names. */
  predicate Accounted(i: Intent) {
    i.log.uploads == i.log.lost + i.log.overwrites + i.log.dropped + InFlight(i.attempts) + OnRow(i)
  }

  /** One attempt moves: the balance only looks at what it held and now holds. */
  lemma MoveAccounted(i: Intent, j: Intent, k: nat)
    requires Accounted(i) && k < |i.attempts| == |j.attempts| && j.attempts == i.attempts[k := j.attempts[k]]
    requires j.log.dropped == i.log.dropped
    requires j.log.uploads + i.log.lost + i.log.overwrites + OnRow(i) + LostUpload(i.attempts[k])
          == i.log.uploads + j.log.lost + j.log.overwrites + OnRow(j) + LostUpload(j.attempts[k])
    ensures Accounted(j)
  {
    InFlightUpdate(i.attempts, k, j.attempts[k]);
  }

  lemma CheckHoldsNothing(c: Config, a: Attempt, p: Check)
    ensures CheckOutcome(c, a, p).Go? ==> LostUpload(CheckOutcome(c, a, p).a) == 0
  {
  }

  lemma ConcludeAccounted(i: Intent, k: nat, result: CheckResult, now: int)
    requires Accounted(i) && k < |i.attempts| && LostUpload(i.attempts[k]) == 0
    requires result.Go? ==> LostUpload(result.a) == 0
    ensures Accounted(Conclude(i, k, result, now))
  {
    MoveAccounted(i, Conclude(i, k, result, now), k);
  }

  lemma ExternalAccounted(c: Config, i: Intent, o: Outside, now: int)
    requires Accounted(i)
    requires ExternalReady(i, o, now)
    ensures Accounted(ApplyExternal(i, o, now))
  {
  }

  lemma ClaimAccounted(c: Config, i: Intent, proc: string, leaseMs: int, start: Option<IntentCommitment>, now: int)
    requires Accounted(i)
    requires ClaimReady(i, proc, start, now)
    ensures Accounted(ApplyClaim(i, proc, leaseMs, start, now))
  {
    if start.Some? {
      StartAccounted(i, ApplyClaim(i, proc, leaseMs, start, now),
                     StartAttempt(proc, StagedTable.Claim(i.row.value, proc, now, leaseMs), start.value));
    }
  }

  lemma StartAccounted(i: Intent, j: Intent, a: Attempt)
    requires Accounted(i) && j.attempts == i.attempts + [a] && LostUpload(a) == 0 && OnRow(j) == OnRow(i)
    requires j.log.uploads == i.log.uploads && j.log.lost == i.log.lost
    requires j.log.overwrites == i.log.overwrites && j.log.dropped == i.log.dropped
    ensures Accounted(j)
  {
    InFlightAppend(i.attempts, a);
  }

  lemma CheckAccounted(c: Config, i: Intent, k: nat, p: Check, now: int)
    requires Accounted(i)
    requires k < |i.attempts| && CheckReady(i.attempts[k], p)
    ensures Accounted(ApplyCheck(c, i, k, p, now))
  {
    CheckHoldsNothing(c, i.attempts[k], p);
    ConcludeAccounted(i, k, CheckOutcome(c, i.attempts[k], p), now);
  }

  lemma BuyAccounted(c: Config, i: Intent, k: nat, b: Buy, now: int)
    requires Accounted(i)
    requires k < |i.attempts| && BuyReady(i.attempts[k], b)
    ensures Accounted(ApplyBuy(c, i, k, b, now))
  {
    MoveAccounted(i, ApplyBuy(c, i, k, b, now), k);
  }

  lemma RegisterAccounted(c: Config, i: Intent, k: nat, g: Register, now: int)
    requires Accounted(i)
    requires k < |i.attempts| && RegisterReady(i, i.attempts[k], g)
    ensures Accounted(ApplyRegister(c, i, k, g, now))
  {
    MoveAccounted(i, ApplyRegister(c, i, k, g, now), k);
  }

  lemma DeliverAccounted(c: Config, i: Intent, k: nat, d: Deliver, now: int)
    requires Accounted(i)
    requires k < |i.attempts| && DeliverReady(i.attempts[k], d)
    ensures Accounted(ApplyDeliver(i, k, d, now))
  {
    MoveAccounted(i, ApplyDeliver(i, k, d, now), k);
  }

  lemma ControlAccounted(c: Config, i: Intent, k: nat, r: Control, now: int)
    requires Accounted(i)
    requires k < |i.attempts| && ControlReady(i.attempts[k], r)
    ensures Accounted(ApplyControl(c, i, k, r, now))
  {
    MoveAccounted(i, ApplyControl(c, i, k, r, now), k);
  }

  lemma SweepAccounted(c: Config, i: Intent, f: Backfill, now: int)
    requires Accounted(i)
    requires SweepReady(i, f)
    ensures Accounted(ApplySweep(c, i, f, now))
  {
  }

  lemma StepAccounted(c: Config, i: Intent, st: Step)
    requires Ready(i, st) && Accounted(i)
    ensures Accounted(Apply(c, i, st))
  {
    match st
    case External(o, now) => ExternalAccounted(c, i, o, now);
    case ClaimRow(proc, leaseMs, start, now) => ClaimAccounted(c, i, proc, leaseMs, start, now);
    case Checking(k, p, now) => CheckAccounted(c, i, k, p, now);
    case Buying(k, b, now) => BuyAccounted(c, i, k, b, now);
    case Registering(k, g, now) => RegisterAccounted(c, i, k, g, now);
    case Delivering(k, d, now) => DeliverAccounted(c, i, k, d, now);
    case Controlling(k, r, now) => ControlAccounted(c, i, k, r, now);
    case Sweeping(f, now) => SweepAccounted(c, i, f, now);
  }
}
