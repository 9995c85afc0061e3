/** Which recorded jobs nobody pays for: exactly those that some step of the run
    left unpaid, told from the guards of the two places where that happens. */
module Unpaid {
  import opened MapSums
  import opened Names
  import opened JobGate
  import opened Tables
  import opened Ledger
  import Billing

  /** The step records an expired job that costs something, or passes the charge of
      a recorded job that does: because the job is free, because the database
      fails, or because the balance does not cover the cost. */
  predicate LeavesUnpaid(s: State, e: LedgerEvent) {
    match e
    case RecordExpiredJob(id, price, ok) =>
      RecordsExpired(s, id, ok) && Cost(RowOf(s.billing, s.gate.tracks[id], price)) > 0
    case ChargeJob(id, ok) =>
      && ExitAt(s.gate, id, ByDone, Recorded) && id in s.db.jobs && Cost(s.db.jobs[id]) > 0
      && var job := s.gate.tracks[id].job;
         job.free || !ok || job.key !in s.db.accounts || s.db.accounts[job.key].balance < Cost(s.db.jobs[id])
    case _ => false
  }

  /** The job was charged, or its goroutine is about to try. */
  predicate Covered(s: State, id: JobId) {
    id in ChargedIds(s.charges) || ExitAt(s.gate, id, ByDone, Recorded)
  }

  ghost predicate AllCovered(s: State) {
    forall id | id in s.db.jobs && Cost(s.db.jobs[id]) > 0 :: Covered(s, id)
  }

  // ---------- one step ----------

  lemma ChargedGrow(s: State, e: LedgerEvent)
    ensures ChargedIds(Ledger.Step(s, e).charges)
         == ChargedIds(s.charges) + if e.ChargeJob? && Charges(s, e.id, e.ok) then {e.id} else {}
  {
    var s' := Ledger.Step(s, e);
    if e.ChargeJob? && Charges(s, e.id, e.ok) {
      var n := |s.charges|;
      assert s'.charges[n].id == e.id;
      forall id | id in ChargedIds(s.charges) ensures id in ChargedIds(s'.charges) {
        var i :| 0 <= i < n && s.charges[i].id == id;
        assert s'.charges[i] == s.charges[i];
      }
    }
  }

  /** Before its charge is tried, no job is charged. */
  lemma AwaitingIsUncharged(s: State, id: JobId)
    requires ChargesInv(s) && ExitAt(s.gate, id, ByDone, Recorded)
    ensures id !in ChargedIds(s.charges)
  {
    if id in ChargedIds(s.charges) {
      ChargedRow(s, id);
    }
  }

  lemma OldRowCovered(s: State, e: LedgerEvent, id: JobId)
    requires RowsInv(s) && ChargesInv(s) && id in s.db.jobs && Cost(s.db.jobs[id]) > 0
    ensures Covered(Ledger.Step(s, e), id) <==> Covered(s, id) && !(e.ChargeJob? && e.id == id && LeavesUnpaid(s, e))
  {
    assert RowFits(s, id);
    ChargedGrow(s, e);
    OneGateStep(s, e);
    if GateSteps(s, e) != [] {
      PastRecordingStays(s.gate, GateSteps(s, e)[0], id);
    }
    if ExitAt(s.gate, id, ByDone, Recorded) {
      AwaitingIsUncharged(s, id);
    }
  }

  lemma NewRowCovered(s: State, e: LedgerEvent, id: JobId)
    requires RowsInv(s) && ChargesInv(s) && id in Ledger.Step(s, e).db.jobs && id !in s.db.jobs
    requires Cost(Ledger.Step(s, e).db.jobs[id]) > 0
    ensures Covered(Ledger.Step(s, e), id) <==> !LeavesUnpaid(s, e)
  {
    JobsGrow(s, e);
    NewRowFits(s, e, id);
    ChargedGrow(s, e);
    if id in ChargedIds(s.charges) {
      ChargedRow(s, id);
    }
  }

  /** The job a step leaves unpaid is recorded after it. */
  lemma UnpaidIsRecorded(s: State, e: LedgerEvent)
    requires LeavesUnpaid(s, e)
    ensures (e.ChargeJob? || e.RecordExpiredJob?) && e.id in Ledger.Step(s, e).db.jobs
    ensures Cost(Ledger.Step(s, e).db.jobs[e.id]) > 0
    ensures e.ChargeJob? <==> e.id in s.db.jobs
  {
    JobsGrow(s, e);
  }

  lemma StepCovered(s: State, e: LedgerEvent)
    requires RowsInv(s) && ChargesInv(s)
    ensures AllCovered(Ledger.Step(s, e)) <==> AllCovered(s) && !LeavesUnpaid(s, e)
  {
    var s' := Ledger.Step(s, e);
    JobsGrow(s, e);
    if LeavesUnpaid(s, e) {
      UnpaidIsRecorded(s, e);
      if e.ChargeJob? {
        OldRowCovered(s, e, e.id);
      } else {
        NewRowCovered(s, e, e.id);
      }
    } else {
      forall id | id in s'.db.jobs && Cost(s'.db.jobs[id]) > 0
        ensures Covered(s', id) <==> (id in s.db.jobs ==> Covered(s, id))
      {
        if id in s.db.jobs {
          OldRowCovered(s, e, id);
        } else {
          NewRowCovered(s, e, id);
        }
      }
    }
  }

  // ---------- whole runs ----------

  ghost predicate UnpaidAt(init: State, es: seq<LedgerEvent>, i: nat)
    requires i < |es|
  {
    LeavesUnpaid(Ledger.Exec(init, es[..i]), es[i])
  }

  ghost predicate NoneUnpaid(init: State, es: seq<LedgerEvent>) {
    forall i | 0 <= i < |es| :: !UnpaidAt(init, es, i)
  }

  lemma NoneUnpaidSplit(init: State, es: seq<LedgerEvent>)
    requires es != []
    ensures NoneUnpaid(init, es) <==> NoneUnpaid(init, es[..|es| - 1]) && !UnpaidAt(init, es, |es| - 1)
  {
    var n := |es| - 1;
    forall i | 0 <= i < n ensures UnpaidAt(init, es[..n], i) == UnpaidAt(init, es, i) {
      assert es[..n][..i] == es[..i];
    }
  }

  lemma LastCovered(init: State, es: seq<LedgerEvent>)
    requires es != [] && RowsInv(Ledger.Exec(init, es[..|es| - 1])) && ChargesInv(Ledger.Exec(init, es[..|es| - 1]))
    ensures AllCovered(Ledger.Exec(init, es))
       <==> AllCovered(Ledger.Exec(init, es[..|es| - 1])) && !UnpaidAt(init, es, |es| - 1)
  {
    StepCovered(Ledger.Exec(init, es[..|es| - 1]), es[|es| - 1]);
  }

  /** In every run: each recorded job that costs something is charged or about to
      be, if and only if no step of the run left one unpaid. */
  lemma {:induction false} CoveredIffNoneUnpaid(billing: Billing.Engine, maxPerHour: int, now: int,
                                               es: seq<LedgerEvent>)
    requires billing.Valid()
    ensures var init := Init(billing, maxPerHour, now);
            AllCovered(Ledger.Exec(init, es)) <==> NoneUnpaid(init, es)
  {
    if es != [] {
      var init := Init(billing, maxPerHour, now);
      var n := |es| - 1;
      CoveredIffNoneUnpaid(billing, maxPerHour, now, es[..n]);
      ReachableMoney(billing, maxPerHour, now, es[..n]);
      LastCovered(init, es);
      NoneUnpaidSplit(init, es);
    }
  }

  /** Once no charge is outstanding, the users have paid for everything recorded if
      and only if no step of the run left a job unpaid. */
  lemma UsersPaidForAllIff(billing: Billing.Engine, maxPerHour: int, now: int, es: seq<LedgerEvent>)
    requires billing.Valid()
    requires forall id :: !ExitAt(Ledger.Exec(Init(billing, maxPerHour, now), es).gate, id, ByDone, Recorded)
    ensures var init := Init(billing, maxPerHour, now);
            var s := Ledger.Exec(init, es);
            Total(CostOf(s.db)) == ChargeTotal(s.charges) <==> NoneUnpaid(init, es)
  {
    var s := Ledger.Exec(Init(billing, maxPerHour, now), es);
    CoveredIffNoneUnpaid(billing, maxPerHour, now, es);
    RecordedCostSplit(billing, maxPerHour, now, es);
    ReachableMoney(billing, maxPerHour, now, es);
    forall id | id in s.db.jobs ensures Cost(s.db.jobs[id]) >= 0 {
      assert RowFits(s, id);
    }
    forall id | id in s.db.jobs && Cost(s.db.jobs[id]) > 0
      ensures Covered(s, id) <==> id !in Uncharged(s)
    {
    }
  }
}
