/** What the recorded rows say, over whole runs of the system: each row is the bill
    of what the assigned node reported for that very job. */
module Bills {
  import opened Names
  import opened JobGate
  import opened Tables
  import opened Ledger
  import Billing

  /** The row bills the usage u at the given price. */
  predicate BilledAt(billing: Billing.Engine, row: JobRow, u: Usage, price: real) {
    && row.usage == Usage(Billing.ClampTokens(u.tokensIn), Billing.ClampTokens(u.tokensOut))
    && (row.earned, row.fee) == Billing.Bill(billing, row.job.model, u.tokensIn, u.tokensOut, price)
  }

  predicate Reported(es: seq<Event>, id: JobId, node: NodeId, u: Usage) {
    u == NO_USAGE || ReportedBy(es, id, node, u)
  }

  /** The row is the bill, at some price, of a usage its node reported for it. */
  ghost predicate IsBill(billing: Billing.Engine, es: seq<Event>, id: JobId, row: JobRow) {
    exists u, price :: BilledAt(billing, row, u, price) && Reported(es, id, row.job.node, u)
  }

  lemma BillStays(billing: Billing.Engine, es: seq<Event>, steps: seq<Event>, id: JobId, row: JobRow)
    requires IsBill(billing, es, id, row) && |steps| <= 1
    ensures IsBill(billing, es + steps, id, row)
  {
    var u, price :| BilledAt(billing, row, u, price) && Reported(es, id, row.job.node, u);
    if steps == [] {
      assert es + steps == es;
    } else if u != NO_USAGE {
      assert es + steps == es + [steps[0]];
      ReportedStays(es, steps[0], id, row.job.node, u);
    }
    assert Reported(es + steps, id, row.job.node, u);
  }

  lemma NewBill(billing: Billing.Engine, es: seq<Event>, id: JobId, t: Track, price: real)
    requires UsageFromOwner(es, id, t)
    ensures IsBill(billing, es, id, RowOf(billing, t, price))
  {
    assert BilledAt(billing, RowOf(billing, t, price), t.lastUsage, price);
    assert Reported(es, id, t.job.node, t.lastUsage);
  }

  lemma RowAdded(s: State, e: LedgerEvent, id: JobId)
    requires id in Ledger.Step(s, e).db.jobs && id !in s.db.jobs
    ensures e.RecordDoneJob? || e.RecordExpiredJob?
    ensures id in s.gate.tracks && Ledger.Step(s, e).db.jobs[id] == RowOf(s.billing, s.gate.tracks[id], e.btcPriceUSD)
  {
    JobsGrow(s, e);
    NewRowFits(s, e, id);
  }

  lemma {:induction false} BillingStays(init: State, es: seq<LedgerEvent>)
    ensures Ledger.Exec(init, es).billing == init.billing
  {
    if es != [] {
      BillingStays(init, es[..|es| - 1]);
    }
  }

  /** In every run each recorded row is the bill, at some BTC price, of a pair of
      counts that the assigned node reported for the job in a chunk, or of none. */
  lemma {:induction false} RowsAreBills(billing: Billing.Engine, maxPerHour: int, now: int,
                                        es: seq<LedgerEvent>, id: JobId)
    requires id in Ledger.Exec(Init(billing, maxPerHour, now), es).db.jobs
    ensures var init := Init(billing, maxPerHour, now);
            IsBill(billing, Projected(init, es), id, Ledger.Exec(init, es).db.jobs[id])
  {
    var init := Init(billing, maxPerHour, now);
    var n := |es| - 1;
    var s, e := Ledger.Exec(init, es[..n]), es[n];
    OneGateStep(s, e);
    if id in s.db.jobs {
      RowsAreBills(billing, maxPerHour, now, es[..n], id);
      JobsGrow(s, e);
    } else {
      RowAdded(s, e, id);
      BillingStays(init, es[..n]);
      GateRunInside(billing, maxPerHour, now, es[..n]);
      BilledUsageIsOwners(Projected(init, es[..n]), id);
      NewBill(billing, Projected(init, es[..n]), id, s.gate.tracks[id], e.btcPriceUSD);
    }
    BillStays(billing, Projected(init, es[..n]), GateSteps(s, e), id, Ledger.Exec(init, es).db.jobs[id]);
  }

  /** At the 5% fee, every recorded job of every run pays its provider at least 95%
      of its cost, and costs at most 200 sats. */
  lemma ProviderGetsNineteenTwentieths(billing: Billing.Engine, maxPerHour: int, now: int,
                                        es: seq<LedgerEvent>, id: JobId)
    requires billing.Valid() && billing.feePct == 5.0
    requires id in Ledger.Exec(Init(billing, maxPerHour, now), es).db.jobs
    ensures var row := Ledger.Exec(Init(billing, maxPerHour, now), es).db.jobs[id];
            && 0 <= row.earned && 0 <= row.fee && row.earned + row.fee <= 200_000
            && 100 * row.earned >= 95 * (row.earned + row.fee)
  {
    var init := Init(billing, maxPerHour, now);
    var row := Ledger.Exec(init, es).db.jobs[id];
    RowsAreBills(billing, maxPerHour, now, es, id);
    var u, price :| BilledAt(billing, row, u, price) && Reported(Projected(init, es), id, row.job.node, u);
    Billing.BillBounds(billing, row.job.model, u.tokensIn, u.tokensOut, price);
    if price > 0.0 {
      Billing.BillClosedForm(billing, row.job.model, u.tokensIn, u.tokensOut, price);
    }
  }

  /** A row of a job that proxy_done won goes with a proxy_done of its own node, so
      no user is charged without one. */
  lemma ChargedJobsWereDone(billing: Billing.Engine, maxPerHour: int, now: int, es: seq<LedgerEvent>, c: Charge)
    requires billing.Valid() && c in Ledger.Exec(Init(billing, maxPerHour, now), es).charges
    ensures var init := Init(billing, maxPerHour, now);
            var s := Ledger.Exec(init, es);
            c.id in s.db.jobs && DoneReported(Projected(init, es), c.id, s.db.jobs[c.id].job.node)
  {
    var init := Init(billing, maxPerHour, now);
    ReachableMoney(billing, maxPerHour, now, es);
    GateRunInside(billing, maxPerHour, now, es);
    var s := Ledger.Exec(init, es);
    assert ChargeFits(s, c) && RowFits(s, c.id);
    DoneIsOwners(Projected(init, es), c.id);
  }
}
