/** The whole system: the gateway's jobs, the tables, the invoice watcher and the
    payout engine, interleaved one database statement or lock section at a time.
    charges and reportedPaid are history: every successful deduction, and every
    invoice the Lightning node reported as paid. */
module Ledger {
  import opened MapSums
  import opened Names
  import opened JobGate
  import opened Tables
  import Billing
  import P = Payouts

  const MIN_TOP_UP_SATS := 10
  const MAX_TOP_UP_SATS := 100_000

  datatype Charge = Charge(id: JobId, key: Key, amount: int)

  datatype State = State(
    billing: Billing.Engine, gate: Gate, db: Db, pay: P.Engine,
    charges: seq<Charge>, reportedPaid: set<Hash>)

  function Init(billing: Billing.Engine, maxPerHour: int, now: int): State {
    State(billing, EMPTY_GATE, EMPTY_DB, P.NewEngine(maxPerHour, now), [], {})
  }

  /** ok is false where the database reports an error. */
  datatype LedgerEvent =
    | Gateway(step: Event)                               // a step that touches no table
    | RecordDoneJob(id: JobId, btcPriceUSD: real, ok: bool)
    | ChargeJob(id: JobId, ok: bool)
    | RecordExpiredJob(id: JobId, btcPriceUSD: real, ok: bool)
    | CreateKey(key: Key, quotaDaily: int, ok: bool)
    | TopUp(hash: Hash, key: Key, sats: int, now: int, ok: bool)
    | ExpireInvoices(now: int, ok: bool)
    | CheckInvoice(hash: Hash, paid: bool, ok: bool)     // CheckInvoice, then CreditInvoice
    | RegisterNode(node: NodeId, row: NodeRow, ok: bool)
    | PayoutStep(action: P.PayEvent)

  /** The row both recording paths insert for a job. */
  function RowOf(billing: Billing.Engine, t: Track, btcPriceUSD: real): JobRow {
    var (earned, fee) := Billing.Bill(billing, t.job.model, t.lastUsage.tokensIn, t.lastUsage.tokensOut, btcPriceUSD);
    JobRow(t.job,
           Usage(Billing.ClampTokens(t.lastUsage.tokensIn), Billing.ClampTokens(t.lastUsage.tokensOut)),
           earned, fee, t.startedAt)
  }

  predicate TouchesTables(e: Event) {
    e.RecordDone? || e.SettleDone? || e.SettleExpired?
  }

  function Cost(row: JobRow): int {
    row.earned + row.fee
  }

  predicate Charges(s: State, id: JobId, ok: bool) {
    && ok && ExitAt(s.gate, id, ByDone, Recorded) && id in s.db.jobs
    && Cost(s.db.jobs[id]) > 0 && !s.gate.tracks[id].job.free
    && CanDeduct(s.db, s.gate.tracks[id].job.key, Cost(s.db.jobs[id]))
  }

  predicate RecordsDone(s: State, id: JobId, ok: bool) {
    ok && ExitAt(s.gate, id, ByDone, Released) && id !in s.db.jobs
  }

  predicate RecordsExpired(s: State, id: JobId, ok: bool) {
    && ok && ExitAt(s.gate, id, ByExpiry, Released) && id !in s.db.jobs
    && var u := s.gate.tracks[id].lastUsage;
       Billing.ClampTokens(u.tokensIn) + Billing.ClampTokens(u.tokensOut) > 0
  }

  /** The gateway step an event performs, if any. */
  function GateSteps(s: State, e: LedgerEvent): seq<Event> {
    match e
    case Gateway(step) => if TouchesTables(step) then [] else [step]
    case RecordDoneJob(id, _, ok) => [RecordDone(id, RecordsDone(s, id, ok))]
    case ChargeJob(id, _) => [SettleDone(id)]
    case RecordExpiredJob(id, _, _) => [SettleExpired(id)]
    case _ => []
  }

  function StepTables(s: State, e: LedgerEvent): Db {
    match e
    case RecordDoneJob(id, price, ok) =>
      if RecordsDone(s, id, ok) then InsertJob(s.db, id, RowOf(s.billing, s.gate.tracks[id], price)) else s.db
    case RecordExpiredJob(id, price, ok) =>
      if RecordsExpired(s, id, ok) then InsertJob(s.db, id, RowOf(s.billing, s.gate.tracks[id], price)) else s.db
    case ChargeJob(id, ok) =>
      if Charges(s, id, ok) then Deduct(s.db, s.gate.tracks[id].job.key, Cost(s.db.jobs[id])) else s.db
    case CreateKey(key, quotaDaily, ok) =>
      if ok then InsertAccount(s.db, key, quotaDaily) else s.db
    case TopUp(hash, key, sats, now, ok) =>
      if ok && key in s.db.accounts && MIN_TOP_UP_SATS <= sats <= MAX_TOP_UP_SATS then
        InsertInvoice(s.db, hash, key, sats * MSATS_PER_SAT, now)
      else s.db
    case ExpireInvoices(now, ok) => if ok then ExpireOld(s.db, now) else s.db
    case CheckInvoice(hash, paid, ok) => if paid && ok then Credit(s.db, hash) else s.db
    case RegisterNode(node, row, ok) =>
      if ok && row.threshold >= MIN_REDEEM_THRESHOLD_SATS then UpsertNode(s.db, node, row) else s.db
    case PayoutStep(action) => P.StepDb(s.pay, s.db, action)
    case Gateway(_) => s.db
  }

  ghost function Step(s: State, e: LedgerEvent): State {
    State(
      s.billing,
      if GateSteps(s, e) == [] then s.gate else JobGate.Step(s.gate, GateSteps(s, e)[0]),
      StepTables(s, e),
      if e.PayoutStep? then P.StepEngine(s.pay, s.db, e.action) else s.pay,
      if e.ChargeJob? && Charges(s, e.id, e.ok) then
        s.charges + [Charge(e.id, s.gate.tracks[e.id].job.key, Cost(s.db.jobs[e.id]))]
      else s.charges,
      if e.CheckInvoice? && e.paid then s.reportedPaid + {e.hash} else s.reportedPaid)
  }

  ghost function Exec(init: State, es: seq<LedgerEvent>): State {
    if es == [] then init else Step(Exec(init, es[..|es| - 1]), es[|es| - 1])
  }

  /** The gateway's own run inside a run of the system. */
  ghost function Projected(init: State, es: seq<LedgerEvent>): seq<Event> {
    if es == [] then [] else
    var n := |es| - 1;
    Projected(init, es[..n]) + GateSteps(Exec(init, es[..n]), es[n])
  }

  lemma OneGateStep(s: State, e: LedgerEvent)
    ensures |GateSteps(s, e)| <= 1
    ensures Step(s, e).gate == if GateSteps(s, e) == [] then s.gate else JobGate.Step(s.gate, GateSteps(s, e)[0])
  {
  }

  lemma GateExecMore(front: seq<Event>, steps: seq<Event>)
    requires |steps| <= 1
    ensures JobGate.Exec(front + steps)
         == if steps == [] then JobGate.Exec(front) else JobGate.Step(JobGate.Exec(front), steps[0])
  {
    if steps == [] {
      assert front + steps == front;
    } else {
      assert front + steps == front + [steps[0]];
      JobGate.ExecAppend(front, steps[0]);
    }
  }

  /** Every run of the system drives the gateway through one of its own runs, so
      whatever holds of all gateway runs holds here. */
  lemma {:induction false} GateRunInside(billing: Billing.Engine, maxPerHour: int, now: int, es: seq<LedgerEvent>)
    ensures Exec(Init(billing, maxPerHour, now), es).gate
         == JobGate.Exec(Projected(Init(billing, maxPerHour, now), es))
  {
    if es != [] {
      var n := |es| - 1;
      var init := Init(billing, maxPerHour, now);
      GateRunInside(billing, maxPerHour, now, es[..n]);
      var s := Exec(init, es[..n]);
      OneGateStep(s, es[n]);
      GateExecMore(Projected(init, es[..n]), GateSteps(s, es[n]));
    }
  }

  // ---------- jobs, rows and charges ----------

  /** The goroutine that removed the job has passed the point of recording it. */
  predicate MayBeRecorded(exit: Exit) {
    exit == Left(ByDone, Recorded) || exit == Left(ByDone, Settled) || exit == Left(ByExpiry, Settled)
  }

  predicate RowFits(s: State, id: JobId)
    requires id in s.db.jobs
  {
    var row := s.db.jobs[id];
    && id in s.gate.tracks && row.job == s.gate.tracks[id].job
    && MayBeRecorded(s.gate.tracks[id].exit)
    && 0 <= row.earned && 0 <= row.fee && Cost(row) <= Billing.MAX_EARNINGS_PER_JOB_MSATS
  }

  ghost predicate RowsInv(s: State) {
    && s.billing.Valid() && Inv(s.gate)
    && (forall id | id in s.db.jobs :: RowFits(s, id))
    && (forall id | ExitAt(s.gate, id, ByDone, Recorded) :: id in s.db.jobs)
  }

  predicate ChargeFits(s: State, c: Charge) {
    && c.id in s.db.jobs && ExitAt(s.gate, c.id, ByDone, Settled)
    && c.key == s.db.jobs[c.id].job.key && !s.db.jobs[c.id].job.free
    && c.amount == Cost(s.db.jobs[c.id]) && c.amount > 0
  }

  ghost predicate ChargesInv(s: State) {
    && (forall c | c in s.charges :: ChargeFits(s, c))
    && (forall i, j | 0 <= i < j < |s.charges| :: s.charges[i].id != s.charges[j].id)
  }

  /** Once the winner's stage is past recording, no step of the gateway moves it,
      except for the charge that settles a recorded job. */
  lemma PastRecordingStays(g: Gate, e: Event, id: JobId)
    requires Inv(g) && id in g.tracks && MayBeRecorded(g.tracks[id].exit)
    ensures var g' := JobGate.Step(g, e);
            && id in g'.tracks && g'.tracks[id].job == g.tracks[id].job
            && g'.tracks[id].exit
               == if e == SettleDone(id) && g.tracks[id].exit.stage.Recorded?
                  then Left(ByDone, Settled) else g.tracks[id].exit
  {
    assert TrackOk(g, id, g.tracks[id]);
    if Assigning(e) {
      AssigningLeavesExit(g, e, id);
    }
  }

  lemma AssigningLeavesExit(g: Gate, e: Event, id: JobId)
    requires Assigning(e) && id in g.tracks && id !in g.pending && MayBeRecorded(g.tracks[id].exit)
    ensures var g' := JobGate.Step(g, e);
            id in g'.tracks && g'.tracks[id].job == g.tracks[id].job && g'.tracks[id].exit == g.tracks[id].exit
  {
  }

  lemma OnlyRecordingRecords(g: Gate, e: Event, id: JobId)
    requires ExitAt(JobGate.Step(g, e), id, ByDone, Recorded)
    ensures ExitAt(g, id, ByDone, Recorded) || (e == RecordDone(id, true) && ExitAt(g, id, ByDone, Released))
  {
  }

  lemma RowBounds(s: State, t: Track, price: real)
    requires s.billing.Valid()
    ensures var row := RowOf(s.billing, t, price);
            row.job == t.job && 0 <= row.earned && 0 <= row.fee && Cost(row) <= Billing.MAX_EARNINGS_PER_JOB_MSATS
  {
    Billing.BillBounds(s.billing, t.job.model, t.lastUsage.tokensIn, t.lastUsage.tokensOut, price);
  }

  /** Rows are only ever added, by the two recording steps. */
  lemma JobsGrow(s: State, e: LedgerEvent)
    ensures s.db.jobs.Keys <= Step(s, e).db.jobs.Keys
    ensures forall id | id in s.db.jobs :: Step(s, e).db.jobs[id] == s.db.jobs[id]
    ensures forall id | id in Step(s, e).db.jobs && id !in s.db.jobs ::
              || (e.RecordDoneJob? && e.id == id && RecordsDone(s, id, e.ok))
              || (e.RecordExpiredJob? && e.id == id && RecordsExpired(s, id, e.ok))
  {
  }

  lemma StepKeepsGate(s: State, e: LedgerEvent)
    requires Inv(s.gate)
    ensures Inv(Step(s, e).gate)
  {
    if GateSteps(s, e) != [] {
      StepKeepsInv(s.gate, GateSteps(s, e)[0]);
    }
  }

  lemma StepKeepsRow(s: State, e: LedgerEvent, id: JobId)
    requires RowsInv(s) && id in Step(s, e).db.jobs
    ensures RowFits(Step(s, e), id)
  {
    JobsGrow(s, e);
    if id in s.db.jobs {
      assert RowFits(s, id);
      if GateSteps(s, e) != [] {
        PastRecordingStays(s.gate, GateSteps(s, e)[0], id);
      }
    } else {
      RowBounds(s, s.gate.tracks[id], e.btcPriceUSD);
      NewRowFits(s, e, id);
    }
  }

  lemma NewRowFits(s: State, e: LedgerEvent, id: JobId)
    requires (e.RecordDoneJob? && e.id == id && RecordsDone(s, id, e.ok))
          || (e.RecordExpiredJob? && e.id == id && RecordsExpired(s, id, e.ok))
    ensures id in Step(s, e).gate.tracks && Step(s, e).gate.tracks[id].job == s.gate.tracks[id].job
    ensures MayBeRecorded(Step(s, e).gate.tracks[id].exit)
    ensures id in Step(s, e).db.jobs && Step(s, e).db.jobs[id] == RowOf(s.billing, s.gate.tracks[id], e.btcPriceUSD)
  {
  }

  lemma StepKeepsRows(s: State, e: LedgerEvent)
    requires RowsInv(s)
    ensures RowsInv(Step(s, e))
  {
    var s' := Step(s, e);
    StepKeepsGate(s, e);
    forall id | id in s'.db.jobs ensures RowFits(s', id) {
      StepKeepsRow(s, e, id);
    }
    JobsGrow(s, e);
    forall id | ExitAt(s'.gate, id, ByDone, Recorded) ensures id in s'.db.jobs {
      if GateSteps(s, e) != [] {
        OnlyRecordingRecords(s.gate, GateSteps(s, e)[0], id);
      }
    }
  }

  lemma StepKeepsCharge(s: State, e: LedgerEvent, c: Charge)
    requires RowsInv(s) && ChargeFits(s, c)
    ensures ChargeFits(Step(s, e), c)
  {
    JobsGrow(s, e);
    if GateSteps(s, e) != [] {
      PastRecordingStays(s.gate, GateSteps(s, e)[0], c.id);
    }
  }

  lemma NewCharge(s: State, e: LedgerEvent)
    requires RowsInv(s) && e.ChargeJob? && Charges(s, e.id, e.ok)
    ensures ChargeFits(Step(s, e), Charge(e.id, s.gate.tracks[e.id].job.key, Cost(s.db.jobs[e.id])))
    ensures forall c | ChargeFits(s, c) :: c.id != e.id
  {
    assert RowFits(s, e.id);
    PastRecordingStays(s.gate, SettleDone(e.id), e.id);
    JobsGrow(s, e);
  }

  lemma StepKeepsCharges(s: State, e: LedgerEvent)
    requires RowsInv(s) && ChargesInv(s)
    ensures ChargesInv(Step(s, e))
  {
    var s' := Step(s, e);
    forall c | c in s.charges ensures ChargeFits(s', c) {
      StepKeepsCharge(s, e, c);
    }
    if s'.charges != s.charges {
      NewCharge(s, e);
    }
  }

  // ---------- users' money ----------

  function ChargeTotal(charges: seq<Charge>): int {
    if charges == [] then 0 else ChargeTotal(charges[..|charges| - 1]) + charges[|charges| - 1].amount
  }

  ghost predicate MoneyInv(s: State) {
    && TotalsMatch(s)
    && (forall k | k in s.db.accounts :: 0 <= s.db.accounts[k].balance)
    && (forall h | h in s.db.invoices :: s.db.invoices[h].key in s.db.accounts && 0 < s.db.invoices[h].amount)
    && (forall h | h in s.db.invoices && s.db.invoices[h].status.Credited? :: h in s.reportedPaid)
  }

  ghost predicate TotalsMatch(s: State) {
    Balances(s.db) == CreditedTotal(s.db) - ChargeTotal(s.charges)
  }

  lemma ChargeKeepsTotals(s: State, id: JobId)
    requires TotalsMatch(s) && Charges(s, id, true)
    ensures TotalsMatch(Step(s, ChargeJob(id, true)))
  {
    AddBalanceMoves(s.db, s.gate.tracks[id].job.key, -Cost(s.db.jobs[id]));
    var charges := Step(s, ChargeJob(id, true)).charges;
    assert charges[..|charges| - 1] == s.charges;
  }

  lemma RecordingKeepsTotals(s: State, e: LedgerEvent)
    requires TotalsMatch(s) && (e.RecordDoneJob? || e.RecordExpiredJob? || e.PayoutStep? || e.RegisterNode?)
    ensures TotalsMatch(Step(s, e))
  {
    assert BalanceOf(Step(s, e).db) == BalanceOf(s.db) && CreditedOf(Step(s, e).db) == CreditedOf(s.db);
  }

  lemma StepKeepsTotals(s: State, e: LedgerEvent)
    requires TotalsMatch(s)
    requires forall h | h in s.db.invoices :: s.db.invoices[h].key in s.db.accounts
    ensures TotalsMatch(Step(s, e))
  {
    match e
    case ChargeJob(id, ok) =>
      if Charges(s, id, ok) {
        ChargeKeepsTotals(s, id);
      }
    case CreateKey(key, quotaDaily, _) => InsertAccountMoves(s.db, key, quotaDaily);
    case TopUp(hash, key, sats, now, _) => InsertInvoiceMovesNothing(s.db, hash, key, sats * MSATS_PER_SAT, now);
    case ExpireInvoices(now, _) => ExpireMovesNothing(s.db, now);
    case CheckInvoice(hash, _, _) => CreditMoves(s.db, hash);
    case Gateway(_) =>
    case _ => RecordingKeepsTotals(s, e);
  }

  lemma StepKeepsBalances(s: State, e: LedgerEvent)
    requires MoneyInv(s)
    ensures s.db.accounts.Keys <= Step(s, e).db.accounts.Keys
    ensures forall k | k in Step(s, e).db.accounts :: 0 <= Step(s, e).db.accounts[k].balance
  {
  }

  lemma StepKeepsInvoice(s: State, e: LedgerEvent, h: Hash)
    requires MoneyInv(s) && h in Step(s, e).db.invoices
    ensures var s' := Step(s, e);
            && s'.db.invoices[h].key in s'.db.accounts && 0 < s'.db.invoices[h].amount
            && (s'.db.invoices[h].status.Credited? ==> h in s'.reportedPaid)
  {
    StepKeepsBalances(s, e);
    if h in s.db.invoices {
      InvoiceStep(s, e, h);
    } else {
      InvoiceBorn(s, e, h);
    }
  }

  lemma StepKeepsMoney(s: State, e: LedgerEvent)
    requires MoneyInv(s)
    ensures MoneyInv(Step(s, e))
  {
    StepKeepsTotals(s, e);
    StepKeepsBalances(s, e);
    var s' := Step(s, e);
    forall h | h in s'.db.invoices
      ensures s'.db.invoices[h].key in s'.db.accounts && 0 < s'.db.invoices[h].amount
      ensures s'.db.invoices[h].status.Credited? ==> h in s'.reportedPaid
    {
      StepKeepsInvoice(s, e, h);
    }
  }

  // ---------- every reachable state ----------

  lemma {:induction false} ReachableMoney(billing: Billing.Engine, maxPerHour: int, now: int, es: seq<LedgerEvent>)
    requires billing.Valid()
    ensures var s := Exec(Init(billing, maxPerHour, now), es);
            RowsInv(s) && ChargesInv(s) && MoneyInv(s)
  {
    var init := Init(billing, maxPerHour, now);
    if es == [] {
      assert BalanceOf(EMPTY_DB) == map[] && CreditedOf(EMPTY_DB) == map[];
    } else {
      var n := |es| - 1;
      ReachableMoney(billing, maxPerHour, now, es[..n]);
      var s := Exec(init, es[..n]);
      StepKeepsRows(s, es[n]);
      StepKeepsCharges(s, es[n]);
      StepKeepsMoney(s, es[n]);
    }
  }

  /** The main theorem on users' money, for every run from an empty database: all
      balances together are what was credited less what was deducted, none is
      negative, only invoices reported paid were credited, and the deductions
      belong to distinct recorded, paid-tier jobs whose proxy_done won, each for
      exactly the provider's part plus the fee. */
  lemma UserMoneyConserved(billing: Billing.Engine, maxPerHour: int, now: int, es: seq<LedgerEvent>)
    requires billing.Valid()
    ensures var s := Exec(Init(billing, maxPerHour, now), es);
            && Balances(s.db) == CreditedTotal(s.db) - ChargeTotal(s.charges)
            && (forall k | k in s.db.accounts :: 0 <= s.db.accounts[k].balance)
            && (forall h | h in s.db.invoices && s.db.invoices[h].status.Credited? :: h in s.reportedPaid)
            && (forall i, j | 0 <= i < j < |s.charges| :: s.charges[i].id != s.charges[j].id)
            && (forall c | c in s.charges ::
                  && c.id in s.db.jobs && !s.db.jobs[c.id].job.free && c.key == s.db.jobs[c.id].job.key
                  && 0 < c.amount == s.db.jobs[c.id].earned + s.db.jobs[c.id].fee <= Billing.MAX_EARNINGS_PER_JOB_MSATS
                  && ExitAt(s.gate, c.id, ByDone, Settled))
  {
    ReachableMoney(billing, maxPerHour, now, es);
    var s := Exec(Init(billing, maxPerHour, now), es);
    forall c | c in s.charges ensures ChargeFits(s, c) && RowFits(s, c.id) {
    }
  }

  // ---------- what users pay for and what they do not ----------

  function CostOf(db: Db): map<JobId, int> {
    map id | id in db.jobs :: Cost(db.jobs[id])
  }

  function ChargedIds(charges: seq<Charge>): set<JobId> {
    set i | 0 <= i < |charges| :: charges[i].id
  }

  /** The costs of the recorded jobs no deduction was made for. */
  function Uncharged(s: State): map<JobId, int> {
    CostOf(s.db) - ChargedIds(s.charges)
  }

  lemma {:induction false} TotalLessCharges(costs: map<JobId, int>, charges: seq<Charge>)
    requires forall i, j | 0 <= i < j < |charges| :: charges[i].id != charges[j].id
    requires forall c | c in charges :: c.id in costs && costs[c.id] == c.amount
    ensures Total(costs) == ChargeTotal(charges) + Total(costs - ChargedIds(charges))
  {
    if charges == [] {
      assert costs - ChargedIds(charges) == costs;
    } else {
      var n := |charges| - 1;
      var front, last := charges[..n], charges[n];
      TotalLessCharges(costs, front);
      assert last in charges;
      assert forall i | 0 <= i < n :: charges[i] == front[i];
      assert last.id !in ChargedIds(front);
      assert ChargedIds(charges) == ChargedIds(front) + {last.id};
      TotalRemove(costs - ChargedIds(front), last.id);
      assert costs - ChargedIds(front) - {last.id} == costs - ChargedIds(charges);
    }
  }

  /** Jobs no user is ever charged for. */
  predicate NeverCharged(s: State, id: JobId)
    requires id in s.db.jobs
  {
    s.db.jobs[id].job.free || ExitAt(s.gate, id, ByExpiry, Settled)
  }

  lemma NeverChargedIsUncharged(s: State, id: JobId)
    requires ChargesInv(s) && id in s.db.jobs && NeverCharged(s, id)
    ensures id in Uncharged(s)
  {
    if id in ChargedIds(s.charges) {
      ChargedRow(s, id);
    }
  }

  lemma ChargedRow(s: State, id: JobId)
    requires ChargesInv(s) && id in ChargedIds(s.charges)
    ensures id in s.db.jobs && !NeverCharged(s, id) && ExitAt(s.gate, id, ByDone, Settled)
  {
    var i :| 0 <= i < |s.charges| && s.charges[i].id == id;
    assert ChargeFits(s, s.charges[i]);
  }

  /** What all recorded jobs cost is what users were charged plus what the gateway
      bears itself.  Free jobs and jobs the cleanup loop recorded are always among
      the latter; users pay for everything exactly when all of those cost nothing. */
  lemma RecordedCostSplit(billing: Billing.Engine, maxPerHour: int, now: int, es: seq<LedgerEvent>)
    requires billing.Valid()
    ensures var s := Exec(Init(billing, maxPerHour, now), es);
            && Total(CostOf(s.db)) == ChargeTotal(s.charges) + Total(Uncharged(s))
            && (forall id | id in s.db.jobs && NeverCharged(s, id) :: id in Uncharged(s))
            && (Total(CostOf(s.db)) == ChargeTotal(s.charges)
                <==> forall id | id in Uncharged(s) :: Uncharged(s)[id] == 0)
  {
    ReachableMoney(billing, maxPerHour, now, es);
    var s := Exec(Init(billing, maxPerHour, now), es);
    forall c | c in s.charges ensures c.id in CostOf(s.db) && CostOf(s.db)[c.id] == c.amount {
      assert ChargeFits(s, c);
    }
    TotalLessCharges(CostOf(s.db), s.charges);
    forall id | id in s.db.jobs ensures RowFits(s, id) {
    }
    ZeroTotal(Uncharged(s));
    forall id | id in s.db.jobs && NeverCharged(s, id) ensures id in Uncharged(s) {
      NeverChargedIsUncharged(s, id);
    }
  }

  /** In every run the INSERT of either recording path never meets a row with the
      same job id: whether the row is stored depends on the database alone. */
  lemma NoKeyConflict(billing: Billing.Engine, maxPerHour: int, now: int, es: seq<LedgerEvent>, id: JobId)
    requires billing.Valid()
    ensures var s := Exec(Init(billing, maxPerHour, now), es);
            (ExitAt(s.gate, id, ByDone, Released) || ExitAt(s.gate, id, ByExpiry, Released)) ==> id !in s.db.jobs
  {
    ReachableMoney(billing, maxPerHour, now, es);
    var s := Exec(Init(billing, maxPerHour, now), es);
    if id in s.db.jobs {
      assert RowFits(s, id);
    }
  }

  // ---------- the life of an invoice ----------

  /** This step adds the invoice's amount to a balance. */
  predicate Credits(s: State, e: LedgerEvent, h: Hash) {
    e == CheckInvoice(h, true, true) && IsPending(s.db, h)
  }

  ghost function CreditCount(init: State, es: seq<LedgerEvent>, h: Hash): nat {
    if es == [] then 0 else
    var n := |es| - 1;
    CreditCount(init, es[..n], h) + OnlyIf(Credits(Exec(init, es[..n]), es[n], h))
  }

  /** One step of one invoice: its key and amount never change, only a pending
      invoice changes status, and only by a credit or by age. */
  lemma InvoiceStep(s: State, e: LedgerEvent, h: Hash)
    requires h in s.db.invoices
    ensures h in Step(s, e).db.invoices
    ensures var inv, inv' := s.db.invoices[h], Step(s, e).db.invoices[h];
            inv' == if Credits(s, e, h) then inv.(status := Credited)
                    else if e.ExpireInvoices? && e.ok then Aged(inv, e.now)
                    else inv
  {
  }

  lemma InvoiceBorn(s: State, e: LedgerEvent, h: Hash)
    requires h !in s.db.invoices
    ensures !Credits(s, e, h)
    ensures h in Step(s, e).db.invoices ==> Step(s, e).db.invoices[h].status.Pending?
  {
  }

  predicate HasStatus(s: State, h: Hash, status: InvoiceStatus) {
    h in s.db.invoices && s.db.invoices[h].status == status
  }

  /** In every run an invoice is credited once if it ends up credited, and never
      otherwise; however often the watcher calls CreditInvoice. */
  lemma {:induction false} CreditedAtMostOnce(init: State, es: seq<LedgerEvent>, h: Hash)
    requires init.db == EMPTY_DB
    ensures CreditCount(init, es, h) == OnlyIf(HasStatus(Exec(init, es), h, Credited))
  {
    if es != [] {
      var n := |es| - 1;
      CreditedAtMostOnce(init, es[..n], h);
      var s := Exec(init, es[..n]);
      if h in s.db.invoices {
        InvoiceStep(s, es[n], h);
      } else {
        InvoiceBorn(s, es[n], h);
      }
    }
  }

  /** Once credited or expired an invoice keeps its status, key and amount. */
  lemma {:induction false} SettledInvoiceStays(s: State, es: seq<LedgerEvent>, h: Hash)
    requires h in s.db.invoices && !s.db.invoices[h].status.Pending?
    ensures h in Exec(s, es).db.invoices && Exec(s, es).db.invoices[h] == s.db.invoices[h]
  {
    if es != [] {
      var n := |es| - 1;
      SettledInvoiceStays(s, es[..n], h);
      InvoiceStep(Exec(s, es[..n]), es[n], h);
    }
  }
}
