/** Runs of the system, from an empty database and through every gate, in which two
    expectations fail: that users pay for each recorded job, and that a node can be
    paid whatever it is owed. */
module Scenarios {
  import opened MapSums
  import opened Names
  import opened JobGate
  import opened Tables
  import opened Ledger
  import opened Gateway
  import opened HandlerRuns
  import opened ProviderLedger
  import Billing
  import P = Payouts
  import PayoutReach
  import Q = QuotaRuns
  import Unpaid

  const PRICES := Billing.Engine(5.0, map[])
  const USAGE := Usage(100_000, 100_000)
  const NODE := NodeRow("a@b.c", 100)

  // ---------- node n and user u join ----------

  /** A paid job needs a balance: ten sats, topped up and paid. */
  function JoinSteps(free: bool): seq<LedgerEvent> {
    var joined := [] + [RegisterNode("n", NODE, true)] + [CreateKey("u", 10, true)];
    if free then joined else joined + [TopUp("h", "u", 10, 0, true)] + [CheckInvoice("h", true, true)]
  }

  function Joined(maxPerHour: int, free: bool): State {
    var s := Init(PRICES, maxPerHour, 0);
    var db := EMPTY_DB.(nodes := map["n" := NODE], accounts := map["u" := Account(10, if free then 0 else 10_000)]);
    if free then s.(db := db)
    else s.(db := db.(invoices := map["h" := Invoice("u", 10_000, Credited, 0)]), reportedPaid := {"h"})
  }

  lemma PaidUp(s: State)
    requires s.db.accounts == map["u" := Account(10, 0)] && s.db.invoices == map[] && s.reportedPaid == {}
    ensures Ledger.Step(Ledger.Step(s, TopUp("h", "u", 10, 0, true)), CheckInvoice("h", true, true))
         == s.(db := s.db.(accounts := map["u" := Account(10, 10_000)],
                           invoices := map["h" := Invoice("u", 10_000, Credited, 0)]), reportedPaid := {"h"})
  {
    var topped := Ledger.Step(s, TopUp("h", "u", 10, 0, true));
    var invoice := Invoice("u", 10_000, Pending, 0);
    assert topped == s.(db := s.db.(invoices := map["h" := invoice]));
    assert Credit(topped.db, "h")
        == s.db.(accounts := map["u" := Account(10, 10_000)], invoices := map["h" := invoice.(status := Credited)]);
  }

  lemma JoinedState(maxPerHour: int, free: bool)
    ensures Ledger.Exec(Init(PRICES, maxPerHour, 0), JoinSteps(free)) == Joined(maxPerHour, free)
  {
    var init := Init(PRICES, maxPerHour, 0);
    AfterOne(init, [], RegisterNode("n", NODE, true));
    AfterOne(init, [] + [RegisterNode("n", NODE, true)], CreateKey("u", 10, true));
    var joined := [] + [RegisterNode("n", NODE, true)] + [CreateKey("u", 10, true)];
    assert Ledger.Exec(init, joined) == Joined(maxPerHour, true);
    if !free {
      AfterOne(init, joined, TopUp("h", "u", 10, 0, true));
      AfterOne(init, joined + [TopUp("h", "u", 10, 0, true)], CheckInvoice("h", true, true));
      PaidUp(Joined(maxPerHour, true));
    }
  }

  // ---------- a job is admitted and served ----------

  /** From the playground the request is free; otherwise it needs the balance. */
  function Request(free: bool): Q.Handler {
    Q.Chat("j", "u", free, "m", "n", true, 0, true)
  }

  function ServedJob(free: bool): Job {
    Job("n", "u", "m", free)
  }

  function AdmitSteps(free: bool): seq<LedgerEvent> {
    JoinSteps(free) + OnGate(AssignSteps("j", ServedJob(free), true, 0, true))
  }

  function ServedSteps(free: bool): seq<LedgerEvent> {
    AdmitSteps(free) + OnGate([] + [ChunkLookup("j", "n", USAGE)] + [ChunkWrite("j", 0)])
  }

  /** The gate of HandleChatCompletions lets the request through. */
  lemma RequestGetsIn(maxPerHour: int, free: bool)
    ensures Q.GetsIn(Joined(maxPerHour, free), Request(free))
    ensures Q.JobOf(Joined(maxPerHour, free), Request(free)) == ServedJob(free)
  {
  }

  function AdmittedGate(free: bool): Gate {
    Gate(map["j" := FreshTrack(ServedJob(free), 0)], {"j"}, map["u" := 1])
  }

  function ServedGate(free: bool): Gate {
    Gate(map["j" := FreshTrack(ServedJob(free), 0).(lastUsage := USAGE)], {"j"}, map["u" := 1])
  }

  lemma FirstOutcome(free: bool)
    ensures AssignOutcome(EMPTY_GATE, "j", ServedJob(free), true, 0, true) == AdmittedGate(free)
    ensures Inv(AdmittedGate(free))
  {
    AssignOutcomeInv(EMPTY_GATE, "j", ServedJob(free), true, 0, true);
  }

  lemma AdmittedState(maxPerHour: int, free: bool)
    ensures Ledger.Exec(Init(PRICES, maxPerHour, 0), AdmitSteps(free))
         == Joined(maxPerHour, free).(gate := AdmittedGate(free))
  {
    JoinedState(maxPerHour, free);
    FirstOutcome(free);
    AssignIsRun(Init(PRICES, maxPerHour, 0), JoinSteps(free), "j", ServedJob(free), true, 0, true);
  }

  lemma ChunkIsRun(init: State, es: seq<LedgerEvent>, id: JobId, u: Usage)
    requires var g := Ledger.Exec(init, es).gate; Inv(g) && id in g.pending && g.tracks[id].writers == []
    ensures var s := Ledger.Exec(init, es);
            Ledger.Exec(init, es + OnGate([] + [ChunkLookup(id, s.gate.tracks[id].job.node, u)] + [ChunkWrite(id, 0)]))
            == s.(gate := ChunkOutcome(s.gate, id, u))
  {
    var s := Ledger.Exec(init, es);
    var look, write := ChunkLookup(id, s.gate.tracks[id].job.node, u), ChunkWrite(id, 0);
    GateRun(init, es, [] + [look] + [write]);
    GateAfterOne(s.gate, [], look);
    GateAfterOne(s.gate, [] + [look], write);
    ChunkRun(s.gate, id, u);
  }

  lemma ChunkServes(free: bool)
    ensures ChunkOutcome(AdmittedGate(free), "j", USAGE) == ServedGate(free)
  {
    var t := FreshTrack(ServedJob(free), 0);
    assert map["j" := t]["j" := t.(lastUsage := USAGE)] == map["j" := t.(lastUsage := USAGE)];
  }

  lemma ServedState(maxPerHour: int, free: bool)
    ensures Ledger.Exec(Init(PRICES, maxPerHour, 0), ServedSteps(free))
         == Joined(maxPerHour, free).(gate := ServedGate(free))
  {
    AdmittedState(maxPerHour, free);
    FirstOutcome(free);
    ChunkIsRun(Init(PRICES, maxPerHour, 0), AdmitSteps(free), "j", USAGE);
    ChunkServes(free);
  }

  // ---------- the job is done ----------

  function FinishedSteps(free: bool, price: real): seq<LedgerEvent> {
    ServedSteps(free) + DoneSteps("j", "n", price, true, true)
  }

  /** The job is recorded and, free or dearer than the balance, not charged. */
  lemma UnpaidOutcome(s: State, id: JobId, price: real)
    requires id in s.gate.tracks && id !in s.db.jobs
    requires var t := s.gate.tracks[id]; t.job.free || !CanDeduct(s.db, t.job.key, Cost(RowOf(s.billing, t, price)))
    ensures DoneOutcome(s, id, price, true, true)
         == s.(gate := ClosedAndFreed(s.gate, id, Left(ByDone, Settled)),
               db := InsertJob(s.db, id, RowOf(s.billing, s.gate.tracks[id], price)))
  {
  }

  lemma FinishedState(maxPerHour: int, free: bool, price: real)
    requires Cost(RowOf(PRICES, ServedGate(free).tracks["j"], price)) > 10_000
    ensures var s := Ledger.Exec(Init(PRICES, maxPerHour, 0), FinishedSteps(free, price));
            && s.charges == [] && s.pay == P.NewEngine(maxPerHour, 0)
            && ExitAt(s.gate, "j", ByDone, Settled)
            && s.db == InsertJob(Joined(maxPerHour, free).db, "j", RowOf(PRICES, ServedGate(free).tracks["j"], price))
  {
    var init := Init(PRICES, maxPerHour, 0);
    ServedState(maxPerHour, free);
    var s := Joined(maxPerHour, free).(gate := ServedGate(free));
    assert Inv(s.gate) by {
      ReachableMoney(PRICES, maxPerHour, 0, ServedSteps(free));
    }
    DoneIsRun(init, ServedSteps(free), "j", price, true, true);
    UnpaidOutcome(s, "j", price);
  }

  /** An admitted job of 100 sats that its node is credited for and nobody pays: it
      is free, or its user has ten sats, which stay. */
  lemma UnpaidRun(free: bool)
    ensures var s := Ledger.Exec(Init(PRICES, 0, 0), FinishedSteps(free, 10_000.0));
            && Q.GetsIn(Ledger.Exec(Init(PRICES, 0, 0), JoinSteps(free)), Request(free))
            && Q.JobOf(Ledger.Exec(Init(PRICES, 0, 0), JoinSteps(free)), Request(free)) == ServedJob(free)
            && s.charges == [] && "j" in s.db.jobs
            && s.db.jobs["j"].earned == 95_000 && Cost(s.db.jobs["j"]) == 100_000
            && s.db.accounts == map["u" := Account(10, if free then 0 else 10_000)]
  {
    JoinedState(0, free);
    RequestGetsIn(0, free);
    Billing.HundredSats(PRICES, "m");
    FinishedState(0, free, 10_000.0);
  }

  /** Some step of that run is one that leaves a job unpaid. */
  lemma UnpaidRunHasSuchStep(free: bool)
    ensures !Unpaid.NoneUnpaid(Init(PRICES, 0, 0), FinishedSteps(free, 10_000.0))
  {
    var es := FinishedSteps(free, 10_000.0);
    UnpaidRun(free);
    FinishedGate(free);
    NotCovered(Ledger.Exec(Init(PRICES, 0, 0), es), "j");
    Unpaid.CoveredIffNoneUnpaid(PRICES, 0, 0, es);
  }

  lemma FinishedGate(free: bool)
    ensures ExitAt(Ledger.Exec(Init(PRICES, 0, 0), FinishedSteps(free, 10_000.0)).gate, "j", ByDone, Settled)
  {
    Billing.HundredSats(PRICES, "m");
    FinishedState(0, free, 10_000.0);
  }

  lemma NotCovered(s: State, id: JobId)
    requires s.charges == [] && id in s.db.jobs && Cost(s.db.jobs[id]) > 0 && ExitAt(s.gate, id, ByDone, Settled)
    ensures !Unpaid.AllCovered(s)
  {
    assert !Unpaid.Covered(s, id);
  }

  // ---------- a node nobody can pay ----------

  lemma OneJobEarns(db: Db, id: JobId, row: JobRow)
    requires db.jobs == map[] && db.payouts == []
    ensures NodeBalance(InsertJob(db, id, row), row.job.node) == row.earned
  {
    InsertJobMoves(db, id, row, row.job.node);
    assert EarningsOf(db.jobs, row.job.node) == map[];
  }

  /** One job of 200,000 tokens at 5,000 USD per bitcoin earns node n 190 sats; with a
      cap of 150 sats an hour the engine is idle, the node is due to be paid, and no
      continuation of any length ever pays it. */
  lemma NeverPaidRun()
    ensures var s := Ledger.Exec(Init(PRICES, 150, 0), FinishedSteps(true, 5_000.0));
            && s.pay.run.Idle? && P.Payable(s.db, "n") && NodeBalance(s.db, "n") == 190_000
            && forall es :: !PayoutReach.PaidLater(s, es, "n")
  {
    var s := Ledger.Exec(Init(PRICES, 150, 0), FinishedSteps(true, 5_000.0));
    Billing.CappedJob(PRICES, "m");
    FinishedState(150, true, 5_000.0);
    OneJobEarns(Joined(150, true).db, "j", RowOf(PRICES, ServedGate(true).tracks["j"], 5_000.0));
    ReachableMoney(PRICES, 150, 0, FinishedSteps(true, 5_000.0));
    ReachableProviders(PRICES, 150, 0, FinishedSteps(true, 5_000.0));
    PayoutReach.PaidLaterIffWithinCap(s, "n");
  }
}
