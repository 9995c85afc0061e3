/** The two sides of the ledger joined: what came in from the users, or was borne
    by the gateway, against what is owed, was paid out, or stays as fees. */
module Books {
  import opened MapSums
  import opened Names
  import opened Tables
  import opened Ledger
  import Billing

  function Earners(jobs: map<JobId, JobRow>): set<NodeId> {
    set id | id in jobs :: jobs[id].job.node
  }

  function Payees(payouts: seq<Payout>): set<NodeId> {
    set i | 0 <= i < |payouts| :: payouts[i].node
  }

  /** Every node that ever earned or was paid. */
  function Providers(db: Db): set<NodeId> {
    Earners(db.jobs) + Payees(db.payouts)
  }

  ghost function EarnedBy(jobs: map<JobId, JobRow>, nodes: set<NodeId>): map<NodeId, int> {
    map node | node in nodes :: Total(EarningsOf(jobs, node))
  }

  function PaidTo(payouts: seq<Payout>, nodes: set<NodeId>): map<NodeId, int> {
    map node | node in nodes :: PaidIn(payouts, node)
  }

  ghost function Owed(db: Db): map<NodeId, int> {
    map node | node in Providers(db) :: NodeBalance(db, node)
  }

  function AllEarnings(jobs: map<JobId, JobRow>): map<JobId, int> {
    map id | id in jobs :: jobs[id].earned
  }

  function Fees(db: Db): map<JobId, int> {
    map id | id in db.jobs :: db.jobs[id].fee
  }

  function PaidOut(payouts: seq<Payout>): int {
    if payouts == [] then 0 else PaidOut(payouts[..|payouts| - 1]) + payouts[|payouts| - 1].amount
  }

  // ---------- summing by node is summing by row ----------

  lemma EarnedByInsert(jobs: map<JobId, JobRow>, id: JobId, nodes: set<NodeId>)
    requires id in jobs && jobs[id].job.node in nodes
    ensures var less, node := EarnedBy(jobs - {id}, nodes), jobs[id].job.node;
            EarnedBy(jobs, nodes) == less[node := less[node] + jobs[id].earned]
  {
    var node := jobs[id].job.node;
    assert EarningsOf(jobs, node) == EarningsOf(jobs - {id}, node)[id := jobs[id].earned];
    TotalSet(EarningsOf(jobs - {id}, node), id, jobs[id].earned);
    forall other | other in nodes && other != node ensures EarningsOf(jobs, other) == EarningsOf(jobs - {id}, other) {
    }
  }

  lemma {:induction false} AllZero(m: map<NodeId, int>)
    requires forall node | node in m :: m[node] == 0
    ensures Total(m) == 0
  {
    ZeroTotal(m);
  }

  lemma RowCountsOnceByNode(jobs: map<JobId, JobRow>, id: JobId, nodes: set<NodeId>)
    requires id in jobs && jobs[id].job.node in nodes
    ensures Total(EarnedBy(jobs, nodes)) == Total(EarnedBy(jobs - {id}, nodes)) + jobs[id].earned
  {
    EarnedByInsert(jobs, id, nodes);
    var less := EarnedBy(jobs - {id}, nodes);
    TotalSet(less, jobs[id].job.node, less[jobs[id].job.node] + jobs[id].earned);
  }

  lemma RowCountsOnce(jobs: map<JobId, JobRow>, id: JobId)
    requires id in jobs
    ensures Total(AllEarnings(jobs)) == Total(AllEarnings(jobs - {id})) + jobs[id].earned
  {
    assert AllEarnings(jobs) == AllEarnings(jobs - {id})[id := jobs[id].earned];
    TotalSet(AllEarnings(jobs - {id}), id, jobs[id].earned);
  }

  lemma NothingEarned(nodes: set<NodeId>)
    ensures Total(EarnedBy(map[], nodes)) == 0
  {
    forall node | node in nodes ensures EarningsOf(map[], node) == map[] {
    }
    AllZero(EarnedBy(map[], nodes));
  }

  lemma {:induction false} EarnedByRows(jobs: map<JobId, JobRow>, nodes: set<NodeId>)
    requires Earners(jobs) <= nodes
    ensures Total(EarnedBy(jobs, nodes)) == Total(AllEarnings(jobs))
    decreases |jobs|
  {
    if jobs == map[] {
      NothingEarned(nodes);
      assert AllEarnings(jobs) == map[];
    } else {
      var id :| id in jobs;
      assert jobs[id].job.node in Earners(jobs);
      assert Earners(jobs - {id}) <= Earners(jobs);
      assert (jobs - {id}).Keys == jobs.Keys - {id};
      assert |(jobs - {id}).Keys| < |jobs.Keys|;
      EarnedByRows(jobs - {id}, nodes);
      RowCountsOnceByNode(jobs, id, nodes);
      RowCountsOnce(jobs, id);
    }
  }

  lemma {:induction false} PaidToRows(payouts: seq<Payout>, nodes: set<NodeId>)
    requires Payees(payouts) <= nodes
    ensures Total(PaidTo(payouts, nodes)) == PaidOut(payouts)
  {
    if payouts == [] {
      AllZero(PaidTo(payouts, nodes));
    } else {
      var n := |payouts| - 1;
      var less, p := PaidTo(payouts[..n], nodes), payouts[n];
      assert p.node in Payees(payouts);
      forall node | node in Payees(payouts[..n]) ensures node in Payees(payouts) {
        var i :| 0 <= i < n && payouts[..n][i].node == node;
        assert payouts[i].node == node;
      }
      PaidToRows(payouts[..n], nodes);
      assert PaidTo(payouts, nodes) == less[p.node := less[p.node] + p.amount];
      TotalSet(less, p.node, less[p.node] + p.amount);
    }
  }

  /** All node balances together are all earnings less all payouts. */
  lemma OwedIsEarnedLessPaid(db: Db)
    ensures Total(Owed(db)) == Total(AllEarnings(db.jobs)) - PaidOut(db.payouts)
  {
    var nodes := Providers(db);
    EarnedByRows(db.jobs, nodes);
    PaidToRows(db.payouts, nodes);
    TotalPlus(EarnedBy(db.jobs, nodes), Owed(db), PaidTo(db.payouts, nodes));
  }

  lemma CostsSplit(db: Db)
    ensures Total(CostOf(db)) == Total(AllEarnings(db.jobs)) + Total(Fees(db))
  {
    TotalPlus(CostOf(db), AllEarnings(db.jobs), Fees(db));
  }

  /** In every run the books balance: invoices credited, and the cost of the jobs
      nobody was charged for, are together what users still have, what nodes are
      still owed, what nodes were paid on record, and the fees. */
  lemma BooksBalance(billing: Billing.Engine, maxPerHour: int, now: int, es: seq<LedgerEvent>)
    requires billing.Valid()
    ensures var s := Ledger.Exec(Init(billing, maxPerHour, now), es);
            CreditedTotal(s.db) + Total(Uncharged(s))
            == Balances(s.db) + Total(Owed(s.db)) + PaidOut(s.db.payouts) + Total(Fees(s.db))
  {
    var s := Ledger.Exec(Init(billing, maxPerHour, now), es);
    UserMoneyConserved(billing, maxPerHour, now, es);
    RecordedCostSplit(billing, maxPerHour, now, es);
    OwedIsEarnedLessPaid(s.db);
    CostsSplit(s.db);
  }

  // ---------- each user's own book ----------

  function CreditedOfKey(db: Db, key: Key): map<Hash, int> {
    map h | h in db.invoices && db.invoices[h].status.Credited? && db.invoices[h].key == key :: db.invoices[h].amount
  }

  function ChargedTo(charges: seq<Charge>, key: Key): int {
    if charges == [] then 0 else
    var n := |charges| - 1;
    ChargedTo(charges[..n], key) + if charges[n].key == key then charges[n].amount else 0
  }

  /** The key's balance is what was credited to it less what it was charged; a key
      without an account has neither. */
  ghost predicate KeyBalances(s: State, key: Key) {
    Total(CreditedOfKey(s.db, key)) - ChargedTo(s.charges, key)
    == if key in s.db.accounts then s.db.accounts[key].balance else 0
  }

  lemma ChargedToAppend(charges: seq<Charge>, c: Charge, key: Key)
    ensures ChargedTo(charges + [c], key) == ChargedTo(charges, key) + if c.key == key then c.amount else 0
  {
    assert (charges + [c])[..|charges + [c]| - 1] == charges;
  }

  lemma ChargeIs(s: State, id: JobId)
    requires Charges(s, id, true)
    ensures var s' := Ledger.Step(s, ChargeJob(id, true));
            var charge := Charge(id, s.gate.tracks[id].job.key, Cost(s.db.jobs[id]));
            && s'.charges == s.charges + [charge] && s'.db.invoices == s.db.invoices
            && charge.key in s.db.accounts && s'.db.accounts.Keys == s.db.accounts.Keys
            && forall k | k in s.db.accounts ::
                 s'.db.accounts[k].balance == s.db.accounts[k].balance - if k == charge.key then charge.amount else 0
  {
  }

  lemma ChargeKeepsKey(s: State, id: JobId, key: Key)
    requires KeyBalances(s, key) && Charges(s, id, true)
    ensures KeyBalances(Ledger.Step(s, ChargeJob(id, true)), key)
  {
    ChargeIs(s, id);
    ChargedToAppend(s.charges, Charge(id, s.gate.tracks[id].job.key, Cost(s.db.jobs[id])), key);
    assert CreditedOfKey(Ledger.Step(s, ChargeJob(id, true)).db, key) == CreditedOfKey(s.db, key);
  }

  lemma CreditKeepsKey(s: State, h: Hash, key: Key)
    requires KeyBalances(s, key) && IsPending(s.db, h) && s.db.invoices[h].key in s.db.accounts
    ensures KeyBalances(Ledger.Step(s, CheckInvoice(h, true, true)), key)
  {
    var before, after := CreditedOfKey(s.db, key), CreditedOfKey(Credit(s.db, h), key);
    if s.db.invoices[h].key == key {
      assert after == before[h := s.db.invoices[h].amount];
      TotalSet(before, h, s.db.invoices[h].amount);
    } else {
      assert after == before;
    }
  }

  lemma OthersKeepKey(s: State, e: LedgerEvent, key: Key)
    requires KeyBalances(s, key)
    requires !(e.ChargeJob? && Charges(s, e.id, e.ok))
    requires !(e.CheckInvoice? && e.paid && e.ok && IsPending(s.db, e.hash))
    ensures KeyBalances(Ledger.Step(s, e), key)
  {
    assert CreditedOfKey(Ledger.Step(s, e).db, key) == CreditedOfKey(s.db, key);
  }

  /** In every run each key's balance is exactly the amounts of its own credited
      invoices less its own charges. */
  lemma {:induction false} EachKeyBalances(billing: Billing.Engine, maxPerHour: int, now: int, es: seq<LedgerEvent>,
                                           key: Key)
    requires billing.Valid()
    ensures KeyBalances(Ledger.Exec(Init(billing, maxPerHour, now), es), key)
  {
    var init := Init(billing, maxPerHour, now);
    if es == [] {
      assert CreditedOfKey(EMPTY_DB, key) == map[];
    } else {
      var n := |es| - 1;
      var s, e := Ledger.Exec(init, es[..n]), es[n];
      EachKeyBalances(billing, maxPerHour, now, es[..n], key);
      ReachableMoney(billing, maxPerHour, now, es[..n]);
      if e.ChargeJob? && Charges(s, e.id, e.ok) {
        ChargeKeepsKey(s, e.id, key);
      } else if e.CheckInvoice? && e.paid && e.ok && IsPending(s.db, e.hash) {
        CreditKeepsKey(s, e.hash, key);
      } else {
        OthersKeepKey(s, e, key);
      }
    }
  }
}
