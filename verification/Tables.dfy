/** The SQLite tables that hold money, as maps keyed by their primary keys, and
    the effect of each statement or transaction on them. */
module Tables {
  import opened MapSums
  import opened Names
  import opened JobGate

  type Hash = string

  const INVOICE_LIFETIME_SECONDS := 600
  const MIN_REDEEM_THRESHOLD_SATS := 100
  const MSATS_PER_SAT := 1000

  datatype Account = Account(quotaDaily: int, balance: int)
  datatype InvoiceStatus = Pending | Credited | Expired
  datatype Invoice = Invoice(key: Key, amount: int, status: InvoiceStatus, createdAt: int)
  datatype JobRow = JobRow(job: Job, usage: Usage, earned: int, fee: int, startedAt: int)
  datatype NodeRow = NodeRow(address: string, threshold: int)
  datatype Payout = Payout(node: NodeId, amount: int)

  datatype Db = Db(
    accounts: map<Key, Account>,
    invoices: map<Hash, Invoice>,
    jobs: map<JobId, JobRow>,
    nodes: map<NodeId, NodeRow>,
    payouts: seq<Payout>)

  const EMPTY_DB := Db(map[], map[], map[], map[], [])

  // ---------- statements ----------

  function InsertJob(db: Db, id: JobId, row: JobRow): Db {
    if id in db.jobs then db else db.(jobs := db.jobs[id := row])
  }

  predicate CanDeduct(db: Db, key: Key, amount: int) {
    key in db.accounts && db.accounts[key].balance >= amount
  }

  function AddBalance(db: Db, key: Key, amount: int): Db {
    if key !in db.accounts then db else
    var account := db.accounts[key];
    db.(accounts := db.accounts[key := account.(balance := account.balance + amount)])
  }

  function Deduct(db: Db, key: Key, amount: int): Db {
    if CanDeduct(db, key, amount) then AddBalance(db, key, -amount) else db
  }

  function InsertAccount(db: Db, key: Key, quotaDaily: int): Db {
    if key in db.accounts then db else db.(accounts := db.accounts[key := Account(quotaDaily, 0)])
  }

  function InsertInvoice(db: Db, hash: Hash, key: Key, amount: int, now: int): Db {
    if hash in db.invoices then db else
    db.(invoices := db.invoices[hash := Invoice(key, amount, Pending, now)])
  }

  predicate IsPending(db: Db, hash: Hash) {
    hash in db.invoices && db.invoices[hash].status.Pending?
  }

  /** Both updates of the CreditInvoice transaction; an unknown user key makes
      the second one touch no row. */
  function Credit(db: Db, hash: Hash): Db {
    if !IsPending(db, hash) then db else
    var invoice := db.invoices[hash];
    AddBalance(db.(invoices := db.invoices[hash := invoice.(status := Credited)]), invoice.key, invoice.amount)
  }

  predicate IsOld(invoice: Invoice, now: int) {
    invoice.createdAt < now - INVOICE_LIFETIME_SECONDS
  }

  function PendingAndOld(invoices: map<Hash, Invoice>, now: int): set<Hash> {
    set h | h in invoices && invoices[h].status.Pending? && IsOld(invoices[h], now)
  }

  function Aged(invoice: Invoice, now: int): Invoice {
    if invoice.status.Pending? && IsOld(invoice, now) then invoice.(status := Expired) else invoice
  }

  function ExpireOld(db: Db, now: int): Db {
    db.(invoices := map h | h in db.invoices :: Aged(db.invoices[h], now))
  }

  function UpsertNode(db: Db, node: NodeId, row: NodeRow): Db {
    db.(nodes := db.nodes[node := row])
  }

  function InsertPayout(db: Db, node: NodeId, amount: int): Db {
    db.(payouts := db.payouts + [Payout(node, amount)])
  }

  // ---------- sums ----------

  function BalanceOf(db: Db): map<Key, int> {
    map k | k in db.accounts :: db.accounts[k].balance
  }

  function CreditedOf(db: Db): map<Hash, int> {
    map h | h in db.invoices && db.invoices[h].status.Credited? :: db.invoices[h].amount
  }

  function EarningsOf(jobs: map<JobId, JobRow>, node: NodeId): map<JobId, int> {
    map id | id in jobs && jobs[id].job.node == node :: jobs[id].earned
  }

  ghost function Balances(db: Db): int {
    Total(BalanceOf(db))
  }

  ghost function CreditedTotal(db: Db): int {
    Total(CreditedOf(db))
  }

  ghost function Earned(db: Db, node: NodeId): int {
    Total(EarningsOf(db.jobs, node))
  }

  function PaidIn(payouts: seq<Payout>, node: NodeId): int {
    if payouts == [] then 0 else
    var n := |payouts| - 1;
    PaidIn(payouts[..n], node) + if payouts[n].node == node then payouts[n].amount else 0
  }

  function Paid(db: Db, node: NodeId): int {
    PaidIn(db.payouts, node)
  }

  ghost function NodeBalance(db: Db, node: NodeId): int {
    Earned(db, node) - Paid(db, node)
  }

  // ---------- how the statements move the sums ----------

  lemma AddBalanceMoves(db: Db, key: Key, amount: int)
    ensures Balances(AddBalance(db, key, amount)) == Balances(db) + if key in db.accounts then amount else 0
    ensures CreditedOf(AddBalance(db, key, amount)) == CreditedOf(db)
  {
    if key in db.accounts {
      var b := BalanceOf(db);
      assert BalanceOf(AddBalance(db, key, amount)) == b[key := b[key] + amount];
      TotalSet(b, key, b[key] + amount);
    }
  }

  lemma InsertAccountMoves(db: Db, key: Key, quotaDaily: int)
    ensures Balances(InsertAccount(db, key, quotaDaily)) == Balances(db)
  {
    if key !in db.accounts {
      assert BalanceOf(InsertAccount(db, key, quotaDaily)) == BalanceOf(db)[key := 0];
      TotalSet(BalanceOf(db), key, 0);
    }
  }

  /** Crediting moves the same amount into the credited invoices and, when the
      key exists, into the balances; a second call moves nothing. */
  lemma CreditMoves(db: Db, hash: Hash)
    ensures var db' := Credit(db, hash);
            var amount := if IsPending(db, hash) then db.invoices[hash].amount else 0;
            && CreditedTotal(db') == CreditedTotal(db) + amount
            && (IsPending(db, hash) && db.invoices[hash].key in db.accounts ==> Balances(db') == Balances(db) + amount)
            && (!IsPending(db, hash) ==> db' == db)
            && !IsPending(db', hash)
  {
    if IsPending(db, hash) {
      var invoice := db.invoices[hash];
      var marked := db.(invoices := db.invoices[hash := invoice.(status := Credited)]);
      assert CreditedOf(marked) == CreditedOf(db)[hash := invoice.amount];
      TotalSet(CreditedOf(db), hash, invoice.amount);
      AddBalanceMoves(marked, invoice.key, invoice.amount);
    }
  }

  lemma ExpireMovesNothing(db: Db, now: int)
    ensures CreditedOf(ExpireOld(db, now)) == CreditedOf(db)
  {
  }

  lemma InsertInvoiceMovesNothing(db: Db, hash: Hash, key: Key, amount: int, now: int)
    ensures CreditedOf(InsertInvoice(db, hash, key, amount, now)) == CreditedOf(db)
  {
  }

  lemma InsertJobMoves(db: Db, id: JobId, row: JobRow, node: NodeId)
    ensures Earned(InsertJob(db, id, row), node)
         == Earned(db, node) + if id !in db.jobs && row.job.node == node then row.earned else 0
  {
    var db' := InsertJob(db, id, row);
    var e := EarningsOf(db.jobs, node);
    if id !in db.jobs && row.job.node == node {
      assert EarningsOf(db'.jobs, node) == e[id := row.earned];
      TotalSet(e, id, row.earned);
    } else {
      assert EarningsOf(db'.jobs, node) == e;
    }
  }

  lemma InsertPayoutMoves(db: Db, paid: NodeId, amount: int, node: NodeId)
    ensures Paid(InsertPayout(db, paid, amount), node) == Paid(db, node) + if paid == node then amount else 0
  {
    var p := db.payouts + [Payout(paid, amount)];
    assert p[..|p| - 1] == db.payouts;
  }
}
