/** The providers' side of the ledger over whole runs of the system: what a node
    was paid against what it earned, and which nodes the hourly cap shuts out. */
module ProviderLedger {
  import opened Tables
  import opened Ledger
  import Billing
  import P = Payouts
  import opened Names

  function SentTo(sent: seq<P.Sent>, node: NodeId): int {
    if sent == [] then 0 else
    var n := |sent| - 1;
    SentTo(sent[..n], node) + if sent[n].node == node then sent[n].sats else 0
  }

  predicate Busy(run: P.Run, node: NodeId) {
    (run.Calling? || run.Confirmed?) && run.payee.node == node
  }

  // ---------- invariants ----------

  ghost predicate ThresholdsOk(db: Db) {
    forall node | node in db.nodes :: db.nodes[node].threshold >= MIN_REDEEM_THRESHOLD_SATS
  }

  ghost predicate PayeeOk(db: Db, p: P.Payee) {
    && p.threshold >= MIN_REDEEM_THRESHOLD_SATS && p.address != ""
    && NodeBalance(db, p.node) >= p.threshold * MSATS_PER_SAT
  }

  ghost predicate QueueOk(db: Db, queue: seq<P.Payee>) {
    P.Distinct(queue) && forall p | p in queue :: PayeeOk(db, p)
  }

  /** The running call pays at most what the node is owed, and its node is not
      waiting in the queue as well. */
  ghost predicate CallOk(db: Db, run: P.Run) {
    && (run.Paying? || run.Calling? || run.Confirmed? ==> QueueOk(db, run.queue))
    && (run.Calling? || run.Confirmed? ==>
          && run.sats >= MIN_REDEEM_THRESHOLD_SATS
          && run.sats * MSATS_PER_SAT <= NodeBalance(db, run.payee.node)
          && !P.Awaits(run.queue, run.payee.node))
  }

  predicate PayoutOk(p: Payout) {
    p.amount >= MIN_REDEEM_THRESHOLD_SATS * MSATS_PER_SAT && p.amount % MSATS_PER_SAT == 0
  }

  ghost predicate NodeOk(s: State, node: NodeId) {
    && Paid(s.db, node) <= Earned(s.db, node)
    && MSATS_PER_SAT * SentTo(s.pay.sent, node)
       == Paid(s.db, node) + PaidIn(s.pay.lost, node) + MSATS_PER_SAT * Unrecorded(s.pay.run, node)
  }

  ghost predicate ProviderInv(s: State) {
    && P.BudgetInv(s.pay) && ThresholdsOk(s.db) && CallOk(s.db, s.pay.run)
    && (forall p | p in s.db.payouts :: PayoutOk(p))
    && (forall node :: NodeOk(s, node))
  }

  // ---------- one step ----------

  /** What this step pays out of the node's balance. */
  function Withdrawn(s: State, e: LedgerEvent, node: NodeId): int {
    if e.PayoutStep? && e.action == P.Record(true) && s.pay.run.Confirmed? && s.pay.run.payee.node == node
    then s.pay.run.sats * MSATS_PER_SAT else 0
  }

  ghost predicate Moves(s: State, e: LedgerEvent, node: NodeId) {
    && Earned(Step(s, e).db, node) >= Earned(s.db, node)
    && Paid(Step(s, e).db, node) == Paid(s.db, node) + Withdrawn(s, e, node)
  }

  lemma RecordingMoves(s: State, e: LedgerEvent, node: NodeId)
    requires RowsInv(s) && (e.RecordDoneJob? || e.RecordExpiredJob?)
    ensures Moves(s, e, node)
  {
    match e
    case RecordDoneJob(id, price, ok) =>
      if RecordsDone(s, id, ok) {
        RowBounds(s, s.gate.tracks[id], price);
        InsertJobMoves(s.db, id, RowOf(s.billing, s.gate.tracks[id], price), node);
      }
    case RecordExpiredJob(id, price, ok) =>
      if RecordsExpired(s, id, ok) {
        RowBounds(s, s.gate.tracks[id], price);
        InsertJobMoves(s.db, id, RowOf(s.billing, s.gate.tracks[id], price), node);
      }
  }

  lemma PayoutMoves(s: State, e: LedgerEvent, node: NodeId)
    requires e.PayoutStep?
    ensures Moves(s, e, node)
  {
    if s.pay.run.Confirmed? {
      InsertPayoutMoves(s.db, s.pay.run.payee.node, s.pay.run.sats * MSATS_PER_SAT, node);
    }
  }

  lemma OtherMoves(s: State, e: LedgerEvent, node: NodeId)
    requires !e.RecordDoneJob? && !e.RecordExpiredJob? && !e.PayoutStep?
    ensures Moves(s, e, node)
  {
  }

  /** Nothing but a recorded payout lowers a node's balance. */
  lemma BalanceMoves(s: State, e: LedgerEvent, node: NodeId)
    requires RowsInv(s)
    ensures Earned(Step(s, e).db, node) >= Earned(s.db, node)
    ensures Paid(Step(s, e).db, node) == Paid(s.db, node) + Withdrawn(s, e, node)
    ensures NodeBalance(Step(s, e).db, node) >= NodeBalance(s.db, node) - Withdrawn(s, e, node)
  {
    if e.RecordDoneJob? || e.RecordExpiredJob? {
      RecordingMoves(s, e, node);
    } else if e.PayoutStep? {
      PayoutMoves(s, e, node);
    } else {
      OtherMoves(s, e, node);
    }
  }

  lemma QueueCarries(s: State, e: LedgerEvent, queue: seq<P.Payee>)
    requires RowsInv(s) && QueueOk(s.db, queue)
    requires s.pay.run.Confirmed? ==> !P.Awaits(queue, s.pay.run.payee.node)
    ensures QueueOk(Step(s, e).db, queue)
  {
    forall p | p in queue ensures PayeeOk(Step(s, e).db, p) {
      BalanceMoves(s, e, p.node);
      if s.pay.run.Confirmed? {
        assert p.node != s.pay.run.payee.node;
      }
    }
  }

  lemma ListedQueueOk(db: Db, listed: seq<P.Payee>)
    requires ThresholdsOk(db) && P.Lists(db, listed)
    ensures QueueOk(db, listed)
  {
  }

  lemma HeadLeaves(queue: seq<P.Payee>)
    requires queue != [] && P.Distinct(queue)
    ensures P.Distinct(queue[1..]) && !P.Awaits(queue[1..], queue[0].node)
    ensures forall p | p in queue[1..] :: p in queue
  {
  }

  lemma EngineKeepsCall(s: State, action: P.PayEvent)
    requires RowsInv(s) && ThresholdsOk(s.db) && CallOk(s.db, s.pay.run)
    requires !action.Record?
    ensures CallOk(s.db, P.StepEngine(s.pay, s.db, action).run)
  {
    if action.Query? && P.StepEngine(s.pay, s.db, action) != s.pay && action.ok {
      ListedQueueOk(s.db, action.listed);
    }
    if action.Read? && s.pay.run.Paying? && s.pay.run.queue != [] {
      HeadLeaves(s.pay.run.queue);
      assert PayeeOk(s.db, s.pay.run.queue[0]);
    }
  }

  lemma StepKeepsCall(s: State, e: LedgerEvent)
    requires RowsInv(s) && ThresholdsOk(s.db) && CallOk(s.db, s.pay.run)
    ensures CallOk(Step(s, e).db, Step(s, e).pay.run)
  {
    var run := s.pay.run;
    if e.PayoutStep? && !e.action.Record? {
      EngineKeepsCall(s, e.action);
    } else if run.Paying? || run.Calling? || run.Confirmed? {
      QueueCarries(s, e, run.queue);
      if !run.Paying? {
        BalanceMoves(s, e, run.payee.node);
      }
    }
  }

  lemma SentToAppend(sent: seq<P.Sent>, x: P.Sent, node: NodeId)
    ensures SentTo(sent + [x], node) == SentTo(sent, node) + if x.node == node then x.sats else 0
  {
    assert (sent + [x])[..|sent + [x]| - 1] == sent;
  }

  lemma PaidInAppend(payouts: seq<Payout>, p: Payout, node: NodeId)
    ensures PaidIn(payouts + [p], node) == PaidIn(payouts, node) + if p.node == node then p.amount else 0
  {
    assert (payouts + [p])[..|payouts + [p]| - 1] == payouts;
  }

  /** Sats the node was sent that neither payouts nor lost shows yet. */
  function Unrecorded(run: P.Run, node: NodeId): int {
    if run.Confirmed? && run.payee.node == node then run.sats else 0
  }

  lemma EngineMovesSent(en: P.Engine, db: Db, action: P.PayEvent, node: NodeId)
    ensures var en' := P.StepEngine(en, db, action);
            var recorded := if action.Record? && action.ok then Unrecorded(en.run, node) else 0;
            && MSATS_PER_SAT * (SentTo(en'.sent, node) - Unrecorded(en'.run, node)) - PaidIn(en'.lost, node)
               == MSATS_PER_SAT * (SentTo(en.sent, node) - Unrecorded(en.run, node) + recorded) - PaidIn(en.lost, node)
  {
    var en' := P.StepEngine(en, db, action);
    if action.Reply? && en'.sent != en.sent {
      SentToAppend(en.sent, P.Sent(en.run.payee.node, en.run.sats, action.now, P.Epoch(en)), node);
    } else if action.Record? && en'.lost != en.lost {
      PaidInAppend(en.lost, Payout(en.run.payee.node, en.run.sats * MSATS_PER_SAT), node);
    } else if action.Query? || action.Read? || action.Tick? {
      EngineLeavesSent(en, db, action, node);
    }
  }

  lemma EngineLeavesSent(en: P.Engine, db: Db, action: P.PayEvent, node: NodeId)
    requires action.Query? || action.Read? || action.Tick?
    ensures var en' := P.StepEngine(en, db, action);
            en'.sent == en.sent && en'.lost == en.lost && Unrecorded(en'.run, node) == Unrecorded(en.run, node)
  {
  }

  lemma StepKeepsNode(s: State, e: LedgerEvent, node: NodeId)
    requires RowsInv(s) && CallOk(s.db, s.pay.run) && NodeOk(s, node)
    ensures NodeOk(Step(s, e), node)
  {
    BalanceMoves(s, e, node);
    assert Paid(Step(s, e).db, node) <= Earned(Step(s, e).db, node);
    if e.PayoutStep? {
      EngineMovesSent(s.pay, s.db, e.action, node);
    }
  }

  lemma StepKeepsProviders(s: State, e: LedgerEvent)
    requires RowsInv(s) && ProviderInv(s)
    ensures ProviderInv(Step(s, e))
  {
    var s' := Step(s, e);
    if e.PayoutStep? {
      P.StepKeepsBudget(s.pay, s.db, e.action);
    }
    StepKeepsCall(s, e);
    forall node ensures NodeOk(s', node) {
      StepKeepsNode(s, e, node);
    }
    forall p | p in s'.db.payouts ensures PayoutOk(p) {
      if p !in s.db.payouts {
        assert p == Payout(s.pay.run.payee.node, s.pay.run.sats * MSATS_PER_SAT);
      }
    }
  }

  lemma {:induction false} ReachableProviders(billing: Billing.Engine, maxPerHour: int, now: int, es: seq<LedgerEvent>)
    requires billing.Valid()
    ensures ProviderInv(Exec(Init(billing, maxPerHour, now), es))
  {
    if es == [] {
      P.NewEngineBudget(maxPerHour, now);
    } else {
      var n := |es| - 1;
      ReachableProviders(billing, maxPerHour, now, es[..n]);
      ReachableMoney(billing, maxPerHour, now, es[..n]);
      StepKeepsProviders(Exec(Init(billing, maxPerHour, now), es[..n]), es[n]);
    }
  }

  // ---------- main results ----------

  /** In every reachable state no node was paid, on record, more than it earned;
      every recorded payout is a whole number of sats and at least 100; and what
      was really sent to a node is what is recorded, plus what the database
      failed to record, plus the payment about to be recorded. */
  lemma ProviderSafety(billing: Billing.Engine, maxPerHour: int, now: int, es: seq<LedgerEvent>, node: NodeId)
    requires billing.Valid()
    ensures var s := Exec(Init(billing, maxPerHour, now), es);
            && Paid(s.db, node) <= Earned(s.db, node)
            && (forall p | p in s.db.payouts :: p.amount >= 100_000 && p.amount % 1000 == 0)
            && (s.pay.lost == [] ==> 1000 * SentTo(s.pay.sent, node) <= Earned(s.db, node))
            && (s.pay.run.Idle? ==> 1000 * SentTo(s.pay.sent, node) == Paid(s.db, node) + PaidIn(s.pay.lost, node))
  {
    ReachableProviders(billing, maxPerHour, now, es);
    var s := Exec(Init(billing, maxPerHour, now), es);
    assert NodeOk(s, node);
    forall p | p in s.db.payouts ensures p.amount >= 100_000 && p.amount % 1000 == 0 {
      assert PayoutOk(p);
    }
  }

  /** In every reachable state at most maxPerHour sats were paid between two
      resets, in any window without a reset inside, and at most twice that in any
      hour. */
  lemma SpendingCap(billing: Billing.Engine, maxPerHour: int, now: int, es: seq<LedgerEvent>)
    requires billing.Valid() && maxPerHour > 0
    ensures var s := Exec(Init(billing, maxPerHour, now), es);
            && (forall epoch: nat :: P.EpochSum(s.pay.sent, epoch) <= maxPerHour)
            && (forall lo, hi | NoResetIn(s.pay, lo, hi) :: P.WindowSum(s.pay.sent, lo, hi) <= maxPerHour)
            && forall lo, hi | hi - lo <= 3600 :: P.WindowSum(s.pay.sent, lo, hi) <= 2 * maxPerHour
  {
    ReachableProviders(billing, maxPerHour, now, es);
    var s := Exec(Init(billing, maxPerHour, now), es);
    CapStays(Init(billing, maxPerHour, now), es);
    forall lo, hi | NoResetIn(s.pay, lo, hi) ensures P.WindowSum(s.pay.sent, lo, hi) <= maxPerHour {
      P.ResetFreeBound(s.pay, lo, hi);
    }
    forall lo, hi | hi - lo <= 3600 ensures P.WindowSum(s.pay.sent, lo, hi) <= 2 * maxPerHour {
      P.RollingHourBound(s.pay, lo, hi);
    }
  }

  predicate NoResetIn(en: P.Engine, lo: int, hi: int) {
    forall i | 0 < i < |en.starts| :: !(lo <= en.starts[i] <= hi)
  }

  lemma {:induction false} CapStays(init: State, es: seq<LedgerEvent>)
    ensures Exec(init, es).pay.maxPerHour == init.pay.maxPerHour
  {
    if es != [] {
      CapStays(init, es[..|es| - 1]);
    }
  }

  /** The Go recheck agrees with the SQL filter although jobs are recorded in
      between: in a reachable state the payee whose balance is read next is
      called for exactly its whole sats, unless the hourly cap stands in the way. */
  lemma RecheckNeverDrops(billing: Billing.Engine, maxPerHour: int, now: int, es: seq<LedgerEvent>)
    requires billing.Valid()
    requires Exec(Init(billing, maxPerHour, now), es).pay.run.Paying?
    requires Exec(Init(billing, maxPerHour, now), es).pay.run.queue != []
    ensures var s := Exec(Init(billing, maxPerHour, now), es);
            var r := s.pay.run;
            var sats := NodeBalance(s.db, r.queue[0].node) / MSATS_PER_SAT;
            && P.StepEngine(s.pay, s.db, P.Read(true)).run
            == if P.OverCap(s.pay.maxPerHour, r.spent, sats) then P.Paying(r.spent, r.queue[1..])
               else P.Calling(r.spent, r.queue[1..], r.queue[0], sats)
  {
    ReachableProviders(billing, maxPerHour, now, es);
    var s := Exec(Init(billing, maxPerHour, now), es);
    assert PayeeOk(s.db, s.pay.run.queue[0]);
  }

  // ---------- who is never paid ----------

  /** The node is owed more than the engine may pay in an hour, and no payment to
      it is under way. */
  ghost predicate ShutOut(s: State, node: NodeId) {
    && s.pay.maxPerHour > 0
    && NodeBalance(s.db, node) / MSATS_PER_SAT > s.pay.maxPerHour
    && !Busy(s.pay.run, node)
  }

  /** The engine neither calls the node nor records a payment to it. */
  lemma EngineSkips(en: P.Engine, db: Db, action: P.PayEvent, node: NodeId)
    requires P.BudgetInv(en) && en.maxPerHour > 0 && !Busy(en.run, node)
    requires NodeBalance(db, node) / MSATS_PER_SAT > en.maxPerHour
    ensures var en' := P.StepEngine(en, db, action);
            !Busy(en'.run, node) && en'.maxPerHour == en.maxPerHour && SentTo(en'.sent, node) == SentTo(en.sent, node)
  {
    if action.Reply? && P.StepEngine(en, db, action).sent != en.sent {
      SentToAppend(en.sent, P.Sent(en.run.payee.node, en.run.sats, action.now, P.Epoch(en)), node);
    }
  }

  lemma ShutOutStep(s: State, e: LedgerEvent, node: NodeId)
    requires RowsInv(s) && P.BudgetInv(s.pay) && ShutOut(s, node)
    ensures ShutOut(Step(s, e), node)
    ensures SentTo(Step(s, e).pay.sent, node) == SentTo(s.pay.sent, node)
  {
    BalanceMoves(s, e, node);
    assert NodeBalance(Step(s, e).db, node) >= NodeBalance(s.db, node);
    if e.PayoutStep? {
      EngineSkips(s.pay, s.db, e.action, node);
    }
  }

  /** A node owed more whole sats than the hourly cap is never paid again, in any
      continuation of any run: the check skips it, and its balance only grows. */
  lemma {:induction false} ShutOutForever(s: State, es: seq<LedgerEvent>, node: NodeId)
    requires RowsInv(s) && P.BudgetInv(s.pay) && ShutOut(s, node)
    ensures ShutOut(Exec(s, es), node)
    ensures SentTo(Exec(s, es).pay.sent, node) == SentTo(s.pay.sent, node)
    ensures RowsInv(Exec(s, es)) && P.BudgetInv(Exec(s, es).pay)
  {
    if es != [] {
      var n := |es| - 1;
      ShutOutForever(s, es[..n], node);
      var t := Exec(s, es[..n]);
      ShutOutStep(t, es[n], node);
      StepKeepsRows(t, es[n]);
      if es[n].PayoutStep? {
        P.StepKeepsBudget(t.pay, t.db, es[n].action);
      }
    }
  }

  // ---------- jobs recorded while a payment is under way ----------

  lemma {:induction false} OthersLeavePayouts(s: State, es: seq<LedgerEvent>)
    requires forall e | e in es :: !e.PayoutStep?
    ensures Exec(s, es).pay == s.pay && Exec(s, es).db.payouts == s.db.payouts
  {
    if es != [] {
      OthersLeavePayouts(s, es[..|es| - 1]);
    }
  }

  lemma PayoutStepIs(s: State, action: P.PayEvent)
    ensures Step(s, PayoutStep(action))
         == s.(db := P.StepDb(s.pay, s.db, action), pay := P.StepEngine(s.pay, s.db, action))
  {
  }

  /** One payment from the balance read to the record, with any other events of
      the system in both gaps: what is left is the old balance modulo 1000 plus
      what the node earned meanwhile. */
  lemma PaymentAmongOthers(s: State, es1: seq<LedgerEvent>, now: int, es2: seq<LedgerEvent>)
    requires s.pay.run.Paying? && s.pay.run.queue != []
    requires (forall e | e in es1 :: !e.PayoutStep?) && (forall e | e in es2 :: !e.PayoutStep?)
    requires Step(s, PayoutStep(P.Read(true))).pay.run.Calling? && s.pay.clock <= now
    ensures var node := s.pay.run.queue[0].node;
            var called := Exec(Step(s, PayoutStep(P.Read(true))), es1);
            var paid := Exec(Step(called, PayoutStep(P.Reply(true, now))), es2);
            var s' := Step(paid, PayoutStep(P.Record(true)));
            && NodeBalance(s'.db, node) == NodeBalance(s.db, node) % 1000 + Earned(s'.db, node) - Earned(s.db, node)
            && s'.pay.run == P.Paying(s.pay.run.spent + NodeBalance(s.db, node) / 1000, s.pay.run.queue[1..])
  {
    var node, r := s.pay.run.queue[0].node, s.pay.run;
    PayoutStepIs(s, P.Read(true));
    var reading := Step(s, PayoutStep(P.Read(true)));
    var sats := NodeBalance(s.db, node) / MSATS_PER_SAT;
    assert reading.pay.run == P.Calling(r.spent, r.queue[1..], r.queue[0], sats);
    OthersLeavePayouts(reading, es1);
    var called := Exec(reading, es1);
    PayoutStepIs(called, P.Reply(true, now));
    var replied := Step(called, PayoutStep(P.Reply(true, now)));
    assert replied.pay.run == P.Confirmed(r.spent, r.queue[1..], r.queue[0], sats);
    OthersLeavePayouts(replied, es2);
    var paid := Exec(replied, es2);
    PayoutStepIs(paid, P.Record(true));
    InsertPayoutMoves(paid.db, node, sats * MSATS_PER_SAT, node);
  }
}
