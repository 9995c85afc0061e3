/** When the two limits of the payout engine that can fail are kept: the hourly cap on
    every hour, and one payment for each debt. */
module PayoutLimits {
  import opened Names
  import opened Tables
  import opened Ledger
  import opened ProviderLedger
  import Billing
  import P = Payouts

  // ---------- the cap on every hour ----------

  ghost predicate HourKept(en: P.Engine) {
    forall lo, hi | hi - lo <= 3600 :: P.WindowSum(en.sent, lo, hi) <= en.maxPerHour
  }

  /** A payment comes back that, with those of the hour before it, exceeds the cap. */
  predicate OverspendsHour(en: P.Engine, action: P.PayEvent) {
    && action.Reply? && action.confirmed && en.run.Calling? && en.clock <= action.now
    && P.WindowSum(en.sent, action.now - P.HOUR, action.now) + en.run.sats > en.maxPerHour
  }

  lemma {:induction false} WiderWindow(sent: seq<P.Sent>, lo: int, hi: int, lo': int, hi': int)
    requires forall x | x in sent :: 0 <= x.sats && x.time <= hi'
    requires lo' <= lo
    ensures P.WindowSum(sent, lo, hi) <= P.WindowSum(sent, lo', hi')
  {
    if sent != [] {
      WiderWindow(sent[..|sent| - 1], lo, hi, lo', hi');
    }
  }

  /** A new payment keeps every hour within the cap exactly when the hour that ends
      with it is. */
  lemma NewPaymentKeepsHour(en: P.Engine, x: P.Sent)
    requires P.BudgetInv(en) && en.clock <= x.time && 0 <= x.sats
    ensures HourKept(en.(sent := en.sent + [x]))
       <==> HourKept(en) && P.WindowSum(en.sent, x.time - P.HOUR, x.time) + x.sats <= en.maxPerHour
  {
    var en' := en.(sent := en.sent + [x]);
    forall y | y in en.sent ensures 0 <= y.sats && y.time <= x.time {
      assert P.SentOk(en, y);
    }
    forall lo, hi ensures P.WindowSum(en'.sent, lo, hi)
                       == P.WindowSum(en.sent, lo, hi) + if lo <= x.time <= hi then x.sats else 0
    {
      P.WindowSumAppend(en.sent, x, lo, hi);
    }
    if HourKept(en') {
      forall lo, hi | hi - lo <= P.HOUR ensures P.WindowSum(en.sent, lo, hi) <= en.maxPerHour {
        assert P.WindowSum(en'.sent, lo, hi) <= en.maxPerHour;
      }
      assert P.WindowSum(en'.sent, x.time - P.HOUR, x.time) <= en.maxPerHour;
    } else {
      var lo, hi :| hi - lo <= P.HOUR && P.WindowSum(en'.sent, lo, hi) > en.maxPerHour;
      if lo <= x.time <= hi {
        WiderWindow(en.sent, lo, hi, x.time - P.HOUR, x.time);
      }
    }
  }

  lemma TurnKeepsHour(en: P.Engine, db: Db, action: P.PayEvent)
    requires P.BudgetInv(en)
    ensures HourKept(P.StepEngine(en, db, action)) <==> HourKept(en) && !OverspendsHour(en, action)
  {
    var en' := P.StepEngine(en, db, action);
    if action.Reply? && action.confirmed && en.run.Calling? && en.clock <= action.now {
      var x := P.Sent(en.run.payee.node, en.run.sats, action.now, P.Epoch(en));
      NewPaymentKeepsHour(en, x);
      SameHours(en', en.(sent := en.sent + [x]));
    } else {
      TurnSendsNothing(en, db, action);
      SameHours(en', en);
    }
  }

  lemma SameHours(en: P.Engine, other: P.Engine)
    requires en.sent == other.sent && en.maxPerHour == other.maxPerHour
    ensures HourKept(en) <==> HourKept(other)
  {
  }

  lemma TurnSendsNothing(en: P.Engine, db: Db, action: P.PayEvent)
    requires !(action.Reply? && action.confirmed && en.run.Calling? && en.clock <= action.now)
    ensures P.StepEngine(en, db, action).sent == en.sent && P.StepEngine(en, db, action).maxPerHour == en.maxPerHour
  {
  }

  ghost predicate OverspendsAt(init: State, es: seq<LedgerEvent>, i: nat)
    requires i < |es|
  {
    es[i].PayoutStep? && OverspendsHour(Exec(init, es[..i]).pay, es[i].action)
  }

  ghost predicate NeverOverspends(init: State, es: seq<LedgerEvent>) {
    forall i | 0 <= i < |es| :: !OverspendsAt(init, es, i)
  }

  lemma NeverOverspendsSplit(init: State, es: seq<LedgerEvent>)
    requires es != []
    ensures NeverOverspends(init, es) <==> NeverOverspends(init, es[..|es| - 1]) && !OverspendsAt(init, es, |es| - 1)
  {
    var n := |es| - 1;
    forall i | 0 <= i < n ensures OverspendsAt(init, es[..n], i) == OverspendsAt(init, es, i) {
      assert es[..n][..i] == es[..i];
    }
  }

  lemma PayStays(s: State, e: LedgerEvent)
    ensures Step(s, e).pay == if e.PayoutStep? then P.StepEngine(s.pay, s.db, e.action) else s.pay
  {
  }

  /** In every run no hour, wherever it starts, sees more than the cap exactly when no
      payment comes back that exceeds the cap with those of the hour before it.  By
      then the money is sent; HourSafeIff says what to check before the call. */
  lemma {:induction false} HourKeptIff(billing: Billing.Engine, maxPerHour: int, now: int, es: seq<LedgerEvent>)
    requires billing.Valid() && maxPerHour > 0
    ensures var init := Init(billing, maxPerHour, now);
            HourKept(Exec(init, es).pay) <==> NeverOverspends(init, es)
  {
    var init := Init(billing, maxPerHour, now);
    if es != [] {
      var n := |es| - 1;
      var s := Exec(init, es[..n]);
      HourKeptIff(billing, maxPerHour, now, es[..n]);
      ReachableProviders(billing, maxPerHour, now, es[..n]);
      NeverOverspendsSplit(init, es);
      PayStays(s, es[n]);
      if es[n].PayoutStep? {
        TurnKeepsHour(s.pay, s.db, es[n].action);
      }
    }
  }

  // ---------- the same, told before the call ----------

  /** The running call, with the payments of the last hour, exceeds the cap. */
  predicate CallExceeds(en: P.Engine) {
    en.run.Calling? && P.WindowSum(en.sent, en.clock - P.HOUR, en.clock) + en.run.sats > en.maxPerHour
  }

  ghost predicate KeptIfBackAt(en: P.Engine, db: Db, now: int) {
    HourKept(P.StepEngine(en, db, P.Reply(true, now)))
  }

  /** Every hour is within the cap, and will be whenever the running call comes back. */
  ghost predicate HourSafe(s: State) {
    && HourKept(s.pay)
    && (s.pay.run.Calling? ==> forall now | now >= s.pay.clock :: KeptIfBackAt(s.pay, s.db, now))
  }

  /** A call keeps the hour whenever it comes back exactly when it passes the check at
      the time of the call. */
  lemma CallKeepsHourIff(en: P.Engine, db: Db)
    requires P.BudgetInv(en) && HourKept(en) && en.run.Calling?
    ensures (forall now | now >= en.clock :: KeptIfBackAt(en, db, now)) <==> !CallExceeds(en)
  {
    if CallExceeds(en) {
      TurnKeepsHour(en, db, P.Reply(true, en.clock));
      assert !KeptIfBackAt(en, db, en.clock);
    } else {
      forall now | now >= en.clock ensures KeptIfBackAt(en, db, now) {
        TurnKeepsHour(en, db, P.Reply(true, now));
        forall x | x in en.sent ensures 0 <= x.sats && x.time <= en.clock {
          assert P.SentOk(en, x);
        }
        WiderWindow(en.sent, now - P.HOUR, now, en.clock - P.HOUR, en.clock);
      }
    }
  }

  lemma HourSafeIs(s: State)
    requires P.BudgetInv(s.pay)
    ensures HourSafe(s) <==> HourKept(s.pay) && !CallExceeds(s.pay)
  {
    if HourKept(s.pay) && s.pay.run.Calling? {
      CallKeepsHourIff(s.pay, s.db);
    }
  }

  /** The engine reads a balance and decides to pay it, although the payments of the
      last hour and this one exceed the cap. */
  ghost predicate DecidesTooMuch(s: State, e: LedgerEvent) {
    && e == PayoutStep(P.Read(true)) && s.pay.run.Paying? && s.pay.run.queue != []
    && P.StepEngine(s.pay, s.db, P.Read(true)).run.Calling?
    && P.WindowSum(s.pay.sent, s.pay.clock - P.HOUR, s.pay.clock)
       + NodeBalance(s.db, s.pay.run.queue[0].node) / MSATS_PER_SAT > s.pay.maxPerHour
  }

  lemma TurnKeepsCall(en: P.Engine, db: Db, action: P.PayEvent)
    requires !CallExceeds(en)
    ensures var en' := P.StepEngine(en, db, action);
            CallExceeds(en') <==>
              && action == P.Read(true) && en.run.Paying? && en.run.queue != [] && en'.run.Calling?
              && P.WindowSum(en.sent, en.clock - P.HOUR, en.clock)
                 + NodeBalance(db, en.run.queue[0].node) / MSATS_PER_SAT > en.maxPerHour
  {
  }

  lemma StepHourSafe(s: State, e: LedgerEvent)
    requires P.BudgetInv(s.pay) && HourSafe(s)
    ensures HourSafe(Step(s, e)) <==> !DecidesTooMuch(s, e)
  {
    HourSafeIs(s);
    PayStays(s, e);
    if e.PayoutStep? {
      P.StepKeepsBudget(s.pay, s.db, e.action);
      TurnKeepsCall(s.pay, s.db, e.action);
      TurnKeepsHour(s.pay, s.db, e.action);
      ReplyFits(s.pay, e.action);
    }
    HourSafeIs(Step(s, e));
  }

  lemma ReplyFits(en: P.Engine, action: P.PayEvent)
    requires P.BudgetInv(en) && !CallExceeds(en)
    ensures !OverspendsHour(en, action)
  {
    if action.Reply? && action.now >= en.clock {
      forall x | x in en.sent ensures 0 <= x.sats && x.time <= en.clock {
        assert P.SentOk(en, x);
      }
      WiderWindow(en.sent, action.now - P.HOUR, action.now, en.clock - P.HOUR, en.clock);
    }
  }

  ghost predicate SafeAt(init: State, es: seq<LedgerEvent>, i: nat)
    requires i <= |es|
  {
    HourSafe(Exec(init, es[..i]))
  }

  ghost predicate TooMuchAt(init: State, es: seq<LedgerEvent>, i: nat)
    requires i < |es|
  {
    DecidesTooMuch(Exec(init, es[..i]), es[i])
  }

  ghost predicate AlwaysSafe(init: State, es: seq<LedgerEvent>) {
    forall i | 0 <= i <= |es| :: SafeAt(init, es, i)
  }

  ghost predicate NeverTooMuch(init: State, es: seq<LedgerEvent>) {
    forall i | 0 <= i < |es| :: !TooMuchAt(init, es, i)
  }

  lemma AlwaysSafeSplit(init: State, es: seq<LedgerEvent>)
    requires es != []
    ensures AlwaysSafe(init, es) <==> AlwaysSafe(init, es[..|es| - 1]) && SafeAt(init, es, |es|)
  {
    var n := |es| - 1;
    forall i | 0 <= i <= n ensures SafeAt(init, es[..n], i) == SafeAt(init, es, i) {
      assert es[..n][..i] == es[..i];
    }
  }

  lemma NeverTooMuchSplit(init: State, es: seq<LedgerEvent>)
    requires es != []
    ensures NeverTooMuch(init, es) <==> NeverTooMuch(init, es[..|es| - 1]) && !TooMuchAt(init, es, |es| - 1)
  {
    var n := |es| - 1;
    forall i | 0 <= i < n ensures TooMuchAt(init, es[..n], i) == TooMuchAt(init, es, i) {
      assert es[..n][..i] == es[..i];
    }
  }

  lemma LastSafe(init: State, es: seq<LedgerEvent>)
    requires es != [] && SafeAt(init, es, |es| - 1) && P.BudgetInv(Exec(init, es[..|es| - 1]).pay)
    ensures SafeAt(init, es, |es|) <==> !TooMuchAt(init, es, |es| - 1)
  {
    assert es[..|es|] == es;
    StepHourSafe(Exec(init, es[..|es| - 1]), es[|es| - 1]);
  }

  /** At every point of a run every hour is within the cap, and stays so whenever the
      running call comes back, exactly when the engine never decides on a payment
      that exceeds the cap together with those of the last hour.  Its own check
      counts from the last reset instead. */
  lemma {:induction false} HourSafeIff(billing: Billing.Engine, maxPerHour: int, now: int, es: seq<LedgerEvent>)
    requires billing.Valid() && maxPerHour > 0
    ensures var init := Init(billing, maxPerHour, now); AlwaysSafe(init, es) <==> NeverTooMuch(init, es)
  {
    var init := Init(billing, maxPerHour, now);
    if es == [] {
      assert es[..0] == [];
    } else {
      var n := |es| - 1;
      HourSafeIff(billing, maxPerHour, now, es[..n]);
      ReachableProviders(billing, maxPerHour, now, es[..n]);
      AlwaysSafeSplit(init, es);
      NeverTooMuchSplit(init, es);
      if AlwaysSafe(init, es[..n]) {
        assert es[..n][..n] == es[..n] && SafeAt(init, es[..n], n);
        LastSafe(init, es);
      }
    }
  }

  // ---------- one payment for each debt ----------

  /** A payment to the node was made and the database fails to record it. */
  predicate LosesRecord(s: State, e: LedgerEvent, node: NodeId) {
    e == PayoutStep(P.Record(false)) && s.pay.run.Confirmed? && s.pay.run.payee.node == node
  }

  ghost predicate LosesRecordAt(init: State, es: seq<LedgerEvent>, node: NodeId, i: nat)
    requires i < |es|
  {
    LosesRecord(Exec(init, es[..i]), es[i], node)
  }

  ghost predicate NoRecordLost(init: State, es: seq<LedgerEvent>, node: NodeId) {
    forall i | 0 <= i < |es| :: !LosesRecordAt(init, es, node, i)
  }

  lemma NoRecordLostSplit(init: State, es: seq<LedgerEvent>, node: NodeId)
    requires es != []
    ensures NoRecordLost(init, es, node)
       <==> NoRecordLost(init, es[..|es| - 1], node) && !LosesRecordAt(init, es, node, |es| - 1)
  {
    var n := |es| - 1;
    forall i | 0 <= i < n ensures LosesRecordAt(init, es[..n], node, i) == LosesRecordAt(init, es, node, i) {
      assert es[..n][..i] == es[..i];
    }
  }

  lemma StepLoses(s: State, e: LedgerEvent, node: NodeId)
    ensures PaidIn(Step(s, e).pay.lost, node)
         == PaidIn(s.pay.lost, node) + if LosesRecord(s, e, node) then s.pay.run.sats * MSATS_PER_SAT else 0
  {
    PayStays(s, e);
    if e.PayoutStep? && e.action == P.Record(false) && s.pay.run.Confirmed? {
      PaidInAppend(s.pay.lost, Payout(s.pay.run.payee.node, s.pay.run.sats * MSATS_PER_SAT), node);
    } else {
      assert Step(s, e).pay.lost == s.pay.lost;
    }
  }

  lemma {:induction false} LostIff(billing: Billing.Engine, maxPerHour: int, now: int, es: seq<LedgerEvent>,
                                   node: NodeId)
    requires billing.Valid()
    ensures var init := Init(billing, maxPerHour, now);
            && 0 <= PaidIn(Exec(init, es).pay.lost, node)
            && (PaidIn(Exec(init, es).pay.lost, node) == 0 <==> NoRecordLost(init, es, node))
  {
    var init := Init(billing, maxPerHour, now);
    if es != [] {
      var n := |es| - 1;
      LostIff(billing, maxPerHour, now, es[..n], node);
      ReachableProviders(billing, maxPerHour, now, es[..n]);
      NoRecordLostSplit(init, es, node);
      StepLoses(Exec(init, es[..n]), es[n], node);
    }
  }

  /** Whenever the engine is idle, a node was sent exactly what is recorded as paid to
      it if and only if no record of a payment to it was ever lost. */
  lemma SentOnceIff(billing: Billing.Engine, maxPerHour: int, now: int, es: seq<LedgerEvent>, node: NodeId)
    requires billing.Valid() && Exec(Init(billing, maxPerHour, now), es).pay.run.Idle?
    ensures var init := Init(billing, maxPerHour, now);
            var s := Exec(init, es);
            1000 * SentTo(s.pay.sent, node) == Paid(s.db, node) <==> NoRecordLost(init, es, node)
  {
    ProviderSafety(billing, maxPerHour, now, es, node);
    LostIff(billing, maxPerHour, now, es, node);
  }
}
