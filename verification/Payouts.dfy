/** The hourly payout engine as a state machine: one step per database statement,
    clock reading or call to the Lightning node of processPayouts, so that jobs
    may be recorded between any two of them.  sent, lost, starts and clock are
    history: what was really paid, which payments the database failed to record,
    when the hourly counter was reset, and the latest time seen. */
module Payouts {
  import opened Names
  import opened Tables

  const HOUR := 3600

  datatype Payee = Payee(node: NodeId, address: string, threshold: int)

  datatype Run =
    | Idle
    | Started(spent: int)
    | Paying(spent: int, queue: seq<Payee>)
    | Calling(spent: int, queue: seq<Payee>, payee: Payee, sats: int)    // in PayAddress
    | Confirmed(spent: int, queue: seq<Payee>, payee: Payee, sats: int)  // paid, not recorded yet

  datatype Sent = Sent(node: NodeId, sats: int, time: int, epoch: nat)

  datatype Engine = Engine(
    maxPerHour: int, spentThisHour: int, hourStart: int, run: Run,
    sent: seq<Sent>, lost: seq<Payout>, starts: seq<int>, clock: int)

  function NewEngine(maxPerHour: int, now: int): Engine {
    Engine(maxPerHour, 0, now, Idle, [], [], [now], now)
  }

  datatype PayEvent =
    | Tick(now: int, later: int)               // time.Since, then time.Now
    | Query(listed: seq<Payee>, ok: bool)      // PendingPayouts, in the order of its rows
    | Read(ok: bool)                           // NodeBalance and the checks on it
    | Reply(confirmed: bool, now: int)         // PayAddress returned
    | Record(ok: bool)                         // RecordPayout and both counters

  // ---------- steps ----------

  ghost predicate Payable(db: Db, node: NodeId) {
    && node in db.nodes && db.nodes[node].address != ""
    && NodeBalance(db, node) >= db.nodes[node].threshold * MSATS_PER_SAT
  }

  function PayeeOf(db: Db, node: NodeId): Payee
    requires node in db.nodes
  {
    Payee(node, db.nodes[node].address, db.nodes[node].threshold)
  }

  predicate Distinct(queue: seq<Payee>) {
    forall i, j | 0 <= i < j < |queue| :: queue[i].node != queue[j].node
  }

  predicate Awaits(queue: seq<Payee>, node: NodeId) {
    exists p :: p in queue && p.node == node
  }

  /** listed holds the row of every payable node once, in any order. */
  ghost predicate Lists(db: Db, listed: seq<Payee>) {
    && Distinct(listed)
    && (forall p | p in listed :: Payable(db, p.node) && p == PayeeOf(db, p.node))
    && (forall node | node in db.nodes && Payable(db, node) :: Awaits(listed, node))
  }

  predicate OverCap(maxPerHour: int, spent: int, sats: int) {
    maxPerHour > 0 && spent + sats > maxPerHour
  }

  /** What the loop does with one payee after reading its balance. */
  function Decide(maxPerHour: int, spent: int, rest: seq<Payee>, payee: Payee, balance: int): Run {
    if balance <= 0 then Paying(spent, rest) else
    var sats := balance / MSATS_PER_SAT;
    if sats < payee.threshold || OverCap(maxPerHour, spent, sats) || payee.address == "" then
      Paying(spent, rest)
    else
      Calling(spent, rest, payee, sats)
  }

  ghost function StepEngine(en: Engine, db: Db, e: PayEvent): Engine {
    match e
    case Tick(now, later) =>
      if !en.run.Idle? || now < en.clock || later < now then en else
      if now - en.hourStart > HOUR then
        en.(spentThisHour := 0, hourStart := later, starts := en.starts + [later], clock := later, run := Started(0))
      else
        en.(clock := later, run := Started(en.spentThisHour))
    case Query(listed, ok) =>
      if !en.run.Started? || (ok && !Lists(db, listed)) then en else
      en.(run := if ok then Paying(en.run.spent, listed) else Idle)
    case Read(ok) =>
      if !en.run.Paying? then en else
      if en.run.queue == [] then en.(run := Idle) else
      var payee, rest := en.run.queue[0], en.run.queue[1..];
      en.(run := if ok then Decide(en.maxPerHour, en.run.spent, rest, payee, NodeBalance(db, payee.node))
                 else Paying(en.run.spent, rest))
    case Reply(confirmed, now) =>
      if !en.run.Calling? || now < en.clock then en else
      var r := en.run;
      if confirmed then
        en.(run := Confirmed(r.spent, r.queue, r.payee, r.sats), clock := now,
            sent := en.sent + [Sent(r.payee.node, r.sats, now, Epoch(en))])
      else
        en.(run := Paying(r.spent, r.queue), clock := now)
    case Record(ok) =>
      if !en.run.Confirmed? then en else
      var r := en.run;
      en.(run := Paying(r.spent + r.sats, r.queue), spentThisHour := en.spentThisHour + r.sats,
          lost := if ok then en.lost else en.lost + [Payout(r.payee.node, r.sats * MSATS_PER_SAT)])
  }

  function StepDb(en: Engine, db: Db, e: PayEvent): Db {
    if e.Record? && e.ok && en.run.Confirmed? then
      InsertPayout(db, en.run.payee.node, en.run.sats * MSATS_PER_SAT)
    else
      db
  }

  /** The number of resets so far. */
  function Epoch(en: Engine): nat {
    if |en.starts| == 0 then 0 else |en.starts| - 1
  }

  // ---------- the spending cap ----------

  function EpochSum(sent: seq<Sent>, epoch: nat): int {
    if sent == [] then 0 else
    var n := |sent| - 1;
    EpochSum(sent[..n], epoch) + if sent[n].epoch == epoch then sent[n].sats else 0
  }

  /** What was paid from lo to hi, both included. */
  function WindowSum(sent: seq<Sent>, lo: int, hi: int): int {
    if sent == [] then 0 else
    var n := |sent| - 1;
    WindowSum(sent[..n], lo, hi) + if lo <= sent[n].time <= hi then sent[n].sats else 0
  }

  ghost predicate StartsOk(en: Engine) {
    && |en.starts| > 0 && en.hourStart == en.starts[|en.starts| - 1] <= en.clock
    && (forall i | 0 <= i < |en.starts| - 1 :: en.starts[i + 1] - en.starts[i] > HOUR)
  }

  predicate SentOk(en: Engine, s: Sent) {
    && 0 <= s.sats && s.epoch < |en.starts| && en.starts[s.epoch] <= s.time <= en.clock
    && (s.epoch + 1 < |en.starts| ==> s.time <= en.starts[s.epoch + 1])
  }

  /** Sats of the running call that the counter does not show yet. */
  function InFlight(run: Run): int {
    if run.Calling? || run.Confirmed? then run.sats else 0
  }

  function Uncounted(run: Run): int {
    if run.Confirmed? then run.sats else 0
  }

  ghost predicate SpentOk(en: Engine) {
    && EpochSum(en.sent, Epoch(en)) == en.spentThisHour + Uncounted(en.run)
    && (!en.run.Idle? ==> en.run.spent == en.spentThisHour)
    && 0 <= en.spentThisHour && 0 <= InFlight(en.run)
    && (en.maxPerHour > 0 ==> en.spentThisHour + InFlight(en.run) <= en.maxPerHour)
    && (en.maxPerHour > 0 ==> forall epoch: nat :: EpochSum(en.sent, epoch) <= en.maxPerHour)
  }

  ghost predicate BudgetInv(en: Engine) {
    && StartsOk(en)
    && (forall s | s in en.sent :: SentOk(en, s))
    && SpentOk(en)
  }

  lemma {:induction false} FreshEpochEmpty(sent: seq<Sent>, epoch: nat)
    requires forall s | s in sent :: s.epoch < epoch
    ensures EpochSum(sent, epoch) == 0
  {
    if sent != [] {
      FreshEpochEmpty(sent[..|sent| - 1], epoch);
    }
  }

  lemma EpochSumAppend(sent: seq<Sent>, s: Sent, epoch: nat)
    ensures EpochSum(sent + [s], epoch) == EpochSum(sent, epoch) + if s.epoch == epoch then s.sats else 0
  {
    assert (sent + [s])[..|sent + [s]| - 1] == sent;
  }

  lemma StepKeepsStarts(en: Engine, db: Db, e: PayEvent)
    requires StartsOk(en)
    ensures StartsOk(StepEngine(en, db, e))
  {
  }

  lemma StepKeepsSent(en: Engine, db: Db, e: PayEvent, s: Sent)
    requires BudgetInv(en) && s in StepEngine(en, db, e).sent
    ensures SentOk(StepEngine(en, db, e), s)
  {
    assert s in en.sent ==> SentOk(en, s);
  }

  lemma ResetKeepsSpent(en: Engine, db: Db, e: PayEvent)
    requires BudgetInv(en) && e.Tick?
    ensures SpentOk(StepEngine(en, db, e))
  {
    var en' := StepEngine(en, db, e);
    if en'.starts != en.starts {
      FreshEpochEmpty(en.sent, Epoch(en'));
    }
  }

  lemma ReplyKeepsSpent(en: Engine, db: Db, e: PayEvent)
    requires BudgetInv(en) && e.Reply?
    ensures SpentOk(StepEngine(en, db, e))
  {
    var en' := StepEngine(en, db, e);
    if en'.sent != en.sent {
      forall epoch: nat
        ensures EpochSum(en'.sent, epoch)
             == EpochSum(en.sent, epoch) + if epoch == Epoch(en) then en.run.sats else 0
      {
        EpochSumAppend(en.sent, en'.sent[|en.sent|], epoch);
      }
    }
  }

  lemma DecideWithinCap(maxPerHour: int, spent: int, rest: seq<Payee>, payee: Payee, balance: int)
    ensures var run := Decide(maxPerHour, spent, rest, payee, balance);
            && (run.Paying? || run.Calling?) && run.spent == spent && 0 <= InFlight(run)
            && (run.Calling? && maxPerHour > 0 ==> spent + run.sats <= maxPerHour)
  {
  }

  lemma StepKeepsSpent(en: Engine, db: Db, e: PayEvent)
    requires BudgetInv(en)
    ensures SpentOk(StepEngine(en, db, e))
  {
    match e
    case Tick(_, _) => ResetKeepsSpent(en, db, e);
    case Reply(_, _) => ReplyKeepsSpent(en, db, e);
    case Read(_) =>
      if en.run.Paying? && en.run.queue != [] {
        DecideWithinCap(en.maxPerHour, en.run.spent, en.run.queue[1..], en.run.queue[0],
                        NodeBalance(db, en.run.queue[0].node));
      }
    case _ =>
  }

  lemma StepKeepsBudget(en: Engine, db: Db, e: PayEvent)
    requires BudgetInv(en)
    ensures BudgetInv(StepEngine(en, db, e))
  {
    StepKeepsStarts(en, db, e);
    StepKeepsSpent(en, db, e);
    forall s | s in StepEngine(en, db, e).sent ensures SentOk(StepEngine(en, db, e), s) {
      StepKeepsSent(en, db, e, s);
    }
  }

  lemma NewEngineBudget(maxPerHour: int, now: int)
    ensures BudgetInv(NewEngine(maxPerHour, now))
  {
  }

  /** Resets are more than an hour apart, so payments at most an hour apart fall
      into one epoch or two neighbouring ones. */
  lemma NeighbouringEpochs(en: Engine, s: Sent, t: Sent)
    requires BudgetInv(en) && s in en.sent && t in en.sent
    requires t.time - s.time <= HOUR
    ensures t.epoch <= s.epoch + 1
  {
    if s.epoch + 1 < t.epoch {
      assert SentOk(en, s) && SentOk(en, t);
      StartsIncrease(en, s.epoch + 1, t.epoch);
    }
  }

  lemma {:induction false} StartsIncrease(en: Engine, i: nat, j: nat)
    requires StartsOk(en) && i < j < |en.starts|
    ensures en.starts[j] - en.starts[i] > HOUR
    decreases j - i
  {
    if i + 1 < j {
      StartsIncrease(en, i + 1, j);
    }
  }

  lemma {:induction false} WindowInEpochs(sent: seq<Sent>, lo: int, hi: int, epoch: nat)
    requires forall s | s in sent :: 0 <= s.sats
    requires forall s | s in sent && lo <= s.time <= hi :: s.epoch == epoch || s.epoch == epoch + 1
    ensures WindowSum(sent, lo, hi) <= EpochSum(sent, epoch) + EpochSum(sent, epoch + 1)
  {
    if sent != [] {
      WindowInEpochs(sent[..|sent| - 1], lo, hi, epoch);
    }
  }

  lemma {:induction false} WindowEmpty(sent: seq<Sent>, lo: int, hi: int)
    requires forall s | s in sent :: !(lo <= s.time <= hi)
    ensures WindowSum(sent, lo, hi) == 0
  {
    if sent != [] {
      WindowEmpty(sent[..|sent| - 1], lo, hi);
    }
  }

  /** The payment of a window whose epoch is the lowest. */
  lemma {:induction false} LowestEpoch(sent: seq<Sent>, lo: int, hi: int) returns (low: Sent)
    requires exists s :: s in sent && lo <= s.time <= hi
    ensures low in sent && lo <= low.time <= hi
    ensures forall s | s in sent && lo <= s.time <= hi :: low.epoch <= s.epoch
  {
    var n := |sent| - 1;
    var last := sent[n];
    if exists s :: s in sent[..n] && lo <= s.time <= hi {
      low := LowestEpoch(sent[..n], lo, hi);
      if lo <= last.time <= hi && last.epoch < low.epoch {
        low := last;
      }
      assert forall s | s in sent :: s in sent[..n] || s == last;
    } else {
      low := last;
      assert forall s | s in sent :: s in sent[..n] || s == last;
    }
  }

  /** No hour, wherever it starts, sees more than twice the cap paid out. */
  lemma RollingHourBound(en: Engine, lo: int, hi: int)
    requires BudgetInv(en) && en.maxPerHour > 0 && hi - lo <= HOUR
    ensures WindowSum(en.sent, lo, hi) <= 2 * en.maxPerHour
  {
    if exists s :: s in en.sent && lo <= s.time <= hi {
      var low := LowestEpoch(en.sent, lo, hi);
      forall s | s in en.sent && lo <= s.time <= hi ensures s.epoch == low.epoch || s.epoch == low.epoch + 1 {
        NeighbouringEpochs(en, low, s);
      }
      WindowInEpochs(en.sent, lo, hi, low.epoch);
    } else {
      WindowEmpty(en.sent, lo, hi);
    }
  }

  /** Between two payments of different epochs there is a reset. */
  lemma ResetBetween(en: Engine, s: Sent, t: Sent)
    requires BudgetInv(en) && s in en.sent && t in en.sent && s.epoch < t.epoch
    ensures s.time <= en.starts[t.epoch] <= t.time
  {
    assert SentOk(en, s) && SentOk(en, t);
    if s.epoch + 1 < t.epoch {
      StartsIncrease(en, s.epoch + 1, t.epoch);
    }
  }

  lemma {:induction false} WindowInOneEpoch(sent: seq<Sent>, lo: int, hi: int, epoch: nat)
    requires forall s | s in sent :: 0 <= s.sats
    requires forall s | s in sent && lo <= s.time <= hi :: s.epoch == epoch
    ensures WindowSum(sent, lo, hi) <= EpochSum(sent, epoch)
  {
    if sent != [] {
      WindowInOneEpoch(sent[..|sent| - 1], lo, hi, epoch);
    }
  }

  /** A window of any length without a reset inside sees at most the cap. */
  lemma ResetFreeBound(en: Engine, lo: int, hi: int)
    requires BudgetInv(en) && en.maxPerHour > 0
    requires forall i | 0 < i < |en.starts| :: !(lo <= en.starts[i] <= hi)
    ensures WindowSum(en.sent, lo, hi) <= en.maxPerHour
  {
    if exists s :: s in en.sent && lo <= s.time <= hi {
      var low := LowestEpoch(en.sent, lo, hi);
      forall s | s in en.sent && lo <= s.time <= hi ensures s.epoch == low.epoch {
        assert SentOk(en, s);
        if low.epoch < s.epoch {
          ResetBetween(en, low, s);
        }
      }
      WindowInOneEpoch(en.sent, lo, hi, low.epoch);
    } else {
      WindowEmpty(en.sent, lo, hi);
    }
  }

  // ---------- the engine on its own ----------

  ghost function Turns(en: Engine, db: Db, actions: seq<PayEvent>): (Engine, Db)
    decreases |actions|
  {
    if actions == [] then (en, db) else
    Turns(StepEngine(en, db, actions[0]), StepDb(en, db, actions[0]), actions[1..])
  }

  /** A tick that pays the first listed payee, up to and including the record. */
  function FirstPayment(now: int, listed: seq<Payee>, ok: bool): seq<PayEvent> {
    [Tick(now, now), Query(listed, true), Read(true), Reply(true, now), Record(ok)]
  }

  function Rolled(en: Engine, now: int): Engine {
    if now - en.hourStart > HOUR then
      en.(spentThisHour := 0, hourStart := now, starts := en.starts + [now], clock := now)
    else
      en.(clock := now)
  }

  lemma TurnsHead(en: Engine, db: Db, e: PayEvent, rest: seq<PayEvent>)
    ensures Turns(en, db, [e] + rest) == Turns(StepEngine(en, db, e), StepDb(en, db, e), rest)
  {
    assert ([e] + rest)[1..] == rest;
  }

  lemma FiveTurns(en: Engine, db: Db, e1: PayEvent, e2: PayEvent, e3: PayEvent, e4: PayEvent, e5: PayEvent)
    requires !e1.Record? && !e2.Record? && !e3.Record? && !e4.Record?
    ensures var en4 := StepEngine(StepEngine(StepEngine(StepEngine(en, db, e1), db, e2), db, e3), db, e4);
            Turns(en, db, [e1, e2, e3, e4, e5]) == (StepEngine(en4, db, e5), StepDb(en4, db, e5))
  {
    var en1 := StepEngine(en, db, e1);
    var en2 := StepEngine(en1, db, e2);
    var en3 := StepEngine(en2, db, e3);
    TurnsHead(en, db, e1, [e2, e3, e4, e5]);
    TurnsHead(en1, db, e2, [e3, e4, e5]);
    TurnsHead(en2, db, e3, [e4, e5]);
    TurnsHead(en3, db, e4, [e5]);
    TurnsHead(StepEngine(en3, db, e4), db, e5, []);
  }

  /** After a reset, or with nothing spent yet, the first listed node is paid all
      its whole sats when they are at least its threshold and within the cap. */
  lemma FirstListedIsPaid(en: Engine, db: Db, now: int, listed: seq<Payee>, ok: bool)
    requires en.run.Idle? && en.clock <= now && Rolled(en, now).spentThisHour == 0
    requires Lists(db, listed) && listed != [] && listed[0].threshold > 0 && listed[0].address != ""
    requires en.maxPerHour > 0 ==> NodeBalance(db, listed[0].node) / MSATS_PER_SAT <= en.maxPerHour
    ensures var payee, sats, rolled := listed[0], NodeBalance(db, listed[0].node) / MSATS_PER_SAT, Rolled(en, now);
            && sats >= payee.threshold
            && Turns(en, db, FirstPayment(now, listed, ok))
               == (rolled.(run := Paying(sats, listed[1..]), spentThisHour := sats,
                           sent := en.sent + [Sent(payee.node, sats, now, Epoch(rolled))],
                           lost := if ok then en.lost else en.lost + [Payout(payee.node, sats * MSATS_PER_SAT)]),
                   if ok then InsertPayout(db, payee.node, sats * MSATS_PER_SAT) else db)
            && NodeBalance(InsertPayout(db, payee.node, sats * MSATS_PER_SAT), payee.node)
               == NodeBalance(db, payee.node) % MSATS_PER_SAT
  {
    var payee, sats, rolled := listed[0], NodeBalance(db, listed[0].node) / MSATS_PER_SAT, Rolled(en, now);
    assert Payable(db, payee.node) && payee == PayeeOf(db, payee.node);
    FiveTurns(en, db, Tick(now, now), Query(listed, true), Read(true), Reply(true, now), Record(ok));
    var en1 := StepEngine(en, db, Tick(now, now));
    assert en1 == rolled.(run := Started(0));
    var en2 := StepEngine(en1, db, Query(listed, true));
    assert en2 == rolled.(run := Paying(0, listed));
    var en3 := StepEngine(en2, db, Read(true));
    assert en3 == rolled.(run := Calling(0, listed[1..], payee, sats));
    InsertPayoutMoves(db, payee.node, sats * MSATS_PER_SAT, payee.node);
  }

  /** An engine that has spent the whole cap on one payment at the end of its
      first hour, and is idle again. */
  function SpentAtHour(cap: int, node: NodeId): Engine {
    Engine(cap, cap, 0, Idle, [Sent(node, cap, HOUR, 0)], [], [0], HOUR)
  }

  lemma FirstCap(db: Db, a: Payee, b: Payee, cap: int)
    requires cap > 0 && Lists(db, [a, b]) && a.threshold > 0 && b.threshold > 0
    requires NodeBalance(db, a.node) == NodeBalance(db, b.node) == cap * MSATS_PER_SAT
    ensures var (en1, db1) := Turns(NewEngine(cap, 0), db, FirstPayment(HOUR, [a, b], true));
            && db1 == InsertPayout(db, a.node, cap * MSATS_PER_SAT)
            && Turns(en1, db1, [Read(true), Read(true)]) == (SpentAtHour(cap, a.node), db1)
  {
    var listed := [a, b];
    assert a == listed[0] && a in listed && b == listed[1] && b in listed;
    assert listed[1..] == [b];
    PayeeHasAddress(db, listed, a);
    FirstListedIsPaid(NewEngine(cap, 0), db, HOUR, listed, true);
    var (en1, db1) := Turns(NewEngine(cap, 0), db, FirstPayment(HOUR, listed, true));
    InsertPayoutMoves(db, a.node, cap * MSATS_PER_SAT, b.node);
    assert en1 == SpentAtHour(cap, a.node).(run := Paying(cap, [b]));
    TurnsHead(en1, db1, Read(true), [Read(true)]);
    var en' := StepEngine(en1, db1, Read(true));
    assert en' == SpentAtHour(cap, a.node).(run := Paying(cap, []));
    TurnsHead(en', db1, Read(true), []);
  }

  lemma PayeeHasAddress(db: Db, listed: seq<Payee>, p: Payee)
    requires Lists(db, listed) && p in listed
    ensures p.address != ""
  {
    assert Payable(db, p.node) && p == PayeeOf(db, p.node);
  }

  /** The cap of an hour can be spent twice within one second: two nodes are each
      owed exactly the cap, the first is paid as the hour ends and the second as
      the next one starts.  So the bound of RollingHourBound is reached. */
  lemma TwoCapsInOneSecond(db: Db, a: Payee, b: Payee, cap: int)
    requires cap > 0 && Lists(db, [a, b]) && a.threshold > 0 && b.threshold > 0
    requires NodeBalance(db, a.node) == NodeBalance(db, b.node) == cap * MSATS_PER_SAT
    ensures var (en1, db1) := Turns(NewEngine(cap, 0), db, FirstPayment(HOUR, [a, b], true));
            var (en2, db2) := Turns(en1, db1, [Read(true), Read(true)]);
            var (en3, _) := Turns(en2, db2, FirstPayment(HOUR + 1, [b], true));
            WindowSum(en3.sent, HOUR, HOUR + 1) == 2 * cap
  {
    FirstCap(db, a, b, cap);
    OnlyOneLeft(db, a, b, cap);
    SecondCap(InsertPayout(db, a.node, cap * MSATS_PER_SAT), a, b, cap);
  }

  lemma SecondCap(db: Db, a: Payee, b: Payee, cap: int)
    requires cap > 0 && Lists(db, [b]) && b.threshold > 0
    requires NodeBalance(db, b.node) == cap * MSATS_PER_SAT
    ensures var (en, _) := Turns(SpentAtHour(cap, a.node), db, FirstPayment(HOUR + 1, [b], true));
            WindowSum(en.sent, HOUR, HOUR + 1) == 2 * cap
  {
    var listed := [b];
    assert b == listed[0];
    PayeeHasAddress(db, listed, b);
    FirstListedIsPaid(SpentAtHour(cap, a.node), db, HOUR + 1, listed, true);
    var (en, _) := Turns(SpentAtHour(cap, a.node), db, FirstPayment(HOUR + 1, listed, true));
    var s1, s2 := Sent(a.node, cap, HOUR, 0), Sent(b.node, cap, HOUR + 1, 1);
    assert en.sent == [s1] + [s2] && [] + [s1] == [s1];
    WindowSumAppend([], s1, HOUR, HOUR + 1);
    WindowSumAppend([s1], s2, HOUR, HOUR + 1);
  }

  lemma WindowSumAppend(sent: seq<Sent>, s: Sent, lo: int, hi: int)
    ensures WindowSum(sent + [s], lo, hi) == WindowSum(sent, lo, hi) + if lo <= s.time <= hi then s.sats else 0
  {
    assert (sent + [s])[..|sent + [s]| - 1] == sent;
  }

  lemma OnlyOneLeft(db: Db, a: Payee, b: Payee, cap: int)
    requires cap > 0 && Lists(db, [a, b]) && a.threshold > 0
    requires NodeBalance(db, a.node) == NodeBalance(db, b.node) == cap * MSATS_PER_SAT
    ensures Lists(InsertPayout(db, a.node, cap * MSATS_PER_SAT), [b])
    ensures NodeBalance(InsertPayout(db, a.node, cap * MSATS_PER_SAT), b.node) == cap * MSATS_PER_SAT
  {
    var db' := InsertPayout(db, a.node, cap * MSATS_PER_SAT);
    var listed := [a, b];
    assert listed[0] == a && listed[1] == b && a in listed && b in listed;
    assert a.node != b.node;
    forall node
      ensures NodeBalance(db', node) == NodeBalance(db, node) - if node == a.node then cap * MSATS_PER_SAT else 0 {
      InsertPayoutMoves(db, a.node, cap * MSATS_PER_SAT, node);
    }
    assert Payable(db, b.node) && b == PayeeOf(db, b.node);
    assert Payable(db, a.node) && a == PayeeOf(db, a.node);
    forall node | node in db'.nodes && Payable(db', node) ensures Awaits([b], node) {
      if node != a.node {
        assert Payable(db, node);
        assert Awaits(listed, node);
        var p :| p in listed && p.node == node;
        assert p == b && b in [b];
      }
    }
  }

  /** A payment the database fails to record is made again: one node owed a single
      amount is sent it twice, although it is owed it once. */
  lemma LostRecordPaysTwice(db: Db, p: Payee, cap: int)
    requires cap > 0 && Lists(db, [p]) && p.threshold > 0
    requires NodeBalance(db, p.node) / MSATS_PER_SAT <= cap
    ensures var sats := NodeBalance(db, p.node) / MSATS_PER_SAT;
            var (en1, db1) := Turns(NewEngine(cap, 0), db, FirstPayment(HOUR, [p], false));
            var (en2, db2) := Turns(en1, db1, [Read(true)]);
            var (en3, db3) := Turns(en2, db2, FirstPayment(2 * HOUR, [p], true));
            && WindowSum(en3.sent, 0, 2 * HOUR) == 2 * sats > 0
            && Paid(db3, p.node) == Paid(db, p.node) + sats * MSATS_PER_SAT
  {
    var listed := [p];
    var sats := NodeBalance(db, p.node) / MSATS_PER_SAT;
    assert p == listed[0] && p in listed;
    FirstListedIsPaid(NewEngine(cap, 0), db, HOUR, listed, false);
    var (en1, db1) := Turns(NewEngine(cap, 0), db, FirstPayment(HOUR, listed, false));
    assert listed[1..] == [];
    TurnsHead(en1, db1, Read(true), []);
    var (en2, db2) := Turns(en1, db1, [Read(true)]);
    assert db2 == db && en2 == en1.(run := Idle);
    FirstListedIsPaid(en2, db2, 2 * HOUR, listed, true);
    var (en3, db3) := Turns(en2, db2, FirstPayment(2 * HOUR, listed, true));
    var s1, s2 := Sent(p.node, sats, HOUR, 0), Sent(p.node, sats, 2 * HOUR, Epoch(Rolled(en2, 2 * HOUR)));
    assert en1.sent == [] + [s1] && en3.sent == en1.sent + [s2];
    WindowSumAppend([], s1, 0, 2 * HOUR);
    WindowSumAppend(en1.sent, s2, 0, 2 * HOUR);
    InsertPayoutMoves(db, p.node, sats * MSATS_PER_SAT, p.node);
  }
}
