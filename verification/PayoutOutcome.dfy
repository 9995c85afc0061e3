/** What one run of the payout loop does, payee by payee, told from the balances, the
    counter and what the outside world answers. */
module PayoutOutcome {
  import opened Names
  import opened Tables
  import opened Payouts
  import opened PayoutEngine
  import opened ProviderLedger

  /** The engine as its loop starts on a queue. */
  function Loops(en: Engine, queue: seq<Payee>): Engine {
    en.(run := Paying(en.spentThisHour, queue))
  }

  /** The state after the loop over a queue. */
  ghost function Looped(en: Engine, db: Db, queue: seq<Payee>, w: World): (Engine, Db) {
    Serve(Loops(en, queue), db, w)
  }

  // ---------- one payee ----------

  /** Sats the loop asks PayAddress to pay: all whole ones, if they reach the threshold
      and, with what is spent so far, stay within the cap. */
  ghost predicate Calls(en: Engine, db: Db, p: Payee, w: World) {
    var sats := NodeBalance(db, p.node) / 1000;
    && w.readIo(p.node) && NodeBalance(db, p.node) > 0 && sats >= p.threshold && p.address != ""
    && (en.maxPerHour <= 0 || en.spentThisHour + sats <= en.maxPerHour)
  }

  /** Serving one payee: the counter and what was sent grow by its whole sats exactly
      when it is called and the payment confirmed, the recorded payouts exactly when
      the record works as well; nobody else's change. */
  ghost predicate Serves(en: Engine, db: Db, p: Payee, w: World, en': Engine, db': Db) {
    var sats := NodeBalance(db, p.node) / 1000;
    var sent := Calls(en, db, p, w) && w.confirms(p.node);
    && en'.maxPerHour == en.maxPerHour
    && en'.spentThisHour == en.spentThisHour + (if sent then sats else 0)
    && (forall node :: SentTo(en'.sent, node) == SentTo(en.sent, node) + if sent && node == p.node then sats else 0)
    && (forall node :: Paid(db', node)
          == Paid(db, node) + if sent && w.recordIo(p.node) && node == p.node then 1000 * sats else 0)
    && db' == db.(payouts := db'.payouts)
  }

  lemma NotCalled(en: Engine, db: Db, p: Payee, rest: seq<Payee>, w: World)
    requires !Calls(en, db, p, w)
    ensures var one := ServeOne(Loops(en, [p] + rest), db, w);
            one == (Loops(en, rest), db)
  {
    assert ([p] + rest)[1..] == rest;
  }

  lemma Called(en: Engine, db: Db, p: Payee, rest: seq<Payee>, w: World)
    requires Calls(en, db, p, w)
    ensures StepEngine(Loops(en, [p] + rest), db, Read(w.readIo(p.node)))
         == en.(run := Calling(en.spentThisHour, rest, p, NodeBalance(db, p.node) / 1000))
  {
    assert ([p] + rest)[1..] == rest;
  }

  /** The state after one payee of which nothing depends on the payees behind it. */
  lemma OneServed(en: Engine, db: Db, p: Payee, rest: seq<Payee>, w: World)
    ensures var (en', db') := ServeOne(Loops(en, [p] + rest), db, w);
            Serves(en, db, p, w, en', db') && en' == Loops(en', rest)
    ensures var (en', db') := ServeOne(Loops(en, [p] + rest), db, w);
            ServeOne(Loops(en, [p]), db, w) == (Loops(en', []), db')
  {
    assert [p] == [p] + [];
    if !Calls(en, db, p, w) {
      NotCalled(en, db, p, rest, w);
      NotCalled(en, db, p, [], w);
    } else {
      Called(en, db, p, rest, w);
      Called(en, db, p, [], w);
      ConfirmingServes(en, db, p, rest, w);
      Confirming(en, db, p, rest, w);
      Confirming(en, db, p, [], w);
    }
  }

  lemma Confirming(en: Engine, db: Db, p: Payee, rest: seq<Payee>, w: World)
    requires Calls(en, db, p, w)
    ensures var sats, at := NodeBalance(db, p.node) / 1000, en.clock + w.takes(p.node);
            var called := en.(clock := at);
            ServeOne(Loops(en, [p] + rest), db, w)
            == if !w.confirms(p.node) then (Loops(called, rest), db)
               else (Loops(called.(spentThisHour := en.spentThisHour + sats,
                                   sent := en.sent + [Sent(p.node, sats, at, Epoch(en))],
                                   lost := if w.recordIo(p.node) then en.lost
                                           else en.lost + [Payout(p.node, 1000 * sats)]), rest),
                     if w.recordIo(p.node) then InsertPayout(db, p.node, 1000 * sats) else db)
  {
    Called(en, db, p, rest, w);
  }

  lemma ConfirmingServes(en: Engine, db: Db, p: Payee, rest: seq<Payee>, w: World)
    requires Calls(en, db, p, w)
    ensures var (en', db') := ServeOne(Loops(en, [p] + rest), db, w); Serves(en, db, p, w, en', db')
  {
    var sats, at := NodeBalance(db, p.node) / 1000, en.clock + w.takes(p.node);
    Confirming(en, db, p, rest, w);
    forall node
      ensures SentTo(en.sent + [Sent(p.node, sats, at, Epoch(en))], node)
           == SentTo(en.sent, node) + if node == p.node then sats else 0
      ensures Paid(InsertPayout(db, p.node, 1000 * sats), node)
           == Paid(db, node) + if node == p.node then 1000 * sats else 0
    {
      SentToAppend(en.sent, Sent(p.node, sats, at, Epoch(en)), node);
      InsertPayoutMoves(db, p.node, 1000 * sats, node);
    }
  }

  // ---------- the loop, one payee after another ----------

  /** Serving one more payee at the end of the queue. */
  lemma {:induction false} LoopOneMore(en: Engine, db: Db, queue: seq<Payee>, p: Payee, w: World)
    ensures var (en1, db1) := Looped(en, db, queue, w);
            var (en2, db2) := Looped(en, db, queue + [p], w);
            Serves(en1, db1, p, w, en2, db2)
    decreases |queue|
  {
    if queue == [] {
      assert queue + [p] == [p] + [];
      LoopEmpty(en, db, w);
      OneServed(en, db, p, [], w);
      var (en', db') := ServeOne(Loops(en, [p] + []), db, w);
      LoopHead(en, db, p, [], w);
      LoopEmpty(en', db', w);
    } else {
      var head, tail := queue[0], queue[1..];
      assert queue == [head] + tail && queue + [p] == [head] + (tail + [p]);
      LoopHead(en, db, head, tail, w);
      LoopHead(en, db, head, tail + [p], w);
      HeadAlike(en, db, head, tail, tail + [p], w);
      var (en', db') := ServeOne(Loops(en, [head]), db, w);
      LoopOneMore(en', db', tail, p, w);
    }
  }

  lemma LoopEmpty(en: Engine, db: Db, w: World)
    ensures Looped(en, db, [], w) == (en.(run := Idle), db)
  {
  }

  /** The loop over a queue is its head and then the loop over the rest. */
  lemma LoopHead(en: Engine, db: Db, head: Payee, rest: seq<Payee>, w: World)
    ensures var (en', db') := ServeOne(Loops(en, [head]), db, w);
            Looped(en, db, [head] + rest, w) == Looped(en', db', rest, w)
  {
    OneServed(en, db, head, rest, w);
  }

  lemma HeadAlike(en: Engine, db: Db, head: Payee, rest: seq<Payee>, other: seq<Payee>, w: World)
    ensures var (en1, db1) := ServeOne(Loops(en, [head] + rest), db, w);
            var (en2, db2) := ServeOne(Loops(en, [head] + other), db, w);
            Loops(en1, []) == Loops(en2, []) && db1 == db2
  {
    OneServed(en, db, head, rest, w);
    OneServed(en, db, head, other, w);
  }

  // ---------- the whole run ----------

  /** What the loop leaves after the first i payees. */
  ghost function LoopedUpTo(en: Engine, db: Db, listed: seq<Payee>, i: nat, w: World): (Engine, Db)
    requires i <= |listed|
  {
    Looped(en, db, listed[..i], w)
  }

  /** Payees are served in the order of the list, each with what the run has spent on
      the ones before it. */
  lemma EachServed(en: Engine, db: Db, listed: seq<Payee>, i: nat, w: World)
    requires i < |listed|
    ensures var (en1, db1) := LoopedUpTo(en, db, listed, i, w);
            var (en2, db2) := LoopedUpTo(en, db, listed, i + 1, w);
            Serves(en1, db1, listed[i], w, en2, db2)
  {
    assert listed[..i + 1] == listed[..i] + [listed[i]];
    LoopOneMore(en, db, listed[..i], listed[i], w);
  }

  /** Nodes not among the first i payees are as they were. */
  lemma {:induction false} OthersUntouched(en: Engine, db: Db, listed: seq<Payee>, i: nat, w: World, node: NodeId)
    requires i <= |listed| && forall j | 0 <= j < i :: listed[j].node != node
    ensures var (en', db') := LoopedUpTo(en, db, listed, i, w);
            && Paid(db', node) == Paid(db, node) && NodeBalance(db', node) == NodeBalance(db, node)
            && SentTo(en'.sent, node) == SentTo(en.sent, node) && en'.maxPerHour == en.maxPerHour
            && db' == db.(payouts := db'.payouts)
  {
    if i == 0 {
      LoopEmpty(en, db, w);
    } else {
      OthersUntouched(en, db, listed, i - 1, w, node);
      EachServed(en, db, listed, i - 1, w);
    }
  }

  /** From payee i on, a node met before is not touched again. */
  lemma {:induction false} StaysServed(en: Engine, db: Db, listed: seq<Payee>, i: nat, n: nat, w: World, node: NodeId)
    requires i <= n <= |listed| && forall j | i <= j < n :: listed[j].node != node
    ensures var (en1, db1) := LoopedUpTo(en, db, listed, i, w);
            var (en2, db2) := LoopedUpTo(en, db, listed, n, w);
            Paid(db2, node) == Paid(db1, node) && SentTo(en2.sent, node) == SentTo(en1.sent, node)
    decreases n - i
  {
    if i < n {
      StaysServed(en, db, listed, i, n - 1, w, node);
      EachServed(en, db, listed, n - 1, w);
    }
  }

  /** What the run has spent, including what it started with, before payee i. */
  ghost function SpentBefore(en: Engine, db: Db, listed: seq<Payee>, i: nat, w: World): int
    requires i <= |listed|
  {
    LoopedUpTo(en, db, listed, i, w).0.spentThisHour
  }

  /** A listed node is sent all its whole sats exactly when its balance is read, its
      whole sats reach its threshold and fit under the cap with what the run has
      spent by then, it has an address, and PayAddress confirms; what is recorded
      grows by just that when the record works too, and otherwise not at all. */
  lemma ListedOutcome(en: Engine, db: Db, listed: seq<Payee>, i: nat, w: World)
    requires i < |listed| && Distinct(listed)
    ensures var (en', db') := Looped(en, db, listed, w);
            var node, sats := listed[i].node, NodeBalance(db, listed[i].node) / 1000;
            var sent := && w.readIo(node) && w.confirms(node) && NodeBalance(db, node) > 0
                        && sats >= listed[i].threshold && listed[i].address != ""
                        && (en.maxPerHour <= 0 || SpentBefore(en, db, listed, i, w) + sats <= en.maxPerHour);
            && SentTo(en'.sent, node) == SentTo(en.sent, node) + (if sent then sats else 0)
            && Paid(db', node) == Paid(db, node) + (if sent && w.recordIo(node) then 1000 * sats else 0)
            && SpentBefore(en, db, listed, i + 1, w) == SpentBefore(en, db, listed, i, w) + (if sent then sats else 0)
  {
    var node := listed[i].node;
    assert listed[..|listed|] == listed;
    OthersUntouched(en, db, listed, i, w, node);
    EachServed(en, db, listed, i, w);
    StaysServed(en, db, listed, i + 1, |listed|, w, node);
  }

  /** Nothing is sent to, and nothing recorded for, a node that is not listed. */
  lemma UnlistedOutcome(en: Engine, db: Db, listed: seq<Payee>, w: World, node: NodeId)
    requires !Awaits(listed, node)
    ensures var (en', db') := Looped(en, db, listed, w);
            SentTo(en'.sent, node) == SentTo(en.sent, node) && Paid(db', node) == Paid(db, node)
  {
    assert listed[..|listed|] == listed;
    OthersUntouched(en, db, listed, |listed|, w, node);
  }

  /** The counter starts where the hour's spending stands and ends as the engine keeps
      it for the next run. */
  lemma SpentEnds(en: Engine, db: Db, listed: seq<Payee>, w: World)
    ensures SpentBefore(en, db, listed, 0, w) == en.spentThisHour
    ensures SpentBefore(en, db, listed, |listed|, w) == Looped(en, db, listed, w).0.spentThisHour
  {
    assert listed[..|listed|] == listed;
    LoopEmpty(en, db, w);
  }

  /** processPayouts runs this loop: the counter is the one kept, or zero once more
      than 3,600 seconds have passed since the last reset. */
  lemma RunIsLoop(en: Engine, db: Db, now: int, later: int, listed: seq<Payee>)
    requires en.run.Idle? && en.clock <= now <= later && Lists(db, listed)
    ensures var begun := Begun(en, db, now, later, listed, true);
            && begun == Loops(begun, listed) && begun.maxPerHour == en.maxPerHour && begun.sent == en.sent
            && begun.spentThisHour == (if now - en.hourStart > 3600 then 0 else en.spentThisHour)
            && begun.hourStart == (if now - en.hourStart > 3600 then later else en.hourStart)
  {
  }
}
