/** Which payable nodes can still be paid: an exact answer over all continuations. */
module PayoutReach {
  import opened Names
  import opened Tables
  import opened Ledger
  import opened ProviderLedger
  import HandlerRuns
  import P = Payouts

  /** The rows of the payable nodes among todo, each once. */
  lemma {:induction false} ListNodes(db: Db, todo: set<NodeId>) returns (listed: seq<P.Payee>)
    requires todo <= db.nodes.Keys
    ensures P.Distinct(listed)
    ensures forall p | p in listed :: p.node in todo && P.Payable(db, p.node) && p == P.PayeeOf(db, p.node)
    ensures forall node | node in todo && P.Payable(db, node) :: P.Awaits(listed, node)
  {
    if todo == {} {
      listed := [];
    } else {
      var node :| node in todo;
      var rest := ListNodes(db, todo - {node});
      listed := if P.Payable(db, node) then rest + [P.PayeeOf(db, node)] else rest;
      forall other | other in todo && P.Payable(db, other) ensures P.Awaits(listed, other) {
        if other == node {
          assert P.PayeeOf(db, node) in listed;
        } else {
          assert P.Awaits(rest, other);
          var p :| p in rest && p.node == other;
          assert p in listed;
        }
      }
    }
  }

  /** The query may return its rows with any payable node first. */
  lemma ListedFirst(db: Db, node: NodeId) returns (listed: seq<P.Payee>)
    requires P.Payable(db, node)
    ensures P.Lists(db, listed) && listed != [] && listed[0] == P.PayeeOf(db, node)
  {
    var rest := ListNodes(db, db.nodes.Keys - {node});
    listed := [P.PayeeOf(db, node)] + rest;
    forall other | other in db.nodes && P.Payable(db, other) ensures P.Awaits(listed, other) {
      if other == node {
        assert P.PayeeOf(db, node) in listed;
      } else {
        assert P.Awaits(rest, other);
        var p :| p in rest && p.node == other;
        assert p in listed;
      }
    }
  }

  ghost predicate PaidLater(s: State, es: seq<LedgerEvent>, node: NodeId) {
    SentTo(Exec(s, es).pay.sent, node) > SentTo(s.pay.sent, node)
  }

  /** After the next reset the node comes first and is paid. */
  lemma PayNext(s: State, node: NodeId) returns (es: seq<LedgerEvent>)
    requires ProviderInv(s) && s.pay.run.Idle? && P.Payable(s.db, node)
    requires s.pay.maxPerHour > 0 ==> NodeBalance(s.db, node) / MSATS_PER_SAT <= s.pay.maxPerHour
    ensures PaidLater(s, es, node)
  {
    var listed := ListedFirst(s.db, node);
    var reset := s.pay.hourStart + P.HOUR + 1;
    var now := if reset < s.pay.clock then s.pay.clock else reset;
    P.FirstListedIsPaid(s.pay, s.db, now, listed, true);
    var actions := P.FirstPayment(now, listed, true);
    HandlerRuns.TurnsAreRun(s, [], actions);
    es := [] + HandlerRuns.PayoutSteps(actions);
    var sats := NodeBalance(s.db, node) / MSATS_PER_SAT;
    SentToAppend(s.pay.sent, P.Sent(node, sats, now, P.Epoch(P.Rolled(s.pay, now))), node);
  }

  /** With a cap, an idle engine and a payable node: some continuation of the system
      pays the node if and only if its whole sats are within the cap. */
  lemma PaidLaterIffWithinCap(s: State, node: NodeId)
    requires RowsInv(s) && ProviderInv(s) && s.pay.run.Idle? && s.pay.maxPerHour > 0 && P.Payable(s.db, node)
    ensures (exists es :: PaidLater(s, es, node)) <==> NodeBalance(s.db, node) / MSATS_PER_SAT <= s.pay.maxPerHour
  {
    if NodeBalance(s.db, node) / MSATS_PER_SAT <= s.pay.maxPerHour {
      var es := PayNext(s, node);
    } else {
      forall es ensures !PaidLater(s, es, node) {
        ShutOutForever(s, es, node);
      }
    }
  }
}
