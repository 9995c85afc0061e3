/** One tick of the invoice watcher: expire, list, ask the Lightning node about
    each pending invoice, credit those reported paid. */
module InvoiceWatcher {
  import opened Tables
  import opened Store

  /** What CheckInvoice answers. */
  datatype Report = Paid | Unpaid | CheckFailed

  function CreditAll(db: Db, hashes: seq<Hash>): Db {
    if hashes == [] then db else Credit(CreditAll(db, hashes[..|hashes| - 1]), hashes[|hashes| - 1])
  }

  predicate NoRepeats(hashes: seq<Hash>) {
    forall i, j | 0 <= i < j < |hashes| :: hashes[i] != hashes[j]
  }

  /** io says of which hashes the CreditInvoice transaction succeeds. */
  predicate ToCredit(report: Hash -> Report, io: Hash -> bool, h: Hash) {
    report(h).Paid? && io(h)
  }

  /** Crediting a list touches exactly the invoices on it, and moves no other. */
  lemma {:induction false} CreditAllInvoices(db: Db, hashes: seq<Hash>)
    ensures CreditAll(db, hashes).invoices.Keys == db.invoices.Keys
    ensures CreditAll(db, hashes).accounts.Keys == db.accounts.Keys
    ensures forall h | h in db.invoices ::
              CreditAll(db, hashes).invoices[h]
              == if h in hashes && IsPending(db, h) then db.invoices[h].(status := Credited) else db.invoices[h]
  {
    if hashes != [] {
      var n := |hashes| - 1;
      CreditAllInvoices(db, hashes[..n]);
      assert forall h :: h in hashes <==> h in hashes[..n] || h == hashes[n];
    }
  }

  function AmountOf(db: Db, h: Hash): int {
    if h in db.invoices then db.invoices[h].amount else 0
  }

  function AmountsOf(db: Db, hashes: seq<Hash>): int {
    if hashes == [] then 0 else AmountsOf(db, hashes[..|hashes| - 1]) + AmountOf(db, hashes[|hashes| - 1])
  }

  /** The users together gain exactly the amounts of the listed invoices. */
  lemma {:induction false} CreditAllMoney(db: Db, hashes: seq<Hash>)
    requires NoRepeats(hashes) && forall h | h in hashes :: IsPending(db, h)
    requires forall h | h in db.invoices :: db.invoices[h].key in db.accounts
    ensures Balances(CreditAll(db, hashes)) == Balances(db) + AmountsOf(db, hashes)
  {
    if hashes != [] {
      var n := |hashes| - 1;
      CreditAllMoney(db, hashes[..n]);
      CreditAllInvoices(db, hashes[..n]);
      assert hashes[n] in hashes && hashes[n] !in hashes[..n];
      CreditMoves(CreditAll(db, hashes[..n]), hashes[n]);
    }
  }

  /** The hashes of the list that are reported paid and whose transaction works. */
  function CreditList(listed: seq<Hash>, report: Hash -> Report, io: Hash -> bool): seq<Hash> {
    if listed == [] then [] else
    var front, h := CreditList(listed[..|listed| - 1], report, io), listed[|listed| - 1];
    if ToCredit(report, io, h) then front + [h] else front
  }

  lemma {:induction false} CreditedAre(listed: seq<Hash>, report: Hash -> Report, io: Hash -> bool)
    ensures forall h :: h in CreditList(listed, report, io) <==> h in listed && ToCredit(report, io, h)
    ensures NoRepeats(listed) ==> NoRepeats(CreditList(listed, report, io))
  {
    if listed != [] {
      var n := |listed| - 1;
      CreditedAre(listed[..n], report, io);
      assert forall h :: h in listed <==> h in listed[..n] || h == listed[n];
    }
  }

  /** The pending invoices, each once. */
  ghost predicate ListsPending(db: Db, listed: seq<Hash>) {
    NoRepeats(listed) && forall h :: h in listed <==> IsPending(db, h)
  }

  /** What a tick without errors does to each invoice: pending ones that are too old
      expire even when they have been paid; of the others exactly the paid ones are
      credited; settled ones stay. */
  lemma TickOutcome(db: Db, now: int, listed: seq<Hash>, report: Hash -> Report, io: Hash -> bool)
    requires ListsPending(ExpireOld(db, now), listed) && forall h :: io(h)
    ensures var db' := CreditAll(ExpireOld(db, now), CreditList(listed, report, io));
            && db'.invoices.Keys == db.invoices.Keys
            && forall h | h in db.invoices ::
                 var was := db.invoices[h];
                 db'.invoices[h].status
                 == if !was.status.Pending? then was.status
                    else if IsOld(was, now) then Expired
                    else if report(h).Paid? then Credited
                    else Pending
  {
    CreditedAre(listed, report, io);
    CreditAllInvoices(ExpireOld(db, now), CreditList(listed, report, io));
    forall h | h in db.invoices ensures ExpireOld(db, now).invoices[h] == Aged(db.invoices[h], now) {
    }
  }

  class Watcher {
    const db: DB

    constructor (db: DB)
      ensures this.db == db
    {
      this.db := db;
    }

    /** listed is what the query returns, in its order; credited are those of them
        that are reported paid and whose transaction works. */
    method Tick(now: int, expireIo: bool, listIo: bool, report: Hash -> Report, io: Hash -> bool)
      returns (listed: seq<Hash>, credited: seq<Hash>)
      modifies db
      ensures var aged := if expireIo then ExpireOld(old(db.View()), now) else old(db.View());
              && (if listIo then ListsPending(aged, listed) else listed == [])
              && credited == CreditList(listed, report, io)
              && db.View() == CreditAll(aged, credited)
    {
      listed, credited := [], [];
      var _ := db.ExpireOldInvoices(now, expireIo);
      ghost var aged := db.View();
      if !listIo {
        return;
      }
      listed := db.PendingInvoices();
      for i := 0 to |listed|
        invariant credited == CreditList(listed[..i], report, io)
        invariant db.View() == CreditAll(aged, credited)
      {
        var h := listed[i];
        assert listed[..i + 1][..i] == listed[..i];
        if report(h) == Paid {
          CreditedAre(listed[..i], report, io);
          CreditAllInvoices(aged, credited);
          assert h in listed && h !in listed[..i];
          assert IsPending(db.View(), h);
          var ok := db.CreditInvoice(h, io(h));
          if ok {
            assert (credited + [h])[..|credited|] == credited;
            credited := credited + [h];
          }
        }
      }
      assert listed[..|listed|] == listed;
    }
  }
}
