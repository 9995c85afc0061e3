/** The SQLite store: every method is one statement or one transaction, and the
    queries are the loops SQLite runs over the rows.  The parameter io is false
    where the database reports an error, which leaves the tables as they were. */
module Store {
  import opened MapSums
  import opened Names
  import opened Tables
  import P = Payouts

  const SECONDS_PER_DAY := 86_400

  function Day(time: int): int {
    time / SECONDS_PER_DAY
  }

  /** The rows ValidateUserKey counts against the daily quota: any job of the key
      that started on the day, free or paid. */
  function UsedOn(jobs: map<JobId, JobRow>, key: Key, day: int): set<JobId> {
    set id | id in jobs && jobs[id].job.key == key && Day(jobs[id].startedAt) == day
  }

  class DB {
    var accounts: map<Key, Account>
    var invoices: map<Hash, Invoice>
    var jobs: map<JobId, JobRow>
    var nodes: map<NodeId, NodeRow>
    var payouts: seq<Payout>

    function View(): Db
      reads this
    {
      Db(accounts, invoices, jobs, nodes, payouts)
    }

    constructor ()
      ensures View() == EMPTY_DB
    {
      accounts, invoices, jobs, nodes, payouts := map[], map[], map[], map[], [];
    }

    method RecordJob(id: JobId, row: JobRow, io: bool) returns (ok: bool)
      modifies this
      ensures ok == (io && id !in old(jobs))
      ensures jobs == if ok then old(jobs)[id := row] else old(jobs)
      ensures View() == if ok then InsertJob(old(View()), id, row) else old(View())
    {
      ok := io && id !in jobs;
      if ok {
        jobs := jobs[id := row];
      }
    }

    /** Reads, compares and writes inside one transaction. */
    method DeductBalance(key: Key, amount: int, io: bool) returns (ok: bool)
      modifies this
      ensures ok == (io && key in old(accounts) && old(accounts)[key].balance >= amount)
      ensures ok ==>
                var was := old(accounts)[key];
                accounts == old(accounts)[key := was.(balance := was.balance - amount)]
      ensures View() == if ok then Deduct(old(View()), key, amount) else old(View())
    {
      if !io || key !in accounts {
        return false;
      }
      var current := accounts[key].balance;
      if current < amount {
        return false;
      }
      accounts := accounts[key := accounts[key].(balance := current - amount)];
      ok := true;
    }

    method CreateUserKey(key: Key, quotaDaily: int, io: bool) returns (ok: bool)
      modifies this
      ensures ok == (io && key !in old(accounts))
      ensures ok ==> accounts == old(accounts)[key := Account(quotaDaily, 0)]
      ensures View() == if ok then InsertAccount(old(View()), key, quotaDaily) else old(View())
    {
      ok := io && key !in accounts;
      if ok {
        accounts := accounts[key := Account(quotaDaily, 0)];
      }
    }

    method CreateInvoice(hash: Hash, key: Key, amount: int, now: int, io: bool) returns (ok: bool)
      modifies this
      ensures ok == (io && hash !in old(invoices))
      ensures ok ==> invoices == old(invoices)[hash := Invoice(key, amount, Pending, now)]
      ensures View() == if ok then InsertInvoice(old(View()), hash, key, amount, now) else old(View())
    {
      ok := io && hash !in invoices;
      if ok {
        invoices := invoices[hash := Invoice(key, amount, Pending, now)];
      }
    }

    /** Both updates in one transaction; calling it again credits nothing. */
    method CreditInvoice(hash: Hash, io: bool) returns (credited: bool)
      modifies this
      ensures credited == (io && hash in old(invoices) && old(invoices)[hash].status.Pending?)
      ensures credited ==>
                var was := old(invoices)[hash];
                && invoices == old(invoices)[hash := was.(status := Credited)]
                && accounts.Keys == old(accounts).Keys
                && forall k | k in accounts ::
                     accounts[k].balance == old(accounts)[k].balance + if k == was.key then was.amount else 0
      ensures View() == if credited then Credit(old(View()), hash) else old(View())
    {
      if !io || hash !in invoices || invoices[hash].status != Pending {
        return false;
      }
      var invoice := invoices[hash];
      invoices := invoices[hash := invoice.(status := Credited)];
      if invoice.key in accounts {
        var account := accounts[invoice.key];
        accounts := accounts[invoice.key := account.(balance := account.balance + invoice.amount)];
      }
      credited := true;
    }

    /** UPDATE ... WHERE: visits every row, counts those it changes. */
    method ExpireOldInvoices(now: int, io: bool) returns (expired: nat)
      modifies this
      ensures View() == if io then ExpireOld(old(View()), now) else old(View())
      ensures io ==> expired == |PendingAndOld(old(invoices), now)|
      ensures invoices.Keys == old(invoices).Keys
      ensures io ==> forall h | h in invoices ::
                var was := old(invoices)[h];
                invoices[h] == if was.status.Pending? && was.createdAt < now - 600 then was.(status := Expired) else was
    {
      expired := 0;
      if !io {
        return;
      }
      ghost var was := invoices;
      var todo := invoices.Keys;
      ghost var aged: set<Hash> := {};
      while todo != {}
        invariant todo <= was.Keys == invoices.Keys
        invariant forall h | h in was :: invoices[h] == if h in todo then was[h] else Aged(was[h], now)
        invariant aged == set h | h in was && h !in todo && was[h].status.Pending? && IsOld(was[h], now)
        invariant expired == |aged|
        invariant View() == old(View()).(invoices := invoices)
        decreases |todo|
      {
        var h :| h in todo;
        if invoices[h].status == Pending && IsOld(invoices[h], now) {
          invoices := invoices[h := invoices[h].(status := Expired)];
          expired := expired + 1;
          aged := aged + {h};
        }
        todo := todo - {h};
      }
      assert aged == PendingAndOld(was, now);
    }

    method PendingInvoices() returns (listed: seq<Hash>)
      ensures forall h :: h in listed <==> IsPending(View(), h)
      ensures forall i, j | 0 <= i < j < |listed| :: listed[i] != listed[j]
    {
      listed := [];
      var todo := invoices.Keys;
      while todo != {}
        invariant todo <= invoices.Keys
        invariant forall h :: h in listed <==> h !in todo && IsPending(View(), h)
        invariant forall i, j | 0 <= i < j < |listed| :: listed[i] != listed[j]
        decreases |todo|
      {
        var h :| h in todo;
        if invoices[h].status == Pending {
          listed := listed + [h];
        }
        todo := todo - {h};
      }
    }

    method RegisterNode(node: NodeId, row: NodeRow, io: bool)
      modifies this
      ensures nodes == if io then old(nodes)[node := row] else old(nodes)
      ensures View() == if io then UpsertNode(old(View()), node, row) else old(View())
    {
      if io {
        nodes := nodes[node := row];
      }
    }

    method RecordPayout(node: NodeId, amount: int, io: bool)
      modifies this
      ensures payouts == if io then old(payouts) + [Payout(node, amount)] else old(payouts)
      ensures View() == if io then InsertPayout(old(View()), node, amount) else old(View())
    {
      if io {
        payouts := payouts + [Payout(node, amount)];
      }
    }

    /** SELECT SUM(earned_msats) ... minus SELECT SUM(amount_msats) ... */
    method NodeBalance(node: NodeId) returns (balance: int)
      ensures balance == Tables.NodeBalance(View(), node)
    {
      var earned := SumEarned(node);
      var paid := SumPaid(node);
      balance := earned - paid;
    }

    method SumEarned(node: NodeId) returns (earned: int)
      ensures earned == Tables.Earned(View(), node)
    {
      earned := 0;
      var todo := jobs.Keys;
      ghost var visited: map<JobId, int> := map[];
      while todo != {}
        invariant todo <= jobs.Keys
        invariant visited == map id | id in jobs && id !in todo && jobs[id].job.node == node :: jobs[id].earned
        invariant earned == Total(visited)
        decreases |todo|
      {
        var id :| id in todo;
        if jobs[id].job.node == node {
          TotalSet(visited, id, jobs[id].earned);
          visited := visited[id := jobs[id].earned];
          earned := earned + jobs[id].earned;
        }
        todo := todo - {id};
      }
      assert visited == EarningsOf(jobs, node);
    }

    method SumPaid(node: NodeId) returns (paid: int)
      ensures paid == Tables.Paid(View(), node)
    {
      paid := 0;
      for i := 0 to |payouts|
        invariant paid == PaidIn(payouts[..i], node)
      {
        assert payouts[..i + 1][..i] == payouts[..i];
        if payouts[i].node == node {
          paid := paid + payouts[i].amount;
        }
      }
      assert payouts[..|payouts|] == payouts;
    }

    /** The nodes with an address whose balance is at least their threshold. */
    method PendingPayouts() returns (listed: seq<P.Payee>)
      ensures P.Lists(View(), listed)
      ensures forall node | node in nodes ::
                P.Awaits(listed, node) <==>
                nodes[node].address != "" && Tables.NodeBalance(View(), node) >= 1000 * nodes[node].threshold
      ensures forall p | p in listed ::
                p.node in nodes && p.address == nodes[p.node].address && p.threshold == nodes[p.node].threshold
    {
      listed := [];
      var todo := nodes.Keys;
      while todo != {}
        invariant todo <= nodes.Keys
        invariant P.Distinct(listed)
        invariant forall p | p in listed ::
                    p.node !in todo && P.Payable(View(), p.node) && p == P.PayeeOf(View(), p.node)
        invariant forall node | node in nodes && node !in todo && P.Payable(View(), node) :: P.Awaits(listed, node)
        decreases |todo|
      {
        var node :| node in todo;
        var balance := NodeBalance(node);
        ghost var before := listed;
        if nodes[node].address != "" && balance >= nodes[node].threshold * MSATS_PER_SAT {
          var p := P.Payee(node, nodes[node].address, nodes[node].threshold);
          listed := listed + [p];
          assert p in listed;
        }
        todo := todo - {node};
        forall n | n in nodes && n !in todo && P.Payable(View(), n) ensures P.Awaits(listed, n) {
          if n != node {
            var p :| p in before && p.node == n;
            assert p in listed;
          }
        }
      }
    }

    method UserBalance(key: Key) returns (found: bool, balance: int)
      ensures found == (key in accounts)
      ensures found ==> balance == accounts[key].balance
    {
      found := key in accounts;
      balance := if found then accounts[key].balance else 0;
    }

    /** Whether the key exists, and what is left of its quota today. */
    method ValidateUserKey(key: Key, now: int) returns (found: bool, remaining: int)
      ensures found == (key in accounts)
      ensures found ==> remaining == accounts[key].quotaDaily - |UsedOn(jobs, key, Day(now))|
    {
      if key !in accounts {
        return false, 0;
      }
      var used: set<JobId> := {};
      var todo := jobs.Keys;
      while todo != {}
        invariant todo <= jobs.Keys
        invariant used == set id | id in UsedOn(jobs, key, Day(now)) && id !in todo
        decreases |todo|
      {
        var id :| id in todo;
        if jobs[id].job.key == key && Day(jobs[id].startedAt) == Day(now) {
          used := used + {id};
        }
        todo := todo - {id};
      }
      assert used == UsedOn(jobs, key, Day(now));
      return true, accounts[key].quotaDaily - |used|;
    }
  }
}
