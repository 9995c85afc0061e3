/** What becomes of an invoice the user pays.  The Lightning invoice and the gateway's
    row both live ten minutes, so a payment made in the last seconds may come after
    the last check that still finds the row pending. */
module InvoiceFate {
  import opened Names
  import opened Tables
  import opened Ledger

  /** settled: the hashes paid on the Lightning network. */
  datatype World = World(s: State, settled: set<Hash>)

  /** Pay is a user's payment; it goes through while the Lightning invoice is alive.
      Check is CheckInvoice followed, when the answer is that it is paid, by
      CreditInvoice: the node knows what was paid.  Sys is any other step. */
  datatype Happening = Pay(hash: Hash, at: int) | Check(hash: Hash, ok: bool) | Sys(e: LedgerEvent)

  predicate Payable(w: World, h: Hash, at: int) {
    h in w.s.db.invoices && at <= w.s.db.invoices[h].createdAt + INVOICE_LIFETIME_SECONDS
  }

  ghost function Next(w: World, x: Happening): World {
    match x
    case Pay(h, at) => if Payable(w, h, at) then w.(settled := w.settled + {h}) else w
    case Check(h, ok) => w.(s := Step(w.s, CheckInvoice(h, h in w.settled, ok)))
    case Sys(e) => if e.CheckInvoice? then w else w.(s := Step(w.s, e))
  }

  ghost function After(w: World, xs: seq<Happening>): World {
    if xs == [] then w else Next(After(w, xs[..|xs| - 1]), xs[|xs| - 1])
  }

  predicate HasStatus(w: World, h: Hash, status: InvoiceStatus) {
    h in w.s.db.invoices && w.s.db.invoices[h].status == status
  }

  /** A working check of a paid invoice. */
  ghost predicate SeesPaid(w: World, xs: seq<Happening>, h: Hash, i: nat)
    requires i < |xs|
  {
    xs[i] == Check(h, true) && h in After(w, xs[..i]).settled
  }

  /** A working expiry step that finds the invoice older than ten minutes. */
  predicate Ages(xs: seq<Happening>, createdAt: int, i: nat)
    requires i < |xs|
  {
    && xs[i].Sys? && xs[i].e.ExpireInvoices? && xs[i].e.ok
    && createdAt < xs[i].e.now - INVOICE_LIFETIME_SECONDS
  }

  predicate NoneAges(xs: seq<Happening>, createdAt: int, n: nat)
    requires n <= |xs|
  {
    forall j | 0 <= j < n :: !Ages(xs, createdAt, j)
  }

  ghost predicate SeenInTime(w: World, xs: seq<Happening>, h: Hash, createdAt: int) {
    exists i :: 0 <= i < |xs| && SeesPaid(w, xs, h, i) && NoneAges(xs, createdAt, i)
  }

  // ---------- one step ----------

  lemma NextInvoice(w: World, x: Happening, h: Hash)
    requires h in w.s.db.invoices
    ensures h in Next(w, x).s.db.invoices
    ensures var inv := w.s.db.invoices[h];
            Next(w, x).s.db.invoices[h]
            == if x == Check(h, true) && h in w.settled && inv.status.Pending? then inv.(status := Credited)
               else if x.Sys? && x.e.ExpireInvoices? && x.e.ok then Aged(inv, x.e.now)
               else inv
  {
    match x
    case Pay(_, _) =>
    case Check(hash, ok) => InvoiceStep(w.s, CheckInvoice(hash, hash in w.settled, ok), h);
    case Sys(e) =>
      if !e.CheckInvoice? {
        InvoiceStep(w.s, e, h);
      }
  }

  // ---------- prefixes ----------

  lemma SeesPrefix(w: World, xs: seq<Happening>, h: Hash, i: nat, n: nat)
    requires i < n <= |xs|
    ensures SeesPaid(w, xs[..n], h, i) == SeesPaid(w, xs, h, i)
  {
    assert xs[..n][..i] == xs[..i];
  }

  lemma NoneAgesPrefix(xs: seq<Happening>, createdAt: int, i: nat, n: nat)
    requires i <= n <= |xs|
    ensures NoneAges(xs[..n], createdAt, i) == NoneAges(xs, createdAt, i)
  {
    forall j | 0 <= j < i ensures Ages(xs[..n], createdAt, j) == Ages(xs, createdAt, j) {
    }
  }

  lemma SeenSplit(w: World, xs: seq<Happening>, h: Hash, createdAt: int)
    requires xs != []
    ensures var n := |xs| - 1;
            SeenInTime(w, xs, h, createdAt)
            <==> SeenInTime(w, xs[..n], h, createdAt) || (SeesPaid(w, xs, h, n) && NoneAges(xs, createdAt, n))
  {
    var n := |xs| - 1;
    forall i | 0 <= i < n
      ensures SeesPaid(w, xs[..n], h, i) == SeesPaid(w, xs, h, i)
      ensures NoneAges(xs[..n], createdAt, i) == NoneAges(xs, createdAt, i)
    {
      SeesPrefix(w, xs, h, i, n);
      NoneAgesPrefix(xs, createdAt, i, n);
    }
  }

  // ---------- every continuation ----------

  /** The fate of a pending invoice in every continuation. */
  lemma {:induction false} FateIs(w: World, xs: seq<Happening>, h: Hash)
    requires HasStatus(w, h, Pending)
    ensures var createdAt := w.s.db.invoices[h].createdAt;
            && h in After(w, xs).s.db.invoices
            && After(w, xs).s.db.invoices[h]
               == w.s.db.invoices[h].(status := if SeenInTime(w, xs, h, createdAt) then Credited
                                                else if NoneAges(xs, createdAt, |xs|) then Pending
                                                else Expired)
  {
    if xs != [] {
      var n := |xs| - 1;
      var createdAt := w.s.db.invoices[h].createdAt;
      FateIs(w, xs[..n], h);
      NextInvoice(After(w, xs[..n]), xs[n], h);
      SeenSplit(w, xs, h, createdAt);
      NoneAgesPrefix(xs, createdAt, n, n);
      assert NoneAges(xs, createdAt, |xs|) <==> NoneAges(xs, createdAt, n) && !Ages(xs, createdAt, n);
    }
  }

  /** A pending invoice ends credited exactly when some working check finds it paid
      before any working expiry step finds it older than ten minutes. */
  lemma CreditedIffSeenInTime(w: World, xs: seq<Happening>, h: Hash)
    requires HasStatus(w, h, Pending)
    ensures HasStatus(After(w, xs), h, Credited) <==> SeenInTime(w, xs, h, w.s.db.invoices[h].createdAt)
  {
    FateIs(w, xs, h);
  }

  // ---------- from the top-up to the balance ----------

  /** A top-up is stored with its own key, its amount in msats and the time it is made
      at, exactly when the key exists, the amount is allowed and the hash is new. */
  lemma TopUpStores(s: State, h: Hash, key: Key, sats: int, now: int)
    requires h !in s.db.invoices
    ensures var s' := Step(s, TopUp(h, key, sats, now, true));
            && (h in s'.db.invoices <==> key in s.db.accounts && 10 <= sats <= 100_000)
            && (h in s'.db.invoices ==> s'.db.invoices[h] == Invoice(key, 1000 * sats, Pending, now))
            && s'.db.accounts == s.db.accounts
            && forall other | other != h && other in s.db.invoices ::
                 other in s'.db.invoices && s'.db.invoices[other] == s.db.invoices[other]
  {
  }

  /** The step neither credits the invoice nor finds it older than ten minutes. */
  predicate LeavesPending(e: LedgerEvent, h: Hash, createdAt: int) {
    && e != CheckInvoice(h, true, true)
    && (e.ExpireInvoices? && e.ok ==> e.now <= createdAt + 600)
  }

  /** Until a credit, an invoice is pending for ten minutes from its creation. */
  lemma {:induction false} PendingTenMinutes(s: State, es: seq<LedgerEvent>, h: Hash)
    requires h in s.db.invoices && s.db.invoices[h].status.Pending?
    requires forall e | e in es :: LeavesPending(e, h, s.db.invoices[h].createdAt)
    ensures h in Exec(s, es).db.invoices && Exec(s, es).db.invoices[h] == s.db.invoices[h]
    ensures s.db.accounts.Keys <= Exec(s, es).db.accounts.Keys
  {
    if es != [] {
      var n := |es| - 1;
      PendingTenMinutes(s, es[..n], h);
      assert es[n] in es;
      InvoiceStep(Exec(s, es[..n]), es[n], h);
      AccountsStay(Exec(s, es[..n]), es[n]);
    }
  }

  lemma AccountsStay(s: State, e: LedgerEvent)
    ensures s.db.accounts.Keys <= Step(s, e).db.accounts.Keys
  {
  }

  /** A working check of a pending invoice that is paid adds its amount to the balance
      of its own key, and to no other. */
  lemma CheckPays(s: State, h: Hash)
    requires h in s.db.invoices && s.db.invoices[h].status.Pending?
    ensures var s' := Step(s, CheckInvoice(h, true, true));
            && h in s'.db.invoices && s'.db.invoices[h] == s.db.invoices[h].(status := Credited)
            && s'.db.accounts.Keys == s.db.accounts.Keys
            && forall key | key in s.db.accounts ::
                 s'.db.accounts[key].balance
                 == s.db.accounts[key].balance + if key == s.db.invoices[h].key then s.db.invoices[h].amount else 0
  {
  }

  /** A top-up of any allowed amount that is paid and checked within ten minutes, with
      anything else going on meanwhile, adds exactly that amount to its key. */
  lemma TopUpReachesBalance(s: State, h: Hash, key: Key, sats: int, now: int, es: seq<LedgerEvent>)
    requires h !in s.db.invoices && key in s.db.accounts && 10 <= sats <= 100_000
    requires forall e | e in es :: LeavesPending(e, h, now)
    ensures var before := Exec(Step(s, TopUp(h, key, sats, now, true)), es);
            var after := Step(before, CheckInvoice(h, true, true));
            && h in before.db.invoices && before.db.invoices[h] == Invoice(key, 1000 * sats, Pending, now)
            && key in before.db.accounts && after.db.accounts.Keys == before.db.accounts.Keys
            && after.db.accounts[key].balance == before.db.accounts[key].balance + 1000 * sats
            && forall other | other in before.db.accounts && other != key ::
                 after.db.accounts[other].balance == before.db.accounts[other].balance
  {
    TopUpStores(s, h, key, sats, now);
    var stored := Step(s, TopUp(h, key, sats, now, true));
    PendingTenMinutes(stored, es, h);
    CheckPays(Exec(stored, es), h);
  }

  // ---------- a payment that is lost ----------

  /** The user pays in the last second; the next tick comes after it. */
  function LatePayment(h: Hash, createdAt: int): seq<Happening> {
    [] + [Pay(h, createdAt + 600)] + [Sys(ExpireInvoices(createdAt + 601, true))] + [Check(h, true)]
  }

  lemma AfterAppend(w: World, xs: seq<Happening>, x: Happening)
    ensures After(w, xs + [x]) == Next(After(w, xs), x)
  {
    assert (xs + [x])[..|xs + [x]| - 1] == xs;
  }

  lemma {:induction false} AfterConcat(w: World, xs: seq<Happening>, more: seq<Happening>)
    ensures After(w, xs + more) == After(After(w, xs), more)
  {
    if more == [] {
      assert xs + more == xs;
    } else {
      var n := |more| - 1;
      AfterConcat(w, xs, more[..n]);
      assert xs + more == xs + more[..n] + [more[n]];
      AfterAppend(w, xs + more[..n], more[n]);
    }
  }

  lemma {:induction false} SettledStays(w: World, xs: seq<Happening>, h: Hash)
    requires HasStatus(w, h, Expired) && h in w.settled
    ensures HasStatus(After(w, xs), h, Expired) && h in After(w, xs).settled
  {
    if xs != [] {
      var n := |xs| - 1;
      SettledStays(w, xs[..n], h);
      NextInvoice(After(w, xs[..n]), xs[n], h);
    }
  }

  lemma NextSettled(w: World, x: Happening)
    ensures w.settled <= Next(w, x).settled
    ensures x.Pay? && Payable(w, x.hash, x.at) ==> x.hash in Next(w, x).settled
  {
  }

  /** A payment that goes through first stays. */
  lemma {:induction false} FirstPaymentStays(w: World, xs: seq<Happening>)
    requires xs != [] && xs[0].Pay? && Payable(w, xs[0].hash, xs[0].at)
    ensures xs[0].hash in After(w, xs).settled
  {
    var n := |xs| - 1;
    if n == 0 {
      assert xs[..0] == [];
      NextSettled(w, xs[0]);
    } else {
      FirstPaymentStays(w, xs[..n]);
      NextSettled(After(w, xs[..n]), xs[n]);
    }
  }

  lemma LatePaymentEnds(w: World, h: Hash)
    requires HasStatus(w, h, Pending)
    ensures var w' := After(w, LatePayment(h, w.s.db.invoices[h].createdAt));
            HasStatus(w', h, Expired) && h in w'.settled
  {
    var xs, c := LatePayment(h, w.s.db.invoices[h].createdAt), w.s.db.invoices[h].createdAt;
    FirstPaymentStays(w, xs);
    FateIs(w, xs, h);
    assert Ages(xs, c, 1);
    assert forall i | 0 <= i < 2 :: !SeesPaid(w, xs, h, i);
  }

  /** Whatever pending invoice it is: paid in its last second and checked after the
      tick that ages it, it is paid and never credited, however the run goes on. */
  lemma LatePaymentIsLost(w: World, h: Hash, more: seq<Happening>)
    requires HasStatus(w, h, Pending)
    ensures var w' := After(w, LatePayment(h, w.s.db.invoices[h].createdAt) + more);
            h in w'.settled && HasStatus(w', h, Expired)
  {
    LatePaymentEnds(w, h);
    AfterConcat(w, LatePayment(h, w.s.db.invoices[h].createdAt), more);
    SettledStays(After(w, LatePayment(h, w.s.db.invoices[h].createdAt)), more, h);
  }
}
