/** The uninterrupted handlers of the Gateway module are runs of the Ledger machine:
    after any history, what a handler leaves behind is the state after that
    history followed by the handler's own steps.  So every theorem about all runs
    of the machine holds of the objects' states too. */
module HandlerRuns {
  import opened Names
  import opened JobGate
  import opened Tables
  import opened Ledger
  import opened Gateway
  import W = InvoiceWatcher
  import JobSlots
  import P = Payouts
  import PayoutEngine

  lemma AfterOne(init: State, es: seq<LedgerEvent>, e: LedgerEvent)
    ensures Ledger.Exec(init, es + [e]) == Ledger.Step(Ledger.Exec(init, es), e)
  {
    assert (es + [e])[..|es + [e]| - 1] == es;
  }

  lemma AfterGateStep(init: State, es: seq<LedgerEvent>, e: Event)
    requires !TouchesTables(e)
    ensures var s := Ledger.Exec(init, es);
            Ledger.Exec(init, es + [LedgerEvent.Gateway(e)]) == s.(gate := JobGate.Step(s.gate, e))
  {
    AfterOne(init, es, LedgerEvent.Gateway(e));
  }

  lemma OneMore(es: seq<LedgerEvent>, more: seq<LedgerEvent>, e: LedgerEvent)
    ensures es + (more + [e]) == es + more + [e]
  {
  }

  lemma TwoMore(es: seq<LedgerEvent>, more: seq<LedgerEvent>, e1: LedgerEvent, e2: LedgerEvent)
    ensures es + (more + [e1] + [e2]) == es + more + [e1] + [e2]
  {
  }

  // ---------- steps of the gateway alone ----------

  function OnGate(steps: seq<Event>): seq<LedgerEvent> {
    if steps == [] then [] else OnGate(steps[..|steps| - 1]) + [LedgerEvent.Gateway(steps[|steps| - 1])]
  }

  function GateAfter(g: Gate, steps: seq<Event>): Gate {
    if steps == [] then g else JobGate.Step(GateAfter(g, steps[..|steps| - 1]), steps[|steps| - 1])
  }

  lemma {:induction false} GateRun(init: State, es: seq<LedgerEvent>, steps: seq<Event>)
    requires forall e | e in steps :: !TouchesTables(e)
    ensures var s := Ledger.Exec(init, es);
            Ledger.Exec(init, es + OnGate(steps)) == s.(gate := GateAfter(s.gate, steps))
  {
    if steps == [] {
      assert es + OnGate(steps) == es;
    } else {
      var n := |steps| - 1;
      GateRun(init, es, steps[..n]);
      assert steps[n] in steps;
      assert es + OnGate(steps) == es + OnGate(steps[..n]) + [LedgerEvent.Gateway(steps[n])];
      AfterGateStep(init, es + OnGate(steps[..n]), steps[n]);
    }
  }

  lemma GateAfterOne(g: Gate, steps: seq<Event>, e: Event)
    ensures GateAfter(g, steps + [e]) == JobGate.Step(GateAfter(g, steps), e)
  {
    assert (steps + [e])[..|steps + [e]| - 1] == steps;
  }

  // ---------- AssignJob, handleReject ----------

  /** Over the limit the first step changes nothing, and neither do the others. */
  function AssignSteps(id: JobId, job: Job, found: bool, now: int, sent: bool): seq<Event> {
    var looked := [] + [Assign(id, job)] + [Lookup(id, found)];
    if !found then looked + [ReleaseNoNode(id)] else
    var returned := looked + [Insert(id, now)] + [SendReturn(id, sent)];
    if sent then returned else returned + [DropAfterSend(id)] + [ReleaseAfterSend(id)]
  }

  lemma AssignStepsLead(g: Gate, id: JobId, job: Job, found: bool, now: int, sent: bool)
    requires id !in g.tracks
    ensures GateAfter(g, AssignSteps(id, job, found, now, sent)) == Assigned(g, id, job, found, now, sent)
  {
    var counted := [] + [Assign(id, job)];
    GateAfterOne(g, [], Assign(id, job));
    GateAfterOne(g, counted, Lookup(id, found));
    var looked := counted + [Lookup(id, found)];
    if !found {
      GateAfterOne(g, looked, ReleaseNoNode(id));
    } else {
      GateAfterOne(g, looked, Insert(id, now));
      GateAfterOne(g, looked + [Insert(id, now)], SendReturn(id, sent));
      var returned := looked + [Insert(id, now)] + [SendReturn(id, sent)];
      if !sent {
        GateAfterOne(g, returned, DropAfterSend(id));
        GateAfterOne(g, returned + [DropAfterSend(id)], ReleaseAfterSend(id));
      }
    }
  }

  /** AssignJob for a fresh id, after any history. */
  lemma AssignIsRun(init: State, es: seq<LedgerEvent>, id: JobId, job: Job, found: bool, now: int, sent: bool)
    requires Inv(Ledger.Exec(init, es).gate) && id !in Ledger.Exec(init, es).gate.tracks
    ensures var s := Ledger.Exec(init, es);
            Ledger.Exec(init, es + OnGate(AssignSteps(id, job, found, now, sent)))
            == s.(gate := AssignOutcome(s.gate, id, job, found, now, sent))
  {
    var s := Ledger.Exec(init, es);
    AssignOnGate(id, job, found, now, sent);
    GateRun(init, es, AssignSteps(id, job, found, now, sent));
    AssignLeads(s.gate, id, job, found, now, sent);
  }

  lemma AssignOnGate(id: JobId, job: Job, found: bool, now: int, sent: bool)
    ensures forall e | e in AssignSteps(id, job, found, now, sent) :: !TouchesTables(e)
  {
  }

  lemma AssignLeads(g: Gate, id: JobId, job: Job, found: bool, now: int, sent: bool)
    requires Inv(g) && id !in g.tracks
    ensures GateAfter(g, AssignSteps(id, job, found, now, sent)) == AssignOutcome(g, id, job, found, now, sent)
  {
    AssignStepsLead(g, id, job, found, now, sent);
    AssignRun(g, id, job, found, now, sent);
  }

  function RejectSteps(id: JobId): seq<Event> {
    [] + [Reject(id)] + [ReleaseRejected(id)]
  }

  lemma RejectStepsLead(g: Gate, id: JobId)
    requires Inv(g) && id in g.pending
    ensures GateAfter(g, RejectSteps(id)) == RejectOutcome(g, id)
  {
    GateAfterOne(g, [], Reject(id));
    GateAfterOne(g, [] + [Reject(id)], ReleaseRejected(id));
    RejectRun(g, id);
  }

  /** handleReject, after any history. */
  lemma RejectIsRun(init: State, es: seq<LedgerEvent>, id: JobId)
    requires Inv(Ledger.Exec(init, es).gate) && id in Ledger.Exec(init, es).gate.pending
    ensures var s := Ledger.Exec(init, es);
            Ledger.Exec(init, es + OnGate(RejectSteps(id))) == s.(gate := RejectOutcome(s.gate, id))
  {
    var s := Ledger.Exec(init, es);
    GateRun(init, es, RejectSteps(id));
    RejectStepsLead(s.gate, id);
  }

  // ---------- handleProxyDone ----------

  function TakeSteps(id: JobId, node: NodeId): seq<Event> {
    [] + [TakeDone(id, node)] + [CloseDone(id)] + [ReleaseDone(id)]
  }

  function DoneSteps(id: JobId, node: NodeId, price: real, recordIo: bool, chargeIo: bool): seq<LedgerEvent> {
    OnGate(TakeSteps(id, node)) + [RecordDoneJob(id, price, recordIo)] + [ChargeJob(id, chargeIo)]
  }

  lemma TakeStepsLead(g: Gate, id: JobId, node: NodeId)
    ensures GateAfter(g, TakeSteps(id, node)) == Taken(g, id, node)
  {
    GateAfterOne(g, [], TakeDone(id, node));
    GateAfterOne(g, [] + [TakeDone(id, node)], CloseDone(id));
    GateAfterOne(g, [] + [TakeDone(id, node)] + [CloseDone(id)], ReleaseDone(id));
  }

  lemma TakeIsRun(init: State, es: seq<LedgerEvent>, id: JobId, node: NodeId)
    ensures var s := Ledger.Exec(init, es);
            Ledger.Exec(init, es + OnGate(TakeSteps(id, node))) == s.(gate := Taken(s.gate, id, node))
  {
    GateRun(init, es, TakeSteps(id, node));
    TakeStepsLead(Ledger.Exec(init, es).gate, id, node);
  }

  lemma AfterTwo(init: State, es: seq<LedgerEvent>, more: seq<LedgerEvent>, e1: LedgerEvent, e2: LedgerEvent)
    ensures Ledger.Exec(init, es + (more + [e1] + [e2]))
         == Ledger.Step(Ledger.Step(Ledger.Exec(init, es + more), e1), e2)
  {
    AfterOne(init, es + more, e1);
    AfterOne(init, es + more + [e1], e2);
    TwoMore(es, more, e1, e2);
  }

  /** handleProxyDone from the assigned node, after any history. */
  lemma DoneIsRun(init: State, es: seq<LedgerEvent>, id: JobId, price: real, recordIo: bool, chargeIo: bool)
    requires Inv(Ledger.Exec(init, es).gate) && id in Ledger.Exec(init, es).gate.pending
    ensures var s := Ledger.Exec(init, es);
            Ledger.Exec(init, es + DoneSteps(id, s.gate.tracks[id].job.node, price, recordIo, chargeIo))
            == DoneOutcome(s, id, price, recordIo, chargeIo)
  {
    var s := Ledger.Exec(init, es);
    var node := s.gate.tracks[id].job.node;
    TakeIsRun(init, es, id, node);
    AfterTwo(init, es, OnGate(TakeSteps(id, node)), RecordDoneJob(id, price, recordIo), ChargeJob(id, chargeIo));
    DoneRun(s, id, price, recordIo, chargeIo);
  }

  // ---------- the cleanup pass ----------

  function CompensateSteps(expired: seq<JobId>, price: JobId -> real, io: JobId -> bool): seq<LedgerEvent> {
    if expired == [] then [] else
    var n := |expired| - 1;
    CompensateSteps(expired[..n], price, io)
    + [LedgerEvent.Gateway(ReleaseExpired(expired[n]))]
    + [RecordExpiredJob(expired[n], price(expired[n]), io(expired[n]))]
  }

  lemma CompensateOne(init: State, es: seq<LedgerEvent>, id: JobId, price: real, io: bool)
    requires ExitAt(Ledger.Exec(init, es).gate, id, ByExpiry, Closed)
    ensures Ledger.Exec(init, es + [LedgerEvent.Gateway(ReleaseExpired(id))] + [RecordExpiredJob(id, price, io)])
         == CompensatedState(Ledger.Exec(init, es), id, price, io)
  {
    AfterGateStep(init, es, ReleaseExpired(id));
    AfterOne(init, es + [LedgerEvent.Gateway(ReleaseExpired(id))], RecordExpiredJob(id, price, io));
    CompensateRun(Ledger.Exec(init, es), id, price, io);
  }

  /** The expired jobs still wait for the goroutine that compensates them. */
  predicate AllClosed(g: Gate, ids: seq<JobId>) {
    forall id | id in ids :: ExitAt(g, id, ByExpiry, Closed)
  }

  lemma ClosedFront(s: State, expired: seq<JobId>, price: JobId -> real, io: JobId -> bool)
    requires expired != [] && AllDistinct(expired) && AllClosed(s.gate, expired)
    ensures var front := expired[..|expired| - 1];
            && AllDistinct(front) && AllClosed(s.gate, front)
            && ExitAt(CompensateAll(s, front, price, io).gate, expired[|expired| - 1], ByExpiry, Closed)
  {
    var front, id := expired[..|expired| - 1], expired[|expired| - 1];
    assert id in expired && forall j | j in front :: j in expired;
    assert id !in front;
    CompensatedTracks(s, front, price, io);
  }

  lemma {:induction false} CompensateIsRun(init: State, es: seq<LedgerEvent>, expired: seq<JobId>,
                                           price: JobId -> real, io: JobId -> bool)
    requires AllDistinct(expired) && AllClosed(Ledger.Exec(init, es).gate, expired)
    ensures Ledger.Exec(init, es + CompensateSteps(expired, price, io))
         == CompensateAll(Ledger.Exec(init, es), expired, price, io)
  {
    if expired == [] {
      assert es + CompensateSteps(expired, price, io) == es;
    } else {
      var n := |expired| - 1;
      var front, id := expired[..n], expired[n];
      ClosedFront(Ledger.Exec(init, es), expired, price, io);
      CompensateIsRun(init, es, front, price, io);
      CompensateOne(init, es + CompensateSteps(front, price, io), id, price(id), io(id));
      TwoMore(es, CompensateSteps(front, price, io), LedgerEvent.Gateway(ReleaseExpired(id)),
              RecordExpiredJob(id, price(id), io(id)));
    }
  }

  lemma ExpiredAreClosed(g: Gate, cutoff: int, id: JobId)
    requires Expires(g, id, cutoff)
    ensures ExitAt(JobGate.Step(g, Expire(cutoff)), id, ByExpiry, Closed)
  {
  }

  /** A whole cleanup pass, after any history. */
  lemma CleanupIsRun(init: State, es: seq<LedgerEvent>, cutoff: int, expired: seq<JobId>,
                     price: JobId -> real, io: JobId -> bool)
    requires ListsExpired(Ledger.Exec(init, es).gate, cutoff, expired, {})
    ensures var s := Ledger.Exec(init, es);
            Ledger.Exec(init, es + [LedgerEvent.Gateway(Expire(cutoff))] + CompensateSteps(expired, price, io))
            == CompensateAll(s.(gate := JobGate.Step(s.gate, Expire(cutoff))), expired, price, io)
  {
    var s := Ledger.Exec(init, es);
    AfterGateStep(init, es, Expire(cutoff));
    forall id | id in expired ensures ExitAt(JobGate.Step(s.gate, Expire(cutoff)), id, ByExpiry, Closed) {
      assert Expires(s.gate, id, cutoff);
      ExpiredAreClosed(s.gate, cutoff, id);
    }
    CompensateIsRun(init, es + [LedgerEvent.Gateway(Expire(cutoff))], expired, price, io);
  }

  // ---------- the slots a cleanup pass gives back ----------

  function OwnedSet(g: Gate, ids: seq<JobId>, key: Key): set<JobId> {
    set id | id in ids && id in g.tracks && g.tracks[id].job.key == key
  }

  lemma {:induction false} OwnedByCounts(g: Gate, ids: seq<JobId>, key: Key)
    requires AllDistinct(ids)
    ensures OwnedBy(g, ids, key) == |OwnedSet(g, ids, key)|
  {
    if ids != [] {
      var n := |ids| - 1;
      OwnedByCounts(g, ids[..n], key);
      assert ids[n] !in ids[..n];
      assert forall id :: id in ids <==> id in ids[..n] || id == ids[n];
      var own := ids[n] in g.tracks && g.tracks[ids[n]].job.key == key;
      assert OwnedSet(g, ids, key) == OwnedSet(g, ids[..n], key) + if own then {ids[n]} else {};
    }
  }

  lemma {:induction false} OwnersStay(g: Gate, cutoff: int, ids: seq<JobId>, key: Key)
    ensures OwnedBy(JobGate.Step(g, Expire(cutoff)), ids, key) == OwnedBy(g, ids, key)
  {
    if ids != [] {
      OwnersStay(g, cutoff, ids[..|ids| - 1], key);
    }
  }

  /** An expiring job holds a slot of its key. */
  lemma ExpiredHold(g: Gate, cutoff: int, expired: seq<JobId>, key: Key)
    requires Inv(g) && ListsExpired(g, cutoff, expired, {})
    ensures OwnedBy(g, expired, key) <= JobSlots.Held(g, key)
  {
    OwnedByCounts(g, expired, key);
    var owned, holders := OwnedSet(g, expired, key), JobSlots.Holders(g, key);
    forall id | id in owned ensures id in holders {
      assert Expires(g, id, cutoff);
      PendingIsOpen(g, id);
    }
    assert holders == owned + (holders - owned);
  }

  /** Without phantom releases, a cleanup pass lowers each user's counter by
      exactly the number of that user's jobs that expired. */
  lemma CleanupFreesOwners(s: State, es: seq<Event>, cutoff: int, expired: seq<JobId>,
                           price: JobId -> real, io: JobId -> bool, key: Key)
    requires s.gate == JobGate.Exec(es) && JobSlots.PhantomFree(es, key)
    requires ListsExpired(s.gate, cutoff, expired, {})
    ensures var s' := CompensateAll(s.(gate := JobGate.Step(s.gate, Expire(cutoff))), expired, price, io);
            Count(s'.gate.userJobs, key) == Count(s.gate.userJobs, key) - OwnedBy(s.gate, expired, key)
  {
    ReachableInv(es);
    ExpiredHold(s.gate, cutoff, expired, key);
    JobSlots.ExactIffNoPhantom(es, key);
    assert es[..|es|] == es && JobSlots.Exact(es[..|es|], key);
    OwnersStay(s.gate, cutoff, expired, key);
    forall id | id in expired ensures id in s.gate.tracks {
      assert Expires(s.gate, id, cutoff);
    }
    CompensatedCounts(s.(gate := JobGate.Step(s.gate, Expire(cutoff))), expired, price, io, key);
  }

  predicate Compensated(s: State, cutoff: int, io: JobId -> bool, id: JobId) {
    && id in s.gate.pending && id in s.gate.tracks && s.gate.tracks[id].startedAt < cutoff && io(id)
    && (s.gate.tracks[id].lastUsage.tokensIn > 0 || s.gate.tracks[id].lastUsage.tokensOut > 0)
  }

  lemma ExpiredExpire(g: Gate, cutoff: int, expired: seq<JobId>)
    requires ListsExpired(g, cutoff, expired, {})
    ensures forall id :: id in expired <==> Expires(g, id, cutoff)
  {
  }

  lemma CleanupTracks(s: State, cutoff: int, expired: seq<JobId>, price: JobId -> real, io: JobId -> bool)
    requires ListsExpired(s.gate, cutoff, expired, {})
    ensures var s' := CompensateAll(s.(gate := JobGate.Step(s.gate, Expire(cutoff))), expired, price, io);
            && s'.gate.pending == JobGate.Step(s.gate, Expire(cutoff)).pending
            && s'.gate.tracks.Keys == s.gate.tracks.Keys
            && (forall id | id in s.gate.tracks ::
                  s'.gate.tracks[id]
                  == if Expires(s.gate, id, cutoff)
                     then s.gate.tracks[id].(exit := Left(ByExpiry, Settled), doneClosed := true)
                     else s.gate.tracks[id])
            && s'.db == s.db.(jobs := s'.db.jobs) && s'.charges == s.charges
  {
    ExpiredExpire(s.gate, cutoff, expired);
    CompensatedTracks(s.(gate := JobGate.Step(s.gate, Expire(cutoff))), expired, price, io);
  }

  lemma CleanupRows(s: State, cutoff: int, expired: seq<JobId>, price: JobId -> real, io: JobId -> bool)
    requires ListsExpired(s.gate, cutoff, expired, {})
    ensures var s' := CompensateAll(s.(gate := JobGate.Step(s.gate, Expire(cutoff))), expired, price, io);
            forall id :: id in s'.db.jobs <==> id in s.db.jobs || Compensated(s, cutoff, io, id)
  {
    var swept := s.(gate := JobGate.Step(s.gate, Expire(cutoff)));
    ExpiredExpire(s.gate, cutoff, expired);
    CompensatedRows(swept, expired, price, io);
    forall id | id in expired ensures Compensated(s, cutoff, io, id) <==> io(id) && Served(swept.gate.tracks[id]) {
      assert Expires(s.gate, id, cutoff);
    }
  }

  /** A whole cleanup pass from the outside: pendingJobs splits exactly into the
      jobs kept, untouched, and those started before the cutoff, which are closed
      and settled; a row is written for exactly the latter that had served tokens
      and whose INSERT works; no account and no charge changes. */
  lemma CleanupSplits(s: State, cutoff: int, expired: seq<JobId>, price: JobId -> real, io: JobId -> bool)
    requires Inv(s.gate) && ListsExpired(s.gate, cutoff, expired, {})
    ensures var s' := CompensateAll(s.(gate := JobGate.Step(s.gate, Expire(cutoff))), expired, price, io);
            && (forall id :: id in s'.gate.pending <==> id in s.gate.pending && s.gate.tracks[id].startedAt >= cutoff)
            && s'.gate.tracks.Keys == s.gate.tracks.Keys
            && (forall id | id in s.gate.tracks ::
                  s'.gate.tracks[id]
                  == if id in s.gate.pending && s.gate.tracks[id].startedAt < cutoff
                     then s.gate.tracks[id].(exit := Left(ByExpiry, Settled), doneClosed := true)
                     else s.gate.tracks[id])
            && (forall id :: id in s'.db.jobs <==> id in s.db.jobs || Compensated(s, cutoff, io, id))
            && s'.db == s.db.(jobs := s'.db.jobs) && s'.charges == s.charges
  {
    CleanupTracks(s, cutoff, expired, price, io);
    CleanupRows(s, cutoff, expired, price, io);
  }

  lemma ExpiredTracked(g: Gate, cutoff: int, expired: seq<JobId>)
    requires ListsExpired(g, cutoff, expired, {})
    ensures forall id | id in expired :: id in g.tracks
  {
    forall id | id in expired ensures id in g.tracks {
      assert Expires(g, id, cutoff);
    }
  }

  // ---------- the invoice watcher's tick ----------

  /** One check for each listed invoice the Lightning node answers about. */
  function CheckSteps(listed: seq<Hash>, report: Hash -> W.Report, io: Hash -> bool): seq<LedgerEvent> {
    if listed == [] then [] else
    var front, h := CheckSteps(listed[..|listed| - 1], report, io), listed[|listed| - 1];
    if report(h).CheckFailed? then front else front + [CheckInvoice(h, report(h).Paid?, io(h))]
  }

  function PaidAmong(listed: seq<Hash>, report: Hash -> W.Report): set<Hash> {
    set h | h in listed && report(h).Paid?
  }

  lemma AfterCheck(init: State, es: seq<LedgerEvent>, h: Hash, paid: bool, io: bool)
    ensures var s := Ledger.Exec(init, es);
            Ledger.Exec(init, es + [CheckInvoice(h, paid, io)])
            == s.(db := if paid && io then Credit(s.db, h) else s.db,
                  reportedPaid := if paid then s.reportedPaid + {h} else s.reportedPaid)
  {
    AfterOne(init, es, CheckInvoice(h, paid, io));
    CheckStep(Ledger.Exec(init, es), h, paid, io);
  }

  lemma CheckStep(s: State, h: Hash, paid: bool, io: bool)
    ensures Ledger.Step(s, CheckInvoice(h, paid, io))
         == s.(db := if paid && io then Credit(s.db, h) else s.db,
               reportedPaid := if paid then s.reportedPaid + {h} else s.reportedPaid)
  {
  }

  lemma CreditedOneMore(db: Db, listed: seq<Hash>, report: Hash -> W.Report, io: Hash -> bool)
    requires listed != []
    ensures var front, h := W.CreditList(listed[..|listed| - 1], report, io), listed[|listed| - 1];
            W.CreditAll(db, W.CreditList(listed, report, io))
            == if report(h).Paid? && io(h) then Credit(W.CreditAll(db, front), h) else W.CreditAll(db, front)
  {
    var front, h := W.CreditList(listed[..|listed| - 1], report, io), listed[|listed| - 1];
    assert (front + [h])[..|front|] == front;
  }

  lemma PaidOneMore(listed: seq<Hash>, report: Hash -> W.Report)
    requires listed != []
    ensures var front, h := listed[..|listed| - 1], listed[|listed| - 1];
            PaidAmong(listed, report) == PaidAmong(front, report) + if report(h).Paid? then {h} else {}
  {
    assert forall x :: x in listed <==> x in listed[..|listed| - 1] || x == listed[|listed| - 1];
  }

  /** The state after one listed invoice has been asked about. */
  function Checked(s: State, h: Hash, report: W.Report, io: bool): State {
    s.(db := if report.Paid? && io then Credit(s.db, h) else s.db,
       reportedPaid := s.reportedPaid + if report.Paid? then {h} else {})
  }

  lemma OneMoreCheck(init: State, es: seq<LedgerEvent>, listed: seq<Hash>, report: Hash -> W.Report, io: Hash -> bool)
    requires listed != []
    ensures var front, h := listed[..|listed| - 1], listed[|listed| - 1];
            Ledger.Exec(init, es + CheckSteps(listed, report, io))
            == Checked(Ledger.Exec(init, es + CheckSteps(front, report, io)), h, report(h), io(h))
  {
    var front, h := CheckSteps(listed[..|listed| - 1], report, io), listed[|listed| - 1];
    if !report(h).CheckFailed? {
      AfterCheck(init, es + front, h, report(h).Paid?, io(h));
      OneMore(es, front, CheckInvoice(h, report(h).Paid?, io(h)));
    }
  }

  lemma {:induction false} ChecksAreRun(init: State, es: seq<LedgerEvent>, listed: seq<Hash>,
                                        report: Hash -> W.Report, io: Hash -> bool)
    ensures var s := Ledger.Exec(init, es);
            Ledger.Exec(init, es + CheckSteps(listed, report, io))
            == s.(db := W.CreditAll(s.db, W.CreditList(listed, report, io)),
                  reportedPaid := s.reportedPaid + PaidAmong(listed, report))
  {
    var s := Ledger.Exec(init, es);
    if listed == [] {
      assert es + CheckSteps(listed, report, io) == es;
      assert s.reportedPaid + PaidAmong(listed, report) == s.reportedPaid;
    } else {
      var front := listed[..|listed| - 1];
      ChecksAreRun(init, es, front, report, io);
      OneMoreCheck(init, es, listed, report, io);
      CreditedOneMore(s.db, listed, report, io);
      PaidOneMore(listed, report);
    }
  }

  /** A tick of the watcher, after any history: listed being what its query returned,
      the tables end as Watcher.Tick leaves them, and every invoice reported paid is
      known to be, whether its transaction worked or not. */
  lemma TickIsRun(init: State, es: seq<LedgerEvent>, now: int, expireIo: bool, listed: seq<Hash>,
                  report: Hash -> W.Report, io: Hash -> bool)
    ensures var s := Ledger.Exec(init, es);
            var aged := if expireIo then ExpireOld(s.db, now) else s.db;
            Ledger.Exec(init, es + [ExpireInvoices(now, expireIo)] + CheckSteps(listed, report, io))
            == s.(db := W.CreditAll(aged, W.CreditList(listed, report, io)),
                  reportedPaid := s.reportedPaid + PaidAmong(listed, report))
  {
    AfterExpiry(init, es, now, expireIo);
    ChecksAreRun(init, es + [ExpireInvoices(now, expireIo)], listed, report, io);
  }

  lemma AfterExpiry(init: State, es: seq<LedgerEvent>, now: int, io: bool)
    ensures var s := Ledger.Exec(init, es);
            Ledger.Exec(init, es + [ExpireInvoices(now, io)]) == s.(db := if io then ExpireOld(s.db, now) else s.db)
  {
    AfterOne(init, es, ExpireInvoices(now, io));
    ExpiryStep(Ledger.Exec(init, es), now, io);
  }

  lemma ExpiryStep(s: State, now: int, io: bool)
    ensures Ledger.Step(s, ExpireInvoices(now, io)) == s.(db := if io then ExpireOld(s.db, now) else s.db)
  {
  }

  // ---------- the payout engine's run ----------

  function PayoutSteps(actions: seq<P.PayEvent>): seq<LedgerEvent> {
    if actions == [] then [] else PayoutSteps(actions[..|actions| - 1]) + [PayoutStep(actions[|actions| - 1])]
  }

  lemma LastTurn(en: P.Engine, db: Db, actions: seq<P.PayEvent>, e: P.PayEvent)
    ensures var (en1, db1) := P.Turns(en, db, actions);
            P.Turns(en, db, actions + [e]) == (P.StepEngine(en1, db1, e), P.StepDb(en1, db1, e))
  {
    var (en1, db1) := P.Turns(en, db, actions);
    PayoutEngine.TurnsConcat(en, db, actions, [e]);
    P.TurnsHead(en1, db1, e, []);
    assert [e] + [] == [e];
  }

  lemma AfterTurn(init: State, es: seq<LedgerEvent>, action: P.PayEvent)
    ensures var s := Ledger.Exec(init, es);
            Ledger.Exec(init, es + [PayoutStep(action)])
            == s.(pay := P.StepEngine(s.pay, s.db, action), db := P.StepDb(s.pay, s.db, action))
  {
    AfterOne(init, es, PayoutStep(action));
  }

  /** Any sequence of turns of the payout engine, after any history. */
  lemma {:induction false} TurnsAreRun(init: State, es: seq<LedgerEvent>, actions: seq<P.PayEvent>)
    ensures var s := Ledger.Exec(init, es);
            var (en, db) := P.Turns(s.pay, s.db, actions);
            Ledger.Exec(init, es + PayoutSteps(actions)) == s.(pay := en, db := db)
  {
    if actions == [] {
      assert es + PayoutSteps(actions) == es;
    } else {
      var n := |actions| - 1;
      var s := Ledger.Exec(init, es);
      TurnsAreRun(init, es, actions[..n]);
      LastTurn(s.pay, s.db, actions[..n], actions[n]);
      assert actions == actions[..n] + [actions[n]];
      AfterTurn(init, es + PayoutSteps(actions[..n]), actions[n]);
      OneMore(es, PayoutSteps(actions[..n]), PayoutStep(actions[n]));
    }
  }

  /** The whole loop over the listed nodes, after any history. */
  lemma ServingIsRun(init: State, es: seq<LedgerEvent>, w: PayoutEngine.World) returns (steps: seq<LedgerEvent>)
    requires Ledger.Exec(init, es).pay.run.Paying?
    ensures var s := Ledger.Exec(init, es);
            var (en, db) := PayoutEngine.Serve(s.pay, s.db, w);
            Ledger.Exec(init, es + steps) == s.(pay := en, db := db) && en.run.Idle?
  {
    var s := Ledger.Exec(init, es);
    var actions := PayoutEngine.ServeIsRun(s.pay, s.db, w);
    PayoutEngine.ServeEndsIdle(s.pay, s.db, w);
    TurnsAreRun(init, es, actions);
    steps := PayoutSteps(actions);
  }

  /** A whole run of processPayouts, after any history: the clock readings, the query
      with the rows in any order, and the loop. */
  lemma PayoutRunIsRun(init: State, es: seq<LedgerEvent>, now: int, later: int, listed: seq<P.Payee>,
                       w: PayoutEngine.World) returns (steps: seq<LedgerEvent>)
    requires var s := Ledger.Exec(init, es); s.pay.run.Idle? && s.pay.clock <= now <= later && P.Lists(s.db, listed)
    ensures var s := Ledger.Exec(init, es);
            var (en, db) := PayoutEngine.Serve(PayoutEngine.Begun(s.pay, s.db, now, later, listed, true), s.db, w);
            Ledger.Exec(init, es + steps) == s.(pay := en, db := db) && en.run.Idle?
  {
    var s := Ledger.Exec(init, es);
    var begun := PayoutEngine.Begun(s.pay, s.db, now, later, listed, true);
    var ticked := P.StepEngine(s.pay, s.db, P.Tick(now, later));
    var first := [P.Tick(now, later)] + [P.Query(listed, true)];
    P.TurnsHead(s.pay, s.db, P.Tick(now, later), [P.Query(listed, true)]);
    P.TurnsHead(ticked, s.db, P.Query(listed, true), []);
    assert [P.Query(listed, true)] + [] == [P.Query(listed, true)];
    var loop := PayoutEngine.ServeIsRun(begun, s.db, w);
    PayoutEngine.ServeEndsIdle(begun, s.db, w);
    PayoutEngine.TurnsConcat(s.pay, s.db, first, loop);
    TurnsAreRun(init, es, first + loop);
    steps := PayoutSteps(first + loop);
  }
}
