/** The daily quota on the system itself: when every handler runs without
    interruption, each one acts on the tables and on pendingJobs as an admission or
    an exit of the FreeTier machine, so its bound holds of the ledger machine. */
module QuotaRuns {
  import opened Names
  import opened JobGate
  import opened Store
  import opened Ledger
  import opened Gateway
  import opened HandlerRuns
  import Api
  import Billing
  import F = FreeTier

  /** A handler from beginning to end, or a step of the system that neither admits
      nor ends a job. */
  datatype Handler =
    | Chat(id: JobId, key: Key, playground: bool, model: string, node: NodeId, found: bool, now: int, sent: bool)
    | RejectJob(id: JobId)
    | FinishJob(id: JobId, price: real, recordIo: bool, chargeIo: bool)
    | CleanUp(cutoff: int, expired: seq<JobId>, prices: JobId -> real, io: JobId -> bool)
    | Between(e: LedgerEvent)

  /** Steps of other goroutines: keys, invoices, nodes, payouts, chunks. */
  predicate IsQuiet(e: LedgerEvent) {
    match e
    case Gateway(step) => step.ChunkLookup? || step.ChunkWrite?
    case RecordDoneJob(_, _, _) => false
    case RecordExpiredJob(_, _, _) => false
    case ChargeJob(_, _) => false
    case _ => true
  }

  function RequestOf(t: Track): F.Request {
    F.Request(t.job.key, t.job.free, Day(t.startedAt))
  }

  /** The state as the FreeTier machine sees it. */
  function Project(s: State): F.State {
    F.State(Api.Rows(s.db), map id | id in s.gate.pending && id in s.gate.tracks :: RequestOf(s.gate.tracks[id]), map[])
  }

  function Quotas(s: State): map<Key, int> {
    Api.Quotas(s.db.accounts)
  }

  function BalanceOf(s: State, key: Key): int {
    if key in s.db.accounts then s.db.accounts[key].balance else 0
  }

  /** What the request is counted as. */
  predicate CountsFree(s: State, h: Handler)
    requires h.Chat? && h.key in s.db.accounts
  {
    h.playground && Api.RemainingOn(s.db, h.key, Day(h.now)) > 0
  }

  predicate GetsIn(s: State, h: Handler)
    requires h.Chat?
  {
    h.id !in s.gate.tracks && h.key in s.db.accounts && (CountsFree(s, h) || s.db.accounts[h.key].balance > 0)
  }

  /** The handler may run in this state. */
  ghost predicate Enabled(s: State, h: Handler) {
    match h
    case Chat(_, _, _, _, _, _, _, _) => GetsIn(s, h)
    case RejectJob(id) => id in s.gate.pending
    case FinishJob(id, _, _, _) => id in s.gate.pending
    case CleanUp(cutoff, expired, _, _) => ListsExpired(s.gate, cutoff, expired, {})
    case Between(e) => IsQuiet(e)
  }

  function JobOf(s: State, h: Handler): Job
    requires h.Chat? && h.key in s.db.accounts
  {
    Job(h.node, h.key, h.model, CountsFree(s, h))
  }

  /** The state after the handler; one that may not run changes nothing. */
  ghost function Handle(s: State, h: Handler): State {
    if !Enabled(s, h) then s else
    match h
    case Chat(id, _, _, _, _, found, now, sent) =>
      s.(gate := AssignOutcome(s.gate, id, JobOf(s, h), found, now, sent))
    case RejectJob(id) => s.(gate := RejectOutcome(s.gate, id))
    case FinishJob(id, price, recordIo, chargeIo) =>
      if id in s.gate.tracks then DoneOutcome(s, id, price, recordIo, chargeIo) else s
    case CleanUp(cutoff, expired, price, io) =>
      CompensateAll(s.(gate := JobGate.Step(s.gate, Expire(cutoff))), expired, price, io)
    case Between(e) => Ledger.Step(s, e)
  }

  ghost function HandleAll(init: State, hs: seq<Handler>): State {
    if hs == [] then init else Handle(HandleAll(init, hs[..|hs| - 1]), hs[|hs| - 1])
  }

  // ---------- runs of handlers are runs of the system ----------

  lemma OneHandlerIsRun(init: State, es: seq<LedgerEvent>, h: Handler) returns (es': seq<LedgerEvent>)
    requires Inv(Ledger.Exec(init, es).gate)
    ensures Ledger.Exec(init, es') == Handle(Ledger.Exec(init, es), h)
  {
    var s := Ledger.Exec(init, es);
    es' := es;
    if Enabled(s, h) {
      match h
      case Chat(id, _, _, _, _, found, now, sent) =>
        AssignIsRun(init, es, id, JobOf(s, h), found, now, sent);
        es' := es + OnGate(AssignSteps(id, JobOf(s, h), found, now, sent));
      case RejectJob(id) =>
        RejectIsRun(init, es, id);
        es' := es + OnGate(RejectSteps(id));
      case FinishJob(id, price, recordIo, chargeIo) =>
        DoneIsRun(init, es, id, price, recordIo, chargeIo);
        es' := es + DoneSteps(id, s.gate.tracks[id].job.node, price, recordIo, chargeIo);
      case CleanUp(cutoff, expired, price, io) =>
        CleanupIsRun(init, es, cutoff, expired, price, io);
        es' := es + [LedgerEvent.Gateway(Expire(cutoff))] + CompensateSteps(expired, price, io);
      case Between(e) =>
        AfterOne(init, es, e);
        es' := es + [e];
    }
  }

  lemma {:induction false} HandlersAreRun(billing: Billing.Engine, maxPerHour: int, now: int, hs: seq<Handler>)
    returns (es: seq<LedgerEvent>)
    requires billing.Valid()
    ensures Ledger.Exec(Init(billing, maxPerHour, now), es) == HandleAll(Init(billing, maxPerHour, now), hs)
  {
    es := [];
    if hs != [] {
      var front := HandlersAreRun(billing, maxPerHour, now, hs[..|hs| - 1]);
      ReachableMoney(billing, maxPerHour, now, front);
      es := OneHandlerIsRun(Init(billing, maxPerHour, now), front, hs[|hs| - 1]);
    }
  }

  // ---------- what every handler keeps ----------

  /** The counter of a key is the number of its jobs in flight. */
  predicate CountsRunning(s: State, key: Key) {
    Count(s.gate.userJobs, key) == |F.HeldBy(Project(s), key)|
  }

  predicate QuotaOk(s: State, key: Key, day: int) {
    F.FreeJobs(Project(s), key, day) <= F.Bound(Quotas(s), key)
  }

  lemma RowIsTracked(s: State, id: JobId)
    requires RowsInv(s) && id in s.db.jobs
    ensures id in s.gate.tracks && id !in s.gate.pending
  {
    assert RowFits(s, id) && TrackOk(s.gate, id, s.gate.tracks[id]);
  }

  /** A job in flight has no row yet. */
  lemma RunningHasNoRow(s: State, id: JobId)
    requires RowsInv(s) && id in s.gate.pending
    ensures id in s.gate.tracks && id !in s.db.jobs
  {
    PendingIsOpen(s.gate, id);
    if id in s.db.jobs {
      RowIsTracked(s, id);
    }
  }

  lemma NewIdIsUnused(s: State, id: JobId)
    requires RowsInv(s) && id !in s.gate.tracks
    ensures F.Unused(Project(s), id)
  {
    if id in s.db.jobs {
      RowIsTracked(s, id);
    }
  }

  // ---------- admission ----------

  predicate Starts(s: State, h: Handler)
    requires h.Chat?
  {
    h.found && h.sent && Count(s.gate.userJobs, h.key) < MAX_CONCURRENT_PER_USER
  }

  function AdmitOf(s: State, h: Handler): F.Event
    requires h.Chat?
  {
    F.Admit(h.id, h.key, Day(h.now), h.playground, BalanceOf(s, h.key))
  }

  lemma StartedProject(s: State, h: Handler)
    requires h.Chat? && GetsIn(s, h) && Starts(s, h) && s.gate.pending <= s.gate.tracks.Keys
    ensures Project(Handle(s, h))
         == Project(s).(running := Project(s).running[h.id := F.Request(h.key, CountsFree(s, h), Day(h.now))])
    ensures Handle(s, h).gate.userJobs == Incr(s.gate.userJobs, h.key)
  {
  }

  lemma NotStartedProject(s: State, h: Handler)
    requires h.Chat? && GetsIn(s, h) && !Starts(s, h) && s.gate.pending <= s.gate.tracks.Keys
    ensures Project(Handle(s, h)) == Project(s)
    ensures forall key :: Count(Handle(s, h).gate.userJobs, key) == Count(s.gate.userJobs, key)
  {
    assert Project(Handle(s, h)).running == Project(s).running;
  }

  /** A chat request that starts a job is an admission of the FreeTier machine. */
  lemma ChatIsAdmit(s: State, h: Handler)
    requires RowsInv(s) && h.Chat? && GetsIn(s, h) && Starts(s, h) && CountsRunning(s, h.key)
    ensures Project(Handle(s, h)) == F.Step(Quotas(s), Project(s), AdmitOf(s, h))
  {
    StartedProject(s, h);
    NewIdIsUnused(s, h.id);
    Api.FreeIsFree(s.db, Project(s), h.key, Day(h.now), h.playground);
  }

  lemma HeldPut(running: map<JobId, F.Request>, id: JobId, r: F.Request, key: Key)
    requires id !in running
    ensures var s := F.State(map[], running, map[]);
            |F.HeldBy(s.(running := running[id := r]), key)| == |F.HeldBy(s, key)| + if r.key == key then 1 else 0
  {
    var s := F.State(map[], running, map[]);
    assert F.HeldBy(s.(running := running[id := r]), key)
        == if r.key == key then F.HeldBy(s, key) + {id} else F.HeldBy(s, key);
  }

  lemma HeldIs(s: F.State, key: Key)
    ensures F.HeldBy(s, key) == F.HeldBy(F.State(map[], s.running, map[]), key)
  {
  }

  lemma ChatKeeps(s: State, h: Handler, key: Key, day: int)
    requires RowsInv(s) && h.Chat? && GetsIn(s, h) && CountsRunning(s, key)
         && CountsRunning(s, h.key) && QuotaOk(s, key, day)
    ensures CountsRunning(Handle(s, h), key) && QuotaOk(Handle(s, h), key, day)
  {
    if Starts(s, h) {
      ChatIsAdmit(s, h);
      F.AdmitKeepsBound(Quotas(s), Project(s), AdmitOf(s, h), key, day);
      StartedProject(s, h);
      NewIdIsUnused(s, h.id);
      HeldPut(Project(s).running, h.id, F.Request(h.key, CountsFree(s, h), Day(h.now)), key);
      HeldIs(Project(s), key);
      HeldIs(Project(Handle(s, h)), key);
    } else {
      NotStartedProject(s, h);
    }
  }

  // ---------- exits ----------

  /** The state after one job has left pendingJobs, with its row or without. */
  predicate Ends(s: State, s': State, id: JobId, recorded: bool) {
    && id in s.gate.pending && id in s.gate.tracks && id !in s.db.jobs
    && Project(s') == F.Step(Quotas(s), Project(s), F.Finish(id, recorded))
    && s'.gate.userJobs == Decr(s.gate.userJobs, s.gate.tracks[id].job.key)
    && Quotas(s') == Quotas(s)
  }

  lemma EndKeeps(s: State, s': State, id: JobId, recorded: bool, key: Key, day: int)
    requires Ends(s, s', id, recorded) && CountsRunning(s, key) && QuotaOk(s, key, day)
    ensures CountsRunning(s', key) && QuotaOk(s', key, day)
  {
    F.FinishKeepsBound(Quotas(s), Project(s), F.Finish(id, recorded), key, day);
    var running := Project(s).running;
    var rest := running - {id};
    assert rest[id := running[id]] == running;
    HeldPut(rest, id, running[id], key);
    HeldIs(Project(s), key);
    HeldIs(Project(s'), key);
  }

  lemma RejectEnds(s: State, id: JobId)
    requires RowsInv(s) && id in s.gate.pending
    ensures Ends(s, s.(gate := RejectOutcome(s.gate, id)), id, false)
  {
    RunningHasNoRow(s, id);
    var s' := s.(gate := RejectOutcome(s.gate, id));
    assert Project(s').running == Project(s).running - {id};
  }

  lemma DoneTables(s: State, id: JobId, price: real, recordIo: bool, chargeIo: bool)
    requires id in s.gate.tracks && id !in s.db.jobs
    ensures var s' := DoneOutcome(s, id, price, recordIo, chargeIo);
            && s'.gate == ClosedAndFreed(s.gate, id, Left(ByDone, Settled))
            && s'.db.jobs == (if recordIo then s.db.jobs[id := RowOf(s.billing, s.gate.tracks[id], price)]
                               else s.db.jobs)
            && Quotas(s') == Quotas(s)
  {
  }

  lemma DoneEnds(s: State, id: JobId, price: real, recordIo: bool, chargeIo: bool)
    requires RowsInv(s) && id in s.gate.pending
    ensures id in s.gate.tracks && Ends(s, DoneOutcome(s, id, price, recordIo, chargeIo), id, recordIo)
  {
    RunningHasNoRow(s, id);
    var s' := DoneOutcome(s, id, price, recordIo, chargeIo);
    DoneTables(s, id, price, recordIo, chargeIo);
    assert Project(s').running == Project(s).running - {id};
    assert Project(s').rows == if recordIo then Project(s).rows[id := Project(s).running[id]] else Project(s).rows;
  }

  // ---------- the cleanup pass ----------

  lemma ExpiredRan(s: State, h: Handler, id: JobId)
    requires RowsInv(s) && h.CleanUp? && ListsExpired(s.gate, h.cutoff, h.expired, {}) && id in h.expired
    ensures id in s.gate.pending && id in s.gate.tracks && s.gate.tracks[id].startedAt < h.cutoff && id !in s.db.jobs
  {
    assert Expires(s.gate, id, h.cutoff);
    RunningHasNoRow(s, id);
  }

  /** After a pass exactly the jobs that did not expire still run. */
  lemma CleanedRunning(s: State, h: Handler)
    requires RowsInv(s) && h.CleanUp? && ListsExpired(s.gate, h.cutoff, h.expired, {})
    ensures var p, p' := Project(s), Project(Handle(s, h));
            && (forall id | id in h.expired :: id in p.running)
            && (forall id :: id in p'.running <==> id in p.running && id !in h.expired)
            && (forall id | id in p'.running :: p'.running[id] == p.running[id])
    ensures Quotas(Handle(s, h)) == Quotas(s)
  {
    CleanupSplits(s, h.cutoff, h.expired, h.prices, h.io);
    forall id | id in h.expired ensures id in s.gate.pending && id in s.gate.tracks {
      ExpiredRan(s, h, id);
    }
    forall id | id in s.gate.pending && id in s.gate.tracks && id !in h.expired
      ensures s.gate.tracks[id].startedAt >= h.cutoff
    {
      assert !Expires(s.gate, id, h.cutoff);
    }
  }

  /** Rows stay, and a new one is that of an expired job as it ran. */
  lemma CleanedRows(s: State, h: Handler)
    requires RowsInv(s) && h.CleanUp? && ListsExpired(s.gate, h.cutoff, h.expired, {})
    ensures var p, p' := Project(s), Project(Handle(s, h));
            && (forall id | id in p.rows :: id in p'.rows && p'.rows[id] == p.rows[id])
            && (forall id | id in p'.rows && id !in p.rows ::
                  id in h.expired && id in p.running && p'.rows[id] == p.running[id])
  {
    var swept := s.(gate := JobGate.Step(s.gate, Expire(h.cutoff)));
    ExpiredTracked(s.gate, h.cutoff, h.expired);
    CompensatedRows(swept, h.expired, h.prices, h.io);
    forall id | id in h.expired ensures id in s.gate.pending && swept.gate.tracks[id].job == s.gate.tracks[id].job {
      ExpiredRan(s, h, id);
    }
  }

  /** Jobs only move from running to recorded, or go. */
  ghost predicate Moves(p: F.State, p': F.State) {
    && (forall id | id in p.running :: id !in p.rows)
    && (forall id | id in p'.running :: id in p.running && p'.running[id] == p.running[id] && id !in p'.rows)
    && (forall id | id in p'.rows :: if id in p.rows then p'.rows[id] == p.rows[id]
                                     else id in p.running && p'.rows[id] == p.running[id])
  }

  lemma MovesKeepFreeJobs(p: F.State, p': F.State, key: Key, day: int)
    requires Moves(p, p')
    ensures F.FreeJobs(p', key, day) <= F.FreeJobs(p, key, day)
  {
    var rows, running := F.FreeOf(p.rows, key, day), F.FreeOf(p.running, key, day);
    var rows', running' := F.FreeOf(p'.rows, key, day), F.FreeOf(p'.running, key, day);
    assert rows * running == {} && rows' * running' == {};
    assert rows' + running' <= rows + running;
    F.SubsetSize(rows' + running', rows + running);
  }

  lemma CleanedFreeJobs(s: State, h: Handler, key: Key, day: int)
    requires RowsInv(s) && h.CleanUp? && ListsExpired(s.gate, h.cutoff, h.expired, {})
    ensures F.FreeJobs(Project(Handle(s, h)), key, day) <= F.FreeJobs(Project(s), key, day)
  {
    CleanedRunning(s, h);
    CleanedRows(s, h);
    forall id | id in Project(s).running ensures id !in Project(s).rows {
      RunningHasNoRow(s, id);
    }
    MovesKeepFreeJobs(Project(s), Project(Handle(s, h)), key, day);
  }

  lemma CleanedHeld(s: State, h: Handler, key: Key)
    requires RowsInv(s) && h.CleanUp? && ListsExpired(s.gate, h.cutoff, h.expired, {})
    ensures OwnedSet(s.gate, h.expired, key) <= F.HeldBy(Project(s), key)
    ensures F.HeldBy(Project(Handle(s, h)), key) == F.HeldBy(Project(s), key) - OwnedSet(s.gate, h.expired, key)
  {
    CleanedRunning(s, h);
  }

  lemma CleanedCounter(s: State, h: Handler, key: Key)
    requires h.CleanUp? && ListsExpired(s.gate, h.cutoff, h.expired, {})
    ensures var owned, before := |OwnedSet(s.gate, h.expired, key)|, Count(s.gate.userJobs, key);
            Count(Handle(s, h).gate.userJobs, key) == if owned >= before then 0 else before - owned
  {
    ExpiredTracked(s.gate, h.cutoff, h.expired);
    CompensatedCounts(s.(gate := JobGate.Step(s.gate, Expire(h.cutoff))), h.expired, h.prices, h.io, key);
    OwnersStay(s.gate, h.cutoff, h.expired, key);
    OwnedByCounts(s.gate, h.expired, key);
  }

  lemma CleanedCount(s: State, h: Handler, key: Key)
    requires RowsInv(s) && h.CleanUp? && ListsExpired(s.gate, h.cutoff, h.expired, {}) && CountsRunning(s, key)
    ensures CountsRunning(Handle(s, h), key)
  {
    CleanedHeld(s, h, key);
    CleanedCounter(s, h, key);
    var before, owned := F.HeldBy(Project(s), key), OwnedSet(s.gate, h.expired, key);
    assert before == (before - owned) + owned;
  }

  // ---------- everything else ----------

  lemma QuietProject(s: State, e: LedgerEvent)
    requires IsQuiet(e) && Inv(s.gate)
    ensures Project(Ledger.Step(s, e)) == Project(s)
    ensures Ledger.Step(s, e).gate.userJobs == s.gate.userJobs
    ensures forall key | key in Quotas(s) ::
              key in Quotas(Ledger.Step(s, e)) && Quotas(Ledger.Step(s, e))[key] == Quotas(s)[key]
  {
    var s' := Ledger.Step(s, e);
    QuietGate(s, e);
    assert Project(s').running == Project(s).running;
    assert s'.db.jobs == s.db.jobs;
  }

  lemma QuietGate(s: State, e: LedgerEvent)
    requires IsQuiet(e) && Inv(s.gate)
    ensures var g, g' := s.gate, Ledger.Step(s, e).gate;
            && g'.pending == g.pending && g'.userJobs == g.userJobs && g'.tracks.Keys == g.tracks.Keys
            && forall id | id in g.tracks :: RequestOf(g'.tracks[id]) == RequestOf(g.tracks[id])
  {
    OneGateStep(s, e);
  }

  // ---------- every run of handlers ----------

  lemma HandlerKeeps(s: State, h: Handler)
    requires RowsInv(s)
    requires forall key :: CountsRunning(s, key)
    requires forall key, day :: QuotaOk(s, key, day)
    ensures forall key :: CountsRunning(Handle(s, h), key)
    ensures forall key, day :: QuotaOk(Handle(s, h), key, day)
  {
    forall key ensures CountsRunning(Handle(s, h), key) {
      HandlerKeepsOne(s, h, key, 0);
    }
    forall key, day ensures QuotaOk(Handle(s, h), key, day) {
      HandlerKeepsOne(s, h, key, day);
    }
  }

  lemma CleanUpKeeps(s: State, h: Handler, key: Key, day: int)
    requires RowsInv(s) && h.CleanUp? && ListsExpired(s.gate, h.cutoff, h.expired, {})
    requires CountsRunning(s, key) && QuotaOk(s, key, day)
    ensures CountsRunning(Handle(s, h), key) && QuotaOk(Handle(s, h), key, day)
  {
    CleanedFreeJobs(s, h, key, day);
    CleanedCount(s, h, key);
    CleanedRunning(s, h);
  }

  lemma HandlerKeepsOne(s: State, h: Handler, key: Key, day: int)
    requires RowsInv(s) && (forall k :: CountsRunning(s, k)) && QuotaOk(s, key, day)
    ensures CountsRunning(Handle(s, h), key) && QuotaOk(Handle(s, h), key, day)
  {
    if Enabled(s, h) {
      match h
      case Chat(_, _, _, _, _, _, _, _) => ChatKeeps(s, h, key, day);
      case RejectJob(id) =>
        RejectEnds(s, id);
        EndKeeps(s, Handle(s, h), id, false, key, day);
      case FinishJob(id, price, recordIo, chargeIo) =>
        DoneEnds(s, id, price, recordIo, chargeIo);
        EndKeeps(s, Handle(s, h), id, recordIo, key, day);
      case CleanUp(_, _, _, _) => CleanUpKeeps(s, h, key, day);
      case Between(e) => QuietProject(s, e);
    }
  }

  /** In every run of the system made of whole handlers, with any steps of other
      goroutines between them, no key ever has more free jobs of a day, recorded or
      in flight, than its quota plus two; and its counter is exact. */
  lemma {:induction false} QuotaBoundHolds(billing: Billing.Engine, maxPerHour: int, now: int, hs: seq<Handler>)
    requires billing.Valid()
    ensures var s := HandleAll(Init(billing, maxPerHour, now), hs);
            && (forall key :: CountsRunning(s, key))
            && forall key, day :: QuotaOk(s, key, day)
  {
    var init := Init(billing, maxPerHour, now);
    if hs == [] {
      forall key, day ensures CountsRunning(init, key) && QuotaOk(init, key, day) {
        assert F.HeldBy(Project(init), key) == {};
        assert F.FreeOf(Project(init).rows, key, day) == {} && F.FreeOf(Project(init).running, key, day) == {};
      }
    } else {
      QuotaBoundHolds(billing, maxPerHour, now, hs[..|hs| - 1]);
      var es := HandlersAreRun(billing, maxPerHour, now, hs[..|hs| - 1]);
      ReachableMoney(billing, maxPerHour, now, es);
      HandlerKeeps(HandleAll(init, hs[..|hs| - 1]), hs[|hs| - 1]);
    }
  }
}
