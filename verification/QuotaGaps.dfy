/** The daily quota with every gap of the exits in view.  A slot is given back before
    the row is written, so between the two a free job counts for neither the slots
    nor the quota; this module says exactly what that costs. */
module QuotaGaps {
  import opened Names
  import opened JobGate
  import opened Store
  import opened Tables
  import opened Ledger
  import opened Gateway
  import opened HandlerRuns
  import Api
  import Billing
  import F = FreeTier
  import JobSlots
  import Q = QuotaRuns

  // ---------- the free jobs of a key and day ----------

  /** Inserted, and the goroutine that took the job out, if any, may still record it
      or give its slot back. */
  predicate Live(t: Track) {
    match t.exit
    case Inside => Inserted(t)
    case Left(winner, stage) => stage.Removed? || stage.Closed? || Waits(t)
  }

  /** The slot is given back and the row is not written yet. */
  predicate Waits(t: Track) {
    t.exit == Left(ByDone, Released) || t.exit == Left(ByExpiry, Released)
  }

  predicate IsFor(job: Job, startedAt: int, key: Key, day: int) {
    job.key == key && job.free && Day(startedAt) == day
  }

  predicate FreeRow(s: State, id: JobId, key: Key, day: int) {
    id in s.db.jobs && IsFor(s.db.jobs[id].job, s.db.jobs[id].startedAt, key, day)
  }

  predicate FreeLive(s: State, id: JobId, key: Key, day: int) {
    && id in s.gate.tracks && Live(s.gate.tracks[id])
    && IsFor(s.gate.tracks[id].job, s.gate.tracks[id].startedAt, key, day)
  }

  /** Recorded or in flight. */
  function FreeIds(s: State, key: Key, day: int): set<JobId> {
    set id | id in s.db.jobs.Keys + s.gate.tracks.Keys && (FreeRow(s, id, key, day) || FreeLive(s, id, key, day))
  }

  function Waiting(s: State, key: Key, day: int): set<JobId> {
    set id | id in s.gate.tracks && FreeLive(s, id, key, day) && Waits(s.gate.tracks[id])
  }

  /** The step starts a free job of the key on the day. */
  predicate StartsFree(s: State, e: LedgerEvent, key: Key, day: int) {
    && e.Gateway? && e.step.Insert? && InState(s.gate, e.step.id, Found)
    && IsFor(s.gate.tracks[e.step.id].job, e.step.now, key, day)
  }

  predicate NewlyFree(s: State, e: LedgerEvent, key: Key, day: int, id: JobId) {
    StartsFree(s, e, key, day) && e.step.id == id
  }

  lemma GateLive(g: Gate, e: Event, id: JobId)
    requires Inv(g) && id in JobGate.Step(g, e).tracks && Live(JobGate.Step(g, e).tracks[id])
    ensures id in g.tracks && JobGate.Step(g, e).tracks[id].job == g.tracks[id].job
    ensures e.Insert? && e.id == id && InState(g, id, Found) ==> JobGate.Step(g, e).tracks[id].startedAt == e.now
    ensures !(e.Insert? && e.id == id && InState(g, id, Found)) ==>
              Live(g.tracks[id]) && JobGate.Step(g, e).tracks[id].startedAt == g.tracks[id].startedAt
  {
    if id !in g.tracks {
      OnlyAssignAdds(g, e, id);
    } else {
      assert TrackOk(g, id, g.tracks[id]);
      if Assigning(e) {
        AssigningLive(g, e, id);
      } else {
        ExitingLive(g, e, id);
      }
    }
  }

  lemma AssigningLive(g: Gate, e: Event, id: JobId)
    requires Assigning(e) && id in g.tracks && TrackOk(g, id, g.tracks[id])
    requires id in JobGate.Step(g, e).tracks && Live(JobGate.Step(g, e).tracks[id])
    ensures JobGate.Step(g, e).tracks[id].job == g.tracks[id].job
    ensures e.Insert? && e.id == id && InState(g, id, Found) ==> JobGate.Step(g, e).tracks[id].startedAt == e.now
    ensures !(e.Insert? && e.id == id && InState(g, id, Found)) ==>
              Live(g.tracks[id]) && JobGate.Step(g, e).tracks[id].startedAt == g.tracks[id].startedAt
  {
  }

  lemma ExitingLive(g: Gate, e: Event, id: JobId)
    requires !Assigning(e) && id in g.tracks && TrackOk(g, id, g.tracks[id])
    requires id in JobGate.Step(g, e).tracks && Live(JobGate.Step(g, e).tracks[id])
    ensures JobGate.Step(g, e).tracks[id].job == g.tracks[id].job
    ensures Live(g.tracks[id]) && JobGate.Step(g, e).tracks[id].startedAt == g.tracks[id].startedAt
  {
  }

  lemma LiveComesFrom(s: State, e: LedgerEvent, key: Key, day: int, id: JobId)
    requires RowsInv(s) && FreeLive(Ledger.Step(s, e), id, key, day)
    ensures FreeLive(s, id, key, day) || NewlyFree(s, e, key, day, id)
  {
    OneGateStep(s, e);
    if GateSteps(s, e) != [] {
      GateLive(s.gate, GateSteps(s, e)[0], id);
    }
  }

  lemma RowComesFrom(s: State, e: LedgerEvent, key: Key, day: int, id: JobId)
    requires RowsInv(s) && FreeRow(Ledger.Step(s, e), id, key, day)
    ensures FreeRow(s, id, key, day) || FreeLive(s, id, key, day)
  {
    JobsGrow(s, e);
    if id !in s.db.jobs {
      NewRowFits(s, e, id);
    }
  }

  lemma RowWasInserted(s: State, id: JobId)
    requires RowsInv(s) && id in s.db.jobs
    ensures id in s.gate.tracks && Inserted(s.gate.tracks[id])
  {
    assert RowFits(s, id) && TrackOk(s.gate, id, s.gate.tracks[id]);
  }

  lemma FoundHasNoRow(s: State, id: JobId)
    requires RowsInv(s) && InState(s.gate, id, Found)
    ensures id !in s.db.jobs && !Live(s.gate.tracks[id])
  {
    assert TrackOk(s.gate, id, s.gate.tracks[id]);
    if id in s.db.jobs {
      RowWasInserted(s, id);
    }
  }

  lemma StartIsNew(s: State, e: LedgerEvent, key: Key, day: int)
    requires RowsInv(s) && StartsFree(s, e, key, day)
    ensures FreeLive(Ledger.Step(s, e), e.step.id, key, day)
    ensures e.step.id !in FreeIds(s, key, day)
    ensures FreeIds(s, key, day) <= FreeIds(Ledger.Step(s, e), key, day)
  {
    FoundHasNoRow(s, e.step.id);
    OneGateStep(s, e);
    forall other | other in FreeIds(s, key, day) ensures other in FreeIds(Ledger.Step(s, e), key, day) {
      InsertLeavesOthers(s, e, other);
    }
  }

  lemma InsertLeavesOthers(s: State, e: LedgerEvent, other: JobId)
    requires e.Gateway? && e.step.Insert? && other != e.step.id
    ensures Ledger.Step(s, e).db == s.db
    ensures other in Ledger.Step(s, e).gate.tracks <==> other in s.gate.tracks
    ensures other in s.gate.tracks ==> Ledger.Step(s, e).gate.tracks[other] == s.gate.tracks[other]
  {
  }

  /** One step adds the free job it starts, and no other. */
  lemma StepFreeIds(s: State, e: LedgerEvent, key: Key, day: int)
    requires RowsInv(s)
    ensures var before, after := FreeIds(s, key, day), FreeIds(Ledger.Step(s, e), key, day);
            if StartsFree(s, e, key, day) then e.step.id !in before && after == before + {e.step.id}
            else after <= before
  {
    var s' := Ledger.Step(s, e);
    forall id | id in FreeIds(s', key, day) ensures id in FreeIds(s, key, day) || NewlyFree(s, e, key, day, id) {
      if FreeLive(s', id, key, day) {
        LiveComesFrom(s, e, key, day, id);
      } else {
        RowComesFrom(s, e, key, day, id);
      }
    }
    if StartsFree(s, e, key, day) {
      StartIsNew(s, e, key, day);
    }
  }

  // ---------- when a limit is kept, in every run ----------

  ghost predicate WithinAt(init: State, es: seq<LedgerEvent>, key: Key, day: int, limit: nat, i: nat)
    requires i <= |es|
  {
    |FreeIds(Ledger.Exec(init, es[..i]), key, day)| <= limit
  }

  /** A free job starts although recorded and running ones already fill the limit. */
  ghost predicate OverfillsAt(init: State, es: seq<LedgerEvent>, key: Key, day: int, limit: nat, i: nat)
    requires i < |es|
  {
    var s := Ledger.Exec(init, es[..i]);
    StartsFree(s, es[i], key, day) && |FreeIds(s, key, day)| >= limit
  }

  ghost predicate AlwaysWithin(init: State, es: seq<LedgerEvent>, key: Key, day: int, limit: nat) {
    forall i | 0 <= i <= |es| :: WithinAt(init, es, key, day, limit, i)
  }

  ghost predicate NeverOverfills(init: State, es: seq<LedgerEvent>, key: Key, day: int, limit: nat) {
    forall i | 0 <= i < |es| :: !OverfillsAt(init, es, key, day, limit, i)
  }

  lemma WithinSplit(init: State, es: seq<LedgerEvent>, key: Key, day: int, limit: nat)
    requires es != []
    ensures AlwaysWithin(init, es, key, day, limit)
       <==> AlwaysWithin(init, es[..|es| - 1], key, day, limit) && WithinAt(init, es, key, day, limit, |es|)
  {
    var n := |es| - 1;
    forall i | 0 <= i <= n
      ensures WithinAt(init, es[..n], key, day, limit, i) == WithinAt(init, es, key, day, limit, i)
    {
      assert es[..n][..i] == es[..i];
    }
  }

  lemma OverfillsSplit(init: State, es: seq<LedgerEvent>, key: Key, day: int, limit: nat)
    requires es != []
    ensures NeverOverfills(init, es, key, day, limit)
       <==> NeverOverfills(init, es[..|es| - 1], key, day, limit) && !OverfillsAt(init, es, key, day, limit, |es| - 1)
  {
    var n := |es| - 1;
    forall i | 0 <= i < n
      ensures OverfillsAt(init, es[..n], key, day, limit, i) == OverfillsAt(init, es, key, day, limit, i)
    {
      assert es[..n][..i] == es[..i];
    }
  }

  lemma SubsetSize(a: set<JobId>, b: set<JobId>)
    requires a <= b
    ensures |a| <= |b|
  {
    F.SubsetSize(a, b);
  }

  lemma LastWithin(init: State, es: seq<LedgerEvent>, key: Key, day: int, limit: nat)
    requires es != [] && RowsInv(Ledger.Exec(init, es[..|es| - 1])) && WithinAt(init, es, key, day, limit, |es| - 1)
    ensures WithinAt(init, es, key, day, limit, |es|) <==> !OverfillsAt(init, es, key, day, limit, |es| - 1)
  {
    var n := |es| - 1;
    assert es[..|es|] == es;
    var s := Ledger.Exec(init, es[..n]);
    StepFreeIds(s, es[n], key, day);
    if !StartsFree(s, es[n], key, day) {
      SubsetSize(FreeIds(Ledger.Step(s, es[n]), key, day), FreeIds(s, key, day));
    }
  }

  /** In every run of the system, however long before its start a request was
      checked: the free jobs of a key and day, recorded or in flight, stay within a
      limit throughout exactly when none of them starts while they already fill it. */
  lemma {:induction false} LimitKeptIff(billing: Billing.Engine, maxPerHour: int, now: int, es: seq<LedgerEvent>,
                                        key: Key, day: int, limit: nat)
    requires billing.Valid()
    ensures var init := Init(billing, maxPerHour, now);
            AlwaysWithin(init, es, key, day, limit) <==> NeverOverfills(init, es, key, day, limit)
  {
    var init := Init(billing, maxPerHour, now);
    if es == [] {
      assert es[..0] == [] && FreeIds(init, key, day) == {};
    } else {
      var n := |es| - 1;
      LimitKeptIff(billing, maxPerHour, now, es[..n], key, day, limit);
      ReachableMoney(billing, maxPerHour, now, es[..n]);
      WithinSplit(init, es, key, day, limit);
      OverfillsSplit(init, es, key, day, limit);
      if AlwaysWithin(init, es[..n], key, day, limit) {
        assert WithinAt(init, es[..n], key, day, limit, n) && es[..n][..n] == es[..n];
        LastWithin(init, es, key, day, limit);
      }
    }
  }

  // ---------- atomic admissions, exits step by step ----------

  /** A chat request from its check to the end of AssignJob, or any one step of any
      other goroutine. */
  datatype Move = Chat(h: Q.Handler) | Single(e: LedgerEvent)

  predicate IsAssignStep(e: LedgerEvent) {
    e.Gateway? && Assigning(e.step)
  }

  ghost function Do(s: State, m: Move): State {
    match m
    case Chat(h) => if h.Chat? then Q.Handle(s, h) else s
    case Single(e) => if IsAssignStep(e) then s else Ledger.Step(s, e)
  }

  ghost function DoAll(init: State, ms: seq<Move>): State {
    if ms == [] then init else Do(DoAll(init, ms[..|ms| - 1]), ms[|ms| - 1])
  }

  lemma OneMoveIsRun(init: State, es: seq<LedgerEvent>, m: Move) returns (es': seq<LedgerEvent>)
    requires Inv(Ledger.Exec(init, es).gate)
    ensures Ledger.Exec(init, es') == Do(Ledger.Exec(init, es), m)
  {
    es' := es;
    match m
    case Chat(h) =>
      if h.Chat? {
        es' := Q.OneHandlerIsRun(init, es, h);
      }
    case Single(e) =>
      if !IsAssignStep(e) {
        AfterOne(init, es, e);
        es' := es + [e];
      }
  }

  /** Every run of moves is a run of the ledger machine. */
  lemma {:induction false} MovesAreRun(billing: Billing.Engine, maxPerHour: int, now: int, ms: seq<Move>)
    returns (es: seq<LedgerEvent>)
    requires billing.Valid()
    ensures Ledger.Exec(Init(billing, maxPerHour, now), es) == DoAll(Init(billing, maxPerHour, now), ms)
  {
    es := [];
    if ms != [] {
      var front := MovesAreRun(billing, maxPerHour, now, ms[..|ms| - 1]);
      ReachableMoney(billing, maxPerHour, now, front);
      es := OneMoveIsRun(Init(billing, maxPerHour, now), front, ms[|ms| - 1]);
    }
  }

  // ---------- the slot counter stays exact ----------

  predicate CountsHeld(s: State, key: Key) {
    JobSlots.Held(s.gate, key) == Count(s.gate.userJobs, key)
  }

  lemma ChatHolders(s: State, h: Q.Handler, key: Key)
    requires h.Chat? && Q.GetsIn(s, h)
    ensures JobSlots.Holders(Q.Handle(s, h).gate, key)
         == JobSlots.Holders(s.gate, key) + if Q.Starts(s, h) && h.key == key then {h.id} else {}
    ensures Count(Q.Handle(s, h).gate.userJobs, key)
         == Count(s.gate.userJobs, key) + if Q.Starts(s, h) && h.key == key then 1 else 0
    ensures h.id !in JobSlots.Holders(s.gate, key)
  {
  }

  lemma SingleCountsHeld(s: State, e: LedgerEvent, key: Key)
    requires Inv(s.gate) && !IsAssignStep(e) && CountsHeld(s, key)
    ensures CountsHeld(Ledger.Step(s, e), key)
  {
    OneGateStep(s, e);
    if GateSteps(s, e) != [] {
      JobSlots.StepCount(s.gate, GateSteps(s, e)[0], key);
      JobSlots.StepHeld(s.gate, GateSteps(s, e)[0], key);
    }
  }

  lemma MoveCountsHeld(s: State, m: Move, key: Key)
    requires Inv(s.gate) && CountsHeld(s, key)
    ensures CountsHeld(Do(s, m), key)
  {
    match m
    case Chat(h) =>
      if h.Chat? && Q.GetsIn(s, h) {
        ChatHolders(s, h, key);
      }
    case Single(e) =>
      if !IsAssignStep(e) {
        SingleCountsHeld(s, e, key);
      }
  }

  // ---------- the bound ----------

  predicate AdmitsFree(s: State, m: Move, key: Key, day: int) {
    && m.Chat? && m.h.Chat? && Q.GetsIn(s, m.h) && Q.Starts(s, m.h)
    && m.h.key == key && Day(m.h.now) == day && Q.CountsFree(s, m.h)
  }

  /** Quota plus two plus the jobs in the gap, or nothing without a quota. */
  function Bound(s: State, key: Key, gap: nat): int {
    if key in s.db.accounts && s.db.accounts[key].quotaDaily > 0 then
      s.db.accounts[key].quotaDaily + MAX_CONCURRENT_PER_USER - 1 + gap
    else 0
  }

  lemma ChatFreeIds(s: State, h: Q.Handler, key: Key, day: int)
    requires RowsInv(s) && h.Chat? && Q.GetsIn(s, h)
    ensures FreeIds(Q.Handle(s, h), key, day)
         == FreeIds(s, key, day) + if AdmitsFree(s, Chat(h), key, day) then {h.id} else {}
  {
    var after := FreeIds(s, key, day) + if AdmitsFree(s, Chat(h), key, day) then {h.id} else {};
    forall id ensures id in FreeIds(Q.Handle(s, h), key, day) <==> id in after {
      if id == h.id {
        OwnFreeId(s, h, key, day);
      } else {
        OtherFreeId(s, h, key, day, id);
      }
    }
  }

  lemma OtherFreeId(s: State, h: Q.Handler, key: Key, day: int, id: JobId)
    requires h.Chat? && Q.GetsIn(s, h) && id != h.id
    ensures id in FreeIds(Q.Handle(s, h), key, day) <==> id in FreeIds(s, key, day)
  {
    ChatTracks(s, h);
  }

  lemma OwnFreeId(s: State, h: Q.Handler, key: Key, day: int)
    requires RowsInv(s) && h.Chat? && Q.GetsIn(s, h)
    ensures h.id in FreeIds(Q.Handle(s, h), key, day) <==> AdmitsFree(s, Chat(h), key, day)
    ensures h.id !in FreeIds(s, key, day)
  {
    ChatTracks(s, h);
    if h.id in s.db.jobs {
      Q.RowIsTracked(s, h.id);
    }
  }

  lemma ChatTracks(s: State, h: Q.Handler)
    requires h.Chat? && Q.GetsIn(s, h)
    ensures var s' := Q.Handle(s, h);
            && s'.db == s.db && s.gate.tracks.Keys <= s'.gate.tracks.Keys <= s.gate.tracks.Keys + {h.id}
            && (forall id | id in s.gate.tracks :: s'.gate.tracks[id] == s.gate.tracks[id])
            && (Q.Starts(s, h) ==> h.id in s'.gate.tracks && s'.gate.tracks[h.id] == FreshTrack(Q.JobOf(s, h), h.now))
            && (!Q.Starts(s, h) && h.id in s'.gate.tracks ==> !Live(s'.gate.tracks[h.id]))
  {
  }

  /** What is free before an admission: recorded, holding a slot, or in the gap. */
  lemma AdmissionBound(s: State, h: Q.Handler, day: int)
    requires RowsInv(s) && h.Chat? && CountsHeld(s, h.key) && AdmitsFree(s, Chat(h), h.key, day)
    ensures |FreeIds(s, h.key, day)| + 1 <= Bound(s, h.key, |Waiting(s, h.key, day)|)
  {
    var rows, held := UsedOn(s.db.jobs, h.key, day), JobSlots.Holders(s.gate, h.key);
    var waiting := Waiting(s, h.key, day);
    assert FreeIds(s, h.key, day) <= rows + held + waiting;
    SubsetSize(FreeIds(s, h.key, day), rows + held + waiting);
    UnionSize(rows, held);
    UnionSize(rows + held, waiting);
  }

  lemma UnionSize(a: set<JobId>, b: set<JobId>)
    ensures |a + b| <= |a| + |b|
  {
    assert a + b == a + (b - a);
    SubsetSize(b - a, b);
  }

  lemma QuotasStay(s: State, e: LedgerEvent, key: Key)
    requires key in s.db.accounts
    ensures key in Ledger.Step(s, e).db.accounts
    ensures Ledger.Step(s, e).db.accounts[key].quotaDaily == s.db.accounts[key].quotaDaily
  {
  }

  lemma BoundGrows(s: State, m: Move, key: Key, gap: nat)
    ensures Bound(s, key, gap) <= Bound(Do(s, m), key, gap)
  {
    if m.Single? && !IsAssignStep(m.e) && key in s.db.accounts {
      QuotasStay(s, m.e, key);
    }
  }

  lemma MoveWithin(s: State, m: Move, key: Key, day: int, gap: nat)
    requires RowsInv(s) && CountsHeld(s, key) && |FreeIds(s, key, day)| <= Bound(s, key, gap)
    requires AdmitsFree(s, m, key, day) ==> |Waiting(s, key, day)| <= gap
    ensures |FreeIds(Do(s, m), key, day)| <= Bound(Do(s, m), key, gap)
  {
    BoundGrows(s, m, key, gap);
    match m
    case Chat(h) =>
      if h.Chat? && Q.GetsIn(s, h) {
        ChatFreeIds(s, h, key, day);
        if AdmitsFree(s, m, key, day) {
          AdmissionBound(s, h, day);
        }
      }
    case Single(e) =>
      if !IsAssignStep(e) {
        StepFreeIds(s, e, key, day);
        SubsetSize(FreeIds(Ledger.Step(s, e), key, day), FreeIds(s, key, day));
      }
  }

  ghost predicate GapAt(init: State, ms: seq<Move>, key: Key, day: int, gap: nat, i: nat)
    requires i < |ms|
  {
    var s := DoAll(init, ms[..i]);
    AdmitsFree(s, ms[i], key, day) ==> |Waiting(s, key, day)| <= gap
  }

  ghost predicate GapsWithin(init: State, ms: seq<Move>, key: Key, day: int, gap: nat) {
    forall i | 0 <= i < |ms| :: GapAt(init, ms, key, day, gap, i)
  }

  lemma GapsFront(init: State, ms: seq<Move>, key: Key, day: int, gap: nat)
    requires ms != [] && GapsWithin(init, ms, key, day, gap)
    ensures GapsWithin(init, ms[..|ms| - 1], key, day, gap) && GapAt(init, ms, key, day, gap, |ms| - 1)
  {
    var n := |ms| - 1;
    forall i | 0 <= i < n ensures GapAt(init, ms[..n], key, day, gap, i) {
      assert ms[..n][..i] == ms[..i];
      assert GapAt(init, ms, key, day, gap, i);
    }
  }

  /** In every run of atomic admissions and of exits taken step by step: if at most gap
      free jobs were between slot and row whenever another one was admitted, the free
      jobs of the key and day never exceed the quota plus two plus gap.  With gap
      zero that is the bound of whole handlers. */
  lemma {:induction false} GapBound(billing: Billing.Engine, maxPerHour: int, now: int, ms: seq<Move>,
                                    key: Key, day: int, gap: nat)
    requires billing.Valid() && GapsWithin(Init(billing, maxPerHour, now), ms, key, day, gap)
    ensures var s := DoAll(Init(billing, maxPerHour, now), ms);
            |FreeIds(s, key, day)| <= Bound(s, key, gap) && CountsHeld(s, key)
  {
    var init := Init(billing, maxPerHour, now);
    if ms == [] {
      assert FreeIds(init, key, day) == {} && JobSlots.Holders(init.gate, key) == {};
    } else {
      var n := |ms| - 1;
      GapsFront(init, ms, key, day, gap);
      GapBound(billing, maxPerHour, now, ms[..n], key, day, gap);
      var es := MovesAreRun(billing, maxPerHour, now, ms[..n]);
      ReachableMoney(billing, maxPerHour, now, es);
      MoveCountsHeld(DoAll(init, ms[..n]), ms[n], key);
      MoveWithin(DoAll(init, ms[..n]), ms[n], key, day, gap);
    }
  }

  // ---------- the gap leaves its mark ----------

  const FREE_JOB := Job("n", "u", "m", true)
  const STARTED := FreshTrack(FREE_JOB, 0)
  const LEFT := STARTED.(exit := Left(ByDone, Released), doneClosed := true)
  const EMPTY_SYSTEM := Init(Billing.Engine(5.0, map[]), 0, 0)
  /** User u has a quota of one job a day. */
  const QUOTA_OF_ONE := EMPTY_SYSTEM.(db := EMPTY_SYSTEM.db.(accounts := map["u" := Account(1, 0)]))

  function Ask(id: JobId): Move {
    Chat(Q.Chat(id, "u", true, "m", "n", true, 0, true))
  }

  function OnlyGate(e: Event): Move {
    Single(LedgerEvent.Gateway(e))
  }

  lemma DoAppend(init: State, ms: seq<Move>, m: Move)
    ensures DoAll(init, ms + [m]) == Do(DoAll(init, ms), m)
  {
    assert (ms + [m])[..|ms + [m]| - 1] == ms;
  }

  /** While no row is written, the quota lets u in as long as the slots do. */
  lemma AskIs(s: State, id: JobId)
    requires s.db == QUOTA_OF_ONE.db && id !in s.gate.tracks
    requires Count(s.gate.userJobs, "u") < MAX_CONCURRENT_PER_USER
    ensures Do(s, Ask(id))
         == s.(gate := Gate(s.gate.tracks[id := STARTED], s.gate.pending + {id}, Incr(s.gate.userJobs, "u")))
  {
    assert UsedOn(s.db.jobs, "u", 0) == {};
  }

  /** Job a has left and given its slot back; its row is not written yet. */
  function GapMoves(): seq<Move> {
    [] + [Single(CreateKey("u", 1, true))] + [Ask("a")]
    + [OnlyGate(TakeDone("a", "n"))] + [OnlyGate(CloseDone("a"))] + [OnlyGate(ReleaseDone("a"))]
  }

  lemma LastThree(init: State, ms: seq<Move>, m1: Move, m2: Move, m3: Move)
    ensures DoAll(init, ms + [m1] + [m2] + [m3]) == Do(Do(Do(DoAll(init, ms), m1), m2), m3)
  {
    DoAppend(init, ms, m1);
    DoAppend(init, ms + [m1], m2);
    DoAppend(init, ms + [m1] + [m2], m3);
  }

  lemma LeaveIs(s: State, id: JobId, node: NodeId)
    ensures Do(Do(Do(s, OnlyGate(TakeDone(id, node))), OnlyGate(CloseDone(id))), OnlyGate(ReleaseDone(id)))
         == s.(gate := Taken(s.gate, id, node))
  {
    OnlyGateIs(s, TakeDone(id, node));
    var s1 := s.(gate := JobGate.Step(s.gate, TakeDone(id, node)));
    OnlyGateIs(s1, CloseDone(id));
    OnlyGateIs(s1.(gate := JobGate.Step(s1.gate, CloseDone(id))), ReleaseDone(id));
  }

  lemma OnlyGateIs(s: State, e: Event)
    requires !Assigning(e) && !TouchesTables(e)
    ensures Do(s, OnlyGate(e)) == s.(gate := JobGate.Step(s.gate, e))
  {
  }

  lemma StartState()
    ensures DoAll(EMPTY_SYSTEM, [] + [Single(CreateKey("u", 1, true))] + [Ask("a")])
         == QUOTA_OF_ONE.(gate := Gate(map["a" := STARTED], {"a"}, map["u" := 1]))
  {
    DoAppend(EMPTY_SYSTEM, [], Single(CreateKey("u", 1, true)));
    DoAppend(EMPTY_SYSTEM, [] + [Single(CreateKey("u", 1, true))], Ask("a"));
    assert Do(EMPTY_SYSTEM, Single(CreateKey("u", 1, true))) == QUOTA_OF_ONE;
    AskIs(QUOTA_OF_ONE, "a");
  }

  lemma GapState()
    ensures DoAll(EMPTY_SYSTEM, GapMoves()) == QUOTA_OF_ONE.(gate := Gate(map["a" := LEFT], {}, map[]))
  {
    var start := [] + [Single(CreateKey("u", 1, true))] + [Ask("a")];
    StartState();
    LastThree(EMPTY_SYSTEM, start, OnlyGate(TakeDone("a", "n")), OnlyGate(CloseDone("a")), OnlyGate(ReleaseDone("a")));
    LeaveIs(DoAll(EMPTY_SYSTEM, start), "a", "n");
    GapGate(Gate(map["a" := STARTED], {"a"}, map["u" := 1]));
  }

  lemma GapGate(g: Gate)
    requires g == Gate(map["a" := STARTED], {"a"}, map["u" := 1])
    ensures Taken(g, "a", "n") == Gate(map["a" := LEFT], {}, map[])
  {
    AssignOutcomeInv(EMPTY_GATE, "a", FREE_JOB, true, 0, true);
    assert AssignOutcome(EMPTY_GATE, "a", FREE_JOB, true, 0, true) == g;
    TakeRun(g, "a");
    assert map["a" := STARTED]["a" := LEFT] == map["a" := LEFT];
    var users: map<Key, nat> := map["u" := 1];
    assert users - {"u"} == map[];
  }

  function RefilledGate(a: Track): Gate {
    Gate(map["a" := a, "b" := STARTED, "c" := STARTED, "d" := STARTED], {"b", "c", "d"}, map["u" := 3])
  }

  function RefilledMoves(): seq<Move> {
    GapMoves() + [Ask("b")] + [Ask("c")] + [Ask("d")]
  }

  lemma AskThree(s: State)
    requires s == QUOTA_OF_ONE.(gate := Gate(map["a" := LEFT], {}, map[]))
    ensures Do(Do(Do(s, Ask("b")), Ask("c")), Ask("d")) == QUOTA_OF_ONE.(gate := RefilledGate(LEFT))
  {
    AskIs(s, "b");
    var s1 := s.(gate := Gate(map["a" := LEFT, "b" := STARTED], {"b"}, map["u" := 1]));
    AskIs(s1, "c");
    var s2 := s.(gate := Gate(map["a" := LEFT, "b" := STARTED, "c" := STARTED], {"b", "c"}, map["u" := 2]));
    AskIs(s2, "d");
  }

  lemma RefilledState()
    ensures DoAll(EMPTY_SYSTEM, RefilledMoves()) == QUOTA_OF_ONE.(gate := RefilledGate(LEFT))
  {
    GapState();
    LastThree(EMPTY_SYSTEM, GapMoves(), Ask("b"), Ask("c"), Ask("d"));
    AskThree(DoAll(EMPTY_SYSTEM, GapMoves()));
  }

  lemma RecordedState(s: State)
    requires s == QUOTA_OF_ONE.(gate := RefilledGate(LEFT))
    ensures Do(s, Single(RecordDoneJob("a", 10_000.0, true)))
         == s.(gate := RefilledGate(LEFT.(exit := Left(ByDone, Recorded))),
               db := s.db.(jobs := map["a" := RowOf(s.billing, LEFT, 10_000.0)]))
  {
    var e := RecordDone("a", true);
    assert JobGate.Step(s.gate, e).tracks == RefilledGate(LEFT.(exit := Left(ByDone, Recorded))).tracks;
  }

  /** The number of jobs in the gap at the end of a run does not bound the overrun:
      with a quota of one, four free jobs of the day are recorded or in flight and
      none is in the gap, since the one that was is recorded now. */
  lemma GapAtTheEndIsNotEnough()
    ensures var s := DoAll(EMPTY_SYSTEM, RefilledMoves() + [Single(RecordDoneJob("a", 10_000.0, true))]);
            && Waiting(s, "u", 0) == {} && FreeIds(s, "u", 0) == {"a", "b", "c", "d"}
            && |FreeIds(s, "u", 0)| > Bound(s, "u", |Waiting(s, "u", 0)|)
  {
    RefilledState();
    DoAppend(EMPTY_SYSTEM, RefilledMoves(), Single(RecordDoneJob("a", 10_000.0, true)));
    RecordedState(QUOTA_OF_ONE.(gate := RefilledGate(LEFT)));
    FourFree(DoAll(EMPTY_SYSTEM, RefilledMoves() + [Single(RecordDoneJob("a", 10_000.0, true))]));
  }

  lemma FourFree(s: State)
    requires s.gate == RefilledGate(LEFT.(exit := Left(ByDone, Recorded))) && s.db.jobs.Keys == {"a"}
    requires s.db.jobs["a"].job == FREE_JOB && s.db.jobs["a"].startedAt == 0
    ensures Waiting(s, "u", 0) == {} && FreeIds(s, "u", 0) == {"a", "b", "c", "d"}
  {
  }
}
