/** The gateway object: the maps and the job records the handlers change in place.
    Each handler, run without interruption, takes exactly the steps its goroutine
    takes in the Ledger machine, whose theorems cover every interleaving. */
module Gateway {
  import opened Names
  import opened JobGate
  import opened Tables
  import opened Store
  import opened Ledger
  import Billing
  import Connections

  /** What the handlers share of one request.  responseCh is the buffered channel. */
  class PendingJob {
    const id: JobId
    const job: Job
    const startedAt: int
    var lastChunk: Usage
    var doneClosed: bool
    var responseCh: seq<string>

    constructor (id: JobId, job: Job, now: int)
      ensures this.id == id && this.job == job && startedAt == now
      ensures lastChunk == NO_USAGE && !doneClosed && responseCh == []
    {
      this.id, this.job, startedAt := id, job, now;
      lastChunk, doneClosed, responseCh := NO_USAGE, false, [];
    }

    /** close(job.DoneCh): closing it twice would panic. */
    method CloseDone()
      requires !doneClosed
      modifies this`doneClosed
      ensures doneClosed
    {
      doneClosed := true;
    }
  }

  datatype AssignResult = TooManyConcurrent | NodeGone | SendError | Channels(pending: PendingJob)

  /** The non-blocking send: a full channel drops the chunk. */
  function Pushed(channel: seq<string>, data: string): seq<string> {
    if |channel| < RESPONSE_BUFFER then channel + [data] else channel
  }

  // ---------- the handlers as sequences of steps ----------

  function Assigned(g: Gate, id: JobId, job: Job, found: bool, now: int, sent: bool): Gate {
    var counted := JobGate.Step(g, Assign(id, job));
    if id !in counted.tracks then counted else
    var looked := JobGate.Step(counted, Lookup(id, found));
    if !found then JobGate.Step(looked, ReleaseNoNode(id)) else
    var returned := JobGate.Step(JobGate.Step(looked, Insert(id, now)), SendReturn(id, sent));
    if sent then returned else JobGate.Step(JobGate.Step(returned, DropAfterSend(id)), ReleaseAfterSend(id))
  }

  function Rejected(g: Gate, id: JobId): Gate {
    if id !in g.pending then g else JobGate.Step(JobGate.Step(g, Reject(id)), ReleaseRejected(id))
  }

  function Taken(g: Gate, id: JobId, node: NodeId): Gate {
    JobGate.Step(JobGate.Step(JobGate.Step(g, TakeDone(id, node)), CloseDone(id)), ReleaseDone(id))
  }

  /** handleProxyDone: take, close, release, record, and charge if recorded. */
  ghost function DoneHandled(s: State, id: JobId, node: NodeId, price: real, recordIo: bool, chargeIo: bool): State {
    if id !in s.gate.pending || id !in s.gate.tracks || s.gate.tracks[id].job.node != node then s else
    var recorded := Ledger.Step(s.(gate := Taken(s.gate, id, node)), RecordDoneJob(id, price, recordIo));
    Ledger.Step(recorded, ChargeJob(id, chargeIo))
  }

  /** The second half of a cleanup pass, for one expired job. */
  ghost function CompensateHandled(s: State, id: JobId, price: real, io: bool): State {
    Ledger.Step(s.(gate := JobGate.Step(s.gate, ReleaseExpired(id))), RecordExpiredJob(id, price, io))
  }

  lemma AssignedInv(g: Gate, id: JobId, job: Job, found: bool, now: int, sent: bool)
    requires Inv(g)
    ensures Inv(Assigned(g, id, job, found, now, sent))
  {
    var g1 := JobGate.Step(g, Assign(id, job));
    var g2 := JobGate.Step(g1, Lookup(id, found));
    var g3 := JobGate.Step(g2, Insert(id, now));
    var g4 := JobGate.Step(g3, SendReturn(id, sent));
    StepKeepsInv(g, Assign(id, job));
    StepKeepsInv(g1, Lookup(id, found));
    StepKeepsInv(g2, ReleaseNoNode(id));
    StepKeepsInv(g2, Insert(id, now));
    StepKeepsInv(g3, SendReturn(id, sent));
    StepKeepsInv(g4, DropAfterSend(id));
    StepKeepsInv(JobGate.Step(g4, DropAfterSend(id)), ReleaseAfterSend(id));
  }

  function FreshTrack(job: Job, now: int): Track {
    Track(job, Returned, Inside, now, false, NO_USAGE, [])
  }

  /** What AssignJob leaves behind, for an id never used before. */
  function AssignOutcome(g: Gate, id: JobId, job: Job, found: bool, now: int, sent: bool): Gate {
    if Count(g.userJobs, job.key) >= MAX_CONCURRENT_PER_USER then g
    else if !found then
      Gate(g.tracks[id := FreshTrack(job, 0).(pc := Refused)], g.pending, Decr(Incr(g.userJobs, job.key), job.key))
    else if sent then
      Gate(g.tracks[id := FreshTrack(job, now)], g.pending + {id}, Incr(g.userJobs, job.key))
    else
      Gate(g.tracks[id := FreshTrack(job, now).(pc := GaveUp, exit := Left(BySend, Released))], g.pending,
           Decr(Incr(g.userJobs, job.key), job.key))
  }

  /** AssignOutcome is where the steps of AssignJob lead when nothing comes between them. */
  lemma AssignRun(g: Gate, id: JobId, job: Job, found: bool, now: int, sent: bool)
    requires Inv(g) && id !in g.tracks
    ensures Assigned(g, id, job, found, now, sent) == AssignOutcome(g, id, job, found, now, sent)
  {
    if Count(g.userJobs, job.key) < MAX_CONCURRENT_PER_USER {
      var t := FreshTrack(job, 0);
      var users := Incr(g.userJobs, job.key);
      var g1 := JobGate.Step(g, Assign(id, job));
      assert g1 == Gate(g.tracks[id := t.(pc := Slotted)], g.pending, users);
      var g2 := JobGate.Step(g1, Lookup(id, found));
      assert g2 == Gate(g.tracks[id := t.(pc := if found then Found else NoNode)], g.pending, users);
      if found {
        var g3 := JobGate.Step(g2, Insert(id, now));
        assert g3 == Gate(g.tracks[id := FreshTrack(job, now).(pc := Sending)], g.pending + {id}, users);
        if !sent {
          SendErrorIs(g, id, FreshTrack(job, now).(pc := Sending), users);
        }
      }
    }
  }

  lemma AssignOutcomeInv(g: Gate, id: JobId, job: Job, found: bool, now: int, sent: bool)
    requires Inv(g) && id !in g.tracks
    ensures Inv(AssignOutcome(g, id, job, found, now, sent))
  {
    AssignedInv(g, id, job, found, now, sent);
    AssignRun(g, id, job, found, now, sent);
  }

  lemma SendErrorIs(g: Gate, id: JobId, t: Track, users: map<Key, nat>)
    requires id !in g.pending && t.pc.Sending? && t.exit.Inside?
    ensures var sending := Gate(g.tracks[id := t], g.pending + {id}, users);
            var failed := JobGate.Step(sending, SendReturn(id, false));
            && JobGate.Step(JobGate.Step(failed, DropAfterSend(id)), ReleaseAfterSend(id))
            == Gate(g.tracks[id := t.(pc := GaveUp, exit := Left(BySend, Released))], g.pending, Decr(users, t.job.key))
  {
    var sending := Gate(g.tracks[id := t], g.pending + {id}, users);
    var failed := JobGate.Step(sending, SendReturn(id, false));
    assert failed == Gate(g.tracks[id := t.(pc := SendFailed)], g.pending + {id}, users);
    var dropped := JobGate.Step(failed, DropAfterSend(id));
    assert dropped.pending == g.pending;
    assert dropped.tracks == g.tracks[id := t.(pc := Dropped, exit := Left(BySend, Removed))];
  }

  /** Removing a pending job and giving its slot back, seen from the outside. */
  function ClosedAndFreed(g: Gate, id: JobId, exit: Exit): Gate
    requires id in g.tracks
  {
    Gate(g.tracks[id := g.tracks[id].(exit := exit, doneClosed := true)], g.pending - {id},
         Decr(g.userJobs, g.tracks[id].job.key))
  }

  function RejectOutcome(g: Gate, id: JobId): Gate {
    if id in g.pending && id in g.tracks then ClosedAndFreed(g, id, Left(ByReject, Released)) else g
  }

  lemma RejectRun(g: Gate, id: JobId)
    requires Inv(g)
    ensures Rejected(g, id) == RejectOutcome(g, id)
    ensures Inv(Rejected(g, id))
  {
    StepKeepsInv(g, Reject(id));
    var g1 := JobGate.Step(g, Reject(id));
    StepKeepsInv(g1, ReleaseRejected(id));
    if id in g.pending {
      assert g1.tracks == g.tracks[id := g.tracks[id].(exit := Left(ByReject, Closed), doneClosed := true)];
    }
  }

  lemma TakeRun(g: Gate, id: JobId)
    requires Inv(g) && id in g.pending
    ensures Taken(g, id, g.tracks[id].job.node) == ClosedAndFreed(g, id, Left(ByDone, Released))
    ensures Inv(Taken(g, id, g.tracks[id].job.node))
  {
    var node := g.tracks[id].job.node;
    StepKeepsInv(g, TakeDone(id, node));
    var g1 := JobGate.Step(g, TakeDone(id, node));
    assert g1.tracks == g.tracks[id := g.tracks[id].(exit := Left(ByDone, Removed))];
    StepKeepsInv(g1, CloseDone(id));
    var g2 := JobGate.Step(g1, CloseDone(id));
    assert g2.tracks == g.tracks[id := g.tracks[id].(exit := Left(ByDone, Closed), doneClosed := true)];
    StepKeepsInv(g2, ReleaseDone(id));
  }

  /** What handleProxyDone from the assigned node leaves behind: the job closed and
      settled, its row if the database takes it, and then the deduction if the
      job is not free, costs something and the balance covers it. */
  function DoneOutcome(s: State, id: JobId, price: real, recordIo: bool, chargeIo: bool): State
    requires id in s.gate.tracks
  {
    var t := s.gate.tracks[id];
    var row := RowOf(s.billing, t, price);
    var settled := s.(gate := ClosedAndFreed(s.gate, id, Left(ByDone, Settled)));
    if !recordIo || id in s.db.jobs then settled else
    var recorded := settled.(db := InsertJob(s.db, id, row));
    if chargeIo && Cost(row) > 0 && !t.job.free && CanDeduct(s.db, t.job.key, Cost(row)) then
      recorded.(db := Deduct(recorded.db, t.job.key, Cost(row)),
                charges := s.charges + [Charge(id, t.job.key, Cost(row))])
    else
      recorded
  }

  lemma DoneRun(s: State, id: JobId, price: real, recordIo: bool, chargeIo: bool)
    requires Inv(s.gate) && id in s.gate.pending
    ensures DoneHandled(s, id, s.gate.tracks[id].job.node, price, recordIo, chargeIo)
         == DoneOutcome(s, id, price, recordIo, chargeIo)
    ensures Inv(DoneOutcome(s, id, price, recordIo, chargeIo).gate)
  {
    TakeRun(s.gate, id);
    var freed := ClosedAndFreed(s.gate, id, Left(ByDone, Released));
    var taken := s.(gate := freed);
    var stored := recordIo && id !in s.db.jobs;
    var recorded := Ledger.Step(taken, RecordDoneJob(id, price, recordIo));
    assert recorded.gate == ClosedAndFreed(s.gate, id, Left(ByDone, if stored then Recorded else Settled)) by {
      RecordDoneIs(s.gate, id, stored);
    }
    StepKeepsInv(freed, RecordDone(id, stored));
    SettleDoneIs(s.gate, id, stored);
    StepKeepsInv(recorded.gate, SettleDone(id));
  }

  lemma RecordDoneIs(g: Gate, id: JobId, stored: bool)
    requires id in g.tracks
    ensures JobGate.Step(ClosedAndFreed(g, id, Left(ByDone, Released)), RecordDone(id, stored))
         == ClosedAndFreed(g, id, Left(ByDone, if stored then Recorded else Settled))
  {
    var freed := ClosedAndFreed(g, id, Left(ByDone, Released));
    assert JobGate.Step(freed, RecordDone(id, stored)).tracks
        == g.tracks[id := g.tracks[id].(exit := Left(ByDone, if stored then Recorded else Settled),
                                          doneClosed := true)];
  }

  lemma SettleDoneIs(g: Gate, id: JobId, stored: bool)
    requires id in g.tracks
    ensures JobGate.Step(ClosedAndFreed(g, id, Left(ByDone, if stored then Recorded else Settled)), SettleDone(id))
         == ClosedAndFreed(g, id, Left(ByDone, Settled))
  {
    var recorded := ClosedAndFreed(g, id, Left(ByDone, if stored then Recorded else Settled));
    assert JobGate.Step(recorded, SettleDone(id)).tracks
        == g.tracks[id := g.tracks[id].(exit := Left(ByDone, Settled), doneClosed := true)];
  }

  /** A usage chunk of the assigned node: looked up and written at once. */
  function ChunkOutcome(g: Gate, id: JobId, usage: Usage): Gate
    requires id in g.tracks
  {
    Put(g, id, g.tracks[id].(lastUsage := usage))
  }

  lemma ChunkRun(g: Gate, id: JobId, usage: Usage)
    requires Inv(g) && id in g.pending
    ensures JobGate.Step(JobGate.Step(g, ChunkLookup(id, g.tracks[id].job.node, usage)),
                         ChunkWrite(id, |g.tracks[id].writers|))
         == ChunkOutcome(g, id, usage)
    ensures Inv(ChunkOutcome(g, id, usage))
  {
    var t := g.tracks[id];
    var looked := JobGate.Step(g, ChunkLookup(id, t.job.node, usage));
    StepKeepsInv(g, ChunkLookup(id, t.job.node, usage));
    assert looked.tracks == g.tracks[id := t.(writers := t.writers + [usage])];
    StepKeepsInv(looked, ChunkWrite(id, |t.writers|));
    assert (t.writers + [usage])[..|t.writers|] + (t.writers + [usage])[|t.writers| + 1..] == t.writers;
    assert JobGate.Step(looked, ChunkWrite(id, |t.writers|)).tracks == g.tracks[id := t.(lastUsage := usage)];
  }

  /** handleProxyDone from the assigned node, in plain terms: the job is out and its
      DoneCh closed, its key has one slot back; a row with the bill of the clamped
      usage is written if the database takes it; and then, unless the job is free,
      its key is charged exactly the bill if there is one and the balance covers it. */
  lemma DoneEffect(s: State, id: JobId, price: real, recordIo: bool, chargeIo: bool)
    requires Inv(s.gate) && id in s.gate.pending && id in s.gate.tracks
    ensures var t, s' := s.gate.tracks[id], DoneOutcome(s, id, price, recordIo, chargeIo);
            var u := t.lastUsage;
            var (earned, fee) := Billing.Bill(s.billing, t.job.model, u.tokensIn, u.tokensOut, price);
            var recorded := recordIo && id !in s.db.jobs;
            && s'.gate.pending == s.gate.pending - {id} && s'.gate.tracks[id].doneClosed
            && (forall k :: Count(s'.gate.userJobs, k)
                  == Count(s.gate.userJobs, k) - if k == t.job.key && Count(s.gate.userJobs, k) > 0 then 1 else 0)
            && s'.db.jobs.Keys == s.db.jobs.Keys + (if recorded then {id} else {})
            && (recorded ==>
                  var row := s'.db.jobs[id];
                  && row.job == t.job && row.startedAt == t.startedAt && row.earned == earned && row.fee == fee)
            && s'.db.accounts.Keys == s.db.accounts.Keys
            && forall k | k in s.db.accounts ::
                 s'.db.accounts[k].balance
                 == s.db.accounts[k].balance
                    - if recorded && chargeIo && !t.job.free && k == t.job.key && earned + fee > 0
                         && s.db.accounts[k].balance >= earned + fee
                      then earned + fee else 0
  {
  }

  // ---------- the cleanup pass ----------

  /** The sweep of a cleanup pass that has the ids of todo still to visit. */
  function SweptGate(g: Gate, cutoff: int, todo: set<JobId>): Gate {
    Gate(map id | id in g.tracks ::
           if Expires(g, id, cutoff) && id !in todo then JobGate.Expired(g.tracks[id]) else g.tracks[id],
         (set id | id in g.pending && !(Expires(g, id, cutoff) && id !in todo)),
         g.userJobs)
  }

  function ExpireOne(g: Gate, id: JobId): Gate
    requires id in g.tracks
  {
    Gate(g.tracks[id := JobGate.Expired(g.tracks[id])], g.pending - {id}, g.userJobs)
  }

  lemma SweptGateStep(g: Gate, cutoff: int, todo: set<JobId>, id: JobId)
    requires id in todo && id in g.tracks && id in g.pending
    ensures SweptGate(g, cutoff, todo - {id})
         == if g.tracks[id].startedAt < cutoff then ExpireOne(SweptGate(g, cutoff, todo), id)
            else SweptGate(g, cutoff, todo)
  {
  }

  lemma SweptGateStart(g: Gate, cutoff: int)
    ensures SweptGate(g, cutoff, g.pending) == g
  {
    var swept := SweptGate(g, cutoff, g.pending);
    assert swept.tracks == g.tracks && swept.pending == g.pending;
  }

  lemma SweptGateEnd(g: Gate, cutoff: int, todo: set<JobId>)
    requires todo == {}
    ensures SweptGate(g, cutoff, todo) == JobGate.Step(g, Expire(cutoff))
  {
    var swept, stepped := SweptGate(g, cutoff, todo), JobGate.Step(g, Expire(cutoff));
    assert swept.tracks == stepped.tracks && swept.pending == stepped.pending;
  }

  predicate Served(t: Track) {
    Billing.ClampTokens(t.lastUsage.tokensIn) + Billing.ClampTokens(t.lastUsage.tokensOut) > 0
  }

  /** The second half of a cleanup pass for one job: its slot is given back, and
      tokens already served are recorded. */
  function CompensatedState(s: State, id: JobId, price: real, io: bool): State {
    if id !in s.gate.tracks then s else
    var t := s.gate.tracks[id];
    s.(gate := Gate(s.gate.tracks[id := t.(exit := Left(ByExpiry, Settled))],
                    s.gate.pending, Decr(s.gate.userJobs, t.job.key)),
       db := if io && Served(t) && id !in s.db.jobs then InsertJob(s.db, id, RowOf(s.billing, t, price)) else s.db)
  }

  function CompensateAll(s: State, expired: seq<JobId>, price: JobId -> real, io: JobId -> bool): State {
    if expired == [] then s else
    var n := |expired| - 1;
    CompensatedState(CompensateAll(s, expired[..n], price, io), expired[n], price(expired[n]), io(expired[n]))
  }

  lemma CompensateRun(s: State, id: JobId, price: real, io: bool)
    requires ExitAt(s.gate, id, ByExpiry, Closed)
    ensures CompensateHandled(s, id, price, io) == CompensatedState(s, id, price, io)
  {
    var t := s.gate.tracks[id];
    var released := JobGate.Step(s.gate, ReleaseExpired(id));
    assert released.tracks == s.gate.tracks[id := t.(exit := Left(ByExpiry, Released))];
    var settled := JobGate.Step(released, SettleExpired(id));
    assert settled.tracks == s.gate.tracks[id := t.(exit := Left(ByExpiry, Settled))];
  }

  predicate AllDistinct(ids: seq<JobId>) {
    forall i, j | 0 <= i < j < |ids| :: ids[i] != ids[j]
  }

  /** expired lists the expired jobs outside todo, each once. */
  ghost predicate ListsExpired(g: Gate, cutoff: int, expired: seq<JobId>, todo: set<JobId>) {
    AllDistinct(expired) && forall id :: id in expired <==> Expires(g, id, cutoff) && id !in todo
  }

  lemma ListsExpiredStep(g: Gate, cutoff: int, expired: seq<JobId>, todo: set<JobId>, id: JobId)
    requires ListsExpired(g, cutoff, expired, todo) && id in todo
    ensures ListsExpired(g, cutoff, if Expires(g, id, cutoff) then expired + [id] else expired, todo - {id})
  {
  }

  /** How many of the expired jobs belong to the key. */
  function OwnedBy(g: Gate, ids: seq<JobId>, key: Key): nat {
    if ids == [] then 0 else
    var n := |ids| - 1;
    OwnedBy(g, ids[..n], key) + if ids[n] in g.tracks && g.tracks[ids[n]].job.key == key then 1 else 0
  }

  lemma {:induction false} CompensatedTracks(s: State, expired: seq<JobId>, price: JobId -> real, io: JobId -> bool)
    requires forall id | id in expired :: id in s.gate.tracks
    ensures var s' := CompensateAll(s, expired, price, io);
            && s'.gate.pending == s.gate.pending && s'.gate.tracks.Keys == s.gate.tracks.Keys
            && s'.billing == s.billing && s'.charges == s.charges && s'.db == s.db.(jobs := s'.db.jobs)
            && forall id | id in s.gate.tracks ::
                 s'.gate.tracks[id] == if id in expired then s.gate.tracks[id].(exit := Left(ByExpiry, Settled))
                                       else s.gate.tracks[id]
  {
    if expired != [] {
      var n := |expired| - 1;
      assert forall id :: id in expired <==> id in expired[..n] || id == expired[n];
      CompensatedTracks(s, expired[..n], price, io);
    }
  }

  lemma {:induction false} CompensatedCounts(s: State, expired: seq<JobId>, price: JobId -> real,
                                             io: JobId -> bool, key: Key)
    requires forall id | id in expired :: id in s.gate.tracks
    ensures var owned, before := OwnedBy(s.gate, expired, key), Count(s.gate.userJobs, key);
            Count(CompensateAll(s, expired, price, io).gate.userJobs, key)
            == if owned >= before then 0 else before - owned
  {
    if expired != [] {
      var n := |expired| - 1;
      assert forall id | id in expired[..n] :: id in expired;
      assert expired[n] in expired;
      CompensatedCounts(s, expired[..n], price, io, key);
      CompensatedTracks(s, expired[..n], price, io);
    }
  }

  lemma {:induction false} CompensatedRows(s: State, expired: seq<JobId>, price: JobId -> real, io: JobId -> bool)
    requires AllDistinct(expired) && forall id | id in expired :: id in s.gate.tracks
    ensures var jobs := CompensateAll(s, expired, price, io).db.jobs;
            && (forall id :: id in jobs <==> id in s.db.jobs || (id in expired && io(id) && Served(s.gate.tracks[id])))
            && forall id | id in jobs ::
                 jobs[id] == if id in s.db.jobs then s.db.jobs[id] else RowOf(s.billing, s.gate.tracks[id], price(id))
  {
    if expired != [] {
      var n := |expired| - 1;
      assert forall id :: id in expired <==> id in expired[..n] || id == expired[n];
      CompensatedRows(s, expired[..n], price, io);
      CompensatedTracks(s, expired[..n], price, io);
      assert expired[n] !in expired[..n];
    }
  }

  /** A pending job's DoneCh is open, and its node is inserted. */
  lemma PendingIsOpen(g: Gate, id: JobId)
    requires Inv(g) && id in g.pending
    ensures id in g.tracks && !g.tracks[id].doneClosed && Inserted(g.tracks[id])
  {
    assert TrackOk(g, id, g.tracks[id]);
  }

  /** jobs are the records of the ids, in the same order. */
  ghost predicate RecordsOf(objs: map<JobId, PendingJob>, ids: seq<JobId>, jobs: seq<PendingJob>) {
    |jobs| == |ids| && forall i | 0 <= i < |ids| :: ids[i] in objs && objs[ids[i]] == jobs[i]
  }

  lemma RecordsOfAppend(objs: map<JobId, PendingJob>, ids: seq<JobId>, jobs: seq<PendingJob>, id: JobId)
    requires RecordsOf(objs, ids, jobs) && id in objs
    ensures RecordsOf(objs, ids + [id], jobs + [objs[id]])
  {
  }

  lemma PutAndRemove(m: map<JobId, PendingJob>, id: JobId, job: PendingJob)
    requires id !in m
    ensures m[id := job] - {id} == m
  {
  }

  const JOB_LIFETIME_SECONDS := 600

  lemma SweptPending(s: State, cutoff: int, expired: seq<JobId>, price: JobId -> real, io: JobId -> bool)
    requires ListsExpired(s.gate, cutoff, expired, {}) && s.gate.pending <= s.gate.tracks.Keys
    ensures var s' := CompensateAll(s.(gate := JobGate.Step(s.gate, Expire(cutoff))), expired, price, io);
            forall id :: id in s'.gate.pending <==> id in s.gate.pending && s.gate.tracks[id].startedAt >= cutoff
  {
    forall id | id in expired ensures id in s.gate.tracks {
      assert Expires(s.gate, id, cutoff);
    }
    CompensatedTracks(s.(gate := JobGate.Step(s.gate, Expire(cutoff))), expired, price, io);
  }

  class Hub {
    const db: DB
    const bill: Billing.Engine
    var nodes: map<NodeId, ConnId>            // the live connection of each node
    var pendingJobs: map<JobId, PendingJob>
    var userJobs: map<Key, nat>
    ghost var objs: map<JobId, PendingJob>    // the record of every job ever inserted
    ghost var repr: set<PendingJob>           // all those records

    /** The record shows what the machine's track says; LastChunk is written by
        the chunk handler after its lookup, which here runs to its end. */
    ghost predicate RecordShows(id: JobId, t: Track)
      reads this, repr
    {
      && id in objs && objs[id] in repr
      && objs[id].id == id && objs[id].job == t.job && objs[id].startedAt == t.startedAt
      && objs[id].doneClosed == t.doneClosed && objs[id].lastChunk == t.lastUsage
    }

    /** The records show the gate g, except perhaps those of some jobs. */
    ghost predicate RecordsShow(g: Gate, but: set<JobId>)
      reads this, repr
    {
      && objs.Keys <= g.tracks.Keys
      && forall id | id in objs && id !in but :: RecordShows(id, g.tracks[id])
    }

    ghost predicate MapsShow(g: Gate)
      reads this
    {
      && userJobs == g.userJobs && pendingJobs.Keys == g.pending
      && (forall id | id in g.tracks && Inserted(g.tracks[id]) :: id in objs)
      && forall id | id in pendingJobs :: id in objs && pendingJobs[id] == objs[id]
    }

    /** This object, with its maps and records, is in the state g. */
    ghost predicate Shows(g: Gate)
      reads this, repr
    {
      MapsShow(g) && RecordsShow(g, {})
    }

    /** No chunk that waits for a buyer is taken, added or changed. */
    twostate predicate ChannelsKept()
      reads this, repr
    {
      repr == old(repr) && forall job | job in repr :: job.responseCh == old(job.responseCh)
    }

    constructor (db: DB, bill: Billing.Engine)
      ensures Shows(EMPTY_GATE) && repr == {} && nodes == map[] && this.db == db && this.bill == bill
    {
      this.db, this.bill := db, bill;
      nodes, pendingJobs, userJobs := map[], map[], map[];
      objs, repr := map[], {};
    }

    /** The lock section of HandleWS that registers a connection; the caller closes
        the one it replaced, if there was one. */
    method Register(node: NodeId, conn: ConnId) returns (existed: bool, replaced: ConnId)
      modifies this`nodes
      ensures nodes == Connections.Step(old(nodes), Connections.Connect(node, conn))
      ensures existed == (node in old(nodes)) && (existed ==> replaced == old(nodes)[node])
    {
      existed := node in nodes;
      replaced := if existed then nodes[node] else conn;
      nodes := nodes[node := conn];
    }

    /** The lock section of HandleWS after its read loop has ended. */
    method Unregister(node: NodeId, conn: ConnId)
      modifies this`nodes
      ensures nodes == Connections.Step(old(nodes), Connections.Disconnect(node, conn))
    {
      if node in nodes && nodes[node] == conn {
        nodes := nodes - {node};
      }
    }

    method IncrUserJobs(key: Key) returns (ok: bool)
      modifies this`userJobs
      ensures ok == (Count(old(userJobs), key) < 3)
      ensures forall k :: Count(userJobs, k) == Count(old(userJobs), k) + if ok && k == key then 1 else 0
      ensures userJobs == if ok then Incr(old(userJobs), key) else old(userJobs)
    {
      var count := if key in userJobs then userJobs[key] else 0;
      if count >= MAX_CONCURRENT_PER_USER {
        return false;
      }
      userJobs := userJobs[key := count + 1];
      ok := true;
    }

    method DecrUserJobs(key: Key)
      modifies this`userJobs
      ensures userJobs == Decr(old(userJobs), key)
      ensures forall k :: Count(userJobs, k)
                       == Count(old(userJobs), k) - if k == key && Count(old(userJobs), k) > 0 then 1 else 0
    {
      if key in userJobs && userJobs[key] > 0 {
        userJobs := userJobs[key := userJobs[key] - 1];
      }
      if key !in userJobs || userJobs[key] == 0 {
        userJobs := userJobs - {key};
      }
    }

    /** Takes a job out of pendingJobs and gives its slot back; its record already
        shows the track it gets. */
    method Forget(id: JobId, key: Key, ghost g: Gate, ghost t: Track)
      requires id in g.tracks && MapsShow(g) && RecordsShow(g, {id}) && RecordShows(id, t)
      requires t.job == g.tracks[id].job && t.job.key == key && Inserted(t)
      modifies this`pendingJobs, this`userJobs
      ensures Shows(Gate(g.tracks[id := t], g.pending - {id}, Decr(g.userJobs, key)))
      ensures pendingJobs == old(pendingJobs) - {id}
    {
      pendingJobs := pendingJobs - {id};
      DecrUserJobs(key);
    }

    /** Closes the channel of a pending job, takes the job out and frees its slot. */
    method CloseAndForget(id: JobId, ghost g: Gate, ghost exit: Exit)
      requires Inv(g) && Shows(g) && id in pendingJobs
      modifies this`pendingJobs, this`userJobs, repr
      ensures Shows(ClosedAndFreed(g, id, exit))
      ensures pendingJobs == old(pendingJobs) - {id} && old(pendingJobs)[id].doneClosed
      ensures forall job | job in repr ::
                && job.lastChunk == old(job.lastChunk) && job.responseCh == old(job.responseCh)
                && (job != old(pendingJobs)[id] ==> job.doneClosed == old(job.doneClosed))
    {
      PendingIsOpen(g, id);
      assert RecordShows(id, g.tracks[id]);
      var job := pendingJobs[id];
      job.CloseDone();
      Forget(id, job.job.key, g, g.tracks[id].(exit := exit, doneClosed := true));
    }

    /** No check of the sender: any connected node may reject any job. */
    method HandleReject(id: JobId, ghost g: Gate)
      requires Inv(g) && Shows(g)
      modifies this`pendingJobs, this`userJobs, repr
      ensures Shows(RejectOutcome(g, id))
      ensures pendingJobs == old(pendingJobs) - {id} && (id in old(pendingJobs) ==> old(pendingJobs)[id].doneClosed)
      ensures ChannelsKept()
    {
      if id in pendingJobs {
        PendingIsOpen(g, id);
        CloseAndForget(id, g, Left(ByReject, Released));
      }
    }

    /** Puts a new job into pendingJobs; userJobs already counts it. */
    method Enlist(pending: PendingJob, ghost g: Gate, ghost t: Track)
      requires Shows(g)
      requires pending.id !in g.tracks && pending !in repr && Inserted(t)
      requires pending.job == t.job && pending.startedAt == t.startedAt
      requires pending.doneClosed == t.doneClosed && pending.lastChunk == t.lastUsage
      modifies this`pendingJobs, this`objs, this`repr
      ensures Shows(Gate(g.tracks[pending.id := t], g.pending + {pending.id}, g.userJobs))
      ensures objs == old(objs)[pending.id := pending] && repr == old(repr) + {pending}
      ensures pendingJobs == old(pendingJobs)[pending.id := pending]
    {
      pendingJobs := pendingJobs[pending.id := pending];
      objs := objs[pending.id := pending];
      repr := repr + {pending};
    }

    /** The Send-failure path, while the job is still pending. */
    method DropUnsent(id: JobId, key: Key, ghost g: Gate, ghost t: Track, ghost users: map<Key, nat>)
      requires id !in g.pending && t.job.key == key && Inserted(t)
      requires Shows(Gate(g.tracks[id := t], g.pending + {id}, users))
      modifies this`pendingJobs, this`userJobs
      ensures Shows(Gate(g.tracks[id := t.(pc := GaveUp, exit := Left(BySend, Released))], g.pending, Decr(users, key)))
      ensures pendingJobs == old(pendingJobs) - {id}
    {
      ghost var failed := t.(pc := GaveUp, exit := Left(BySend, Released));
      assert RecordShows(id, t);
      Forget(id, key, Gate(g.tracks[id := t], g.pending + {id}, users), failed);
      assert g.tracks[id := t][id := failed] == g.tracks[id := failed];
      assert g.pending + {id} - {id} == g.pending;
    }

    /** sent is what Send reports. */
    method AssignJob(id: JobId, job: Job, now: int, sent: bool, ghost g: Gate) returns (r: AssignResult)
      requires Shows(g) && id !in g.tracks && g.pending <= g.tracks.Keys
      modifies this
      ensures Shows(AssignOutcome(g, id, job, job.node in nodes, now, sent))
      ensures nodes == old(nodes) && fresh(repr - old(repr))
      ensures r.TooManyConcurrent? <==> Count(old(userJobs), job.key) >= MAX_CONCURRENT_PER_USER
      ensures r.NodeGone? <==> !r.TooManyConcurrent? && job.node !in nodes
      ensures r.Channels? <==> !r.TooManyConcurrent? && job.node in nodes && sent
      ensures r.Channels? ==>
                && fresh(r.pending) && pendingJobs == old(pendingJobs)[id := r.pending]
                && r.pending.id == id && r.pending.job == job && r.pending.startedAt == now
                && r.pending.responseCh == [] && !r.pending.doneClosed && r.pending.lastChunk == NO_USAGE
      ensures !r.Channels? ==> pendingJobs == old(pendingJobs)
      ensures forall p | p in old(repr) :: p in repr && p.responseCh == old(p.responseCh)
    {
      var counted := IncrUserJobs(job.key);
      if !counted {
        return TooManyConcurrent;
      }
      if job.node !in nodes {
        DecrUserJobs(job.key);
        return NodeGone;
      }
      r := InsertAndSend(id, job, now, sent, Gate(g.tracks, g.pending, userJobs));
    }

    /** The part of AssignJob after the node is found; g already counts the job. */
    method InsertAndSend(id: JobId, job: Job, now: int, sent: bool, ghost g: Gate) returns (r: AssignResult)
      requires Shows(g) && id !in g.tracks && id !in g.pending
      modifies this`pendingJobs, this`userJobs, this`objs, this`repr
      ensures Shows(if sent then Gate(g.tracks[id := FreshTrack(job, now)], g.pending + {id}, g.userJobs)
                    else Gate(g.tracks[id := FreshTrack(job, now).(pc := GaveUp, exit := Left(BySend, Released))],
                              g.pending, Decr(g.userJobs, job.key)))
      ensures fresh(repr - old(repr)) && (r.Channels? || r.SendError?) && (r.Channels? <==> sent)
      ensures r.Channels? ==>
                && fresh(r.pending) && pendingJobs == old(pendingJobs)[id := r.pending]
                && r.pending.id == id && r.pending.job == job && r.pending.startedAt == now
                && r.pending.responseCh == [] && !r.pending.doneClosed && r.pending.lastChunk == NO_USAGE
      ensures !r.Channels? ==> pendingJobs == old(pendingJobs)
      ensures old(repr) <= repr
    {
      var pending := new PendingJob(id, job, now);
      Enlist(pending, g, FreshTrack(job, now));
      if !sent {
        DropUnsent(id, job.key, g, FreshTrack(job, now), g.userJobs);
        PutAndRemove(old(pendingJobs), id, pending);
        return SendError;
      }
      r := Channels(pending);
    }

    method Push(job: PendingJob, data: string)
      modifies job`responseCh
      ensures job.responseCh == Pushed(old(job.responseCh), data)
      ensures job.responseCh == if |old(job.responseCh)| < 64 then old(job.responseCh) + [data] else old(job.responseCh)
    {
      if |job.responseCh| < RESPONSE_BUFFER {
        job.responseCh := job.responseCh + [data];
      }
    }

    method SetUsage(id: JobId, job: PendingJob, usage: Usage, ghost g: Gate)
      requires Inv(g) && Shows(g) && id in pendingJobs && job == pendingJobs[id]
      modifies job`lastChunk
      ensures Shows(ChunkOutcome(g, id, usage))
    {
      PendingIsOpen(g, id);
      assert RecordShows(id, g.tracks[id]);
      job.lastChunk := usage;
      assert RecordsShow(g, {id});
    }

    /** usage is what parseUsage makes of the chunk, if it mentions any; data goes
        to the buyer unless the channel's buffer is full. */
    method HandleProxyChunk(node: NodeId, id: JobId, data: string, hasUsage: bool, usage: Usage, ghost g: Gate)
      requires Inv(g) && Shows(g)
      modifies repr
      ensures Shows(if hasUsage && id in g.pending && g.tracks[id].job.node == node
                    then ChunkOutcome(g, id, usage) else g)
      ensures forall job | job in repr ::
                job.responseCh
                == if id in pendingJobs && job == pendingJobs[id] && job.job.node == node
                   then Pushed(old(job.responseCh), data) else old(job.responseCh)
      ensures forall job | job in repr ::
                job.lastChunk
                == if hasUsage && id in pendingJobs && job == pendingJobs[id] && job.job.node == node
                   then usage else old(job.lastChunk)
    {
      assert id in pendingJobs ==> RecordShows(id, g.tracks[id]);
      if id !in pendingJobs || pendingJobs[id].job.node != node {
        return;
      }
      Push(pendingJobs[id], data);
      if hasUsage {
        SetUsage(id, pendingJobs[id], usage, g);
      }
    }

    /** price is the BTC price the handler reads; recordIo and chargeIo say whether
        the database takes the row and the deduction. */
    method HandleProxyDone(node: NodeId, id: JobId, price: real, recordIo: bool, chargeIo: bool, ghost s: State)
      requires Inv(s.gate) && IsIn(s)
      modifies this`pendingJobs, this`userJobs, repr, db
      ensures var s' := if id in s.gate.pending && s.gate.tracks[id].job.node == node
                        then DoneOutcome(s, id, price, recordIo, chargeIo) else s;
              IsIn(s')
      ensures pendingJobs == if id in old(pendingJobs) && old(pendingJobs)[id].job.node == node
                             then old(pendingJobs) - {id} else old(pendingJobs)
      ensures id in old(pendingJobs) && old(pendingJobs)[id].job.node == node ==> old(pendingJobs)[id].doneClosed
      ensures ChannelsKept()
    {
      if id !in pendingJobs {
        return;
      }
      PendingIsOpen(s.gate, id);
      assert RecordShows(id, s.gate.tracks[id]);
      var job := pendingJobs[id];
      if job.job.node != node {
        return;
      }
      CloseAndForget(id, s.gate, Left(ByDone, Settled));
      RecordAndCharge(job, price, recordIo, chargeIo, s);
    }

    /** The part of handleProxyDone after the slot is given back. */
    method RecordAndCharge(job: PendingJob, price: real, recordIo: bool, chargeIo: bool, ghost s: State)
      requires s.billing == bill && s.db == db.View() && job.id in s.gate.tracks
      requires job.job == s.gate.tracks[job.id].job && job.startedAt == s.gate.tracks[job.id].startedAt
      requires job.lastChunk == s.gate.tracks[job.id].lastUsage
      modifies db
      ensures db.View() == DoneOutcome(s, job.id, price, recordIo, chargeIo).db
    {
      var tokensIn, tokensOut := Billing.CapTokens(job.lastChunk.tokensIn, job.lastChunk.tokensOut);
      var (provider, fee) := Billing.Calculate(bill, job.job.model, tokensIn, tokensOut, price);
      provider, fee := Billing.CapEarnings(provider, fee);
      var row := JobRow(job.job, Usage(tokensIn, tokensOut), provider, fee, job.startedAt);
      var recorded := db.RecordJob(job.id, row, recordIo);
      if recorded {
        var totalCost := provider + fee;
        if totalCost > 0 && !job.job.free {
          var charged := db.DeductBalance(job.job.key, totalCost, chargeIo);
        }
      }
    }

    /** Closes and deletes one job that has expired. */
    method CloseExpired(id: JobId, ghost g: Gate)
      requires Shows(g) && id in pendingJobs && id in g.tracks && !g.tracks[id].doneClosed
      requires Inserted(g.tracks[id])
      modifies this`pendingJobs, repr
      ensures Shows(ExpireOne(g, id)) && ChannelsKept()
    {
      assert RecordShows(id, g.tracks[id]);
      pendingJobs[id].CloseDone();
      assert RecordsShow(g, {id});
      pendingJobs := pendingJobs - {id};
    }

    /** One iteration of the sweep. */
    method SweepOne(id: JobId, cutoff: int, ghost g: Gate, ghost todo: set<JobId>) returns (hit: bool)
      requires Inv(g) && id in todo && todo <= g.pending && Shows(SweptGate(g, cutoff, todo))
      modifies this`pendingJobs, repr
      ensures Shows(SweptGate(g, cutoff, todo - {id}))
      ensures hit == Expires(g, id, cutoff) && ChannelsKept()
    {
      ghost var swept := SweptGate(g, cutoff, todo);
      PendingIsOpen(g, id);
      SweptGateStep(g, cutoff, todo, id);
      assert id in swept.pending && swept.tracks[id] == g.tracks[id];
      assert RecordShows(id, swept.tracks[id]);
      hit := pendingJobs[id].startedAt < cutoff;
      if hit {
        CloseExpired(id, swept);
      }
    }

    /** The sweep has the ids of todo still to visit, and has collected the others that
        expired, in expired and jobs. */
    ghost predicate Sweeping(g: Gate, cutoff: int, todo: set<JobId>, expired: seq<JobId>, jobs: seq<PendingJob>)
      reads this, repr
    {
      && todo <= g.pending && Shows(SweptGate(g, cutoff, todo))
      && ListsExpired(g, cutoff, expired, todo) && RecordsOf(objs, expired, jobs)
    }

    method SweepNext(id: JobId, cutoff: int, ghost g: Gate, ghost todo: set<JobId>,
                     ghost expired: seq<JobId>, jobs: seq<PendingJob>)
      returns (ghost expired': seq<JobId>, jobs': seq<PendingJob>)
      requires Inv(g) && id in todo && Sweeping(g, cutoff, todo, expired, jobs)
      modifies this`pendingJobs, repr
      ensures Sweeping(g, cutoff, todo - {id}, expired', jobs') && ChannelsKept()
    {
      expired', jobs' := expired, jobs;
      ListsExpiredStep(g, cutoff, expired, todo, id);
      assert id in SweptGate(g, cutoff, todo).pending;
      var job := pendingJobs[id];
      RecordsOfAppend(objs, expired, jobs, id);
      var hit := SweepOne(id, cutoff, g, todo);
      if hit {
        expired', jobs' := expired + [id], jobs + [job];
      }
    }

    /** The locked half of a cleanup pass: close and delete every job started
        before the cutoff, and collect them. */
    method Sweep(cutoff: int, ghost g: Gate) returns (ghost expired: seq<JobId>, jobs: seq<PendingJob>)
      requires Inv(g) && Shows(g)
      modifies this`pendingJobs, repr
      ensures Shows(JobGate.Step(g, Expire(cutoff)))
      ensures ListsExpired(g, cutoff, expired, {}) && RecordsOf(objs, expired, jobs)
      ensures ChannelsKept()
    {
      expired, jobs := [], [];
      var todo := pendingJobs.Keys;
      SweptGateStart(g, cutoff);
      while todo != {}
        invariant Sweeping(g, cutoff, todo, expired, jobs)
        invariant ChannelsKept()
        decreases |todo|
      {
        var id :| id in todo;
        expired, jobs := SweepNext(id, cutoff, g, todo, expired, jobs);
        todo := todo - {id};
      }
      SweptGateEnd(g, cutoff, todo);
    }

    /** The tables and this object are in the state s. */
    ghost predicate IsIn(s: State)
      reads this, repr, db
    {
      Shows(s.gate) && s.billing == bill && s.db == db.View()
    }

    method FreeExpired(id: JobId, key: Key, ghost g: Gate)
      requires Shows(g) && id in g.tracks && g.tracks[id].job.key == key
      modifies this`userJobs
      ensures Shows(Gate(g.tracks[id := g.tracks[id].(exit := Left(ByExpiry, Settled))],
                         g.pending, Decr(g.userJobs, key)))
    {
      DecrUserJobs(key);
    }

    method RecordServed(job: PendingJob, price: real, io: bool, ghost t: Track)
      requires job.job == t.job && job.startedAt == t.startedAt && job.lastChunk == t.lastUsage
      modifies db
      ensures db.View() == if io && Served(t) && job.id !in old(db.jobs)
                           then InsertJob(old(db.View()), job.id, RowOf(bill, t, price)) else old(db.View())
    {
      var tokensIn, tokensOut := Billing.CapTokens(job.lastChunk.tokensIn, job.lastChunk.tokensOut);
      if tokensIn + tokensOut > 0 {
        var (provider, fee) := Billing.Calculate(bill, job.job.model, tokensIn, tokensOut, price);
        provider, fee := Billing.CapEarnings(provider, fee);
        var recorded := db.RecordJob(
          job.id, JobRow(job.job, Usage(tokensIn, tokensOut), provider, fee, job.startedAt), io);
      }
    }

    /** The second half of a cleanup pass, for one expired job. */
    method Compensate(job: PendingJob, price: real, io: bool, ghost s: State)
      requires IsIn(s) && job.id in objs && objs[job.id] == job
      modifies this`userJobs, db
      ensures IsIn(CompensatedState(s, job.id, price, io))
    {
      ghost var t := s.gate.tracks[job.id];
      assert RecordShows(job.id, t);
      FreeExpired(job.id, job.job.key, s.gate);
      RecordServed(job, price, io, t);
    }

    /** One pass of the cleanup loop: sweep under the lock, then compensate. */
    method CleanupPass(cutoff: int, price: JobId -> real, io: JobId -> bool, ghost s: State)
      returns (ghost expired: seq<JobId>)
      requires Inv(s.gate) && IsIn(s)
      modifies this`pendingJobs, this`userJobs, repr, db
      ensures ListsExpired(s.gate, cutoff, expired, {}) && ChannelsKept()
      ensures IsIn(CompensateAll(s.(gate := JobGate.Step(s.gate, Expire(cutoff))), expired, price, io))
    {
      var jobs;
      expired, jobs := Sweep(cutoff, s.gate);
      ghost var swept := s.(gate := JobGate.Step(s.gate, Expire(cutoff)));
      CompensateFrom(expired, jobs, price, io, swept);
    }

    /** A tick of the cleanup loop: jobs started more than ten minutes ago go. */
    method CleanupTick(now: int, price: JobId -> real, io: JobId -> bool, ghost s: State)
      returns (ghost expired: seq<JobId>)
      requires Inv(s.gate) && IsIn(s)
      modifies this`pendingJobs, this`userJobs, repr, db
      ensures IsIn(CompensateAll(s.(gate := JobGate.Step(s.gate, Expire(now - 600))), expired, price, io))
      ensures ListsExpired(s.gate, now - 600, expired, {}) && ChannelsKept()
      ensures forall id :: id in pendingJobs <==>
                id in old(pendingJobs) && old(pendingJobs)[id].startedAt >= now - 600
    {
      expired := CleanupPass(now - JOB_LIFETIME_SECONDS, price, io, s);
      SweptPending(s, now - JOB_LIFETIME_SECONDS, expired, price, io);
      assert forall id | id in s.gate.pending :: id in s.gate.tracks;
    }

    method CompensateFrom(ghost expired: seq<JobId>, jobs: seq<PendingJob>, price: JobId -> real, io: JobId -> bool,
                          ghost s: State)
      requires IsIn(s) && RecordsOf(objs, expired, jobs)
      modifies this`userJobs, db
      ensures IsIn(CompensateAll(s, expired, price, io))
    {
      for i := 0 to |jobs|
        invariant IsIn(CompensateAll(s, expired[..i], price, io))
      {
        ghost var t := CompensateAll(s, expired[..i], price, io);
        assert expired[..i + 1][..i] == expired[..i];
        var job := jobs[i];
        assert objs[expired[i]] == job && RecordShows(expired[i], t.gate.tracks[expired[i]]);
        Compensate(job, price(job.id), io(job.id), t);
      }
      assert expired[..|jobs|] == expired;
    }
  }
}
