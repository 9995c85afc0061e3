/** The life of a job in the gateway, as a state machine whose steps are the lock
    sections (and the unlocked actions between them) of AssignJob, handleReject,
    handleProxyDone, handleProxyChunk and jobCleanupLoop.  Any order of events
    is a run: an event whose goroutine is not at that point changes nothing. */
module JobGate {
  import opened Names

  /** The token counts a chunk reports; NO_USAGE is what an empty LastChunk parses to. */
  datatype Usage = Usage(tokensIn: int, tokensOut: int)

  const NO_USAGE := Usage(0, 0)

  datatype Job = Job(node: NodeId, key: Key, model: string, free: bool)

  /** Where the AssignJob call of a job stands. */
  datatype AssignPc =
    | Slotted      // slot counted, node not looked up yet
    | NoNode       // node not connected, slot not given back yet
    | Found        // node connected, job not inserted yet
    | Sending      // inserted, Send in flight
    | SendFailed   // Send returned an error
    | Dropped      // deleted after the error, slot not given back yet
    | Returned     // the buyer has the channels
    | Refused      // returned ErrNoNode
    | GaveUp       // returned the Send error

  datatype Exiter = BySend | ByReject | ByDone | ByExpiry

  /** How far the goroutine that removed a job has come. */
  datatype Stage = Removed | Closed | Released | Recorded | Settled

  datatype Exit = Inside | Left(winner: Exiter, stage: Stage)

  datatype Track = Track(
    job: Job, pc: AssignPc, exit: Exit, startedAt: int,
    doneClosed: bool,      // DoneCh is closed
    lastUsage: Usage,      // LastChunk, parsed
    writers: seq<Usage>)   // proxy_chunk handlers past their lookup

  /** tracks: every job AssignJob ever counted; pending: the keys of pendingJobs. */
  datatype Gate = Gate(tracks: map<JobId, Track>, pending: set<JobId>, userJobs: map<Key, nat>)

  const EMPTY_GATE := Gate(map[], {}, map[])

  datatype Event =
    // AssignJob
    | Assign(id: JobId, job: Job)
    | Lookup(id: JobId, found: bool)
    | ReleaseNoNode(id: JobId)
    | Insert(id: JobId, now: int)
    | SendReturn(id: JobId, ok: bool)
    | DropAfterSend(id: JobId)
    | ReleaseAfterSend(id: JobId)
    // handleReject, whichever node sent the message
    | Reject(id: JobId)
    | ReleaseRejected(id: JobId)
    // handleProxyDone
    | TakeDone(id: JobId, node: NodeId)
    | CloseDone(id: JobId)
    | ReleaseDone(id: JobId)
    | RecordDone(id: JobId, ok: bool)
    | SettleDone(id: JobId)
    // jobCleanupLoop
    | Expire(cutoff: int)
    | ReleaseExpired(id: JobId)
    | SettleExpired(id: JobId)
    // handleProxyChunk
    | ChunkLookup(id: JobId, node: NodeId, usage: Usage)
    | ChunkWrite(id: JobId, writer: nat)

  // ---------- the slot counter ----------

  function Count(userJobs: map<Key, nat>, key: Key): nat {
    if key in userJobs then userJobs[key] else 0
  }

  function Incr(userJobs: map<Key, nat>, key: Key): map<Key, nat> {
    userJobs[key := Count(userJobs, key) + 1]
  }

  function Decr(userJobs: map<Key, nat>, key: Key): map<Key, nat> {
    if Count(userJobs, key) <= 1 then userJobs - {key} else userJobs[key := userJobs[key] - 1]
  }

  // ---------- steps ----------

  predicate InState(g: Gate, id: JobId, pc: AssignPc) {
    id in g.tracks && g.tracks[id].pc == pc
  }

  predicate ExitAt(g: Gate, id: JobId, winner: Exiter, stage: Stage) {
    id in g.tracks && g.tracks[id].exit == Left(winner, stage)
  }

  function Put(g: Gate, id: JobId, t: Track): Gate {
    g.(tracks := g.tracks[id := t])
  }

  function SetExit(g: Gate, id: JobId, winner: Exiter, stage: Stage): Gate
    requires id in g.tracks
  {
    Put(g, id, g.tracks[id].(exit := Left(winner, stage)))
  }

  function SetPc(g: Gate, id: JobId, pc: AssignPc): Gate
    requires id in g.tracks
  {
    Put(g, id, g.tracks[id].(pc := pc))
  }

  function ReleaseSlot(g: Gate, key: Key): Gate {
    g.(userJobs := Decr(g.userJobs, key))
  }

  predicate Expires(g: Gate, id: JobId, cutoff: int) {
    id in g.pending && id in g.tracks && g.tracks[id].startedAt < cutoff
  }

  function Expired(t: Track): Track {
    t.(exit := Left(ByExpiry, Closed), doneClosed := true)
  }

  function Step(g: Gate, e: Event): Gate {
    match e
    case Assign(id, job) =>
      if id in g.tracks || Count(g.userJobs, job.key) >= MAX_CONCURRENT_PER_USER then g else
      Put(g, id, Track(job, Slotted, Inside, 0, false, NO_USAGE, [])).(userJobs := Incr(g.userJobs, job.key))
    case Lookup(id, found) =>
      if !InState(g, id, Slotted) then g else SetPc(g, id, if found then Found else NoNode)
    case ReleaseNoNode(id) =>
      if !InState(g, id, NoNode) then g else ReleaseSlot(SetPc(g, id, Refused), g.tracks[id].job.key)
    case Insert(id, now) =>
      if !InState(g, id, Found) then g else
      Put(g, id, g.tracks[id].(pc := Sending, startedAt := now)).(pending := g.pending + {id})
    case SendReturn(id, ok) =>
      if !InState(g, id, Sending) then g else SetPc(g, id, if ok then Returned else SendFailed)
    case DropAfterSend(id) =>
      if !InState(g, id, SendFailed) then g else
      var g' := SetPc(g, id, Dropped).(pending := g.pending - {id});
      if id in g.pending then SetExit(g', id, BySend, Removed) else g'
    case ReleaseAfterSend(id) =>
      if !InState(g, id, Dropped) then g else
      var g' := ReleaseSlot(SetPc(g, id, GaveUp), g.tracks[id].job.key);
      if ExitAt(g, id, BySend, Removed) then SetExit(g', id, BySend, Released) else g'
    case Reject(id) =>
      if id !in g.pending || id !in g.tracks then g else
      Put(g, id, g.tracks[id].(exit := Left(ByReject, Closed), doneClosed := true)).(pending := g.pending - {id})
    case ReleaseRejected(id) =>
      if !ExitAt(g, id, ByReject, Closed) then g else
      ReleaseSlot(SetExit(g, id, ByReject, Released), g.tracks[id].job.key)
    case TakeDone(id, node) =>
      if id !in g.pending || id !in g.tracks || g.tracks[id].job.node != node then g else
      SetExit(g, id, ByDone, Removed).(pending := g.pending - {id})
    case CloseDone(id) =>
      if !ExitAt(g, id, ByDone, Removed) then g else
      Put(g, id, g.tracks[id].(exit := Left(ByDone, Closed), doneClosed := true))
    case ReleaseDone(id) =>
      if !ExitAt(g, id, ByDone, Closed) then g else
      ReleaseSlot(SetExit(g, id, ByDone, Released), g.tracks[id].job.key)
    case RecordDone(id, ok) =>
      if !ExitAt(g, id, ByDone, Released) then g else
      SetExit(g, id, ByDone, if ok then Recorded else Settled)
    case SettleDone(id) =>
      if !ExitAt(g, id, ByDone, Recorded) then g else SetExit(g, id, ByDone, Settled)
    case Expire(cutoff) =>
      g.(tracks := map id | id in g.tracks :: if Expires(g, id, cutoff) then Expired(g.tracks[id]) else g.tracks[id],
         pending := set id | id in g.pending && !Expires(g, id, cutoff))
    case ReleaseExpired(id) =>
      if !ExitAt(g, id, ByExpiry, Closed) then g else
      ReleaseSlot(SetExit(g, id, ByExpiry, Released), g.tracks[id].job.key)
    case SettleExpired(id) =>
      if !ExitAt(g, id, ByExpiry, Released) then g else SetExit(g, id, ByExpiry, Settled)
    case ChunkLookup(id, node, usage) =>
      if id !in g.pending || id !in g.tracks || g.tracks[id].job.node != node then g else
      Put(g, id, g.tracks[id].(writers := g.tracks[id].writers + [usage]))
    case ChunkWrite(id, i) =>
      if id !in g.tracks || i >= |g.tracks[id].writers| then g else
      var t := g.tracks[id];
      Put(g, id, t.(lastUsage := t.writers[i], writers := t.writers[..i] + t.writers[i + 1..]))
  }

  /** The state after a run that starts with no jobs. */
  function Exec(es: seq<Event>): Gate {
    if es == [] then EMPTY_GATE else Step(Exec(es[..|es| - 1]), es[|es| - 1])
  }

  lemma ExecAppend(es: seq<Event>, e: Event)
    ensures Exec(es + [e]) == Step(Exec(es), e)
  {
    assert (es + [e])[..|es + [e]| - 1] == es;
  }

  // ---------- what every step keeps ----------

  predicate StageFits(t: Track)
    requires t.exit.Left?
  {
    match t.exit.winner
    case BySend => (t.exit.stage.Removed? && t.pc.Dropped?) || (t.exit.stage.Released? && t.pc.GaveUp?)
    case ByReject => t.exit.stage.Closed? || t.exit.stage.Released?
    case ByDone => true
    case ByExpiry => t.exit.stage.Closed? || t.exit.stage.Released? || t.exit.stage.Settled?
  }

  predicate Inserted(t: Track) {
    t.pc.Sending? || t.pc.SendFailed? || t.pc.Returned? || t.pc.Dropped? || t.pc.GaveUp?
  }

  /** The winner of a job closes its DoneCh, unless the winner is the Send error. */
  predicate ClosedBy(t: Track) {
    t.exit.Left? && !t.exit.winner.BySend? && t.exit != Left(ByDone, Removed)
  }

  predicate TrackOk(g: Gate, id: JobId, t: Track) {
    && (id in g.pending <==> t.exit.Inside? && Inserted(t))
    && (t.exit.Inside? ==> !t.pc.Dropped? && !t.pc.GaveUp?)
    && (t.exit.Left? ==> Inserted(t) && StageFits(t))
    && (t.doneClosed <==> ClosedBy(t))
  }

  ghost predicate Inv(g: Gate) {
    && g.pending <= g.tracks.Keys
    && (forall id | id in g.tracks :: TrackOk(g, id, g.tracks[id]))
    && (forall k | k in g.userJobs :: 0 < g.userJobs[k] <= MAX_CONCURRENT_PER_USER)
  }

  /** The events of AssignJob. */
  predicate Assigning(e: Event) {
    e.Assign? || e.Lookup? || e.ReleaseNoNode? || e.Insert? || e.SendReturn? || e.DropAfterSend? || e.ReleaseAfterSend?
  }

  /** The events of the handlers that take a job out of pendingJobs. */
  predicate Exiting(e: Event) {
    !Assigning(e) && !e.ChunkLookup? && !e.ChunkWrite?
  }

  predicate AfterInsert(e: Event) {
    e.SendReturn? || e.DropAfterSend? || e.ReleaseAfterSend?
  }

  lemma InsertingKeepsTrack(g: Gate, e: Event, id: JobId)
    requires Assigning(e) && !AfterInsert(e) && id in Step(g, e).tracks
    requires id in g.tracks ==> TrackOk(g, id, g.tracks[id])
    requires id in g.pending ==> id in g.tracks
    ensures TrackOk(Step(g, e), id, Step(g, e).tracks[id])
  {
  }

  lemma SendingKeepsTrack(g: Gate, e: Event, id: JobId)
    requires AfterInsert(e) && id in Step(g, e).tracks
    requires id in g.tracks ==> TrackOk(g, id, g.tracks[id])
    requires id in g.pending ==> id in g.tracks
    ensures TrackOk(Step(g, e), id, Step(g, e).tracks[id])
  {
  }

  lemma AssigningKeepsTrack(g: Gate, e: Event, id: JobId)
    requires Assigning(e) && id in Step(g, e).tracks
    requires id in g.tracks ==> TrackOk(g, id, g.tracks[id])
    requires id in g.pending ==> id in g.tracks
    ensures TrackOk(Step(g, e), id, Step(g, e).tracks[id])
  {
    if AfterInsert(e) {
      SendingKeepsTrack(g, e, id);
    } else {
      InsertingKeepsTrack(g, e, id);
    }
  }

  lemma ExitingKeepsTrack(g: Gate, e: Event, id: JobId)
    requires Exiting(e) && id in g.tracks && id in Step(g, e).tracks && TrackOk(g, id, g.tracks[id])
    ensures TrackOk(Step(g, e), id, Step(g, e).tracks[id])
  {
  }

  lemma ChunkKeepsTrack(g: Gate, e: Event, id: JobId)
    requires !Assigning(e) && !Exiting(e) && id in g.tracks && id in Step(g, e).tracks && TrackOk(g, id, g.tracks[id])
    ensures TrackOk(Step(g, e), id, Step(g, e).tracks[id])
  {
  }

  lemma OnlyAssignAdds(g: Gate, e: Event, id: JobId)
    requires id in Step(g, e).tracks && id !in g.tracks
    ensures e.Assign? && e.id == id
  {
  }

  lemma StepKeepsTrack(g: Gate, e: Event, id: JobId)
    requires Inv(g) && id in Step(g, e).tracks
    ensures TrackOk(Step(g, e), id, Step(g, e).tracks[id])
  {
    if Assigning(e) {
      AssigningKeepsTrack(g, e, id);
    } else {
      if id !in g.tracks {
        OnlyAssignAdds(g, e, id);
      }
      if Exiting(e) {
        ExitingKeepsTrack(g, e, id);
      } else {
        ChunkKeepsTrack(g, e, id);
      }
    }
  }

  lemma StepKeepsCounters(g: Gate, e: Event)
    requires Inv(g)
    ensures forall k | k in Step(g, e).userJobs :: 0 < Step(g, e).userJobs[k] <= MAX_CONCURRENT_PER_USER
  {
  }

  lemma StepKeepsInv(g: Gate, e: Event)
    requires Inv(g)
    ensures Inv(Step(g, e))
  {
    var g' := Step(g, e);
    TracksGrow(g, e);
    StepKeepsCounters(g, e);
    forall id | id in g'.tracks ensures TrackOk(g', id, g'.tracks[id]) {
      StepKeepsTrack(g, e, id);
    }
    assert g'.pending <= g'.tracks.Keys;
  }

  lemma {:induction false} ReachableInv(es: seq<Event>)
    ensures Inv(Exec(es))
  {
    if es != [] {
      ReachableInv(es[..|es| - 1]);
      StepKeepsInv(Exec(es[..|es| - 1]), es[|es| - 1]);
    }
  }

  // ---------- exactly one exit wins ----------

  /** This step takes the job out of pendingJobs. */
  predicate Leaves(g: Gate, e: Event, id: JobId) {
    id in g.pending && id !in Step(g, e).pending
  }

  /** This step executes close(job.DoneCh); on a closed channel that would panic. */
  predicate Closes(g: Gate, e: Event, id: JobId) {
    match e
    case Reject(j) => j == id && id in g.pending
    case CloseDone(j) => j == id && ExitAt(g, id, ByDone, Removed)
    case Expire(cutoff) => Expires(g, id, cutoff)
    case _ => false
  }

  function LeaveCount(es: seq<Event>, id: JobId): nat {
    if es == [] then 0 else
    var n := |es| - 1;
    LeaveCount(es[..n], id) + if Leaves(Exec(es[..n]), es[n], id) then 1 else 0
  }

  function CloseCount(es: seq<Event>, id: JobId): nat {
    if es == [] then 0 else
    var n := |es| - 1;
    CloseCount(es[..n], id) + if Closes(Exec(es[..n]), es[n], id) then 1 else 0
  }

  function OnlyIf(b: bool): nat {
    if b then 1 else 0
  }

  /** How one step may change what is recorded about a job's exit. */
  predicate ExitMoves(g: Gate, e: Event, id: JobId)
    requires id in Step(g, e).tracks
  {
    var t' := Step(g, e).tracks[id];
    if id !in g.tracks then
      t'.exit.Inside? && !t'.doneClosed && !Leaves(g, e, id) && !Closes(g, e, id)
    else
      var t := g.tracks[id];
      && OnlyIf(t'.exit.Left?) == OnlyIf(t.exit.Left?) + OnlyIf(Leaves(g, e, id))
      && OnlyIf(t'.doneClosed) == OnlyIf(t.doneClosed) + OnlyIf(Closes(g, e, id))
      && (t.exit.Left? ==> t'.exit.Left? && t'.exit.winner == t.exit.winner)
      && t'.job == t.job
  }

  lemma AssigningExits(g: Gate, e: Event, id: JobId)
    requires Assigning(e) && id in Step(g, e).tracks
    requires id in g.tracks ==> TrackOk(g, id, g.tracks[id])
    requires id in g.pending ==> id in g.tracks
    ensures ExitMoves(g, e, id)
  {
    if e.DropAfterSend? {
      TracksGrow(g, e);
      if id !in g.tracks {
        OnlyAssignAdds(g, e, id);
      }
      DropExits(g, e.id, id);
    }
  }

  lemma DropExits(g: Gate, dropped: JobId, id: JobId)
    requires id in g.tracks && TrackOk(g, id, g.tracks[id])
    ensures id in Step(g, DropAfterSend(dropped)).tracks && ExitMoves(g, DropAfterSend(dropped), id)
  {
  }

  lemma ExitingExits(g: Gate, e: Event, id: JobId)
    requires Exiting(e) && id in g.tracks && id in Step(g, e).tracks && TrackOk(g, id, g.tracks[id])
    ensures ExitMoves(g, e, id)
  {
  }

  lemma StepExits(g: Gate, e: Event, id: JobId)
    requires Inv(g) && id in Step(g, e).tracks
    ensures ExitMoves(g, e, id)
  {
    if Assigning(e) {
      AssigningExits(g, e, id);
    } else {
      if id !in g.tracks {
        OnlyAssignAdds(g, e, id);
      }
      if Exiting(e) {
        ExitingExits(g, e, id);
      }
    }
  }

  lemma TracksGrow(g: Gate, e: Event)
    ensures g.tracks.Keys <= Step(g, e).tracks.Keys
  {
  }

  /** In every run, the number of times a job left pendingJobs and the number of
      times its DoneCh was closed are exactly what its final record says: at most
      one each, and no close at all when the Send error won. */
  lemma {:induction false} ExactlyOneExit(es: seq<Event>, id: JobId)
    ensures var g := Exec(es);
            && (id !in g.tracks ==> LeaveCount(es, id) == 0 && CloseCount(es, id) == 0)
            && (id in g.tracks ==>
                  && LeaveCount(es, id) == OnlyIf(g.tracks[id].exit.Left?)
                  && CloseCount(es, id) == OnlyIf(g.tracks[id].doneClosed)
                  && CloseCount(es, id) <= LeaveCount(es, id)
                  && (g.tracks[id].exit.Left? && g.tracks[id].exit.winner.BySend? ==> CloseCount(es, id) == 0))
  {
    ReachableInv(es);
    if es != [] {
      var n := |es| - 1;
      var g := Exec(es[..n]);
      ReachableInv(es[..n]);
      ExactlyOneExit(es[..n], id);
      TracksGrow(g, es[n]);
      if id in Step(g, es[n]).tracks {
        StepExits(g, es[n], id);
      }
    }
  }

  /** No run closes a closed channel: every close step finds DoneCh open. */
  lemma NoDoubleClose(es: seq<Event>, e: Event, id: JobId)
    requires Closes(Exec(es), e, id)
    ensures id in Exec(es).tracks && !Exec(es).tracks[id].doneClosed
  {
    ReachableInv(es);
  }

  /** A buyer that was given the channels is not left waiting: its job is still
      pending, or its DoneCh is closed, or the goroutine that took the job for
      proxy_done is just about to close it. */
  lemma BuyerNotStranded(es: seq<Event>, id: JobId)
    requires InState(Exec(es), id, Returned)
    ensures id in Exec(es).pending || Exec(es).tracks[id].doneClosed
         || (ExitAt(Exec(es), id, ByDone, Removed) && Step(Exec(es), CloseDone(id)).tracks[id].doneClosed)
  {
    ReachableInv(es);
  }

  // ---------- only the assigned node reports usage ----------

  predicate ReportedBy(es: seq<Event>, id: JobId, node: NodeId, usage: Usage) {
    exists i :: 0 <= i < |es| && es[i] == ChunkLookup(id, node, usage)
  }

  predicate UsageFromOwner(es: seq<Event>, id: JobId, t: Track) {
    && (t.lastUsage == NO_USAGE || ReportedBy(es, id, t.job.node, t.lastUsage))
    && forall u | u in t.writers :: ReportedBy(es, id, t.job.node, u)
  }

  lemma ReportedStays(es: seq<Event>, e: Event, id: JobId, node: NodeId, usage: Usage)
    requires ReportedBy(es, id, node, usage)
    ensures ReportedBy(es + [e], id, node, usage)
  {
    var i :| 0 <= i < |es| && es[i] == ChunkLookup(id, node, usage);
    assert (es + [e])[i] == es[i];
  }

  /** Whatever usage a job is billed on was reported, for that job, by the node
      the job was assigned to; without such a report it is billed on nothing. */
  lemma {:induction false} BilledUsageIsOwners(es: seq<Event>, id: JobId)
    requires id in Exec(es).tracks
    ensures UsageFromOwner(es, id, Exec(es).tracks[id])
  {
    var n := |es| - 1;
    var es', e := es[..n], es[n];
    assert es == es' + [e];
    var g := Exec(es');
    if id in g.tracks {
      BilledUsageIsOwners(es', id);
      ReachableInv(es');
      StepExits(g, e, id);
      StepWrites(g, e, id);
      UsageCarries(es', e, id, g.tracks[id], Exec(es).tracks[id]);
    }
  }

  lemma UsageCarries(es: seq<Event>, e: Event, id: JobId, t: Track, t': Track)
    requires UsageFromOwner(es, id, t) && t'.job == t.job
    requires t'.lastUsage == t.lastUsage || t'.lastUsage in t.writers
    requires forall u | u in t'.writers :: u in t.writers || e == ChunkLookup(id, t.job.node, u)
    ensures UsageFromOwner(es + [e], id, t')
  {
    if t'.lastUsage != NO_USAGE {
      ReportedStays(es, e, id, t.job.node, t'.lastUsage);
    }
    forall u | u in t'.writers ensures ReportedBy(es + [e], id, t.job.node, u) {
      if u in t.writers {
        ReportedStays(es, e, id, t.job.node, u);
      } else {
        assert (es + [e])[|es|] == ChunkLookup(id, t.job.node, u);
      }
    }
  }

  /** A step brings in no usage except the one its own node's chunk carries. */
  lemma StepWrites(g: Gate, e: Event, id: JobId)
    requires id in g.tracks && id in Step(g, e).tracks
    ensures var t, t' := g.tracks[id], Step(g, e).tracks[id];
            && (t'.lastUsage == t.lastUsage || t'.lastUsage in t.writers)
            && forall u | u in t'.writers :: u in t.writers || e == ChunkLookup(id, t.job.node, u)
  {
  }

  // ---------- only the assigned node finishes a job ----------

  predicate DoneReported(es: seq<Event>, id: JobId, node: NodeId) {
    exists i :: 0 <= i < |es| && es[i] == TakeDone(id, node)
  }

  predicate WonByDone(g: Gate, id: JobId) {
    id in g.tracks && g.tracks[id].exit.Left? && g.tracks[id].exit.winner.ByDone?
  }

  lemma DoneStep(g: Gate, e: Event, id: JobId)
    requires Inv(g) && WonByDone(Step(g, e), id)
    ensures id in g.tracks && Step(g, e).tracks[id].job == g.tracks[id].job
    ensures WonByDone(g, id) || e == TakeDone(id, g.tracks[id].job.node)
  {
    if id !in g.tracks {
      OnlyAssignAdds(g, e, id);
    } else {
      StepExits(g, e, id);
      DoneComesFromTake(g, e, id);
    }
  }

  lemma DoneComesFromTake(g: Gate, e: Event, id: JobId)
    requires id in g.tracks && TrackOk(g, id, g.tracks[id]) && WonByDone(Step(g, e), id)
    ensures WonByDone(g, id) || e == TakeDone(id, g.tracks[id].job.node)
  {
  }

  /** A job that proxy_done won was reported done by the node it is assigned to. */
  lemma {:induction false} DoneIsOwners(es: seq<Event>, id: JobId)
    requires WonByDone(Exec(es), id)
    ensures DoneReported(es, id, Exec(es).tracks[id].job.node)
  {
    var n := |es| - 1;
    var g, e := Exec(es[..n]), es[n];
    ReachableInv(es[..n]);
    DoneStep(g, e, id);
    if WonByDone(g, id) {
      DoneIsOwners(es[..n], id);
      var i :| 0 <= i < n && es[..n][i] == TakeDone(id, g.tracks[id].job.node);
      assert es[i] == es[..n][i];
    }
  }
}
