/** The per-user slot counter against the slots that are really in use.  The
    Send-failure path of AssignJob gives a slot back even when another exit has
    already given it back; this module says exactly what that costs. */
module JobSlots {
  import opened Names
  import opened JobGate

  /** The job occupies a slot: its AssignJob call counted it, and neither the
      goroutine that removed it nor the node lookup has given it back. */
  predicate Holds(t: Track) {
    match t.exit
    case Inside => !t.pc.Refused?
    case Left(_, stage) => stage.Removed? || stage.Closed?
  }

  function Holders(g: Gate, key: Key): set<JobId> {
    set id | id in g.tracks && g.tracks[id].job.key == key && Holds(g.tracks[id])
  }

  function Held(g: Gate, key: Key): nat {
    |Holders(g, key)|
  }

  /** The Send-failure path decrements the user's positive counter for a job that
      another exit removed. */
  predicate Phantom(g: Gate, e: Event, key: Key) {
    && e.ReleaseAfterSend? && InState(g, e.id, Dropped)
    && g.tracks[e.id].job.key == key
    && g.tracks[e.id].exit.Left? && !g.tracks[e.id].exit.winner.BySend?
    && Count(g.userJobs, key) > 0
  }

  function PhantomCount(es: seq<Event>, key: Key): nat {
    if es == [] then 0 else
    var n := |es| - 1;
    PhantomCount(es[..n], key) + OnlyIf(Phantom(Exec(es[..n]), es[n], key))
  }

  // ---------- one step ----------

  predicate Takes(g: Gate, e: Event, key: Key) {
    e.Assign? && e.id !in g.tracks && e.job.key == key && Count(g.userJobs, key) < MAX_CONCURRENT_PER_USER
  }

  /** The rightful release of the slot of e's job. */
  predicate GivesBack(g: Gate, e: Event, key: Key) {
    && !e.Expire? && e.id in g.tracks && g.tracks[e.id].job.key == key
    && match e
       case ReleaseNoNode(id) => InState(g, id, NoNode)
       case ReleaseAfterSend(id) => InState(g, id, Dropped) && ExitAt(g, id, BySend, Removed)
       case ReleaseRejected(id) => ExitAt(g, id, ByReject, Closed)
       case ReleaseDone(id) => ExitAt(g, id, ByDone, Closed)
       case ReleaseExpired(id) => ExitAt(g, id, ByExpiry, Closed)
       case _ => false
  }

  lemma StepHolders(g: Gate, e: Event, key: Key)
    requires Inv(g)
    ensures Holders(Step(g, e), key)
         == if Takes(g, e, key) then Holders(g, key) + {e.id}
            else if GivesBack(g, e, key) then Holders(g, key) - {e.id}
            else Holders(g, key)
    ensures Takes(g, e, key) ==> e.id !in Holders(g, key)
    ensures GivesBack(g, e, key) ==> e.id in Holders(g, key)
  {
    var h, h' := Holders(g, key), Holders(Step(g, e), key);
    var expected := if Takes(g, e, key) then h + {e.id} else if GivesBack(g, e, key) then h - {e.id} else h;
    forall id ensures id in h' <==> id in expected {
      StepHolder(g, e, key, id);
    }
    if !e.Expire? {
      StepHolder(g, e, key, e.id);
    }
  }

  predicate HolderMoves(g: Gate, e: Event, key: Key, id: JobId) {
    id in Holders(Step(g, e), key) <==>
      (Takes(g, e, key) && id == e.id) || (id in Holders(g, key) && !(GivesBack(g, e, key) && id == e.id))
  }

  lemma StepHolder(g: Gate, e: Event, key: Key, id: JobId)
    requires Inv(g)
    ensures HolderMoves(g, e, key, id)
    ensures Takes(g, e, key) && id == e.id ==> id !in Holders(g, key)
    ensures GivesBack(g, e, key) && id == e.id ==> id in Holders(g, key)
  {
    if id in g.tracks {
      assert TrackOk(g, id, g.tracks[id]);
    }
    if !e.Expire? && e.id == id {
      OwnHolder(g, e, key);
    } else {
      OtherHolder(g, e, key, id);
    }
  }

  lemma OtherTrackStays(g: Gate, e: Event, id: JobId)
    requires !e.Expire? && e.id != id
    ensures id in Step(g, e).tracks <==> id in g.tracks
    ensures id in g.tracks ==> Step(g, e).tracks[id] == g.tracks[id]
  {
  }

  lemma ExpireKeepsHolder(g: Gate, cutoff: int, key: Key, id: JobId)
    requires Inv(g)
    ensures id in Holders(Step(g, Expire(cutoff)), key) <==> id in Holders(g, key)
  {
    if id in g.tracks {
      assert TrackOk(g, id, g.tracks[id]);
    }
  }

  lemma OtherHolder(g: Gate, e: Event, key: Key, id: JobId)
    requires Inv(g) && (e.Expire? || e.id != id)
    ensures id in Holders(Step(g, e), key) <==> id in Holders(g, key)
  {
    if e.Expire? {
      ExpireKeepsHolder(g, e.cutoff, key, id);
    } else {
      OtherTrackStays(g, e, id);
    }
  }

  lemma OwnHolder(g: Gate, e: Event, key: Key)
    requires !e.Expire?
    requires e.id in g.tracks ==> TrackOk(g, e.id, g.tracks[e.id])
    ensures HolderMoves(g, e, key, e.id)
    ensures Takes(g, e, key) ==> e.id !in Holders(g, key)
    ensures GivesBack(g, e, key) ==> e.id in Holders(g, key)
  {
    if Assigning(e) {
      OwnHolderAssigning(g, e, key);
    } else {
      OwnHolderExiting(g, e, key);
    }
  }

  lemma OwnHolderAssigning(g: Gate, e: Event, key: Key)
    requires Assigning(e)
    requires e.id in g.tracks ==> TrackOk(g, e.id, g.tracks[e.id])
    ensures HolderMoves(g, e, key, e.id)
    ensures GivesBack(g, e, key) ==> e.id in Holders(g, key)
  {
  }

  lemma OwnHolderExiting(g: Gate, e: Event, key: Key)
    requires !Assigning(e) && !e.Expire?
    requires e.id in g.tracks ==> TrackOk(g, e.id, g.tracks[e.id])
    ensures HolderMoves(g, e, key, e.id)
    ensures GivesBack(g, e, key) ==> e.id in Holders(g, key)
  {
  }

  /** The counter moves up with Takes, and down with GivesBack and Phantom. */
  lemma StepCount(g: Gate, e: Event, key: Key)
    requires Inv(g)
    ensures var c := Count(g.userJobs, key);
            && Count(Step(g, e).userJobs, key)
            == if Takes(g, e, key) then c + 1
            else if (GivesBack(g, e, key) && c > 0) || Phantom(g, e, key) then c - 1
            else c
    ensures !(GivesBack(g, e, key) && Phantom(g, e, key))
  {
    if e.ReleaseAfterSend? && e.id in g.tracks {
      assert TrackOk(g, e.id, g.tracks[e.id]);
    }
  }

  lemma StepHeld(g: Gate, e: Event, key: Key)
    requires Inv(g)
    ensures Held(Step(g, e), key)
         == Held(g, key) + OnlyIf(Takes(g, e, key)) - OnlyIf(GivesBack(g, e, key))
    ensures GivesBack(g, e, key) ==> Held(g, key) > 0
  {
    StepHolders(g, e, key);
    var h := Holders(g, key);
    if GivesBack(g, e, key) {
      assert h == (h - {e.id}) + {e.id};
    }
  }

  // ---------- every run ----------

  /** In every run the counter never exceeds the slots in use, stays within the
      limit, and falls short by at most the number of phantom releases: a user
      never holds more than 3 slots plus one per phantom release. */
  lemma {:induction false} HeldBound(es: seq<Event>, key: Key)
    ensures Count(Exec(es).userJobs, key) <= MAX_CONCURRENT_PER_USER
    ensures Count(Exec(es).userJobs, key) <= Held(Exec(es), key)
         <= Count(Exec(es).userJobs, key) + PhantomCount(es, key)
  {
    ReachableInv(es);
    if es == [] {
      assert Holders(EMPTY_GATE, key) == {};
    } else {
      var n := |es| - 1;
      HeldBound(es[..n], key);
      ReachableInv(es[..n]);
      StepCount(Exec(es[..n]), es[n], key);
      StepHeld(Exec(es[..n]), es[n], key);
    }
  }

  predicate Exact(es: seq<Event>, key: Key) {
    Count(Exec(es).userJobs, key) == Held(Exec(es), key)
  }

  predicate PhantomAt(es: seq<Event>, key: Key, i: nat)
    requires i < |es|
  {
    Phantom(Exec(es[..i]), es[i], key)
  }

  predicate PhantomFree(es: seq<Event>, key: Key) {
    forall i | 0 <= i < |es| :: !PhantomAt(es, key, i)
  }

  predicate ExactThroughout(es: seq<Event>, key: Key) {
    forall i | 0 <= i <= |es| :: Exact(es[..i], key)
  }

  /** The counter equals the slots in use at every point of a run exactly when no
      step of the run is a phantom release for that user. */
  lemma {:induction false} ExactIffNoPhantom(es: seq<Event>, key: Key)
    ensures ExactThroughout(es, key) <==> PhantomFree(es, key)
  {
    if es == [] {
      assert es[..0] == [];
      assert Holders(EMPTY_GATE, key) == {};
    } else {
      var n := |es| - 1;
      ExactIffNoPhantom(es[..n], key);
      ThroughoutSplit(es, key);
      PhantomSplit(es, key);
      if ExactThroughout(es[..n], key) {
        assert es[..n][..n] == es[..n];
        ExactStep(es, key);
      }
    }
  }

  lemma ThroughoutSplit(es: seq<Event>, key: Key)
    requires es != []
    ensures ExactThroughout(es, key) <==> ExactThroughout(es[..|es| - 1], key) && Exact(es, key)
  {
    var n := |es| - 1;
    assert es[..|es|] == es;
    forall i | 0 <= i <= n ensures es[..n][..i] == es[..i] {
    }
  }

  lemma PhantomSplit(es: seq<Event>, key: Key)
    requires es != []
    ensures PhantomFree(es, key) <==> PhantomFree(es[..|es| - 1], key) && !PhantomAt(es, key, |es| - 1)
  {
    var n := |es| - 1;
    forall i | 0 <= i < n ensures PhantomAt(es[..n], key, i) == PhantomAt(es, key, i) {
      assert es[..n][..i] == es[..i];
    }
  }

  lemma ExactStep(es: seq<Event>, key: Key)
    requires es != [] && Exact(es[..|es| - 1], key)
    ensures Exact(es, key) <==> !PhantomAt(es, key, |es| - 1)
  {
    var n := |es| - 1;
    ReachableInv(es[..n]);
    StepCount(Exec(es[..n]), es[n], key);
    StepHeld(Exec(es[..n]), es[n], key);
  }

  // ---------- when the limit of 3 is kept ----------

  /** Further requests of the key, as AssignJob counts them. */
  predicate AssignsOf(more: seq<Event>, key: Key) {
    forall e | e in more :: e.Assign? && e.job.key == key
  }

  predicate LimitKept(es: seq<Event>, key: Key) {
    Held(Exec(es), key) <= MAX_CONCURRENT_PER_USER
  }

  /** The limit holds at every point of the run, and however many requests of the
      key arrive at that point. */
  ghost predicate LimitSafe(es: seq<Event>, key: Key) {
    forall i, more | 0 <= i <= |es| && AssignsOf(more, key) :: LimitKept(es[..i] + more, key)
  }

  lemma PhantomFreePrefix(es: seq<Event>, key: Key, n: nat)
    requires n <= |es| && PhantomFree(es, key)
    ensures PhantomFree(es[..n], key)
  {
    forall i | 0 <= i < n ensures !PhantomAt(es[..n], key, i) {
      assert es[..n][..i] == es[..i];
      assert !PhantomAt(es, key, i);
    }
  }

  lemma {:induction false} AssignsStayPhantomFree(es: seq<Event>, more: seq<Event>, key: Key)
    requires PhantomFree(es, key) && AssignsOf(more, key)
    ensures PhantomFree(es + more, key)
  {
    if more == [] {
      assert es + more == es;
    } else {
      var n := |more| - 1;
      AssignsStayPhantomFree(es, more[..n], key);
      var all := es + more;
      assert all[..|all| - 1] == es + more[..n];
      assert more[n] in more;
      PhantomSplit(all, key);
    }
  }

  lemma ExactWithinLimit(es: seq<Event>, key: Key)
    requires PhantomFree(es, key)
    ensures LimitKept(es, key)
  {
    ExactIffNoPhantom(es, key);
    assert es[..|es|] == es && Exact(es[..|es|], key);
    HeldBound(es, key);
  }

  lemma {:induction false} LongerThanAll(ids: set<JobId>) returns (id: JobId)
    ensures forall x | x in ids :: |x| < |id|
  {
    if ids == {} {
      id := "";
    } else {
      var x :| x in ids;
      var rest := LongerThanAll(ids - {x});
      id := rest + x + "0";
      assert forall y | y in ids :: y == x || y in ids - {x};
    }
  }

  /** An id no job has used yet. */
  lemma FreshId(g: Gate) returns (id: JobId)
    ensures id !in g.tracks
  {
    id := LongerThanAll(g.tracks.Keys);
  }

  /** With a free place in the counter, one more request raises both numbers. */
  lemma OneMoreHeld(es: seq<Event>, key: Key) returns (e: Event)
    requires Count(Exec(es).userJobs, key) < MAX_CONCURRENT_PER_USER
    ensures e.Assign? && e.job.key == key
    ensures Count(Exec(es + [e]).userJobs, key) == Count(Exec(es).userJobs, key) + 1
    ensures Held(Exec(es + [e]), key) == Held(Exec(es), key) + 1
  {
    var g := Exec(es);
    var id := FreshId(g);
    e := Assign(id, Job("", key, "", false));
    ReachableInv(es);
    StepCount(g, e, key);
    StepHeld(g, e, key);
    ExecAppend(es, e);
  }

  /** Requests that fill the counter up keep the distance between the two numbers. */
  lemma {:induction false} FillUp(es: seq<Event>, key: Key) returns (more: seq<Event>)
    requires Count(Exec(es).userJobs, key) <= MAX_CONCURRENT_PER_USER
    ensures AssignsOf(more, key)
    ensures Held(Exec(es + more), key)
         == MAX_CONCURRENT_PER_USER + Held(Exec(es), key) - Count(Exec(es).userJobs, key)
    decreases MAX_CONCURRENT_PER_USER - Count(Exec(es).userJobs, key)
  {
    if Count(Exec(es).userJobs, key) == MAX_CONCURRENT_PER_USER {
      more := [];
      assert es + more == es;
    } else {
      var e := OneMoreHeld(es, key);
      var rest := FillUp(es + [e], key);
      more := [e] + rest;
      assert es + [e] + rest == es + more;
    }
  }

  /** A phantom release after an exact run opens a fourth slot. */
  lemma PhantomOpensSlot(es: seq<Event>, key: Key) returns (more: seq<Event>)
    requires es != [] && PhantomFree(es[..|es| - 1], key) && PhantomAt(es, key, |es| - 1)
    ensures AssignsOf(more, key) && !LimitKept(es + more, key)
  {
    var front := es[..|es| - 1];
    ExactIffNoPhantom(front, key);
    assert front[..|front|] == front && Exact(front[..|front|], key);
    ExactStep(es, key);
    HeldBound(es, key);
    more := FillUp(es, key);
  }

  lemma {:induction false} FirstPhantom(es: seq<Event>, key: Key) returns (n: nat)
    requires !PhantomFree(es, key)
    ensures n < |es| && PhantomFree(es[..n], key) && PhantomAt(es, key, n)
  {
    n := |es| - 1;
    PhantomSplit(es, key);
    if !PhantomFree(es[..n], key) {
      var front := es[..n];
      n := FirstPhantom(front, key);
      assert front[..n] == es[..n];
    }
  }

  /** No user can be brought above 3 slots, at any point of a run and by any number
      of further requests, exactly when the run has no phantom release for them. */
  lemma LimitIffNoPhantom(es: seq<Event>, key: Key)
    ensures LimitSafe(es, key) <==> PhantomFree(es, key)
  {
    if PhantomFree(es, key) {
      forall i, more | 0 <= i <= |es| && AssignsOf(more, key) ensures LimitKept(es[..i] + more, key) {
        PhantomFreePrefix(es, key, i);
        AssignsStayPhantomFree(es[..i], more, key);
        ExactWithinLimit(es[..i] + more, key);
      }
    } else {
      var n := FirstPhantom(es, key);
      var upTo := es[..n + 1];
      assert upTo[..n] == es[..n];
      var more := PhantomOpensSlot(upTo, key);
      assert !LimitKept(es[..n + 1] + more, key);
    }
  }

  /** As the Send error of es[i] is handled, its job is still pending. */
  predicate StillPending(es: seq<Event>, i: nat)
    requires i < |es|
  {
    es[i].DropAfterSend? && InState(Exec(es[..i]), es[i].id, SendFailed) ==> es[i].id in Exec(es[..i]).pending
  }

  /** When every job whose Send failed is still pending as its error is handled,
      no release is a phantom one, so the counter is exact and no user ever holds
      more than 3 slots. */
  lemma PendingSendErrorsAreExact(es: seq<Event>, key: Key)
    requires forall i | 0 <= i < |es| :: StillPending(es, i)
    ensures Exact(es, key) && Held(Exec(es), key) <= MAX_CONCURRENT_PER_USER
  {
    forall i | 0 <= i < |es| ensures !PhantomAt(es, key, i) {
      StillPendingPrefix(es, i);
      if es[i].ReleaseAfterSend? {
        DroppedBySend(es[..i], es[i].id);
      }
    }
    ExactIffNoPhantom(es, key);
    assert es[..|es|] == es;
    HeldBound(es, key);
  }

  lemma StillPendingPrefix(es: seq<Event>, n: nat)
    requires n <= |es| && forall i | 0 <= i < |es| :: StillPending(es, i)
    ensures forall i | 0 <= i < n :: StillPending(es[..n], i)
  {
    forall i | 0 <= i < n ensures StillPending(es[..n], i) {
      assert es[..n][..i] == es[..i];
      assert StillPending(es, i);
    }
  }

  lemma {:induction false} DroppedBySend(es: seq<Event>, id: JobId)
    requires forall i | 0 <= i < |es| :: StillPending(es, i)
    ensures InState(Exec(es), id, Dropped) ==> Exec(es).tracks[id].exit == Left(BySend, Removed)
  {
    if es != [] {
      var n := |es| - 1;
      StillPendingPrefix(es, n);
      DroppedBySend(es[..n], id);
      ReachableInv(es[..n]);
      assert StillPending(es, n);
      DroppedStep(Exec(es[..n]), es[n], id);
    }
  }

  lemma DroppedStep(g: Gate, e: Event, id: JobId)
    requires Inv(g)
    requires InState(g, id, Dropped) ==> g.tracks[id].exit == Left(BySend, Removed)
    requires e == DropAfterSend(id) && InState(g, id, SendFailed) ==> id in g.pending
    ensures InState(Step(g, e), id, Dropped) ==> Step(g, e).tracks[id].exit == Left(BySend, Removed)
  {
    if id in g.tracks {
      assert TrackOk(g, id, g.tracks[id]);
    }
  }

  // ---------- the limit of 3 is not kept ----------

  const JOB := Job("n", "u", "m", false)
  const WAITING := Track(JOB, Slotted, Inside, 0, false, NO_USAGE, [])
  const REJECTED := Track(JOB, SendFailed, Left(ByReject, Closed), 0, true, NO_USAGE, [])

  /** The node received job a, whose Send reports an error all the same. */
  const SENT := [Assign("a", JOB), Lookup("a", true), Insert("a", 0), SendReturn("a", false)]
  /** It rejects the job, which gives the slot back. */
  const GIVEN_BACK := SENT + [Reject("a"), ReleaseRejected("a")]
  const REFILLED := GIVEN_BACK + [Assign("b", JOB), Assign("c", JOB), Assign("d", JOB)]
  /** The Send error gives the slot back once more, and a fourth job gets in. */
  const OVERRUN := REFILLED + [DropAfterSend("a"), ReleaseAfterSend("a"), Assign("e", JOB)]

  lemma Exec3(es: seq<Event>, e1: Event, e2: Event, e3: Event)
    ensures Exec(es + [e1, e2, e3]) == Step(Step(Step(Exec(es), e1), e2), e3)
  {
    var es1, es2 := es + [e1], es + [e1] + [e2];
    assert es + [e1, e2, e3] == es2 + [e3];
    ExecAppend(es2, e3);
    ExecAppend(es1, e2);
    ExecAppend(es, e1);
  }

  lemma SentState()
    ensures Exec(SENT) == Gate(map["a" := WAITING.(pc := SendFailed)], {"a"}, map["u" := 1])
  {
    Exec3([], Assign("a", JOB), Lookup("a", true), Insert("a", 0));
    ExecAppend([] + [Assign("a", JOB), Lookup("a", true), Insert("a", 0)], SendReturn("a", false));
    assert SENT == [] + [Assign("a", JOB), Lookup("a", true), Insert("a", 0)] + [SendReturn("a", false)];
  }

  lemma GivenBackState()
    ensures Exec(GIVEN_BACK) == Gate(map["a" := REJECTED.(exit := Left(ByReject, Released))], {}, map[])
  {
    SentState();
    ExecAppend(SENT, Reject("a"));
    var g := Exec(SENT + [Reject("a")]);
    assert g == Gate(map["a" := REJECTED], {}, map["u" := 1]);
    ExecAppend(SENT + [Reject("a")], ReleaseRejected("a"));
    assert GIVEN_BACK == SENT + [Reject("a")] + [ReleaseRejected("a")];
    assert g.userJobs - {"u"} == map[];
  }

  lemma RefilledState()
    ensures Exec(REFILLED) == Gate(
      map["a" := REJECTED.(exit := Left(ByReject, Released)), "b" := WAITING, "c" := WAITING, "d" := WAITING],
      {}, map["u" := 3])
  {
    GivenBackState();
    Exec3(GIVEN_BACK, Assign("b", JOB), Assign("c", JOB), Assign("d", JOB));
  }

  /** Handling a Send error after another exit: one slot of the key is given
      back, whoever holds it. */
  lemma LateSendError(g: Gate, id: JobId)
    requires InState(g, id, SendFailed) && id !in g.pending
    requires g.tracks[id].exit.Left? && !g.tracks[id].exit.winner.BySend?
    ensures Step(Step(g, DropAfterSend(id)), ReleaseAfterSend(id))
         == Gate(g.tracks[id := g.tracks[id].(pc := GaveUp)], g.pending, Decr(g.userJobs, g.tracks[id].job.key))
  {
    var g1 := Step(g, DropAfterSend(id));
    assert g1 == Gate(g.tracks[id := g.tracks[id].(pc := Dropped)], g.pending, g.userJobs);
    var g2 := Step(g1, ReleaseAfterSend(id));
    assert g2.tracks == g1.tracks[id := g.tracks[id].(pc := GaveUp)];
  }

  const GIVEN_UP := REJECTED.(pc := GaveUp, exit := Left(ByReject, Released))
  const LATE := REFILLED + [DropAfterSend("a")] + [ReleaseAfterSend("a")]

  lemma LateState()
    ensures Exec(LATE) == Gate(map["a" := GIVEN_UP, "b" := WAITING, "c" := WAITING, "d" := WAITING], {}, map["u" := 2])
  {
    RefilledState();
    ExecAppend(REFILLED, DropAfterSend("a"));
    ExecAppend(REFILLED + [DropAfterSend("a")], ReleaseAfterSend("a"));
    LateSendError(Exec(REFILLED), "a");
    var users: map<Key, nat> := map["u" := 3];
    assert Decr(users, "u") == map["u" := 2];
  }

  lemma OverrunState()
    ensures Exec(OVERRUN) == Gate(
      map["a" := GIVEN_UP, "b" := WAITING, "c" := WAITING, "d" := WAITING, "e" := WAITING], {}, map["u" := 3])
  {
    LateState();
    ExecAppend(LATE, Assign("e", JOB));
    assert OVERRUN == LATE + [Assign("e", JOB)];
  }

  /** A run without the assumption above: user u holds four slots while the
      counter says three. */
  lemma OverrunHoldsFour()
    ensures Held(Exec(OVERRUN), "u") == 4 > MAX_CONCURRENT_PER_USER
    ensures Count(Exec(OVERRUN).userJobs, "u") == 3
  {
    OverrunState();
    assert Holders(Exec(OVERRUN), "u") == {"b", "c", "d", "e"};
  }
}
