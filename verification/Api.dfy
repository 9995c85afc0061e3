/** The public handlers that move money or take slots, as sequences of checks and
    writes: top-ups, and the way of a chat request from its key to AssignJob. */
module Api {
  import opened Names
  import opened JobGate
  import opened Tables
  import opened Store
  import opened Gateway
  import F = FreeTier
  import L = Ledger
  import R = RateLimiter
  import Router

  datatype TopUpReply =
    | UnknownKey | NotPositive | OutOfRange | Unavailable | NoInvoice | NotStored
    | Invoiced(hash: Hash)

  /** What the Lightning node answers to CreateInvoice. */
  datatype InvoiceAnswer = Failed | Created(hash: Hash)

  datatype Admission = NoSuchKey | FreeTier | Paid | PlaygroundOnly | NoBalance

  datatype ChatReply =
    | Refused(why: Admission) | ModelMissing | NoNode | TooMany | NodeUnavailable
    | Streaming(pending: PendingJob)

  /** The tables as the FreeTier module sees them. */
  function Quotas(accounts: map<Key, Account>): map<Key, int> {
    map k | k in accounts :: accounts[k].quotaDaily
  }

  function Rows(db: Db): map<JobId, F.Request> {
    map id | id in db.jobs :: F.Request(db.jobs[id].job.key, db.jobs[id].job.free, Day(db.jobs[id].startedAt))
  }

  function RemainingOn(db: Db, key: Key, day: int): int
    requires key in db.accounts
  {
    db.accounts[key].quotaDaily - |UsedOn(db.jobs, key, day)|
  }

  /** The quota check on the tables is the one the FreeTier machine makes. */
  lemma FreeIsFree(db: Db, s: F.State, key: Key, day: int, playground: bool)
    requires key in db.accounts && s.rows == Rows(db)
    ensures F.IsFree(Quotas(db.accounts), s, key, day, playground) <==> playground && RemainingOn(db, key, day) > 0
  {
    assert F.Of(s.rows, key, day) == UsedOn(db.jobs, key, day);
  }

  /** Recording a job of the key, free or paid, takes one unit from the quota of the day
      it started on (86,400 seconds from midnight) and leaves every other day whole. */
  lemma JobTakesOneUnit(db: Db, id: JobId, row: JobRow, key: Key, day: int)
    requires key in db.accounts && id !in db.jobs
    ensures RemainingOn(InsertJob(db, id, row), key, day)
         == RemainingOn(db, key, day)
            - if row.job.key == key && 86_400 * day <= row.startedAt < 86_400 * day + 86_400 then 1 else 0
  {
    var before, after := UsedOn(db.jobs, key, day), UsedOn(InsertJob(db, id, row).jobs, key, day);
    assert Day(row.startedAt) == day <==> 86_400 * day <= row.startedAt < 86_400 * day + 86_400;
    if row.job.key == key && Day(row.startedAt) == day {
      assert after == before + {id};
    } else {
      assert after == before;
    }
  }

  /** With no job of the day, all of the quota is left, whatever happened before. */
  lemma NewDayIsWhole(db: Db, key: Key, now: int)
    requires key in db.accounts
    requires forall id | id in db.jobs && db.jobs[id].job.key == key :: db.jobs[id].startedAt / 86_400 < now / 86_400
    ensures RemainingOn(db, key, Day(now)) == db.accounts[key].quotaDaily
  {
    assert UsedOn(db.jobs, key, Day(now)) == {};
  }

  // ---------- registrations ----------

  /** Three registrations an hour for each IP. */
  const REGISTRATIONS := R.Config(3, 3600)
  const FREE_QUOTA_DAILY := 10

  datatype RegisterReply = TooManyRegistrations | BadRequest | NotCreated | Registered

  /** A call of the registration limiter, or one of its cleanups; made says whether a
      call that was let through went on to create a key. */
  datatype Attempt = Attempt(op: R.Op, made: bool)

  function Ops(attempts: seq<Attempt>): seq<R.Op> {
    if attempts == [] then [] else Ops(attempts[..|attempts| - 1]) + [attempts[|attempts| - 1].op]
  }

  predicate Makes(before: seq<Attempt>, a: Attempt, ip: R.Ip) {
    a.made && a.op.Allow? && a.op.ip == ip && R.Admits(REGISTRATIONS, R.Run(REGISTRATIONS, Ops(before)), a.op)
  }

  /** When the keys of the IP were created. */
  function Created(attempts: seq<Attempt>, ip: R.Ip): seq<int> {
    if attempts == [] then [] else
    var front, a := attempts[..|attempts| - 1], attempts[|attempts| - 1];
    Created(front, ip) + if Makes(front, a, ip) then [a.op.stamp] else []
  }

  lemma CountAppend(s: seq<int>, x: int, lo: int, hi: int)
    ensures R.CountIn(s + [x], lo, hi) == R.CountIn(s, lo, hi) + if lo < x <= hi then 1 else 0
  {
    assert (s + [x])[..|s + [x]| - 1] == s;
  }

  lemma CreatedLast(before: seq<Attempt>, a: Attempt, ip: R.Ip, lo: int, hi: int)
    ensures R.CountIn(Created(before + [a], ip), lo, hi)
         == R.CountIn(Created(before, ip), lo, hi) + if Makes(before, a, ip) && lo < a.op.stamp <= hi then 1 else 0
  {
    assert (before + [a])[..|before + [a]| - 1] == before;
    if Makes(before, a, ip) {
      CountAppend(Created(before, ip), a.op.stamp, lo, hi);
    } else {
      assert Created(before, ip) + [] == Created(before, ip);
    }
  }

  predicate LetsIn(ops: seq<R.Op>, op: R.Op, ip: R.Ip) {
    op.Allow? && op.ip == ip && R.Admits(REGISTRATIONS, R.Run(REGISTRATIONS, ops), op)
  }

  lemma GrantedLast(ops: seq<R.Op>, op: R.Op, ip: R.Ip, lo: int, hi: int)
    ensures R.CountIn(R.Granted(REGISTRATIONS, ops + [op], ip), lo, hi)
         == R.CountIn(R.Granted(REGISTRATIONS, ops, ip), lo, hi)
            + if LetsIn(ops, op, ip) && lo < op.stamp <= hi then 1 else 0
  {
    assert (ops + [op])[..|ops + [op]| - 1] == ops;
    if LetsIn(ops, op, ip) {
      CountAppend(R.Granted(REGISTRATIONS, ops, ip), op.stamp, lo, hi);
    } else {
      assert R.Granted(REGISTRATIONS, ops, ip) + [] == R.Granted(REGISTRATIONS, ops, ip);
    }
  }

  lemma OpsLast(before: seq<Attempt>, a: Attempt)
    ensures Ops(before + [a]) == Ops(before) + [a.op]
  {
    assert (before + [a])[..|before + [a]| - 1] == before;
  }

  predicate AtMostGranted(attempts: seq<Attempt>, ip: R.Ip, lo: int, hi: int) {
    R.CountIn(Created(attempts, ip), lo, hi) <= R.CountIn(R.Granted(REGISTRATIONS, Ops(attempts), ip), lo, hi)
  }

  lemma OneMoreAttempt(before: seq<Attempt>, a: Attempt, ip: R.Ip, lo: int, hi: int)
    requires AtMostGranted(before, ip, lo, hi)
    ensures AtMostGranted(before + [a], ip, lo, hi)
  {
    OpsLast(before, a);
    CreatedLast(before, a, ip, lo, hi);
    GrantedLast(Ops(before), a.op, ip, lo, hi);
  }

  lemma {:induction false} CreatedAtMostGranted(attempts: seq<Attempt>, ip: R.Ip, lo: int, hi: int)
    ensures AtMostGranted(attempts, ip, lo, hi)
  {
    if attempts != [] {
      var front, a := attempts[..|attempts| - 1], attempts[|attempts| - 1];
      CreatedAtMostGranted(front, ip, lo, hi);
      OneMoreAttempt(front, a, ip, lo, hi);
      assert attempts == front + [a];
    }
  }

  /** However calls, failures after the limiter, and cleanups follow one another, no
      hour sees more than three keys created from one IP. */
  lemma ThreeKeysAnHour(attempts: seq<Attempt>, ip: R.Ip, end: int)
    requires R.ClocksOk(Ops(attempts))
    requires forall op | op in Ops(attempts) && op.Allow? :: op.clock <= op.stamp
    ensures R.CountIn(Created(attempts, ip), end - 3600, end) <= 3
  {
    CreatedAtMostGranted(attempts, ip, end - 3600, end);
    R.WindowBound(REGISTRATIONS, Ops(attempts), ip, end);
  }

  /** A call is let through exactly when fewer than three of its IP were in the last
      hour. */
  lemma RegistrationLetThroughIff(ops: seq<R.Op>, op: R.Op)
    requires op.Allow? && R.ClocksOk(ops + [op])
    requires forall x | x in ops && x.Allow? :: x.stamp <= op.clock
    ensures R.Admits(REGISTRATIONS, R.Run(REGISTRATIONS, ops), op)
       <==> R.CountIn(R.Granted(REGISTRATIONS, ops, op.ip), op.clock - 3600, op.clock) < 3
  {
    R.LetThroughIff(REGISTRATIONS, ops, op);
  }

  class API {
    const hub: Hub
    const db: DB
    const regLimit: R.WindowLimiter

    constructor (hub: Hub)
      ensures this.hub == hub && db == hub.db
      ensures fresh(regLimit) && regLimit.Valid() && regLimit.config == REGISTRATIONS && regLimit.view == map[]
    {
      this.hub, this.db := hub, hub.db;
      regLimit := new R.WindowLimiter(3, 3600);
    }

    /** The limiter first, then the request, then the key: a key is created, with a
        daily quota of ten and no balance, exactly when the limiter lets the call
        through and nothing after it fails.  stamp is the second clock reading. */
    method HandleRegisterUser(ip: R.Ip, clock: int, stamp: int, decoded: bool, key: Key, io: bool)
      returns (reply: RegisterReply)
      requires regLimit.Valid() && regLimit.config == REGISTRATIONS
      modifies db, regLimit, regLimit.owner.Keys
      ensures regLimit.Valid() && fresh(regLimit.owner.Keys - old(regLimit.owner.Keys))
      ensures regLimit.view == R.Apply(REGISTRATIONS, old(regLimit.view), R.Op.Allow(ip, clock, stamp))
      ensures reply.TooManyRegistrations?
         <==> !R.Admits(REGISTRATIONS, old(regLimit.view), R.Op.Allow(ip, clock, stamp))
      ensures reply.BadRequest? <==> !reply.TooManyRegistrations? && !decoded
      ensures reply.Registered? <==> !reply.TooManyRegistrations? && decoded && io && key !in old(db.accounts)
      ensures db.accounts == if reply.Registered? then old(db.accounts)[key := Account(10, 0)] else old(db.accounts)
      ensures db.View() == if reply.Registered? then InsertAccount(old(db.View()), key, FREE_QUOTA_DAILY)
                           else old(db.View())
    {
      var allowed := regLimit.Allow(ip, clock, stamp);
      if !allowed {
        return TooManyRegistrations;
      }
      if !decoded {
        return BadRequest;
      }
      var created := db.CreateUserKey(key, FREE_QUOTA_DAILY, io);
      reply := if created then Registered else NotCreated;
    }

    /** An invoice is stored exactly when every check passes; the tables change as
        the TopUp step of the ledger machine says, or not at all. */
    method HandleTopUp(key: Key, sats: int, available: bool, answer: InvoiceAnswer, now: int, io: bool,
                    ghost s: L.State)
      returns (reply: TopUpReply)
      requires s.db == db.View()
      modifies db
      ensures reply.Invoiced? <==>
                && key in old(db.accounts) && 10 <= sats <= 100_000
                && available && answer.Created? && io && answer.hash !in old(db.invoices)
      ensures reply.UnknownKey? <==> key !in old(db.accounts)
      ensures reply.NotPositive? <==> key in old(db.accounts) && sats <= 0
      ensures reply.OutOfRange? <==> key in old(db.accounts) && (0 < sats < 10 || sats > 100_000)
      ensures reply.Unavailable? <==> key in old(db.accounts) && 10 <= sats <= 100_000 && !available
      ensures reply.NoInvoice? <==> key in old(db.accounts) && 10 <= sats <= 100_000 && available && answer.Failed?
      ensures db.invoices == if reply.Invoiced?
                             then old(db.invoices)[answer.hash := Invoice(key, 1000 * sats, Pending, now)]
                             else old(db.invoices)
      ensures reply.Invoiced? ==> reply.hash == answer.hash
      ensures db.View() == if answer.Created?
              then L.StepTables(s, L.TopUp(answer.hash, key, sats, now, available && io))
                           else old(db.View())
    {
      var found, _ := db.ValidateUserKey(key, now);
      if !found {
        return UnknownKey;
      }
      if sats <= 0 {
        return NotPositive;
      }
      if sats < L.MIN_TOP_UP_SATS || sats > L.MAX_TOP_UP_SATS {
        return OutOfRange;
      }
      if !available {
        return Unavailable;
      }
      if answer.Failed? {
        return NoInvoice;
      }
      var stored := db.CreateInvoice(answer.hash, key, sats * MSATS_PER_SAT, now, io);
      reply := if stored then Invoiced(answer.hash) else NotStored;
    }

    /** Free from the playground while quota is left; paid with a positive balance;
        refused otherwise, for one of three reasons. */
    method Admit(key: Key, playground: bool, now: int) returns (r: Admission)
      ensures r.NoSuchKey? <==> key !in db.accounts
      ensures key in db.accounts ==>
                && (r.FreeTier? <==> playground && RemainingOn(db.View(), key, Day(now)) > 0)
                && (r.Paid? <==> !r.FreeTier? && db.accounts[key].balance > 0)
                && (r.PlaygroundOnly? <==> !r.Paid? && !playground && RemainingOn(db.View(), key, Day(now)) > 0)
      ensures forall s: F.State | s.rows == Rows(db.View()) ::
                (r.FreeTier? || r.Paid?) <==>
                F.Passes(Quotas(db.accounts), s, key, Day(now), playground,
                         if key in db.accounts then db.accounts[key].balance else 0)
    {
      var found, remaining := db.ValidateUserKey(key, now);
      if !found {
        return NoSuchKey;
      }
      var _, balance := db.UserBalance(key);
      var isFree := playground && remaining > 0;
      r := if isFree then FreeTier
           else if balance > 0 then Paid
           else if remaining > 0 && !playground then PlaygroundOnly
           else NoBalance;
      forall s: F.State | s.rows == Rows(db.View())
        ensures F.Passes(Quotas(db.accounts), s, key, Day(now), playground, balance) <==> isFree || balance > 0
      {
        FreeIsFree(db.View(), s, key, Day(now), playground);
      }
    }

    /** The handler up to the first chunk; infos is the router's snapshot of the
        live nodes, id a fresh job id, sent what Send reports.  A request that is
        refused before AssignJob touches nothing; otherwise AssignJob runs once,
        for a node that lists the model, and the job is free exactly when the
        playground quota admitted it. */
    method HandleChat(key: Key, playground: bool, model: string, infos: seq<Router.NodeInfo>,
                      id: JobId, now: int, sent: bool, ghost g: Gate)
      returns (reply: ChatReply, ghost job: Job)
      requires hub.Shows(g) && id !in g.tracks && g.pending <= g.tracks.Keys
      modifies hub
      ensures hub.Shows(if reply.Refused? || reply.ModelMissing? || reply.NoNode? then g
                        else AssignOutcome(g, id, job, job.node in hub.nodes, now, sent))
      ensures reply.Refused? <==> (key in db.accounts ==>
                !(playground && RemainingOn(db.View(), key, Day(now)) > 0) && db.accounts[key].balance <= 0)
      ensures reply.Refused? ==>
                && !reply.why.FreeTier? && !reply.why.Paid?
                && (reply.why.NoSuchKey? <==> key !in db.accounts)
                && (reply.why.PlaygroundOnly? <==>
                      key in db.accounts && !playground && RemainingOn(db.View(), key, Day(now)) > 0)
      ensures reply.ModelMissing? <==> !reply.Refused? && model == ""
      ensures reply.NoNode? <==> !reply.Refused? && model != "" && forall n | n in infos :: model !in n.models
      ensures hub.pendingJobs == if reply.Streaming? then old(hub.pendingJobs)[id := reply.pending]
                                 else old(hub.pendingJobs)
      ensures reply.TooMany? || reply.NodeUnavailable? || reply.Streaming? ==>
                && model != "" && job.key == key && job.model == model
                && (job.free <==> playground && RemainingOn(db.View(), key, Day(now)) > 0)
                && (exists best :: Router.IsBest(infos, model, best) && job.node == infos[best].nodeId)
                && (reply.TooMany? <==> Count(g.userJobs, key) >= MAX_CONCURRENT_PER_USER)
                && (reply.Streaming? <==> !reply.TooMany? && job.node in hub.nodes && sent)
    {
      job := Job("", key, model, false);
      var admission := Admit(key, playground, now);
      if !admission.FreeTier? && !admission.Paid? {
        return ChatReply.Refused(admission), job;
      }
      if model == "" {
        return ModelMissing, job;
      }
      var route := Router.RouteRequest(infos, model);
      if route.ErrNoNode? {
        return ChatReply.NoNode, job;
      }
      var chosen := Job(route.nodeId, key, model, admission.FreeTier?);
      job := chosen;
      var outcome := hub.AssignJob(id, chosen, now, sent, g);
      match outcome
      case TooManyConcurrent => reply := TooMany;
      case Channels(pending) => reply := Streaming(pending);
      case _ => reply := NodeUnavailable;
    }
  }
}
