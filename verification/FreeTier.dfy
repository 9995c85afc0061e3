/** The daily free quota: what the admission check of HandleChatCompletions bounds
    when check and AssignJob are one step and each exit is one step, and what it
    does not bound when requests are checked first and started later. */
module FreeTier {
  import opened Names

  datatype Request = Request(key: Key, free: bool, day: int)

  /** rows: the jobs table; running: jobs holding a slot; checked: requests past
      the admission check that have not called AssignJob yet. */
  datatype State = State(rows: map<JobId, Request>, running: map<JobId, Request>, checked: map<JobId, Request>)

  const EMPTY := State(map[], map[], map[])

  datatype Event =
    | Admit(id: JobId, key: Key, day: int, playground: bool, balance: int)  // Check and Start at once
    | Check(id: JobId, key: Key, day: int, playground: bool, balance: int)
    | Start(id: JobId)
    | Finish(id: JobId, recorded: bool)

  function Of(jobs: map<JobId, Request>, key: Key, day: int): set<JobId> {
    set id | id in jobs && jobs[id].key == key && jobs[id].day == day
  }

  function FreeOf(jobs: map<JobId, Request>, key: Key, day: int): set<JobId> {
    set id | id in jobs && jobs[id] == Request(key, true, day)
  }

  function HeldBy(s: State, key: Key): set<JobId> {
    set id | id in s.running && s.running[id].key == key
  }

  /** Free jobs of the key started on the day, recorded or in flight. */
  function FreeJobs(s: State, key: Key, day: int): nat {
    |FreeOf(s.rows, key, day)| + |FreeOf(s.running, key, day)|
  }

  /** Free if the request comes from the playground with quota left; paid if the
      balance is positive; otherwise refused. */
  predicate Passes(quota: map<Key, int>, s: State, key: Key, day: int, playground: bool, balance: int) {
    key in quota && (IsFree(quota, s, key, day, playground) || balance > 0)
  }

  predicate IsFree(quota: map<Key, int>, s: State, key: Key, day: int, playground: bool)
    requires key in quota
  {
    playground && quota[key] - |Of(s.rows, key, day)| > 0
  }

  predicate Unused(s: State, id: JobId) {
    id !in s.rows && id !in s.running
  }

  predicate SlotFree(s: State, key: Key) {
    |HeldBy(s, key)| < MAX_CONCURRENT_PER_USER
  }

  function Step(quota: map<Key, int>, s: State, e: Event): State {
    match e
    case Admit(id, key, day, playground, balance) =>
      if !Unused(s, id) || !Passes(quota, s, key, day, playground, balance) || !SlotFree(s, key) then s else
      s.(running := s.running[id := Request(key, IsFree(quota, s, key, day, playground), day)])
    case Check(id, key, day, playground, balance) =>
      if !Unused(s, id) || !Passes(quota, s, key, day, playground, balance) then s else
      s.(checked := s.checked[id := Request(key, IsFree(quota, s, key, day, playground), day)])
    case Start(id) =>
      if id !in s.checked || !Unused(s, id) || !SlotFree(s, s.checked[id].key) then s else
      s.(running := s.running[id := s.checked[id]])
    case Finish(id, recorded) =>
      if id !in s.running || id in s.rows then s else
      s.(running := s.running - {id}, rows := if recorded then s.rows[id := s.running[id]] else s.rows)
  }

  function Exec(quota: map<Key, int>, es: seq<Event>): State {
    if es == [] then EMPTY else Step(quota, Exec(quota, es[..|es| - 1]), es[|es| - 1])
  }

  // ---------- one step at a time, the quota is overrun by at most two ----------

  lemma SubsetSize<T>(a: set<T>, b: set<T>)
    requires a <= b
    ensures |a| <= |b|
  {
    assert b == a + (b - a);
  }

  lemma FreePut(jobs: map<JobId, Request>, id: JobId, r: Request, key: Key, day: int)
    requires id !in jobs
    ensures |FreeOf(jobs[id := r], key, day)|
         == |FreeOf(jobs, key, day)| + if r == Request(key, true, day) then 1 else 0
  {
    assert FreeOf(jobs[id := r], key, day)
        == if r == Request(key, true, day) then FreeOf(jobs, key, day) + {id} else FreeOf(jobs, key, day);
  }

  lemma FreeRemove(jobs: map<JobId, Request>, id: JobId, key: Key, day: int)
    requires id in jobs
    ensures |FreeOf(jobs - {id}, key, day)|
         == |FreeOf(jobs, key, day)| - if jobs[id] == Request(key, true, day) then 1 else 0
  {
    var less := jobs - {id};
    assert less[id := jobs[id]] == jobs;
    FreePut(less, id, jobs[id], key, day);
  }

  function Bound(quota: map<Key, int>, key: Key): int {
    if key in quota && quota[key] > 0 then quota[key] + MAX_CONCURRENT_PER_USER - 1 else 0
  }

  lemma AdmitKeepsBound(quota: map<Key, int>, s: State, e: Event, key: Key, day: int)
    requires e.Admit? && FreeJobs(s, key, day) <= Bound(quota, key)
    ensures FreeJobs(Step(quota, s, e), key, day) <= Bound(quota, key)
  {
    var s' := Step(quota, s, e);
    if s' != s {
      var r := Request(e.key, IsFree(quota, s, e.key, e.day, e.playground), e.day);
      FreePut(s.running, e.id, r, key, day);
      if r == Request(key, true, day) {
        SubsetSize(FreeOf(s.rows, key, day), Of(s.rows, key, day));
        SubsetSize(FreeOf(s.running, key, day), HeldBy(s, key));
      }
    }
  }

  lemma FinishKeepsBound(quota: map<Key, int>, s: State, e: Event, key: Key, day: int)
    requires e.Finish?
    ensures FreeJobs(Step(quota, s, e), key, day) <= FreeJobs(s, key, day)
  {
    if e.id in s.running && e.id !in s.rows {
      FreeRemove(s.running, e.id, key, day);
      FreePut(s.rows, e.id, s.running[e.id], key, day);
    }
  }

  predicate Atomic(es: seq<Event>) {
    forall e | e in es :: e.Admit? || e.Finish?
  }

  /** In every run of atomic admissions and exits, a key's free jobs of a day,
      recorded or in flight, never exceed its daily quota by more than two. */
  lemma {:induction false} AtomicOverrun(quota: map<Key, int>, es: seq<Event>, key: Key, day: int)
    requires Atomic(es)
    ensures FreeJobs(Exec(quota, es), key, day) <= Bound(quota, key)
  {
    if es == [] {
      assert FreeOf(EMPTY.rows, key, day) == {};
    } else {
      var n := |es| - 1;
      AtomicOverrun(quota, es[..n], key, day);
      if es[n].Admit? {
        AdmitKeepsBound(quota, Exec(quota, es[..n]), es[n], key, day);
      } else {
        FinishKeepsBound(quota, Exec(quota, es[..n]), es[n], key, day);
      }
    }
  }

  // ---------- check first, start later: no bound at all ----------

  const QUOTA: map<Key, int> := map["u" := 1]
  const FREE := Request("u", true, 0)

  /** The n-th of the ids used here. */
  function IdOf(n: nat): (id: JobId)
    ensures |id| == n
  {
    if n == 0 then "" else IdOf(n - 1) + "0"
  }

  /** The first n ids, all with the same request. */
  function FirstN(n: nat, r: Request): map<JobId, Request> {
    if n == 0 then map[] else FirstN(n - 1, r)[IdOf(n - 1) := r]
  }

  lemma {:induction false} FirstNIds(n: nat, r: Request)
    ensures forall id: JobId | id in FirstN(n, r) :: |id| < n && FirstN(n, r)[id] == r
    ensures forall k: nat | k < n :: IdOf(k) in FirstN(n, r)
  {
    if n > 0 {
      FirstNIds(n - 1, r);
      forall k: nat | k < n ensures IdOf(k) in FirstN(n, r) {
        assert k < n - 1 ==> IdOf(k) in FirstN(n - 1, r);
      }
    }
  }

  lemma ExecAppend(quota: map<Key, int>, es: seq<Event>, e: Event)
    ensures Exec(quota, es + [e]) == Step(quota, Exec(quota, es), e)
  {
    assert (es + [e])[..|es + [e]| - 1] == es;
  }

  lemma CheckNext(es: seq<Event>, n: nat)
    requires Exec(QUOTA, es) == State(map[], map[], FirstN(n, FREE))
    ensures Exec(QUOTA, es + [Check(IdOf(n), "u", 0, true, 0)]) == State(map[], map[], FirstN(n + 1, FREE))
  {
    FirstNIds(n, FREE);
    ExecAppend(QUOTA, es, Check(IdOf(n), "u", 0, true, 0));
    assert Of(EMPTY.rows, "u", 0) == {};
  }

  lemma {:induction false} AllChecked(n: nat) returns (es: seq<Event>)
    ensures Exec(QUOTA, es) == State(map[], map[], FirstN(n, FREE))
  {
    if n == 0 {
      es := [];
    } else {
      var front := AllChecked(n - 1);
      CheckNext(front, n - 1);
      es := front + [Check(IdOf(n - 1), "u", 0, true, 0)];
    }
  }

  /** One checked request starts while nothing runs, and is recorded. */
  lemma ServeOne(s: State, id: JobId)
    requires s.running == map[] && id in s.checked && s.checked[id] == FREE && id !in s.rows
    ensures Step(QUOTA, Step(QUOTA, s, Start(id)), Finish(id, true)) == s.(rows := s.rows[id := FREE])
  {
    assert HeldBy(s, "u") == {};
    var started := Step(QUOTA, s, Start(id));
    assert started == s.(running := map[id := FREE]);
    assert started.running - {id} == map[];
  }

  /** Of n checked requests the first k have run and been recorded. */
  predicate HasServed(es: seq<Event>, k: nat, n: nat) {
    Exec(QUOTA, es) == State(FirstN(k, FREE), map[], FirstN(n, FREE))
  }

  lemma NoneServed(es: seq<Event>, n: nat)
    requires Exec(QUOTA, es) == State(map[], map[], FirstN(n, FREE))
    ensures HasServed(es, 0, n)
  {
    assert FirstN(0, FREE) == map[];
  }

  lemma OneMoreServed(es: seq<Event>, n: nat, k: nat) returns (es': seq<Event>)
    requires k < n && HasServed(es, k, n)
    ensures HasServed(es', k + 1, n)
  {
    es' := es + [Start(IdOf(k))] + [Finish(IdOf(k), true)];
    ExecAppend(QUOTA, es, Start(IdOf(k)));
    ExecAppend(QUOTA, es + [Start(IdOf(k))], Finish(IdOf(k), true));
    FirstNIds(k, FREE);
    FirstNIds(n, FREE);
    ServeOne(State(FirstN(k, FREE), map[], FirstN(n, FREE)), IdOf(k));
    assert FirstN(k + 1, FREE) == FirstN(k, FREE)[IdOf(k) := FREE];
  }

  lemma {:induction false} AllServed(n: nat, k: nat) returns (es: seq<Event>)
    requires k <= n
    ensures HasServed(es, k, n)
  {
    if k == 0 {
      es := AllChecked(n);
      NoneServed(es, n);
    } else {
      var front := AllServed(n, k - 1);
      es := OneMoreServed(front, n, k - 1);
    }
  }

  lemma {:induction false} FirstNSize(n: nat, r: Request)
    requires r.free
    ensures |FreeOf(FirstN(n, r), r.key, r.day)| == n
    ensures Of(FirstN(n, r), r.key, r.day) == FreeOf(FirstN(n, r), r.key, r.day)
  {
    if n == 0 {
      assert FreeOf(FirstN(0, r), r.key, r.day) == {};
    } else {
      FirstNSize(n - 1, r);
      FirstNIds(n - 1, r);
      FreePut(FirstN(n - 1, r), IdOf(n - 1), r, r.key, r.day);
    }
  }

  /** Requests that all pass the check before the first is recorded can then run
      one after another, never two at once: a quota of one serves any number of
      free jobs in a day. */
  lemma OverrunWithoutAtomicity(n: nat) returns (es: seq<Event>)
    ensures FreeJobs(Exec(QUOTA, es), "u", 0) == n
  {
    es := AllServed(n, n);
    FirstNSize(n, FREE);
    var none: map<JobId, Request> := map[];
    assert FreeOf(none, "u", 0) == {};
  }

  // ---------- one step at a time, the bound is reached ----------

  lemma AdmitFree(quota: map<Key, int>, s: State, id: JobId, r: Request)
    requires r.free && r.key in quota && quota[r.key] > |Of(s.rows, r.key, r.day)|
    requires Unused(s, id) && SlotFree(s, r.key)
    ensures Step(quota, s, Admit(id, r.key, r.day, true, 0)) == s.(running := s.running[id := r])
  {
  }

  /** One job is admitted while nothing runs, and is recorded. */
  lemma AdmitAndRecord(quota: map<Key, int>, k: nat, r: Request)
    requires r.free && r.key in quota && k < quota[r.key]
    ensures Step(quota, Step(quota, State(FirstN(k, r), map[], map[]),
                         Admit(IdOf(k), r.key, r.day, true, 0)), Finish(IdOf(k), true))
         == State(FirstN(k + 1, r), map[], map[])
  {
    var s := State(FirstN(k, r), map[], map[]);
    FirstNSize(k, r);
    FirstNIds(k, r);
    assert HeldBy(s, r.key) == {};
    AdmitFree(quota, s, IdOf(k), r);
    var admitted := s.(running := map[IdOf(k) := r]);
    assert admitted.running - {IdOf(k)} == map[];
    assert FirstN(k + 1, r) == FirstN(k, r)[IdOf(k) := r];
  }

  /** k free jobs, one after another. */
  lemma {:induction false} RecordMany(quota: map<Key, int>, k: nat, r: Request) returns (es: seq<Event>)
    requires r.free && r.key in quota && k <= quota[r.key]
    ensures Atomic(es) && Exec(quota, es) == State(FirstN(k, r), map[], map[])
  {
    if k == 0 {
      es := [];
    } else {
      var front := RecordMany(quota, k - 1, r);
      var admit, finish := Admit(IdOf(k - 1), r.key, r.day, true, 0), Finish(IdOf(k - 1), true);
      ExecAppend(quota, front, admit);
      ExecAppend(quota, front + [admit], finish);
      AdmitAndRecord(quota, k - 1, r);
      es := front + [admit] + [finish];
    }
  }

  /** k jobs are recorded and j run, all on the request r. */
  predicate Running(s: State, k: nat, j: nat, r: Request) {
    && s.rows == FirstN(k, r) && |s.running.Keys| == j
    && forall id | id in s.running :: s.running[id] == r && k <= |id| < k + j
  }

  lemma RunningCounts(s: State, k: nat, j: nat, r: Request)
    requires Running(s, k, j, r) && r.free
    ensures |HeldBy(s, r.key)| == j && FreeJobs(s, r.key, r.day) == k + j
    ensures |Of(s.rows, r.key, r.day)| == k && Unused(s, IdOf(k + j))
  {
    FirstNSize(k, r);
    FirstNIds(k, r);
    assert HeldBy(s, r.key) == s.running.Keys && FreeOf(s.running, r.key, r.day) == s.running.Keys;
  }

  lemma AdmitOneMore(quota: map<Key, int>, es: seq<Event>, k: nat, j: nat, r: Request) returns (es': seq<Event>)
    requires r.free && r.key in quota && k < quota[r.key] && j < MAX_CONCURRENT_PER_USER
    requires Atomic(es) && Running(Exec(quota, es), k, j, r)
    ensures Atomic(es') && Running(Exec(quota, es'), k, j + 1, r)
  {
    var s, id := Exec(quota, es), IdOf(k + j);
    RunningCounts(s, k, j, r);
    AdmitFree(quota, s, id, r);
    ExecAppend(quota, es, Admit(id, r.key, r.day, true, 0));
    es' := es + [Admit(id, r.key, r.day, true, 0)];
    assert s.running[id := r].Keys == s.running.Keys + {id};
  }

  /** For every key with a quota, some run of atomic admissions and exits serves two
      free jobs more than the quota in one day: the bound of AtomicOverrun is met. */
  lemma QuotaPlusTwoReached(quota: map<Key, int>, key: Key, day: int) returns (es: seq<Event>)
    requires key in quota && quota[key] > 0
    ensures Atomic(es) && FreeJobs(Exec(quota, es), key, day) == quota[key] + 2 == Bound(quota, key)
  {
    var r, k := Request(key, true, day), quota[key] - 1;
    es := RecordMany(quota, k, r);
    es := AdmitOneMore(quota, es, k, 0, r);
    es := AdmitOneMore(quota, es, k, 1, r);
    es := AdmitOneMore(quota, es, k, 2, r);
    RunningCounts(Exec(quota, es), k, 3, r);
  }

  // ---------- when the quota is kept ----------

  function Limit(quota: map<Key, int>, key: Key): nat {
    if key in quota && quota[key] > 0 then quota[key] else 0
  }

  /** The step admits, or starts, a free job of the key for the day. */
  predicate AddsFree(quota: map<Key, int>, s: State, e: Event, key: Key, day: int) {
    match e
    case Admit(id, k, d, playground, balance) =>
      && k == key && d == day && Unused(s, id) && SlotFree(s, key)
      && key in quota && IsFree(quota, s, key, day, playground)
    case Start(id) =>
      id in s.checked && s.checked[id] == Request(key, true, day) && Unused(s, id) && SlotFree(s, key)
    case _ => false
  }

  lemma StepFreeJobs(quota: map<Key, int>, s: State, e: Event, key: Key, day: int)
    ensures AddsFree(quota, s, e, key, day) ==> FreeJobs(Step(quota, s, e), key, day) == FreeJobs(s, key, day) + 1
    ensures !AddsFree(quota, s, e, key, day) ==> FreeJobs(Step(quota, s, e), key, day) <= FreeJobs(s, key, day)
  {
    match e
    case Finish(_, _) => FinishKeepsBound(quota, s, e, key, day);
    case Admit(id, k, d, playground, _) =>
      if Step(quota, s, e) != s {
        FreePut(s.running, id, Request(k, IsFree(quota, s, k, d, playground), d), key, day);
      }
    case Start(id) =>
      if Step(quota, s, e) != s {
        FreePut(s.running, id, s.checked[id], key, day);
      }
    case Check(_, _, _, _, _) =>
  }

  /** A free job gets in although the recorded and the running ones already fill
      the quota: what the gate, which counts the recorded ones only, lets happen. */
  predicate OverfillsAt(quota: map<Key, int>, es: seq<Event>, key: Key, day: int, i: nat)
    requires i < |es|
  {
    var s := Exec(quota, es[..i]);
    AddsFree(quota, s, es[i], key, day) && FreeJobs(s, key, day) >= Limit(quota, key)
  }

  predicate NeverOverfills(quota: map<Key, int>, es: seq<Event>, key: Key, day: int) {
    forall i | 0 <= i < |es| :: !OverfillsAt(quota, es, key, day, i)
  }

  predicate WithinQuota(quota: map<Key, int>, es: seq<Event>, key: Key, day: int) {
    FreeJobs(Exec(quota, es), key, day) <= Limit(quota, key)
  }

  predicate AlwaysWithinQuota(quota: map<Key, int>, es: seq<Event>, key: Key, day: int) {
    forall i | 0 <= i <= |es| :: WithinQuota(quota, es[..i], key, day)
  }

  lemma OverfillsSplit(quota: map<Key, int>, es: seq<Event>, key: Key, day: int)
    requires es != []
    ensures var n := |es| - 1;
            NeverOverfills(quota, es, key, day)
            <==> NeverOverfills(quota, es[..n], key, day) && !OverfillsAt(quota, es, key, day, n)
  {
    var n := |es| - 1;
    forall i | 0 <= i < n ensures OverfillsAt(quota, es[..n], key, day, i) == OverfillsAt(quota, es, key, day, i) {
      assert es[..n][..i] == es[..i];
    }
  }

  lemma WithinSplit(quota: map<Key, int>, es: seq<Event>, key: Key, day: int)
    requires es != []
    ensures AlwaysWithinQuota(quota, es, key, day)
       <==> AlwaysWithinQuota(quota, es[..|es| - 1], key, day) && WithinQuota(quota, es, key, day)
  {
    var n := |es| - 1;
    assert es[..|es|] == es;
    forall i | 0 <= i <= n ensures es[..n][..i] == es[..i] {
    }
  }

  /** In every run, checks and starts apart or not: a key's free jobs of a day stay
      within the quota throughout exactly when none of them is let in while the
      recorded and the running ones already fill it. */
  lemma {:induction false} QuotaKeptIff(quota: map<Key, int>, es: seq<Event>, key: Key, day: int)
    ensures AlwaysWithinQuota(quota, es, key, day) <==> NeverOverfills(quota, es, key, day)
  {
    if es == [] {
      assert es[..0] == [];
      assert FreeOf(EMPTY.rows, key, day) == {};
    } else {
      var n := |es| - 1;
      QuotaKeptIff(quota, es[..n], key, day);
      OverfillsSplit(quota, es, key, day);
      WithinSplit(quota, es, key, day);
      if AlwaysWithinQuota(quota, es[..n], key, day) {
        assert es[..n][..n] == es[..n] && WithinQuota(quota, es[..n][..n], key, day);
        LastWithinQuota(quota, es, key, day);
      }
    }
  }

  lemma LastWithinQuota(quota: map<Key, int>, es: seq<Event>, key: Key, day: int)
    requires es != [] && WithinQuota(quota, es[..|es| - 1], key, day)
    ensures WithinQuota(quota, es, key, day) <==> !OverfillsAt(quota, es, key, day, |es| - 1)
  {
    StepFreeJobs(quota, Exec(quota, es[..|es| - 1]), es[|es| - 1], key, day);
  }
}
