/** The sliding-window limiter, which the source has twice: per IP for mutating
    requests (one clock reading per call) and for key registrations (a second
    reading stamps the accepted request).  Specification and history first, then
    the class that filters its slices in place. */
module RateLimiter {

  type Ip = string
  type Requests = map<Ip, seq<int>>

  /** The stable filter: what is newer than the cutoff, in order. */
  function Newer(s: seq<int>, cutoff: int): seq<int> {
    if s == [] then [] else
    var n := |s| - 1;
    Newer(s[..n], cutoff) + if s[n] > cutoff then [s[n]] else []
  }

  function Stored(m: Requests, ip: Ip): seq<int> {
    if ip in m then m[ip] else []
  }

  datatype Config = Config(limit: int, window: int)

  /** Allow reads the clock for the cutoff, then for the stamp it stores; both
      under the lock.  Cleanup may read the clock long before it gets the lock. */
  datatype Op = Allow(ip: Ip, clock: int, stamp: int) | Cleanup(clock: int)

  predicate Admits(c: Config, m: Requests, op: Op)
    requires op.Allow?
  {
    |Newer(Stored(m, op.ip), op.clock - c.window)| < c.limit
  }

  /** The slice of the IP after a call: filtered, with the stamp if admitted. */
  function Admission(c: Config, s: seq<int>, clock: int, stamp: int): seq<int> {
    var valid := Newer(s, clock - c.window);
    if |valid| < c.limit then valid + [stamp] else valid
  }

  function Apply(c: Config, m: Requests, op: Op): Requests {
    match op
    case Allow(ip, clock, stamp) =>
      m[ip := Admission(c, Stored(m, ip), clock, stamp)]
    case Cleanup(clock) =>
      Unstale(m, clock - c.window)
  }

  /** What a cleanup leaves: the filtered entries that are not empty. */
  function Unstale(m: Requests, cutoff: int): Requests {
    map ip | ip in m && Newer(m[ip], cutoff) != [] :: Newer(m[ip], cutoff)
  }

  function Run(c: Config, ops: seq<Op>): Requests {
    if ops == [] then map[] else Apply(c, Run(c, ops[..|ops| - 1]), ops[|ops| - 1])
  }

  // ---------- the reference: the whole history ----------

  /** The stamps of every request of the IP ever accepted, when a request is
      accepted exactly if fewer than limit accepted ones are newer than the cutoff. */
  function Accepted(c: Config, ops: seq<Op>, ip: Ip): seq<int> {
    if ops == [] then [] else Extended(c, Accepted(c, ops[..|ops| - 1], ip), ops[|ops| - 1], ip)
  }

  function Extended(c: Config, before: seq<int>, op: Op, ip: Ip): seq<int> {
    if op.Allow? && op.ip == ip && |Newer(before, op.clock - c.window)| < c.limit then before + [op.stamp] else before
  }

  /** Clock readings do not run backwards: whatever was read before an Allow call
      took the lock is not later than what that call reads. */
  predicate ClocksOk(ops: seq<Op>) {
    forall i, j | 0 <= i < j < |ops| && ops[j].Allow? :: ops[i].clock <= ops[j].clock
  }

  lemma {:induction false} NewerConcat(s: seq<int>, t: seq<int>, cutoff: int)
    ensures Newer(s + t, cutoff) == Newer(s, cutoff) + Newer(t, cutoff)
  {
    if t == [] {
      assert s + t == s;
    } else {
      var n := |t| - 1;
      assert (s + t)[..|s + t| - 1] == s + t[..n];
      NewerConcat(s, t[..n], cutoff);
    }
  }

  lemma NewerOne(x: int, cutoff: int)
    ensures Newer([x], cutoff) == if x > cutoff then [x] else []
  {
    assert [x][..0] == [];
  }

  lemma {:induction false} NewerTwice(s: seq<int>, a: int, b: int)
    requires a <= b
    ensures Newer(Newer(s, a), b) == Newer(s, b)
  {
    if s != [] {
      var n := |s| - 1;
      NewerTwice(s[..n], a, b);
      var last := if s[n] > a then [s[n]] else [];
      NewerConcat(Newer(s[..n], a), last, b);
      NewerOne(s[n], b);
    }
  }

  /** No clock was read after t. */
  predicate NotAfter(ops: seq<Op>, t: int) {
    forall i | 0 <= i < |ops| :: ops[i].clock <= t
  }

  lemma ClocksFront(ops: seq<Op>)
    requires ops != [] && ClocksOk(ops)
    ensures ClocksOk(ops[..|ops| - 1])
    ensures ops[|ops| - 1].Allow? ==> NotAfter(ops[..|ops| - 1], ops[|ops| - 1].clock)
  {
  }

  /** What is stored and what was ever accepted look the same from every cutoff
      that is not older than the cutoffs already applied. */
  lemma {:induction false} StoredIsRecentHistory(c: Config, ops: seq<Op>, ip: Ip, cutoff: int)
    requires ClocksOk(ops) && NotAfter(ops, cutoff + c.window)
    ensures SameSince(Stored(Run(c, ops), ip), Accepted(c, ops, ip), cutoff)
  {
    if ops != [] {
      var front, op := ops[..|ops| - 1], ops[|ops| - 1];
      ClocksFront(ops);
      assert NotAfter(front, cutoff + c.window);
      StoredIsRecentHistory(c, front, ip, cutoff);
      if op.Allow? && op.ip == ip {
        StoredIsRecentHistory(c, front, ip, op.clock - c.window);
      }
      ApplyKeepsRecent(c, Run(c, front), Accepted(c, front, ip), op, ip, cutoff);
    }
  }

  /** A sweep that still has the IPs of todo to visit. */
  function Swept(m: Requests, todo: set<Ip>, cutoff: int): Requests {
    map ip | ip in m && (ip in todo || Newer(m[ip], cutoff) != []) :: if ip in todo then m[ip] else Newer(m[ip], cutoff)
  }

  lemma SweptStep(m: Requests, todo: set<Ip>, ip: Ip, cutoff: int)
    requires ip in todo && ip in m
    ensures Swept(m, todo - {ip}, cutoff)
         == if Newer(m[ip], cutoff) == [] then Swept(m, todo, cutoff) - {ip}
            else Swept(m, todo, cutoff)[ip := Newer(m[ip], cutoff)]
  {
  }

  lemma SweptStart(m: Requests, cutoff: int)
    ensures Swept(m, m.Keys, cutoff) == m
  {
  }

  lemma SweptEnd(m: Requests, cutoff: int, todo: set<Ip>)
    requires todo == {}
    ensures Swept(m, todo, cutoff) == Unstale(m, cutoff)
  {
  }

  /** The two sequences look the same from the cutoff. */
  ghost predicate SameSince(s: seq<int>, t: seq<int>, cutoff: int) {
    Newer(s, cutoff) == Newer(t, cutoff)
  }

  lemma SameAppend(s: seq<int>, t: seq<int>, x: int, cutoff: int)
    requires SameSince(s, t, cutoff)
    ensures SameSince(s + [x], t + [x], cutoff)
  {
    NewerConcat(s, [x], cutoff);
    NewerConcat(t, [x], cutoff);
  }

  lemma SameFiltered(s: seq<int>, t: seq<int>, own: int, cutoff: int)
    requires SameSince(s, t, cutoff) && own <= cutoff
    ensures SameSince(Newer(s, own), t, cutoff)
  {
    NewerTwice(s, own, cutoff);
  }

  /** Both sides append the stamp, or neither does. */
  lemma SameDecision(c: Config, s: seq<int>, before: seq<int>, op: Op)
    requires op.Allow? && SameSince(s, before, op.clock - c.window)
    ensures var valid := Newer(s, op.clock - c.window);
            var more := if |valid| < c.limit then [op.stamp] else [];
            Admission(c, s, op.clock, op.stamp) == valid + more && Extended(c, before, op, op.ip) == before + more
  {
  }

  lemma AllowKeepsRecent(c: Config, s: seq<int>, before: seq<int>, op: Op, cutoff: int)
    requires op.Allow? && SameSince(s, before, cutoff) && op.clock - c.window <= cutoff
    requires SameSince(s, before, op.clock - c.window)
    ensures SameSince(Admission(c, s, op.clock, op.stamp), Extended(c, before, op, op.ip), cutoff)
  {
    var valid := Newer(s, op.clock - c.window);
    SameDecision(c, s, before, op);
    SameFiltered(s, before, op.clock - c.window, cutoff);
    if |valid| < c.limit {
      SameAppend(valid, before, op.stamp, cutoff);
    } else {
      assert valid + [] == valid && before + [] == before;
    }
  }

  lemma ApplyKeepsRecent(c: Config, m: Requests, before: seq<int>, op: Op, ip: Ip, cutoff: int)
    requires SameSince(Stored(m, ip), before, cutoff) && op.clock - c.window <= cutoff
    requires op.Allow? && op.ip == ip ==> SameSince(Stored(m, ip), before, op.clock - c.window)
    ensures SameSince(Stored(Apply(c, m, op), ip), Extended(c, before, op, ip), cutoff)
  {
    if op.Cleanup? {
      SameFiltered(Stored(m, ip), before, op.clock - c.window, cutoff);
      StoredUnstale(m, ip, op.clock - c.window);
    } else if op.ip == ip {
      AllowKeepsRecent(c, Stored(m, ip), before, op, cutoff);
    } else {
      OtherIpStays(c, m, op, ip);
    }
  }

  lemma StoredUnstale(m: Requests, ip: Ip, cutoff: int)
    ensures Stored(Unstale(m, cutoff), ip) == Newer(Stored(m, ip), cutoff)
  {
  }

  lemma OtherIpStays(c: Config, m: Requests, op: Op, ip: Ip)
    requires op.Allow? && op.ip != ip
    ensures Stored(Apply(c, m, op), ip) == Stored(m, ip)
  {
  }

  lemma AdmitsSame(c: Config, m: Requests, before: seq<int>, op: Op)
    requires op.Allow? && SameSince(Stored(m, op.ip), before, op.clock - c.window)
    ensures Admits(c, m, op) <==> |Newer(before, op.clock - c.window)| < c.limit
  {
  }

  /** The limiter decides as the reference does, after any history of calls and
      cleanups. */
  lemma AdmitsAsReference(c: Config, ops: seq<Op>, op: Op)
    requires op.Allow? && ClocksOk(ops) && NotAfter(ops, op.clock)
    ensures Admits(c, Run(c, ops), op) <==> |Newer(Accepted(c, ops, op.ip), op.clock - c.window)| < c.limit
  {
    StoredIsRecentHistory(c, ops, op.ip, op.clock - c.window);
    AdmitsSame(c, Run(c, ops), Accepted(c, ops, op.ip), op);
  }

  /** The stamps of the requests of the IP that the limiter itself let through. */
  function Granted(c: Config, ops: seq<Op>, ip: Ip): seq<int> {
    if ops == [] then [] else
    var front, op := ops[..|ops| - 1], ops[|ops| - 1];
    Granted(c, front, ip) + if op.Allow? && op.ip == ip && Admits(c, Run(c, front), op) then [op.stamp] else []
  }

  lemma {:induction false} GrantedIsAccepted(c: Config, ops: seq<Op>, ip: Ip)
    requires ClocksOk(ops)
    ensures Granted(c, ops, ip) == Accepted(c, ops, ip)
  {
    if ops != [] {
      var front, op := ops[..|ops| - 1], ops[|ops| - 1];
      ClocksFront(ops);
      GrantedIsAccepted(c, front, ip);
      if op.Allow? {
        AdmitsAsReference(c, front, op);
      }
      GrantExtends(c, Run(c, front), Accepted(c, front, ip), op, ip);
    }
  }

  lemma GrantExtends(c: Config, m: Requests, before: seq<int>, op: Op, ip: Ip)
    requires op.Allow? && op.ip == ip ==> (Admits(c, m, op) <==> |Newer(before, op.clock - c.window)| < c.limit)
    ensures Extended(c, before, op, ip)
         == before + if op.Allow? && op.ip == ip && Admits(c, m, op) then [op.stamp] else []
  {
  }

  /** After any history of calls and cleanups, the limiter lets a request through
      exactly when fewer than limit of all requests of its IP it ever let through
      are newer than now - window. */
  lemma AllowCountsWholeHistory(c: Config, ops: seq<Op>, op: Op)
    requires op.Allow? && ClocksOk(ops + [op])
    ensures Admits(c, Run(c, ops), op) <==> |Newer(Granted(c, ops, op.ip), op.clock - c.window)| < c.limit
  {
    assert (ops + [op])[..|ops + [op]| - 1] == ops;
    ClocksFront(ops + [op]);
    AdmitsAsReference(c, ops, op);
    GrantedIsAccepted(c, ops, op.ip);
  }

  lemma ClocksPrefix(ops: seq<Op>, op: Op)
    requires ClocksOk(ops + [op])
    ensures ClocksOk(ops)
  {
    forall i, j | 0 <= i < j < |ops| && ops[j].Allow? ensures ops[i].clock <= ops[j].clock {
      assert (ops + [op])[i] == ops[i] && (ops + [op])[j] == ops[j];
    }
  }

  /** Accepted stamps from just after lo up to hi. */
  function CountIn(s: seq<int>, lo: int, hi: int): nat {
    if s == [] then 0 else
    var n := |s| - 1;
    CountIn(s[..n], lo, hi) + if lo < s[n] <= hi then 1 else 0
  }

  lemma {:induction false} CountAtMostNewer(s: seq<int>, lo: int, hi: int, cutoff: int)
    requires cutoff <= lo
    ensures CountIn(s, lo, hi) <= |Newer(s, cutoff)|
  {
    if s != [] {
      CountAtMostNewer(s[..|s| - 1], lo, hi, cutoff);
    }
  }

  function AtLeastZero(n: int): nat {
    if n > 0 then n else 0
  }

  lemma {:induction false} AcceptedBound(c: Config, ops: seq<Op>, ip: Ip, end: int)
    requires forall op | op in ops && op.Allow? :: op.clock <= op.stamp
    ensures CountIn(Accepted(c, ops, ip), end - c.window, end) <= AtLeastZero(c.limit)
  {
    if ops != [] {
      var n := |ops| - 1;
      AcceptedBound(c, ops[..n], ip, end);
      ExtendedBound(c, Accepted(c, ops[..n], ip), ops[n], ip, end);
    }
  }

  /** No window, wherever it ends, holds more than limit requests of one IP that the
      limiter let through, whether a call stamps them with its only clock reading
      or with a second one. */
  lemma WindowBound(c: Config, ops: seq<Op>, ip: Ip, end: int)
    requires ClocksOk(ops) && forall op | op in ops && op.Allow? :: op.clock <= op.stamp
    ensures CountIn(Granted(c, ops, ip), end - c.window, end) <= AtLeastZero(c.limit)
  {
    GrantedIsAccepted(c, ops, ip);
    AcceptedBound(c, ops, ip, end);
  }

  const FIRST := Op.Allow("a", 0, 0)
  const SWEEP := Op.Cleanup(100)
  const SECOND := Op.Allow("a", 5, 5)

  lemma SweptAway()
    ensures Granted(Config(1, 10), [FIRST] + [SWEEP], "a") == [0]
    ensures Run(Config(1, 10), [FIRST] + [SWEEP]) == map[]
  {
    var c := Config(1, 10);
    assert ([FIRST] + [SWEEP])[..1] == [FIRST] && [FIRST][..0] == [];
    assert Run(c, [FIRST]) == map["a" := [0]] by {
      assert Admission(c, [], 0, 0) == [0];
    }
    NewerOne(0, 90);
    assert Granted(c, [FIRST], "a") == [] + [0];
    assert Unstale(map["a" := [0]], 90) == map[];
  }

  /** Were clocks to run backwards, a cleanup could forget a request that a later
      call still has to count: two requests in one window of limit one. */
  lemma BackwardsClockBreaksBound()
    ensures var c, ops := Config(1, 10), [FIRST, SWEEP, SECOND];
            && !ClocksOk(ops) && (forall op | op in ops && op.Allow? :: op.clock <= op.stamp)
            && CountIn(Granted(c, ops, "a"), 5 - c.window, 5) == 2 > c.limit
  {
    var c, ops := Config(1, 10), [FIRST, SWEEP, SECOND];
    assert ops[1].clock > ops[2].clock && ops[2].Allow?;
    assert ops[..2] == [FIRST] + [SWEEP];
    SweptAway();
    assert Granted(c, ops, "a") == [0] + [5];
    assert CountIn([0] + [5], -5, 5) == 2 by {
      assert ([0] + [5])[..1] == [0] && [0][..0] == [];
      assert CountIn([0], -5, 5) == 1;
    }
  }

  lemma ExtendedBound(c: Config, before: seq<int>, op: Op, ip: Ip, end: int)
    requires op.Allow? ==> op.clock <= op.stamp
    requires CountIn(before, end - c.window, end) <= AtLeastZero(c.limit)
    ensures CountIn(Extended(c, before, op, ip), end - c.window, end) <= AtLeastZero(c.limit)
  {
    var after := Extended(c, before, op, ip);
    if after != before {
      assert after[..|after| - 1] == before;
      if op.stamp <= end {
        CountAtMostNewer(before, end - c.window, end, op.clock - c.window);
      }
    }
  }

  /** No accepted stamp is later than t. */
  predicate StampsUpTo(s: seq<int>, t: int) {
    forall i | 0 <= i < |s| :: s[i] <= t
  }

  lemma {:induction false} NewerIsCount(s: seq<int>, cutoff: int, t: int)
    requires StampsUpTo(s, t)
    ensures |Newer(s, cutoff)| == CountIn(s, cutoff, t)
  {
    if s != [] {
      NewerIsCount(s[..|s| - 1], cutoff, t);
    }
  }

  lemma {:induction false} GrantedStamps(c: Config, ops: seq<Op>, ip: Ip, t: int)
    requires forall op | op in ops && op.Allow? :: op.stamp <= t
    ensures StampsUpTo(Granted(c, ops, ip), t)
  {
    if ops != [] {
      GrantedStamps(c, ops[..|ops| - 1], ip, t);
    }
  }

  /** A request is let through exactly when fewer than limit requests of its IP were
      let through in the window that ends now. */
  lemma LetThroughIff(c: Config, ops: seq<Op>, op: Op)
    requires op.Allow? && ClocksOk(ops + [op])
    requires forall x | x in ops && x.Allow? :: x.stamp <= op.clock
    ensures Admits(c, Run(c, ops), op)
       <==> CountIn(Granted(c, ops, op.ip), op.clock - c.window, op.clock) < c.limit
  {
    AllowCountsWholeHistory(c, ops, op);
    GrantedStamps(c, ops, op.ip, op.clock);
    NewerIsCount(Granted(c, ops, op.ip), op.clock - c.window, op.clock);
  }

  // ---------- cleanup is invisible ----------

  function Calls(ops: seq<Op>): seq<Op> {
    if ops == [] then [] else
    var n := |ops| - 1;
    Calls(ops[..n]) + if ops[n].Allow? then [ops[n]] else []
  }

  lemma {:induction false} AcceptedIgnoresCleanup(c: Config, ops: seq<Op>, ip: Ip)
    ensures Accepted(c, Calls(ops), ip) == Accepted(c, ops, ip)
  {
    if ops != [] {
      var n := |ops| - 1;
      AcceptedIgnoresCleanup(c, ops[..n], ip);
      if ops[n].Allow? {
        assert Calls(ops)[..|Calls(ops)| - 1] == Calls(ops[..n]);
      } else {
        assert Calls(ops) == Calls(ops[..n]);
      }
    }
  }

  lemma {:induction false} CallsClocks(ops: seq<Op>, op: Op)
    requires op.Allow? && ClocksOk(ops + [op])
    ensures ClocksOk(Calls(ops) + [op])
  {
    if ops != [] {
      var n := |ops| - 1;
      var last := ops[n];
      ClocksPrefix(ops, op);
      assert ops == ops[..n] + [last];
      assert ClocksOk(ops[..n] + [op]) by {
        forall i, j | 0 <= i < j < n + 1 && (ops[..n] + [op])[j].Allow?
          ensures (ops[..n] + [op])[i].clock <= (ops[..n] + [op])[j].clock
        {
          var k := if j < n then j else n + 1;
          assert (ops + [op])[i] == (ops[..n] + [op])[i] && (ops + [op])[k] == (ops[..n] + [op])[j];
        }
      }
      CallsClocks(ops[..n], op);
      if last.Allow? {
        CallsClocks(ops[..n], last);
        assert (ops + [op])[n] == last && (ops + [op])[n + 1] == op;
        ClocksExtend(Calls(ops[..n]), last, op);
      } else {
        assert Calls(ops) == Calls(ops[..n]);
      }
    }
  }

  lemma ClocksExtend(ops: seq<Op>, last: Op, op: Op)
    requires ClocksOk(ops + [last]) && ClocksOk(ops + [op]) && last.clock <= op.clock
    ensures ClocksOk(ops + [last] + [op])
  {
    var all := ops + [last] + [op];
    forall i, j | 0 <= i < j < |all| && all[j].Allow? ensures all[i].clock <= all[j].clock {
      if j <= |ops| {
        assert all[i] == (ops + [last])[i] && all[j] == (ops + [last])[j];
      } else if i < |ops| {
        assert all[i] == (ops + [op])[i] && all[j] == (ops + [op])[|ops|];
      }
    }
  }

  /** Taking every cleanup out of a history changes no later decision. */
  lemma CleanupInvisible(c: Config, ops: seq<Op>, op: Op)
    requires op.Allow? && ClocksOk(ops + [op])
    ensures Admits(c, Run(c, ops), op) <==> Admits(c, Run(c, Calls(ops)), op)
  {
    CallsClocks(ops, op);
    LastDecides(c, ops, op);
    LastDecides(c, Calls(ops), op);
    AcceptedIgnoresCleanup(c, ops, op.ip);
  }

  lemma LastDecides(c: Config, ops: seq<Op>, op: Op)
    requires op.Allow? && ClocksOk(ops + [op])
    ensures Admits(c, Run(c, ops), op) <==> |Newer(Accepted(c, ops, op.ip), op.clock - c.window)| < c.limit
  {
    assert (ops + [op])[..|ops + [op]| - 1] == ops;
    ClocksFront(ops + [op]);
    AdmitsAsReference(c, ops, op);
  }

  // ---------- the slices ----------

  /** A Go slice that starts at the front of its backing array. */
  datatype Slice = Slice(buf: array<int>, len: nat) {
    ghost predicate Valid() {
      len <= buf.Length
    }

    ghost function Elements(): seq<int>
      requires Valid()
      reads buf
    {
      buf[..len]
    }
  }

  /** valid := reqs[:0], then append: the filtered elements overwrite the front of
      the array the loop is still reading. */
  method FilterInPlace(reqs: Slice, cutoff: int) returns (valid: Slice)
    requires reqs.Valid()
    modifies reqs.buf
    ensures valid.buf == reqs.buf && valid.len <= reqs.len
    ensures valid.Elements() == Newer(old(reqs.Elements()), cutoff)
  {
    var buf := reqs.buf;
    var n := 0;
    ghost var was := buf[..reqs.len];
    for i := 0 to reqs.len
      invariant n <= i
      invariant buf[..n] == Newer(was[..i], cutoff)
      invariant buf[i..reqs.len] == was[i..]
    {
      var t := buf[i];
      assert t == buf[i..reqs.len][0] == was[i];
      assert was[i + 1..] == was[i..][1..] == buf[i..reqs.len][1..] == buf[i + 1..reqs.len];
      assert was[..i + 1][..i] == was[..i];
      if t > cutoff {
        buf[n] := t;
        n := n + 1;
      }
    }
    assert was[..reqs.len] == was;
    valid := Slice(buf, n);
  }

  /** append: in place while there is capacity, else into a larger copy. */
  method Append(s: Slice, x: int) returns (r: Slice)
    requires s.Valid()
    modifies s.buf
    ensures r.Valid() && (r.buf == s.buf || fresh(r.buf))
    ensures r.Elements() == old(s.Elements()) + [x]
  {
    var buf := s.buf;
    ghost var was := s.Elements();
    if s.len == s.buf.Length {
      buf := new int[2 * s.len + 1];
      for i := 0 to s.len
        invariant buf[..i] == was[..i] && s.buf[..s.len] == was
      {
        buf[i] := s.buf[i];
        assert s.buf[i] == was[i] && was[..i + 1] == was[..i] + [was[i]];
      }
    }
    assert buf[..s.len] == was;
    buf[s.len] := x;
    r := Slice(buf, s.len + 1);
  }

  /** The part of Allow that works on the slice of one IP. */
  method AdmitInto(c: Config, reqs: Slice, clock: int, stamp: int) returns (ok: bool, after: Slice)
    requires reqs.Valid()
    modifies reqs.buf
    ensures after.Valid() && (after.buf == reqs.buf || fresh(after.buf))
    ensures ok == (|Newer(old(reqs.Elements()), clock - c.window)| < c.limit)
    ensures after.Elements() == Admission(c, old(reqs.Elements()), clock, stamp)
  {
    after := FilterInPlace(reqs, clock - c.window);
    ok := after.len < c.limit;
    if ok {
      after := Append(after, stamp);
    }
  }

  class WindowLimiter {
    const config: Config
    var requests: map<Ip, Slice>
    ghost var view: Requests              // what the slices hold
    ghost var owner: map<array<int>, Ip>  // whose backing array it is

    ghost predicate SlotOk(ip: Ip)
      reads this, owner.Keys
    {
      && ip in requests && ip in view && requests[ip].buf in owner && owner[requests[ip].buf] == ip
      && requests[ip].Valid() && requests[ip].Elements() == view[ip]
    }

    /** Every IP has its own backing array, as owner shows. */
    ghost predicate Valid()
      reads this, owner.Keys
    {
      requests.Keys == view.Keys && forall ip | ip in requests :: SlotOk(ip)
    }

    ghost predicate OthersOk(ip: Ip)
      reads this, owner.Keys
    {
      requests.Keys == view.Keys && forall a | a in requests && a != ip :: SlotOk(a)
    }

    method Install(ip: Ip, slice: Slice)
      requires OthersOk(ip) && slice.Valid()
      requires slice.buf in owner ==> owner[slice.buf] == ip
      modifies this
      ensures Valid() && owner == old(owner)[slice.buf := ip]
      ensures view == old(view)[ip := slice.Elements()]
    {
      requests := requests[ip := slice];
      view := view[ip := slice.Elements()];
      owner := owner[slice.buf := ip];
    }

    method Remove(ip: Ip)
      requires OthersOk(ip)
      modifies this
      ensures Valid() && owner == old(owner) && view == old(view) - {ip}
    {
      requests := requests - {ip};
      view := view - {ip};
    }

    constructor (limit: int, window: int)
      ensures Valid() && owner == map[] && config == Config(limit, window) && view == map[]
    {
      config := Config(limit, window);
      requests, view, owner := map[], map[], map[];
    }

    /** RateLimiter.Allow with stamp == clock; HandleRegisterUser with its second
        reading as stamp. */
    method Allow(ip: Ip, clock: int, stamp: int) returns (ok: bool)
      requires Valid()
      modifies this, owner.Keys
      ensures Valid() && fresh(owner.Keys - old(owner.Keys))
      ensures ok == Admits(config, old(view), Op.Allow(ip, clock, stamp))
      ensures view == Apply(config, old(view), Op.Allow(ip, clock, stamp))
    {
      var reqs;
      if ip in requests {
        reqs := requests[ip];
      } else {
        var none := new int[0];
        reqs := Slice(none, 0);
      }
      assert reqs.Elements() == Stored(view, ip);
      var after;
      ok, after := AdmitInto(config, reqs, clock, stamp);
      Install(ip, after);
    }

    /** The background sweep: every slice is filtered, empty ones are deleted. */
    method Cleanup(clock: int)
      requires Valid()
      modifies this, owner.Keys
      ensures Valid() && owner == old(owner)
      ensures view == Apply(config, old(view), Op.Cleanup(clock))
    {
      var cutoff := clock - config.window;
      ghost var before := view;
      var todo := requests.Keys;
      SweptStart(view, cutoff);
      while todo != {}
        invariant todo <= requests.Keys && todo <= before.Keys
        invariant Valid() && owner == old(owner)
        invariant view == Swept(before, todo, cutoff)
        decreases |todo|
      {
        var ip :| ip in todo;
        SweptStep(before, todo, ip, cutoff);
        SweepOne(ip, cutoff);
        todo := todo - {ip};
      }
      SweptEnd(before, cutoff, todo);
    }

    /** One iteration of the sweep. */
    method SweepOne(ip: Ip, cutoff: int)
      requires Valid() && ip in requests
      modifies this, owner.Keys
      ensures Valid() && owner == old(owner)
      ensures view == if Newer(old(view)[ip], cutoff) == [] then old(view) - {ip}
                      else old(view)[ip := Newer(old(view)[ip], cutoff)]
    {
      assert SlotOk(ip);
      var valid := FilterInPlace(requests[ip], cutoff);
      if valid.len == 0 {
        Remove(ip);
      } else {
        Install(ip, valid);
      }
    }
  }
}
