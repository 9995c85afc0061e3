/** The payout loop itself, run without interruption, against the step machine of
    Payouts: it takes exactly those steps, in order. */
module PayoutEngine {
  import opened Names
  import opened Tables
  import opened Store
  import opened Payouts

  /** What the outside world answers during one run: which database calls succeed,
      which payments come back with a hash, and how long each of them takes. */
  datatype World = World(
    queryIo: bool, readIo: NodeId -> bool, confirms: NodeId -> bool, recordIo: NodeId -> bool, takes: NodeId -> nat)

  /** When the payment to the node comes back. */
  function ReplyTime(en: Engine, w: World, node: NodeId): int {
    en.clock + w.takes(node)
  }

  /** The steps of one iteration for the head of the queue. */
  ghost function ServeOne(en: Engine, db: Db, w: World): (r: (Engine, Db))
    requires en.run.Paying? && en.run.queue != []
    ensures r.0.run.Paying? && r.0.run.queue == en.run.queue[1..]
  {
    var node := en.run.queue[0].node;
    var read := StepEngine(en, db, Read(w.readIo(node)));
    if read.run.Paying? then (read, db) else
    var replied := StepEngine(read, db, Reply(w.confirms(node), ReplyTime(en, w, node)));
    if replied.run.Paying? then (replied, db) else
    (StepEngine(replied, db, Record(w.recordIo(node))), StepDb(replied, db, Record(w.recordIo(node))))
  }

  ghost function Serve(en: Engine, db: Db, w: World): (Engine, Db)
    requires en.run.Paying?
    decreases |en.run.queue|
  {
    if en.run.queue == [] then (StepEngine(en, db, Read(true)), db) else
    var (en', db') := ServeOne(en, db, w);
    Serve(en', db', w)
  }

  ghost function Begun(en: Engine, db: Db, now: int, later: int, listed: seq<Payee>, ok: bool): Engine {
    StepEngine(StepEngine(en, db, Tick(now, later)), db, Query(listed, ok))
  }

  // ---------- the loop is a run of the machine ----------

  lemma {:induction false} TurnsConcat(en: Engine, db: Db, front: seq<PayEvent>, back: seq<PayEvent>)
    ensures Turns(en, db, front + back) == Turns(Turns(en, db, front).0, Turns(en, db, front).1, back)
    decreases |front|
  {
    if front == [] {
      assert front + back == back;
    } else {
      assert (front + back)[1..] == front[1..] + back;
      TurnsConcat(StepEngine(en, db, front[0]), StepDb(en, db, front[0]), front[1..], back);
    }
  }

  lemma ServeOneIsRun(en: Engine, db: Db, w: World) returns (actions: seq<PayEvent>)
    requires en.run.Paying? && en.run.queue != []
    ensures Turns(en, db, actions) == ServeOne(en, db, w)
  {
    var node := en.run.queue[0].node;
    var read := StepEngine(en, db, Read(w.readIo(node)));
    TurnsHead(en, db, Read(w.readIo(node)), []);
    actions := [Read(w.readIo(node))];
    if !read.run.Paying? {
      var reply := Reply(w.confirms(node), ReplyTime(en, w, node));
      var replied := StepEngine(read, db, reply);
      TurnsConcat(en, db, actions, [reply]);
      TurnsHead(read, db, reply, []);
      actions := actions + [reply];
      if !replied.run.Paying? {
        TurnsConcat(en, db, actions, [Record(w.recordIo(node))]);
        TurnsHead(replied, db, Record(w.recordIo(node)), []);
        actions := actions + [Record(w.recordIo(node))];
      }
    }
  }

  lemma {:induction false} ServeIsRun(en: Engine, db: Db, w: World) returns (actions: seq<PayEvent>)
    requires en.run.Paying?
    ensures Turns(en, db, actions) == Serve(en, db, w)
    decreases |en.run.queue|
  {
    if en.run.queue == [] {
      TurnsHead(en, db, Read(true), []);
      actions := [Read(true)];
    } else {
      var one := ServeOneIsRun(en, db, w);
      var (en', db') := ServeOne(en, db, w);
      var rest := ServeIsRun(en', db', w);
      TurnsConcat(en, db, one, rest);
      actions := one + rest;
    }
  }

  lemma {:induction false} ServeEndsIdle(en: Engine, db: Db, w: World)
    requires en.run.Paying?
    ensures var (en', _) := Serve(en, db, w); en'.run.Idle?
    decreases |en.run.queue|
  {
    if en.run.queue != [] {
      var (en', db') := ServeOne(en, db, w);
      ServeEndsIdle(en', db', w);
    }
  }

  class Processor {
    const db: DB
    const maxPerHour: int
    var spentThisHour: int
    var hourStart: int
    ghost var en: Engine

    ghost predicate Valid()
      reads this
    {
      && en.run.Idle? && en.maxPerHour == maxPerHour
      && en.spentThisHour == spentThisHour && en.hourStart == hourStart
    }

    constructor (db: DB, maxPerHour: int, now: int)
      ensures Valid() && this.db == db && en == NewEngine(maxPerHour, now)
    {
      this.db, this.maxPerHour := db, maxPerHour;
      spentThisHour, hourStart := 0, now;
      en := NewEngine(maxPerHour, now);
    }

    /** One run: what it does to the counters and to the tables is what the steps
        of the machine do when nothing comes between them. */
    method ProcessPayouts(now: int, later: int, w: World) returns (listed: seq<Payee>)
      requires Valid() && en.clock <= now <= later
      modifies this, db
      ensures Valid()
      ensures w.queryIo ==> Lists(old(db.View()), listed)
      ensures (en, db.View())
           == var begun := Begun(old(en), old(db.View()), now, later, listed, w.queryIo);
              if w.queryIo then Serve(begun, old(db.View()), w) else (begun, old(db.View()))
    {
      listed := [];
      ghost var was := en;
      if now - hourStart > HOUR {
        spentThisHour := 0;
        hourStart := later;
      }
      var spent := spentThisHour;
      if !w.queryIo {
        en := Begun(was, db.View(), now, later, listed, false);
        return;
      }
      listed := db.PendingPayouts();
      ghost var begun := Begun(was, db.View(), now, later, listed, true);
      ghost var view := db.View();
      en := begun;
      for i := 0 to |listed|
        invariant en.run == Paying(spent, listed[i..]) && spent == spentThisHour
        invariant en.maxPerHour == maxPerHour && en.spentThisHour == spentThisHour && en.hourStart == hourStart
        invariant Serve(en, db.View(), w) == Serve(begun, view, w)
      {
        var n := listed[i];
        assert n == en.run.queue[0] && en.run.queue[1..] == listed[i + 1..];
        spent := PayOne(n, spent, w);
      }
      ServeEndsIdle(begun, view, w);
      en := StepEngine(en, db.View(), Read(true));
    }

    /** The body of the loop. */
    method PayOne(n: Payee, spent: int, w: World) returns (spent': int)
      requires en.run.Paying? && en.run.queue != [] && n == en.run.queue[0]
      requires en.run.spent == spent == spentThisHour == en.spentThisHour
      requires en.maxPerHour == maxPerHour && en.hourStart == hourStart
      modifies this, db
      ensures (en, db.View()) == ServeOne(old(en), old(db.View()), w)
      ensures en.run == Paying(spent', old(en.run.queue)[1..])
      ensures spent' == spentThisHour == en.spentThisHour
      ensures en.maxPerHour == maxPerHour && en.hourStart == hourStart
    {
      ghost var next := ServeOne(en, db.View(), w);
      spent' := spent;
      if !w.readIo(n.node) {
        en := next.0;
        return;
      }
      var balance := db.NodeBalance(n.node);
      if balance <= 0 {
        en := next.0;
        return;
      }
      var payoutSats := balance / MSATS_PER_SAT;
      if payoutSats < n.threshold {
        en := next.0;
        return;
      }
      if maxPerHour > 0 && spent + payoutSats > maxPerHour {
        en := next.0;
        return;
      }
      if n.address == "" {
        en := next.0;
        return;
      }
      if !w.confirms(n.node) {
        en := next.0;
        return;
      }
      db.RecordPayout(n.node, payoutSats * MSATS_PER_SAT, w.recordIo(n.node));
      spentThisHour := spentThisHour + payoutSats;
      spent' := spent + payoutSats;
      en := next.0;
    }
  }
}
