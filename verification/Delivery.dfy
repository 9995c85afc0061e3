/** One job's stream beside the gateway's run: the gateway's exits are what ends the
    forwarding of chunks, and its DoneCh is what ends the buyer's loop. */
module Delivery {
  import opened Names
  import opened JobGate
  import G = Gateway
  import S = Stream

  // ---------- the channel of the gateway object ----------

  function DataOf(items: seq<S.Item>): seq<string> {
    if items == [] then [] else DataOf(items[..|items| - 1]) + [items[|items| - 1].data]
  }

  lemma {:induction false} DataOfSize(items: seq<S.Item>)
    ensures |DataOf(items)| == |items|
  {
    if items != [] {
      DataOfSize(items[..|items| - 1]);
    }
  }

  lemma DataOfAppend(items: seq<S.Item>, x: S.Item)
    ensures DataOf(items + [x]) == DataOf(items) + [x.data]
  {
    assert (items + [x])[..|items + [x]| - 1] == items;
  }

  /** What HandleProxyChunk does to ResponseCh is a chunk message and its delivery. */
  lemma PushIsChunkAndDeliver(c: S.Channel, x: S.Item)
    requires c.pending && x.node == c.owner && !S.Busy(c, x.conn)
    ensures var c' := S.Step(S.Step(c, S.Chunk(x)), S.Deliver(|c.inFlight|));
            && DataOf(c'.buffer) == G.Pushed(DataOf(c.buffer), x.data)
            && c'.inFlight == c.inFlight && c'.received == c.received && c'.sent == c.sent + [x]
  {
    var c1 := S.Step(c, S.Chunk(x));
    assert c1.inFlight[..|c.inFlight|] + c1.inFlight[|c.inFlight| + 1..] == c.inFlight;
    DataOfSize(c.buffer);
    DataOfAppend(c.buffer, x);
  }

  // ---------- the stream and the gateway together ----------

  /** OnGate is any step of the gateway; Carry a step of the stream's own goroutines;
      Quit the end of the buyer's loop, on DoneCh or as the buyer disconnects. */
  datatype Joint = OnGate(e: Event) | Carry(step: S.Event) | Quit(disconnected: bool)

  datatype Pair = Pair(g: JobGate.Gate, c: S.Channel, gone: bool)

  predicate Carries(e: S.Event) {
    e.Chunk? || e.Deliver? || e.Receive?
  }

  /** The stream's step, if any, that this joint step makes. */
  function StreamSteps(p: Pair, id: JobId, x: Joint): seq<S.Event> {
    match x
    case OnGate(e) => if Leaves(p.g, e, id) then [S.LeavePending] else []
    case Carry(e) => if Carries(e) then [e] else []
    case Quit(disconnected) =>
      if disconnected || (id in p.g.tracks && p.g.tracks[id].doneClosed) then [S.BuyerLeaves] else []
  }

  function Next(p: Pair, id: JobId, x: Joint): Pair {
    var steps := StreamSteps(p, id, x);
    Pair(if x.OnGate? then JobGate.Step(p.g, x.e) else p.g,
         if steps == [] then p.c else S.Step(p.c, steps[0]),
         p.gone || (x.Quit? && x.disconnected))
  }

  function After(p: Pair, id: JobId, xs: seq<Joint>): Pair {
    if xs == [] then p else Next(After(p, id, xs[..|xs| - 1]), id, xs[|xs| - 1])
  }

  /** The stream's own run inside the joint run. */
  function StreamRun(p: Pair, id: JobId, xs: seq<Joint>): seq<S.Event> {
    if xs == [] then [] else
    var n := |xs| - 1;
    StreamRun(p, id, xs[..n]) + StreamSteps(After(p, id, xs[..n]), id, xs[n])
  }

  /** A job that AssignJob has just inserted, and its channel. */
  predicate Begins(p: Pair, id: JobId) {
    id in p.g.pending && id in p.g.tracks && p.c == S.Open(p.g.tracks[id].job.node) && !p.gone
  }

  lemma StreamMore(owner: NodeId, front: seq<S.Event>, steps: seq<S.Event>)
    requires |steps| <= 1
    ensures S.Exec(owner, front + steps)
         == if steps == [] then S.Exec(owner, front) else S.Step(S.Exec(owner, front), steps[0])
  {
    if steps == [] {
      assert front + steps == front;
    } else {
      assert front + steps == front + [steps[0]];
      S.ExecAppend(owner, front, steps[0]);
    }
  }

  /** Every theorem about runs of the stream holds beside the gateway. */
  lemma {:induction false} StreamRunInside(p: Pair, id: JobId, xs: seq<Joint>)
    requires Begins(p, id)
    ensures After(p, id, xs).c == S.Exec(p.g.tracks[id].job.node, StreamRun(p, id, xs))
  {
    if xs != [] {
      var n := |xs| - 1;
      StreamRunInside(p, id, xs[..n]);
      StreamMore(p.g.tracks[id].job.node, StreamRun(p, id, xs[..n]), StreamSteps(After(p, id, xs[..n]), id, xs[n]));
    }
  }

  ghost predicate Tied(p: Pair, id: JobId) {
    && Inv(p.g) && id in p.g.tracks && Inserted(p.g.tracks[id])
    && (p.c.pending <==> id in p.g.pending)
    && (!p.c.reading ==> p.gone || p.g.tracks[id].doneClosed)
  }

  lemma GateKeepsTied(g: JobGate.Gate, e: Event, id: JobId)
    requires Inv(g) && id in g.tracks && Inserted(g.tracks[id])
    ensures var g' := JobGate.Step(g, e);
            && Inv(g') && id in g'.tracks && Inserted(g'.tracks[id])
            && (g.tracks[id].doneClosed ==> g'.tracks[id].doneClosed)
            && (id in g'.pending ==> id in g.pending)
  {
    StepKeepsInv(g, e);
    TracksGrow(g, e);
    StepExits(g, e, id);
    StaysInserted(g, e, id);
  }

  lemma StaysInserted(g: JobGate.Gate, e: Event, id: JobId)
    requires id in g.tracks && Inserted(g.tracks[id])
    ensures id in JobGate.Step(g, e).tracks && Inserted(JobGate.Step(g, e).tracks[id])
    ensures id in JobGate.Step(g, e).pending ==> id in g.pending
  {
  }

  lemma NextTied(p: Pair, id: JobId, x: Joint)
    requires Tied(p, id)
    ensures Tied(Next(p, id, x), id)
  {
    if x.OnGate? {
      GateKeepsTied(p.g, x.e, id);
    }
  }

  /** In every joint run: chunks are forwarded exactly while the job is pending, and
      the buyer's loop has ended only if the buyer left or DoneCh is closed. */
  lemma {:induction false} StreamFollowsGate(p: Pair, id: JobId, xs: seq<Joint>)
    requires Inv(p.g) && Begins(p, id)
    ensures Tied(After(p, id, xs), id)
  {
    if xs == [] {
      assert TrackOk(p.g, id, p.g.tracks[id]);
    } else {
      StreamFollowsGate(p, id, xs[..|xs| - 1]);
      NextTied(After(p, id, xs[..|xs| - 1]), id, xs[|xs| - 1]);
    }
  }

  /** The object's channel shows what waits for the buyer. */
  predicate ChannelShows(channel: seq<string>, c: S.Channel) {
    channel == DataOf(c.buffer)
  }

  /** No step of the gateway, an exit or not, takes a waiting chunk: what the kept
      channel of the object shows is still there for the buyer to receive. */
  lemma GateKeepsChannel(p: Pair, id: JobId, e: Event, channel: seq<string>)
    requires ChannelShows(channel, p.c)
    ensures ChannelShows(channel, Next(p, id, OnGate(e)).c)
    ensures Next(p, id, OnGate(e)).c.received == p.c.received && Next(p, id, OnGate(e)).c.reading == p.c.reading
  {
  }

  lemma WaitingTail(items: seq<S.Item>)
    requires items != []
    ensures DataOf(items[1..]) == DataOf(items)[1..] && DataOf(items)[0] == items[0].data
  {
    DataOfIndex(items);
    DataOfIndex(items[1..]);
    assert DataOf(items[1..]) == DataOf(items)[1..];
  }

  lemma {:induction false} DataOfIndex(items: seq<S.Item>)
    ensures |DataOf(items)| == |items| && forall i | 0 <= i < |items| :: DataOf(items)[i] == items[i].data
  {
    if items != [] {
      DataOfIndex(items[..|items| - 1]);
    }
  }

  lemma ReceiveFirst(c: S.Channel, channel: seq<string>)
    requires ChannelShows(channel, c) && c.reading && c.buffer != []
    ensures channel != []
    ensures var c' := S.Step(c, S.Receive);
            ChannelShows(channel[1..], c') && c'.reading && DataOf(c'.received) == DataOf(c.received) + [channel[0]]
  {
    DataOfSize(c.buffer);
    WaitingTail(c.buffer);
    DataOfAppend(c.received, c.buffer[0]);
  }

  /** As many receives as chunks wait. */
  function Drained(c: S.Channel): S.Channel
    decreases |c.buffer|
  {
    if !c.reading || c.buffer == [] then c else Drained(S.Step(c, S.Receive))
  }

  /** A buyer still reading takes the waiting chunks one by one, in the order of the
      object's channel, whether the job is still pending or not. */
  lemma {:induction false} WaitingChunksReadable(c: S.Channel, channel: seq<string>)
    requires ChannelShows(channel, c) && c.reading
    ensures Drained(c).buffer == [] && DataOf(Drained(c).received) == DataOf(c.received) + channel
    decreases |c.buffer|
  {
    DataOfSize(c.buffer);
    if c.buffer != [] {
      ReceiveFirst(c, channel);
      WaitingChunksReadable(S.Step(c, S.Receive), channel[1..]);
      HeadAndTail(DataOf(c.received), channel);
    }
  }

  lemma HeadAndTail(before: seq<string>, channel: seq<string>)
    requires channel != []
    ensures before + [channel[0]] + channel[1..] == before + channel
  {
  }
}
