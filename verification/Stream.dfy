/** The stream of one job: the chunk messages any node's connections bring for it,
    the 64-slot channel, and the buyer's select loop. */
module Stream {
  import opened Names

  /** A chunk, with the node that sent it and the connection it came over. */
  datatype Item = Item(node: NodeId, conn: ConnId, data: string)

  /** owner: the node the job is assigned to; sent: every chunk for this job its
      connections delivered to their read loops; inFlight: handlers between lookup
      and channel send, at most one a connection; lost: dropped on a full buffer,
      or arrived when the job was no longer pending. */
  datatype Channel = Channel(
    owner: NodeId, pending: bool, reading: bool,
    sent: seq<Item>, inFlight: seq<Item>, buffer: seq<Item>, received: seq<Item>, lost: seq<Item>)

  function Open(owner: NodeId): Channel {
    Channel(owner, true, true, [], [], [], [], [])
  }

  datatype Event =
    | Chunk(item: Item)                // a proxy_chunk for this job, from any node
    | Deliver(i: nat)                  // the select in handleProxyChunk
    | Receive                          // the buyer takes a chunk
    | LeavePending                     // some exit removes the job
    | BuyerLeaves                      // DoneCh or the request context ends the loop

  predicate Busy(c: Channel, conn: ConnId) {
    exists x :: x in c.inFlight && x.conn == conn
  }

  function Step(c: Channel, e: Event): Channel {
    match e
    case Chunk(x) =>
      if x.node != c.owner || Busy(c, x.conn) then c
      else if c.pending then c.(sent := c.sent + [x], inFlight := c.inFlight + [x])
      else c.(sent := c.sent + [x], lost := c.lost + [x])
    case Deliver(i) =>
      if i >= |c.inFlight| then c else
      var rest := c.inFlight[..i] + c.inFlight[i + 1..];
      if |c.buffer| < RESPONSE_BUFFER then c.(inFlight := rest, buffer := c.buffer + [c.inFlight[i]])
      else c.(inFlight := rest, lost := c.lost + [c.inFlight[i]])
    case Receive =>
      if !c.reading || c.buffer == [] then c else
      c.(buffer := c.buffer[1..], received := c.received + [c.buffer[0]])
    case LeavePending => c.(pending := false)
    case BuyerLeaves => c.(reading := false)
  }

  function Exec(owner: NodeId, es: seq<Event>): Channel {
    if es == [] then Open(owner) else Step(Exec(owner, es[..|es| - 1]), es[|es| - 1])
  }

  /** The chunks a node sent for the job, told from the messages alone. */
  function SentBy(es: seq<Event>, node: NodeId): seq<Item> {
    if es == [] then [] else
    var n := |es| - 1;
    SentBy(es[..n], node) + if es[n].Chunk? && es[n].item.node == node then [es[n].item] else []
  }

  /** The chunks of one connection, in order. */
  function Of(s: seq<Item>, conn: ConnId): seq<Item> {
    if s == [] then [] else
    var n := |s| - 1;
    Of(s[..n], conn) + if s[n].conn == conn then [s[n]] else []
  }

  /** s can be had from t by leaving elements out. */
  predicate IsSubsequence(s: seq<Item>, t: seq<Item>) {
    if s == [] then true
    else if t == [] then false
    else
      (s[|s| - 1] == t[|t| - 1] && IsSubsequence(s[..|s| - 1], t[..|t| - 1]))
      || IsSubsequence(s, t[..|t| - 1])
  }

  // ---------- sequences ----------

  lemma {:induction false} OfConcat(s: seq<Item>, t: seq<Item>, conn: ConnId)
    ensures Of(s + t, conn) == Of(s, conn) + Of(t, conn)
  {
    if t == [] {
      assert s + t == s;
    } else {
      var n := |t| - 1;
      assert (s + t)[..|s + t| - 1] == s + t[..n];
      OfConcat(s, t[..n], conn);
    }
  }

  lemma OfOne(x: Item, conn: ConnId)
    ensures Of([x], conn) == if x.conn == conn then [x] else []
  {
    assert [x][..0] == [];
  }

  lemma OfAppend(s: seq<Item>, x: Item, conn: ConnId)
    ensures Of(s + [x], conn) == if x.conn == conn then Of(s, conn) + [x] else Of(s, conn)
  {
    OfConcat(s, [x], conn);
    OfOne(x, conn);
  }

  lemma OfSplit(s: seq<Item>, i: nat, conn: ConnId)
    requires i < |s|
    ensures Of(s, conn) == Of(s[..i], conn) + (if s[i].conn == conn then [s[i]] else []) + Of(s[i + 1..], conn)
  {
    assert s == s[..i] + [s[i]] + s[i + 1..];
    OfConcat(s[..i] + [s[i]], s[i + 1..], conn);
    OfAppend(s[..i], s[i], conn);
  }

  lemma {:induction false} OfEmpty(s: seq<Item>, conn: ConnId)
    requires forall x | x in s :: x.conn != conn
    ensures Of(s, conn) == []
  {
    if s != [] {
      OfEmpty(s[..|s| - 1], conn);
    }
  }

  lemma SubsequenceBoth(s: seq<Item>, t: seq<Item>, x: Item)
    requires IsSubsequence(s, t)
    ensures IsSubsequence(s + [x], t + [x])
  {
    assert (s + [x])[..|s + [x]| - 1] == s && (t + [x])[..|t + [x]| - 1] == t;
  }

  lemma SubsequenceSkip(s: seq<Item>, t: seq<Item>, x: Item)
    requires IsSubsequence(s, t)
    ensures IsSubsequence(s, t + [x])
  {
    assert (t + [x])[..|t + [x]| - 1] == t;
  }

  lemma {:induction false} SubsequenceDrop(s: seq<Item>, x: Item, t: seq<Item>)
    requires IsSubsequence(s + [x], t)
    ensures IsSubsequence(s, t)
  {
    var sx := s + [x];
    assert sx[..|sx| - 1] == s;
    var n := |t| - 1;
    assert t == t[..n] + [t[n]];
    if sx[|sx| - 1] == t[n] && IsSubsequence(s, t[..n]) {
      SubsequenceSkip(s, t[..n], t[n]);
    } else {
      SubsequenceDrop(s, x, t[..n]);
      SubsequenceSkip(s, t[..n], t[n]);
    }
  }

  lemma {:induction false} SubsequencePrefix(s: seq<Item>, u: seq<Item>, t: seq<Item>)
    requires IsSubsequence(s + u, t)
    ensures IsSubsequence(s, t)
  {
    if u == [] {
      assert s + u == s;
    } else {
      var n := |u| - 1;
      assert s + u == (s + u[..n]) + [u[n]];
      SubsequenceDrop(s + u[..n], u[n], t);
      SubsequencePrefix(s, u[..n], t);
    }
  }

  lemma {:induction false} SubsequenceLength(s: seq<Item>, t: seq<Item>)
    requires IsSubsequence(s, t)
    ensures |s| <= |t| && (|s| == |t| ==> s == t)
  {
    if s != [] {
      var n := |t| - 1;
      if s[|s| - 1] == t[n] && IsSubsequence(s[..|s| - 1], t[..n]) {
        SubsequenceLength(s[..|s| - 1], t[..n]);
        if |s| == |t| {
          assert s == s[..|s| - 1] + [s[|s| - 1]] && t == t[..n] + [t[n]];
        }
      } else {
        SubsequenceLength(s, t[..n]);
      }
    }
  }

  // ---------- what every step keeps ----------

  /** One connection's chunks: past the channel send, in its handler, lost, sent. */
  ghost predicate Lines(past: seq<Item>, held: seq<Item>, lost: seq<Item>, sent: seq<Item>) {
    |held| <= 1 && IsSubsequence(past + held, sent) && |past| + |held| + |lost| == |sent|
  }

  lemma LinesSend(past: seq<Item>, lost: seq<Item>, sent: seq<Item>, x: Item)
    requires Lines(past, [], lost, sent)
    ensures Lines(past, [x], lost, sent + [x])
  {
    assert past + [] == past;
    SubsequenceBoth(past, sent, x);
  }

  lemma LinesLate(past: seq<Item>, held: seq<Item>, lost: seq<Item>, sent: seq<Item>, x: Item)
    requires Lines(past, held, lost, sent)
    ensures Lines(past, held, lost + [x], sent + [x])
  {
    SubsequenceSkip(past + held, sent, x);
  }

  lemma LinesPass(past: seq<Item>, x: Item, lost: seq<Item>, sent: seq<Item>)
    requires Lines(past, [x], lost, sent)
    ensures Lines(past + [x], [], lost, sent)
  {
    assert past + [x] + [] == past + [x];
  }

  lemma LinesDrop(past: seq<Item>, x: Item, lost: seq<Item>, sent: seq<Item>)
    requires Lines(past, [x], lost, sent)
    ensures Lines(past, [], lost + [x], sent)
  {
    SubsequenceDrop(past, x, sent);
    assert past + [] == past;
  }

  function Past(c: Channel, conn: ConnId): seq<Item> {
    Of(c.received, conn) + Of(c.buffer, conn)
  }

  ghost predicate ConnInv(c: Channel, conn: ConnId) {
    Lines(Past(c, conn), Of(c.inFlight, conn), Of(c.lost, conn), Of(c.sent, conn))
  }

  lemma ChunkKeeps(c: Channel, x: Item, conn: ConnId)
    requires ConnInv(c, conn) && x.node == c.owner && !Busy(c, x.conn)
    ensures ConnInv(Step(c, Chunk(x)), conn)
  {
    OfAppend(c.sent, x, conn);
    if c.pending {
      OfAppend(c.inFlight, x, conn);
      if x.conn == conn {
        OfEmpty(c.inFlight, conn);
        assert Of(c.inFlight + [x], conn) == [x];
        LinesSend(Past(c, conn), Of(c.lost, conn), Of(c.sent, conn), x);
      }
    } else {
      OfAppend(c.lost, x, conn);
      if x.conn == conn {
        LinesLate(Past(c, conn), Of(c.inFlight, conn), Of(c.lost, conn), Of(c.sent, conn), x);
      }
    }
  }

  /** Taking handler i out leaves the other connections' handlers. */
  lemma OfRest(s: seq<Item>, i: nat, conn: ConnId)
    requires i < |s| && |Of(s, conn)| <= 1
    ensures Of(s[..i] + s[i + 1..], conn) == if s[i].conn == conn then [] else Of(s, conn)
    ensures s[i].conn == conn ==> Of(s, conn) == [s[i]]
  {
    OfSplit(s, i, conn);
    OfConcat(s[..i], s[i + 1..], conn);
  }

  lemma PassKeeps(c: Channel, i: nat, conn: ConnId)
    requires ConnInv(c, conn) && i < |c.inFlight| && |c.buffer| < RESPONSE_BUFFER
    ensures ConnInv(Step(c, Deliver(i)), conn)
  {
    var x, c' := c.inFlight[i], Step(c, Deliver(i));
    PassMoves(c, i, conn);
    if x.conn == conn {
      LinesPass(Past(c, conn), x, Of(c.lost, conn), Of(c.sent, conn));
    }
  }

  lemma PassMoves(c: Channel, i: nat, conn: ConnId)
    requires i < |c.inFlight| && |c.buffer| < RESPONSE_BUFFER && |Of(c.inFlight, conn)| <= 1
    ensures var x, c' := c.inFlight[i], Step(c, Deliver(i));
            && c'.lost == c.lost && c'.sent == c.sent
            && (x.conn == conn ==>
                  Past(c', conn) == Past(c, conn) + [x] && Of(c'.inFlight, conn) == [] && Of(c.inFlight, conn) == [x])
            && (x.conn != conn ==> Past(c', conn) == Past(c, conn) && Of(c'.inFlight, conn) == Of(c.inFlight, conn))
  {
    var rest := c.inFlight[..i] + c.inFlight[i + 1..];
    assert Step(c, Deliver(i)) == c.(inFlight := rest, buffer := c.buffer + [c.inFlight[i]]);
    OfRest(c.inFlight, i, conn);
    OfAppend(c.buffer, c.inFlight[i], conn);
  }

  lemma DropKeeps(c: Channel, i: nat, conn: ConnId)
    requires ConnInv(c, conn) && i < |c.inFlight| && |c.buffer| >= RESPONSE_BUFFER
    ensures ConnInv(Step(c, Deliver(i)), conn)
  {
    var x := c.inFlight[i];
    DropMoves(c, i, conn);
    if x.conn == conn {
      LinesDrop(Past(c, conn), x, Of(c.lost, conn), Of(c.sent, conn));
    }
  }

  lemma DropMoves(c: Channel, i: nat, conn: ConnId)
    requires i < |c.inFlight| && |c.buffer| >= RESPONSE_BUFFER && |Of(c.inFlight, conn)| <= 1
    ensures var x, c' := c.inFlight[i], Step(c, Deliver(i));
            && Past(c', conn) == Past(c, conn) && c'.sent == c.sent
            && (x.conn == conn ==>
                  && Of(c'.lost, conn) == Of(c.lost, conn) + [x]
                  && Of(c'.inFlight, conn) == [] && Of(c.inFlight, conn) == [x])
            && (x.conn != conn ==>
                  Of(c'.lost, conn) == Of(c.lost, conn) && Of(c'.inFlight, conn) == Of(c.inFlight, conn))
  {
    var rest := c.inFlight[..i] + c.inFlight[i + 1..];
    assert Step(c, Deliver(i)) == c.(inFlight := rest, lost := c.lost + [c.inFlight[i]]);
    OfRest(c.inFlight, i, conn);
    OfAppend(c.lost, c.inFlight[i], conn);
  }

  lemma ReceiveKeeps(c: Channel, conn: ConnId)
    requires ConnInv(c, conn) && c.reading && c.buffer != []
    ensures ConnInv(Step(c, Receive), conn)
  {
    var c' := Step(c, Receive);
    assert Past(c', conn) == Past(c, conn) by {
      assert c.received + c.buffer == c'.received + c'.buffer;
      OfConcat(c.received, c.buffer, conn);
      OfConcat(c'.received, c'.buffer, conn);
    }
  }

  lemma {:induction false} ReachableConn(owner: NodeId, es: seq<Event>, conn: ConnId)
    ensures ConnInv(Exec(owner, es), conn)
  {
    if es != [] {
      var n := |es| - 1;
      ReachableConn(owner, es[..n], conn);
      var c := Exec(owner, es[..n]);
      match es[n]
      case Chunk(x) =>
        if x.node == c.owner && !Busy(c, x.conn) {
          ChunkKeeps(c, x, conn);
        }
      case Deliver(i) =>
        if i < |c.inFlight| {
          if |c.buffer| < RESPONSE_BUFFER {
            PassKeeps(c, i, conn);
          } else {
            DropKeeps(c, i, conn);
          }
        }
      case Receive =>
        if c.reading && c.buffer != [] {
          ReceiveKeeps(c, conn);
        }
      case LeavePending =>
      case BuyerLeaves =>
    }
  }

  lemma {:induction false} BufferBound(owner: NodeId, es: seq<Event>)
    ensures |Exec(owner, es).buffer| <= 64
  {
    if es != [] {
      BufferBound(owner, es[..|es| - 1]);
    }
  }

  lemma StepSends(c: Channel, e: Event)
    ensures Step(c, e).owner == c.owner
    ensures Step(c, e).sent == c.sent || (e.Chunk? && e.item.node == c.owner && Step(c, e).sent == c.sent + [e.item])
  {
  }

  lemma {:induction false} OwnerStays(owner: NodeId, es: seq<Event>)
    ensures Exec(owner, es).owner == owner
  {
    if es != [] {
      OwnerStays(owner, es[..|es| - 1]);
      StepSends(Exec(owner, es[..|es| - 1]), es[|es| - 1]);
    }
  }

  lemma SentByLast(es: seq<Event>, node: NodeId)
    requires es != []
    ensures var n := |es| - 1;
            SentBy(es, node) == if es[n].Chunk? && es[n].item.node == node then SentBy(es[..n], node) + [es[n].item]
                                else SentBy(es[..n], node)
  {
  }

  lemma SubsequenceGrows(s: seq<Item>, t: seq<Item>, x: Item, conn: ConnId)
    requires IsSubsequence(Of(s, conn), Of(t, conn))
    ensures IsSubsequence(Of(s + [x], conn), Of(t + [x], conn))
    ensures IsSubsequence(Of(s, conn), Of(t + [x], conn))
  {
    OfAppend(s, x, conn);
    OfAppend(t, x, conn);
    SubsequenceBoth(Of(s, conn), Of(t, conn), x);
    SubsequenceSkip(Of(s, conn), Of(t, conn), x);
  }

  /** sent holds only what the owner's messages brought, in their order. */
  lemma {:induction false} SentIsOwners(owner: NodeId, es: seq<Event>, conn: ConnId)
    ensures IsSubsequence(Of(Exec(owner, es).sent, conn), Of(SentBy(es, owner), conn))
  {
    if es != [] {
      var n := |es| - 1;
      var c, e := Exec(owner, es[..n]), es[n];
      SentIsOwners(owner, es[..n], conn);
      OwnerStays(owner, es[..n]);
      StepSends(c, e);
      SentByLast(es, owner);
      if e.Chunk? && e.item.node == owner {
        SubsequenceGrows(c.sent, SentBy(es[..n], owner), e.item, conn);
      }
    }
  }

  /** Each connection's read loop handles one message at a time. */
  predicate Serial(owner: NodeId, es: seq<Event>) {
    forall i | 0 <= i < |es| && es[i].Chunk? && es[i].item.node == owner :: !Busy(Exec(owner, es[..i]), es[i].item.conn)
  }

  /** In a run the read loops can make, sent is every chunk message of the owner. */
  lemma {:induction false} SerialSends(owner: NodeId, es: seq<Event>)
    requires Serial(owner, es)
    ensures Exec(owner, es).sent == SentBy(es, owner)
  {
    if es != [] {
      var n := |es| - 1;
      SerialFront(owner, es);
      SerialSends(owner, es[..n]);
      OwnerStays(owner, es[..n]);
      SentByLast(es, owner);
    }
  }

  lemma {:induction false} SubsequenceTrans(s: seq<Item>, t: seq<Item>, u: seq<Item>)
    requires IsSubsequence(s, t) && IsSubsequence(t, u)
    ensures IsSubsequence(s, u)
    decreases |t| + |u|
  {
    if s != [] {
      var n, k := |t| - 1, |u| - 1;
      if t[n] == u[k] && IsSubsequence(t[..n], u[..k]) {
        if s[|s| - 1] == t[n] && IsSubsequence(s[..|s| - 1], t[..n]) {
          SubsequenceTrans(s[..|s| - 1], t[..n], u[..k]);
        } else {
          SubsequenceTrans(s, t[..n], u[..k]);
        }
      } else {
        SubsequenceTrans(s, t, u[..k]);
      }
    }
  }

  predicate AllFrom(items: seq<Item>, node: NodeId) {
    forall x | x in items :: x.node == node
  }

  lemma {:induction false} OwnersOnly(owner: NodeId, es: seq<Event>)
    ensures var c := Exec(owner, es);
            c.owner == owner && AllFrom(c.inFlight, owner) && AllFrom(c.buffer, owner) && AllFrom(c.received, owner)
  {
    if es != [] {
      OwnersOnly(owner, es[..|es| - 1]);
    }
  }

  /** In every run a buyer receives nothing that another node sent, and what it
      receives is, connection by connection, an in-order selection of the chunk
      messages of the assigned node. */
  lemma ReceivedInOrder(owner: NodeId, es: seq<Event>, conn: ConnId)
    ensures AllFrom(Exec(owner, es).received, owner)
    ensures IsSubsequence(Of(Exec(owner, es).received, conn), Of(SentBy(es, owner), conn))
  {
    OwnersOnly(owner, es);
    ReachableConn(owner, es, conn);
    var c := Exec(owner, es);
    SubsequencePrefix(Past(c, conn), Of(c.inFlight, conn), Of(c.sent, conn));
    SubsequencePrefix(Of(c.received, conn), Of(c.buffer, conn), Of(c.sent, conn));
    SentIsOwners(owner, es, conn);
    SubsequenceTrans(Of(c.received, conn), Of(c.sent, conn), Of(SentBy(es, owner), conn));
  }

  lemma NothingLeft(owner: NodeId, es: seq<Event>, conn: ConnId)
    requires var c := Exec(owner, es); c.lost == [] && c.buffer == [] && c.inFlight == []
    ensures Of(Exec(owner, es).received, conn) == Of(Exec(owner, es).sent, conn)
  {
    ReachableConn(owner, es, conn);
    var c := Exec(owner, es);
    assert Past(c, conn) + Of(c.inFlight, conn) == Of(c.received, conn);
    SubsequenceLength(Of(c.received, conn), Of(c.sent, conn));
  }

  lemma LastCounts(owner: NodeId, es: seq<Event>, s: seq<Item>)
    requires var c := Exec(owner, es); s != [] && (s == c.lost || s == c.buffer || s == c.inFlight)
    ensures Of(Exec(owner, es).received, s[|s| - 1].conn) != Of(Exec(owner, es).sent, s[|s| - 1].conn)
  {
    var conn := s[|s| - 1].conn;
    ReachableConn(owner, es, conn);
    assert |Of(s, conn)| > 0;
  }

  // ---------- when no chunk is lost ----------

  /** A handler reaches the channel and finds all 64 slots taken. */
  predicate MeetsFullBuffer(owner: NodeId, es: seq<Event>, i: nat)
    requires i < |es|
  {
    var c := Exec(owner, es[..i]);
    es[i].Deliver? && es[i].i < |c.inFlight| && |c.buffer| == RESPONSE_BUFFER
  }

  /** A chunk of the assigned node comes after some exit removed the job. */
  predicate ComesLate(owner: NodeId, es: seq<Event>, i: nat)
    requires i < |es|
  {
    es[i].Chunk? && es[i].item.node == owner && LeavePending in es[..i]
  }

  predicate NoFullBuffer(owner: NodeId, es: seq<Event>) {
    forall i | 0 <= i < |es| :: !MeetsFullBuffer(owner, es, i)
  }

  predicate NoneLate(owner: NodeId, es: seq<Event>) {
    forall i | 0 <= i < |es| :: !ComesLate(owner, es, i)
  }

  lemma {:induction false} PendingUntilExit(owner: NodeId, es: seq<Event>)
    ensures Exec(owner, es).pending <==> LeavePending !in es
  {
    if es != [] {
      var n := |es| - 1;
      PendingUntilExit(owner, es[..n]);
      assert forall e :: e in es <==> e in es[..n] || e == es[n];
    }
  }

  lemma GuardsSplit(owner: NodeId, es: seq<Event>)
    requires es != []
    ensures var n := |es| - 1;
            && (NoFullBuffer(owner, es) <==> NoFullBuffer(owner, es[..n]) && !MeetsFullBuffer(owner, es, n))
            && (NoneLate(owner, es) <==> NoneLate(owner, es[..n]) && !ComesLate(owner, es, n))
  {
    var n := |es| - 1;
    forall i | 0 <= i < n
      ensures MeetsFullBuffer(owner, es[..n], i) == MeetsFullBuffer(owner, es, i)
      ensures ComesLate(owner, es[..n], i) == ComesLate(owner, es, i)
    {
      assert es[..n][..i] == es[..i];
    }
  }

  lemma SerialFront(owner: NodeId, es: seq<Event>)
    requires es != [] && Serial(owner, es)
    ensures Serial(owner, es[..|es| - 1])
    ensures var n := |es| - 1;
            es[n].Chunk? && es[n].item.node == owner ==> !Busy(Exec(owner, es[..n]), es[n].item.conn)
  {
    var n := |es| - 1;
    forall i | 0 <= i < n && es[..n][i].Chunk? && es[..n][i].item.node == owner
      ensures !Busy(Exec(owner, es[..n][..i]), es[..n][i].item.conn)
    {
      assert es[..n][..i] == es[..i] && es[..n][i] == es[i];
    }
  }

  lemma LastLoses(owner: NodeId, es: seq<Event>)
    requires es != [] && Serial(owner, es)
    ensures var n := |es| - 1;
            var c, c' := Exec(owner, es[..n]), Exec(owner, es);
            if MeetsFullBuffer(owner, es, n) || ComesLate(owner, es, n) then c'.lost != [] else c'.lost == c.lost
  {
    var n := |es| - 1;
    SerialFront(owner, es);
    OwnerStays(owner, es[..n]);
    BufferBound(owner, es[..n]);
    PendingUntilExit(owner, es[..n]);
  }

  /** Nothing is lost exactly when no handler meets a full buffer and no chunk comes
      after the job has left pendingJobs. */
  lemma {:induction false} NothingLostIff(owner: NodeId, es: seq<Event>)
    requires Serial(owner, es)
    ensures Exec(owner, es).lost == [] <==> NoFullBuffer(owner, es) && NoneLate(owner, es)
  {
    if es != [] {
      SerialFront(owner, es);
      NothingLostIff(owner, es[..|es| - 1]);
      LastLoses(owner, es);
      GuardsSplit(owner, es);
    }
  }

  lemma ReceivedAllIff(owner: NodeId, es: seq<Event>)
    requires Serial(owner, es)
    ensures var c := Exec(owner, es);
            (forall conn: ConnId :: Of(c.received, conn) == Of(SentBy(es, owner), conn))
            <==> c.lost == [] && c.buffer == [] && c.inFlight == []
  {
    SerialSends(owner, es);
    var c := Exec(owner, es);
    if c.lost == [] && c.buffer == [] && c.inFlight == [] {
      forall conn: ConnId ensures Of(c.received, conn) == Of(c.sent, conn) {
        NothingLeft(owner, es, conn);
      }
    } else {
      var left := if c.lost != [] then c.lost else if c.buffer != [] then c.buffer else c.inFlight;
      LastCounts(owner, es, left);
    }
  }

  /** The buyer has every chunk message of the assigned node, connection by
      connection, exactly when no handler met a full buffer, no chunk came after
      the job had left pendingJobs, and by the end every handler is through and
      the buffer is drained.  The buyer's loop may end on DoneCh while the buffer
      is not empty, so the last part can fail. */
  lemma WholeStreamIff(owner: NodeId, es: seq<Event>)
    requires Serial(owner, es)
    ensures var c := Exec(owner, es);
            (forall conn: ConnId :: Of(c.received, conn) == Of(SentBy(es, owner), conn))
            <==> NoFullBuffer(owner, es) && NoneLate(owner, es) && c.inFlight == [] && c.buffer == []
  {
    ReceivedAllIff(owner, es);
    NothingLostIff(owner, es);
  }

  // ---------- a buyer who misses a chunk ----------

  /** The chunk waits in the buffer when the job is done, and the buyer's loop ends on
      DoneCh before it takes it. */
  function UnreadSteps(x: Item): seq<Event> {
    [] + [Chunk(x)] + [Deliver(0)] + [LeavePending] + [BuyerLeaves]
  }

  lemma ExecAppend(owner: NodeId, es: seq<Event>, e: Event)
    ensures Exec(owner, es + [e]) == Step(Exec(owner, es), e)
  {
    assert (es + [e])[..|es + [e]| - 1] == es;
  }

  lemma {:induction false} NothingAfterLeaving(owner: NodeId, es: seq<Event>, more: seq<Event>)
    requires !Exec(owner, es).reading
    ensures !Exec(owner, es + more).reading && Exec(owner, es + more).received == Exec(owner, es).received
  {
    if more == [] {
      assert es + more == es;
    } else {
      var n := |more| - 1;
      NothingAfterLeaving(owner, es, more[..n]);
      assert es + more == es + more[..n] + [more[n]];
      ExecAppend(owner, es + more[..n], more[n]);
      LeftStays(Exec(owner, es + more[..n]), more[n]);
    }
  }

  lemma LeftStays(c: Channel, e: Event)
    requires !c.reading
    ensures !Step(c, e).reading && Step(c, e).received == c.received
  {
  }

  lemma UnreadState(x: Item)
    ensures Exec(x.node, UnreadSteps(x)) == Channel(x.node, false, false, [x], [], [x], [], [])
    ensures SentBy(UnreadSteps(x), x.node) == [x]
  {
    var e1, e2, e3 := [] + [Chunk(x)], [] + [Chunk(x)] + [Deliver(0)], [] + [Chunk(x)] + [Deliver(0)] + [LeavePending];
    ExecAppend(x.node, [], Chunk(x));
    ExecAppend(x.node, e1, Deliver(0));
    ExecAppend(x.node, e2, LeavePending);
    ExecAppend(x.node, e3, BuyerLeaves);
    assert Exec(x.node, e1) == Open(x.node).(sent := [x], inFlight := [x]);
    SentByLast(e1, x.node);
    SentByLast(e2, x.node);
    SentByLast(e3, x.node);
    SentByLast(UnreadSteps(x), x.node);
    assert e1[..0] == [] && e2[..1] == e1 && e3[..2] == e2 && UnreadSteps(x)[..3] == e3;
  }

  /** The assigned node sent one chunk, none was lost, and the buyer never gets it,
      however the run goes on. */
  lemma UnreadChunk(x: Item, more: seq<Event>)
    ensures SentBy(UnreadSteps(x), x.node) == [x] && Exec(x.node, UnreadSteps(x)).lost == []
    ensures Exec(x.node, UnreadSteps(x) + more).received == []
  {
    UnreadState(x);
    NothingAfterLeaving(x.node, UnreadSteps(x), more);
  }
}
