/** Which connection of a node is the live one, while connects and disconnects of
    HandleWS goroutines interleave. */
module Connections {
  import opened Names

  /** Connect is the lock section that registers a connection; Disconnect the one
      its goroutine runs after its read loop has ended. */
  datatype Event = Connect(node: NodeId, conn: ConnId) | Disconnect(node: NodeId, conn: ConnId)

  function Step(nodes: map<NodeId, ConnId>, e: Event): map<NodeId, ConnId> {
    match e
    case Connect(node, conn) => nodes[node := conn]
    case Disconnect(node, conn) => if node in nodes && nodes[node] == conn then nodes - {node} else nodes
  }

  function Exec(es: seq<Event>): map<NodeId, ConnId> {
    if es == [] then map[] else Step(Exec(es[..|es| - 1]), es[|es| - 1])
  }

  /** Event i registered conn, and since then the node has neither connected again
      nor has conn itself been cleaned up. */
  predicate LiveSince(es: seq<Event>, node: NodeId, conn: ConnId, i: nat) {
    && i < |es| && es[i] == Connect(node, conn)
    && forall j | i < j < |es| :: !(es[j].Connect? && es[j].node == node) && es[j] != Disconnect(node, conn)
  }

  lemma LiveExtends(es: seq<Event>, e: Event, node: NodeId, conn: ConnId, i: nat)
    requires i < |es|
    ensures LiveSince(es + [e], node, conn, i)
       <==> LiveSince(es, node, conn, i) && !(e.Connect? && e.node == node) && e != Disconnect(node, conn)
  {
    var all := es + [e];
    assert all[|es|] == e && all[i] == es[i];
    forall j | i < j < |es| ensures all[j] == es[j] {
    }
    if LiveSince(all, node, conn, i) {
      forall j | i < j < |es| ensures !(es[j].Connect? && es[j].node == node) && es[j] != Disconnect(node, conn) {
        assert all[j] == es[j];
      }
    }
  }

  /** After every run, the map holds a connection for a node exactly when that is
      the latest one registered for it and it has not been cleaned up since: the
      cleanup of an older connection never removes a newer one. */
  lemma {:induction false} NewestConnectionWins(es: seq<Event>, node: NodeId, conn: ConnId)
    ensures (node in Exec(es) && Exec(es)[node] == conn) <==> exists i :: LiveSince(es, node, conn, i)
  {
    if es != [] {
      var n := |es| - 1;
      var front, e := es[..n], es[n];
      assert es == front + [e];
      NewestConnectionWins(front, node, conn);
      forall i | 0 <= i < n
        ensures LiveSince(es, node, conn, i)
           <==> LiveSince(front, node, conn, i) && !(e.Connect? && e.node == node) && e != Disconnect(node, conn)
      {
        LiveExtends(front, e, node, conn, i);
      }
      if e == Connect(node, conn) {
        assert LiveSince(es, node, conn, n);
      }
      if node in Exec(front) && Exec(front)[node] == conn
         && node in Exec(es) && Exec(es)[node] == conn && e != Connect(node, conn) {
        var i :| LiveSince(front, node, conn, i);
        assert LiveSince(es, node, conn, i);
      }
    }
  }
}
