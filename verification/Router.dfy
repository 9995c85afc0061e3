/** Node selection: the first of the least loaded nodes that serve the model. */
module Router {

  datatype NodeInfo = NodeInfo(nodeId: string, models: seq<string>, queueDepth: int)

  datatype Route = ErrNoNode | Routed(nodeId: string)

  /** best is the choice RouteRequest makes among the nodes. */
  predicate IsBest(nodes: seq<NodeInfo>, model: string, best: int) {
    && 0 <= best < |nodes| && model in nodes[best].models
    && (forall i | 0 <= i < |nodes| && model in nodes[i].models :: nodes[best].queueDepth <= nodes[i].queueDepth)
    && (forall i | 0 <= i < best && model in nodes[i].models :: nodes[best].queueDepth < nodes[i].queueDepth)
  }

  method HasModel(models: seq<string>, target: string) returns (found: bool)
    ensures found <==> target in models
  {
    for i := 0 to |models|
      invariant target !in models[..i]
    {
      if models[i] == target {
        return true;
      }
    }
    return false;
  }

  /** Two nodes cannot both be the best choice. */
  lemma BestIsUnique(nodes: seq<NodeInfo>, model: string, a: int, b: int)
    requires IsBest(nodes, model, a) && IsBest(nodes, model, b)
    ensures a == b
  {
  }

  /** An error exactly when no node has the model; otherwise the one best choice: the
      first, in the order given, of the nodes with the model and the smallest queue. */
  method RouteRequest(nodes: seq<NodeInfo>, model: string) returns (r: Route)
    ensures r.ErrNoNode? <==> forall n | n in nodes :: model !in n.models
    ensures r.Routed? ==> exists best :: IsBest(nodes, model, best) && r.nodeId == nodes[best].nodeId
    ensures forall best :: IsBest(nodes, model, best) ==> r == Routed(nodes[best].nodeId)
  {
    var best := -1;
    for i := 0 to |nodes|
      invariant -1 <= best < i
      invariant best == -1 ==> forall j | 0 <= j < i :: model !in nodes[j].models
      invariant best != -1 ==> IsBest(nodes[..i], model, best)
    {
      var has := HasModel(nodes[i].models, model);
      if has && (best == -1 || nodes[i].queueDepth < nodes[best].queueDepth) {
        best := i;
      }
    }
    if best == -1 {
      return ErrNoNode;
    }
    assert nodes[..|nodes|] == nodes && IsBest(nodes, model, best);
    assert nodes[best] in nodes;
    forall other | IsBest(nodes, model, other) ensures other == best {
      BestIsUnique(nodes, model, best, other);
    }
    return Routed(nodes[best].nodeId);
  }

  function AllModels(nodes: seq<NodeInfo>): seq<string> {
    if nodes == [] then [] else AllModels(nodes[..|nodes| - 1]) + nodes[|nodes| - 1].models
  }

  /** The elements of s in order of first appearance. */
  function FirstSeen(s: seq<string>): seq<string> {
    if s == [] then [] else
    var front := FirstSeen(s[..|s| - 1]);
    if s[|s| - 1] in front then front else front + [s[|s| - 1]]
  }

  lemma FirstSeenAppend(s: seq<string>, m: string)
    ensures FirstSeen(s + [m]) == if m in FirstSeen(s) then FirstSeen(s) else FirstSeen(s) + [m]
  {
    assert (s + [m])[..|s + [m]| - 1] == s;
  }

  lemma {:induction false} FirstSeenIsSet(s: seq<string>)
    ensures forall x :: x in FirstSeen(s) <==> x in s
    ensures forall i, j | 0 <= i < j < |FirstSeen(s)| :: FirstSeen(s)[i] != FirstSeen(s)[j]
  {
    if s != [] {
      var n := |s| - 1;
      FirstSeenIsSet(s[..n]);
      assert forall x :: x in s <==> x in s[..n] || x == s[n];
    }
  }

  lemma {:induction false} AllModelsAre(nodes: seq<NodeInfo>)
    ensures forall m :: m in AllModels(nodes) <==> exists n :: n in nodes && m in n.models
  {
    if nodes != [] {
      var k := |nodes| - 1;
      AllModelsAre(nodes[..k]);
      assert forall n :: n in nodes <==> n in nodes[..k] || n == nodes[k];
    }
  }

  /** The inner loop: the models of one node join the ones already seen. */
  method AddModels(models: seq<string>, ghost before: seq<string>, seen: set<string>, out: seq<string>)
    returns (seen': set<string>, out': seq<string>)
    requires out == FirstSeen(before) && forall x :: x in seen <==> x in out
    ensures out' == FirstSeen(before + models) && forall x :: x in seen' <==> x in out'
  {
    seen', out' := seen, out;
    assert before + models[..0] == before;
    for k := 0 to |models|
      invariant out' == FirstSeen(before + models[..k])
      invariant forall x :: x in seen' <==> x in out'
    {
      var m := models[k];
      assert before + models[..k + 1] == before + models[..k] + [m];
      FirstSeenAppend(before + models[..k], m);
      if m !in seen' {
        seen' := seen' + {m};
        out' := out' + [m];
      }
    }
    assert models[..|models|] == models;
  }

  /** The models of all nodes, each once, in order of first appearance. */
  method AvailableModels(nodes: seq<NodeInfo>) returns (out: seq<string>)
    ensures out == FirstSeen(AllModels(nodes))
    ensures forall i, j | 0 <= i < j < |out| :: out[i] != out[j]
    ensures forall m :: m in out <==> exists n :: n in nodes && m in n.models
  {
    out := [];
    var seen: set<string> := {};
    for i := 0 to |nodes|
      invariant out == FirstSeen(AllModels(nodes[..i]))
      invariant forall x :: x in seen <==> x in out
    {
      assert nodes[..i + 1][..i] == nodes[..i];
      seen, out := AddModels(nodes[i].models, AllModels(nodes[..i]), seen, out);
    }
    assert nodes[..|nodes|] == nodes;
    FirstSeenIsSet(AllModels(nodes));
    AllModelsAre(nodes);
  }
}
