/** Which documents can be reached from the index by following links. */
module DocumentReachability {

  type Graph = map<string, seq<string>>

  function Targets(graph: Graph, document: string): seq<string> {
    if document in graph then graph[document] else []
  }

  /** A way from one document to another, link by link. */
  predicate IsWay(graph: Graph, way: seq<string>) {
    && way != []
    && forall i :: 0 <= i < |way| - 1 ==> way[i + 1] in Targets(graph, way[i])
  }

  ghost predicate IsReachable(graph: Graph, from: string, to: string) {
    exists way :: IsWay(graph, way) && way[0] == from && way[|way| - 1] == to
  }

  predicate IsClosed(graph: Graph, documents: set<string>) {
    forall document :: document in documents ==> forall target :: target in Targets(graph, document) ==> target in documents
  }

  lemma {:induction false} ClosedHoldsWay(graph: Graph, documents: set<string>, way: seq<string>)
    requires IsClosed(graph, documents) && IsWay(graph, way) && way[0] in documents
    ensures way[|way| - 1] in documents
  {
    if |way| > 1 {
      var before := way[..|way| - 1];
      ClosedHoldsWay(graph, documents, before);
      assert way[|way| - 2 + 1] in Targets(graph, way[|way| - 2]);
    }
  }

  lemma ReachableFurther(graph: Graph, from: string, document: string, target: string)
    requires IsReachable(graph, from, document) && target in Targets(graph, document)
    ensures IsReachable(graph, from, target)
  {
    var way :| IsWay(graph, way) && way[0] == from && way[|way| - 1] == document;
    var further := way + [target];
    assert IsWay(graph, further) && further[0] == from && further[|further| - 1] == target;
  }

  ghost function AllDocuments(graph: Graph, index: string): set<string> {
    {index} + set document, target | document in graph && target in graph[document] :: target
  }

  lemma ClosedHoldsReachable(graph: Graph, documents: set<string>, index: string, document: string)
    requires IsClosed(graph, documents) && index in documents && IsReachable(graph, index, document)
    ensures document in documents
  {
    var way :| IsWay(graph, way) && way[0] == index && way[|way| - 1] == document;
    ClosedHoldsWay(graph, documents, way);
  }

  lemma TargetsAreDocuments(graph: Graph, index: string, document: string)
    ensures forall target :: target in Targets(graph, document) ==> target in AllDocuments(graph, index)
  {
  }

  lemma IndexIsReachable(graph: Graph, index: string)
    ensures IsReachable(graph, index, index) && index in AllDocuments(graph, index)
  {
    assert IsWay(graph, [index]);
  }

  /** The targets of every visited document are visited or waiting. */
  ghost predicate TargetsKept(graph: Graph, reachable: set<string>, queue: seq<string>) {
    forall document :: document in reachable ==>
      forall target :: target in Targets(graph, document) ==> target in reachable || target in queue
  }

  /** The work list stops, and what it has visited is exactly what can be reached; empty names are skipped. */
  method Reachable(graph: Graph, index: string) returns (reachable: set<string>)
    requires index != "" && forall document :: document in graph ==> "" !in graph[document]
    ensures forall document :: document in reachable <==> IsReachable(graph, index, document)
  {
    hide IsReachable, Targets, AllDocuments;
    reachable := {};
    var queue := [index];
    IndexIsReachable(graph, index);
    ghost var all := AllDocuments(graph, index);
    while queue != []
      invariant reachable <= all
      invariant forall document :: document in reachable || document in queue ==>
                  document in all && IsReachable(graph, index, document) && document != ""
      invariant index in reachable || index in queue
      invariant TargetsKept(graph, reachable, queue)
      decreases |all - reachable|, |queue|
    {
      var current := queue[0];
      ghost var before := queue;
      queue := queue[1..];
      assert before == [current] + queue;
      if current != "" && current !in reachable {
        assert all - (reachable + {current}) == (all - reachable) - {current};
        reachable := reachable + {current};
        TargetsAreDocuments(graph, index, current);
        queue := Enqueue(graph, index, current, queue, reachable);
      }
    }
    forall document | IsReachable(graph, index, document)
      ensures document in reachable
    {
      ClosedHoldsReachable(graph, reachable, index, document);
    }
  }

  /** Adds the targets that have not been visited. */
  method Enqueue(graph: Graph, ghost index: string, current: string, queue: seq<string>, reachable: set<string>)
    returns (next: seq<string>)
    requires IsReachable(graph, index, current) && forall document :: document in graph ==> "" !in graph[document]
    ensures queue <= next
    ensures forall target :: target in Targets(graph, current) ==> target in reachable || target in next
    ensures forall document :: document in next ==>
              document in queue || (document in Targets(graph, current) && IsReachable(graph, index, document) && document != "")
  {
    next := queue;
    var targets := Targets(graph, current);
    for i := 0 to |targets|
      invariant queue <= next
      invariant forall j :: 0 <= j < i ==> targets[j] in reachable || targets[j] in next
      invariant forall document :: document in next ==>
                  document in queue || (document in targets && IsReachable(graph, index, document) && document != "")
    {
      ReachableFurther(graph, index, current, targets[i]);
      if targets[i] !in reachable {
        next := next + [targets[i]];
      }
    }
  }
}
