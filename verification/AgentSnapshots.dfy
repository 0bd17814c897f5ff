/** Saving the agent graph and restoring it: what a restore accepts, and that every saved graph comes back. */
module AgentSnapshots {
  import opened Outcomes
  import opened Sorting
  import opened Text
  import opened Topology
  import opened AgentGraphs

  // ----- What a snapshot says -----

  function AgentMap(list: seq<Agent>): Agents
  {
    if list == [] then map[]
    else AgentMap(list[..|list| - 1])[list[|list| - 1].id := list[|list| - 1]]
  }

  function EdgeMap(list: seq<Edge>): Edges
  {
    if list == [] then map[]
    else EdgeMap(list[..|list| - 1])[list[|list| - 1].child := list[|list| - 1]]
  }

  predicate AgentsOk(runId: string, list: seq<Agent>)
  {
    && (forall i :: 0 <= i < |list| ==> list[i].runId == runId)
    && (forall i, j :: 0 <= i < j < |list| ==> list[i].id != list[j].id)
  }

  predicate EdgesOk(runId: string, list: seq<Edge>)
  {
    && (forall i :: 0 <= i < |list| ==> EdgeOk(list[i], runId))
    && (forall i, j :: 0 <= i < j < |list| ==> list[i].child != list[j].child)
  }

  /** The constructor accepts the snapshot. */
  ghost predicate Acceptable(s: Snapshot)
  {
    && AgentsOk(s.runId, s.agents) && EdgesOk(s.runId, s.edges)
    && Linked(AgentMap(s.agents), EdgeMap(s.edges)) && Forest(AgentMap(s.agents))
  }

  lemma {:induction false} AgentMapHolds(list: seq<Agent>)
    ensures forall a :: a in AgentMap(list) ==> AgentMap(list)[a].id == a && AgentMap(list)[a] in list
    ensures forall i :: 0 <= i < |list| ==> list[i].id in AgentMap(list)
  {
    if list != [] {
      AgentMapHolds(list[..|list| - 1]);
    }
  }

  lemma {:induction false} EdgeMapHolds(list: seq<Edge>)
    ensures forall c :: c in EdgeMap(list) ==> EdgeMap(list)[c].child == c && EdgeMap(list)[c] in list
    ensures forall i :: 0 <= i < |list| ==> list[i].child in EdgeMap(list)
  {
    if list != [] {
      EdgeMapHolds(list[..|list| - 1]);
    }
  }

  // ----- Restoring -----

  /** `assertAcyclicAncestry`. */
  method ReachesRoot(agents: Agents, edges: Edges, id: Id) returns (ok: bool)
    requires Linked(agents, edges) && id in agents
    ensures ok <==> IsBelowRoot(agents, id)
  {
    var visited, current := {}, id;
    while agents[current].parent.Some?
      invariant current in agents && visited <= agents.Keys
      invariant IsBelowRoot(agents, id) <==> IsBelowRoot(agents, current)
      invariant forall v :: v in visited ==> Under(agents, edges, AnyEdge, current, v)
      decreases agents.Keys - visited
    {
      if current in visited {
        NoCycleBelowRoot(agents, edges, current);
        return false;
      }
      visited := visited + {current};
      StepUp(agents, edges, current, visited);
      current := agents[current].parent.value;
    }
    assert Climbs(agents, current, 0);
    return true;
  }

  lemma NoCycleBelowRoot(agents: Agents, edges: Edges, a: Id)
    requires Under(agents, edges, AnyEdge, a, a)
    ensures !IsBelowRoot(agents, a)
  {
    if IsBelowRoot(agents, a) {
      var k: nat :| k > 0 && StepsTo(agents, edges, AnyEdge, a, a, k);
      var n: nat :| Climbs(agents, a, n);
      StepsClimb(agents, edges, AnyEdge, a, a, k, n);
      ClimbsOnce(agents, a, n - k, n);
    }
  }

  lemma StepUp(agents: Agents, edges: Edges, a: Id, visited: set<Id>)
    requires Linked(agents, edges) && a in agents && agents[a].parent.Some?
    requires forall v :: v in visited && v != a ==> Under(agents, edges, AnyEdge, a, v)
    ensures var p := agents[a].parent.value;
            && p in agents && (IsBelowRoot(agents, a) <==> IsBelowRoot(agents, p))
            && forall v :: v in visited ==> Under(agents, edges, AnyEdge, p, v)
  {
    var p := agents[a].parent.value;
    assert AgentLinked(agents, edges, a);
    if IsBelowRoot(agents, a) {
      var n: nat :| Climbs(agents, a, n);
      assert Climbs(agents, p, n - 1);
    }
    if IsBelowRoot(agents, p) {
      var n: nat :| Climbs(agents, p, n);
      assert Climbs(agents, a, n + 1);
    }
    assert StepsTo(agents, edges, AnyEdge, p, p, 0);
    assert StepsTo(agents, edges, AnyEdge, a, p, 1);
    forall v | v in visited ensures Under(agents, edges, AnyEdge, p, v) {
      if v != a {
        var k: nat :| k > 0 && StepsTo(agents, edges, AnyEdge, v, a, k);
        StepsCompose(agents, edges, AnyEdge, v, a, p, k, 1);
      }
    }
  }

  /** `assertTopology`. */
  method CheckTopology(agents: Agents, edges: Edges) returns (ok: bool)
    ensures ok <==> Linked(agents, edges) && Forest(agents)
  {
    var left := agents.Keys;
    while left != {}
      invariant left <= agents.Keys
      invariant forall a :: a in agents && a !in left ==> AgentLinked(agents, edges, a)
    {
      var a :| a in left;
      left := left - {a};
      if !AgentLinked(agents, edges, a) {
        return false;
      }
    }
    var children := edges.Keys;
    while children != {}
      invariant children <= edges.Keys
      invariant forall c :: c in edges && c !in children ==> edges[c].parent in agents && c in agents
    {
      var c :| c in children;
      children := children - {c};
      if edges[c].parent !in agents || c !in agents {
        return false;
      }
    }
    left := agents.Keys;
    hide AgentLinked, IsBelowRoot;
    while left != {}
      invariant left <= agents.Keys
      invariant forall a :: a in agents && a !in left ==> IsBelowRoot(agents, a)
    {
      var a :| a in left;
      left := left - {a};
      var reached := ReachesRoot(agents, edges, a);
      if !reached {
        return false;
      }
    }
    return true;
  }

  method AddAgents(graph: AgentGraph, list: seq<Agent>) returns (ok: bool)
    requires graph.agentsById == map[]
    modifies graph`agentsById
    ensures ok <==> AgentsOk(graph.runId, list)
    ensures ok ==> graph.agentsById == AgentMap(list)
  {
    for i := 0 to |list|
      invariant AgentsOk(graph.runId, list[..i]) && graph.agentsById == AgentMap(list[..i])
    {
      hide AgentsOk, AgentMap;
      var agent := list[i];
      if agent.runId != graph.runId || agent.id in graph.agentsById {
        AgentRefused(graph.runId, list, i);
        return false;
      }
      AgentAccepted(graph.runId, list, i);
      graph.agentsById := graph.agentsById[agent.id := agent];
    }
    assert list[..|list|] == list;
    return true;
  }

  method AddEdges(graph: AgentGraph, list: seq<Edge>) returns (ok: bool)
    requires graph.edgesByChild == map[] && graph.edgesByParent == map[]
    modifies graph`edgesByChild, graph`edgesByParent
    ensures ok <==> EdgesOk(graph.runId, list)
    ensures ok ==> graph.edgesByChild == EdgeMap(list) && AllIndexed(graph.edgesByChild, graph.edgesByParent)
  {
    hide AllIndexed, WithEdge, EdgeOk;
    EmptyIndexed();
    for i := 0 to |list|
      invariant EdgesOk(graph.runId, list[..i]) && graph.edgesByChild == EdgeMap(list[..i])
      invariant AllIndexed(graph.edgesByChild, graph.edgesByParent)
    {
      var edge := list[i];
      EdgeMapHolds(list[..i]);
      assert list[..i + 1] == list[..i] + [edge];
      if !EdgeOk(edge, graph.runId) || edge.child in graph.edgesByChild {
        EdgeRefused(graph.runId, list, i);
        return false;
      }
      var error := graph.SetEdge(edge);
      assert error.None?;
    }
    assert list[..|list|] == list;
    return true;
  }

  /** The constructor: it accepts a snapshot exactly when it is one of a forest whose agents and edges agree, and builds
      that forest. */
  method Restore(s: Snapshot) returns (graph: AgentGraph, ok: bool)
    ensures fresh(graph) && graph.runId == s.runId
    ensures ok <==> Acceptable(s)
    ensures ok ==> graph.Valid() && graph.agentsById == AgentMap(s.agents) && graph.edgesByChild == EdgeMap(s.edges)
  {
    hide Linked, Forest, AllIndexed, EdgeOk;
    graph := new AgentGraph(s.runId);
    ok := AddAgents(graph, s.agents);
    if !ok {
      return graph, false;
    }
    ok := AddEdges(graph, s.edges);
    if !ok {
      return graph, false;
    }
    ok := CheckTopology(graph.agentsById, graph.edgesByChild);
    AgentMapHolds(s.agents);
    EdgeMapHolds(s.edges);
  }

  lemma EmptyIndexed()
    ensures AllIndexed(map[], map[])
  {
  }

  lemma AgentMapStep(list: seq<Agent>, i: nat)
    requires i < |list|
    ensures AgentMap(list[..i + 1]) == AgentMap(list[..i])[list[i].id := list[i]]
  {
    assert list[..i + 1][..i] == list[..i];
  }

  lemma AgentAccepted(runId: string, list: seq<Agent>, i: nat)
    requires i < |list| && AgentsOk(runId, list[..i]) && list[i].runId == runId && list[i].id !in AgentMap(list[..i])
    ensures AgentsOk(runId, list[..i + 1]) && AgentMap(list[..i + 1]) == AgentMap(list[..i])[list[i].id := list[i]]
  {
    hide AgentMap;
    AgentMapHolds(list[..i]);
    AgentMapStep(list, i);
    var before, after := list[..i], list[..i + 1];
    assert after == before + [list[i]];
    assert forall j :: 0 <= j < i ==> before[j].id in AgentMap(before);
  }

  lemma AgentRefused(runId: string, list: seq<Agent>, i: nat)
    requires i < |list|
    requires list[i].runId != runId || list[i].id in AgentMap(list[..i])
    ensures !AgentsOk(runId, list)
  {
    AgentMapHolds(list[..i]);
    if list[i].id in AgentMap(list[..i]) {
      var other := AgentMap(list[..i])[list[i].id];
      var j :| 0 <= j < i && list[..i][j] == other;
      assert list[j].id == list[i].id;
    }
  }

  lemma EdgeRefused(runId: string, list: seq<Edge>, i: nat)
    requires i < |list|
    requires !EdgeOk(list[i], runId) || list[i].child in EdgeMap(list[..i])
    ensures !EdgesOk(runId, list)
  {
    hide EdgeOk;
    EdgeMapHolds(list[..i]);
    if list[i].child in EdgeMap(list[..i]) {
      var other := EdgeMap(list[..i])[list[i].child];
      var j :| 0 <= j < i && list[..i][j] == other;
      assert list[j].child == list[i].child;
    }
  }

  // ----- Saving -----

  function IdOf(a: Agent): string { a.id }

  function KeyOf(e: Edge): string { e.key }

  function AgentValues(agents: Agents): (r: seq<Agent>)
    ensures |r| == |agents.Keys|
  {
    var keys := SortedKeys(agents.Keys);
    seq(|keys|, i requires 0 <= i < |keys| => assert keys[i] in keys; agents[keys[i]])
  }

  function EdgeValues(edges: Edges): (r: seq<Edge>)
    ensures |r| == |edges.Keys|
  {
    var keys := SortedKeys(edges.Keys);
    seq(|keys|, i requires 0 <= i < |keys| => assert keys[i] in keys; edges[keys[i]])
  }

  /** `snapshot`: agents in order of id, edges in order of key. */
  function SnapshotOf(runId: string, agents: Agents, edges: Edges): Snapshot
  {
    Snapshot(runId, SortBy(AgentValues(agents), IdOf), SortBy(EdgeValues(edges), KeyOf))
  }

  /** A list that holds the values of a table once each. */
  predicate ListsAgents(list: seq<Agent>, agents: Agents)
  {
    && (forall i :: 0 <= i < |list| ==> list[i].id in agents && agents[list[i].id] == list[i])
    && (forall i, j :: 0 <= i < j < |list| ==> list[i].id != list[j].id)
    && (forall a :: a in agents ==> agents[a] in list)
  }

  predicate ListsEdges(list: seq<Edge>, edges: Edges)
  {
    && (forall i :: 0 <= i < |list| ==> list[i].child in edges && edges[list[i].child] == list[i])
    && (forall i, j :: 0 <= i < j < |list| ==> list[i].child != list[j].child)
    && (forall c :: c in edges ==> edges[c] in list)
  }

  lemma ListedAnyway(list: seq<Agent>, r: seq<Agent>, agents: Agents)
    requires ListsAgents(list, agents) && multiset(r) == multiset(list) && DistinctBy(r, IdOf)
    ensures ListsAgents(r, agents)
  {
    assert forall x :: x in r <==> x in multiset(r);
    assert forall x :: x in list <==> x in multiset(list);
    assert forall i :: 0 <= i < |r| ==> r[i] in list;
    assert forall i, j :: 0 <= i < j < |r| ==> IdOf(r[i]) != IdOf(r[j]);
  }

  lemma EdgesListedAnyway(list: seq<Edge>, r: seq<Edge>, edges: Edges)
    requires ListsEdges(list, edges) && multiset(r) == multiset(list) && DistinctBy(r, ChildOf)
    ensures ListsEdges(r, edges)
  {
    assert forall x :: x in r <==> x in multiset(r);
    assert forall x :: x in list <==> x in multiset(list);
    assert forall i :: 0 <= i < |r| ==> r[i] in list;
    assert forall i, j :: 0 <= i < j < |r| ==> ChildOf(r[i]) != ChildOf(r[j]);
  }

  lemma AgentsListed(agents: Agents)
    requires forall a :: a in agents ==> agents[a].id == a
    ensures ListsAgents(SortBy(AgentValues(agents), IdOf), agents)
  {
    var keys, values := SortedKeys(agents.Keys), AgentValues(agents);
    hide SortedKeys, SortBy;
    assert forall i :: 0 <= i < |keys| ==> keys[i] in agents && values[i] == agents[keys[i]];
    forall a | a in agents ensures agents[a] in values {
      var i :| 0 <= i < |keys| && keys[i] == a;
      assert values[i] in values;
    }
    hide AgentValues;
    Sorts(values, IdOf);
    SortDistinct(values, IdOf, IdOf);
    ListedAnyway(values, SortBy(values, IdOf), agents);
  }

  lemma EdgesListed(edges: Edges)
    requires forall c :: c in edges ==> edges[c].child == c
    ensures ListsEdges(SortBy(EdgeValues(edges), KeyOf), edges)
  {
    var keys, values := SortedKeys(edges.Keys), EdgeValues(edges);
    hide SortedKeys, SortBy;
    assert forall i :: 0 <= i < |keys| ==> keys[i] in edges && values[i] == edges[keys[i]];
    forall c | c in edges ensures edges[c] in values {
      var i :| 0 <= i < |keys| && keys[i] == c;
      assert values[i] in values;
    }
    hide EdgeValues;
    Sorts(values, KeyOf);
    SortDistinct(values, KeyOf, ChildOf);
    EdgesListedAnyway(values, SortBy(values, KeyOf), edges);
  }

  lemma ListedAgentMap(list: seq<Agent>, agents: Agents)
    requires ListsAgents(list, agents) && forall a :: a in agents ==> agents[a].id == a
    ensures AgentMap(list) == agents
  {
    AgentMapHolds(list);
    hide AgentMap;
    forall a | a in agents ensures a in AgentMap(list) {
      var i :| 0 <= i < |list| && list[i] == agents[a];
      assert list[i].id in AgentMap(list);
    }
    forall a | a in AgentMap(list) ensures a in agents && AgentMap(list)[a] == agents[a] {
      var i :| 0 <= i < |list| && list[i] == AgentMap(list)[a];
    }
  }

  lemma ListedEdgeMap(list: seq<Edge>, edges: Edges)
    requires ListsEdges(list, edges) && forall c :: c in edges ==> edges[c].child == c
    ensures EdgeMap(list) == edges
  {
    EdgeMapHolds(list);
    hide EdgeMap;
    forall c | c in edges ensures c in EdgeMap(list) {
      var i :| 0 <= i < |list| && list[i] == edges[c];
      assert list[i].child in EdgeMap(list);
    }
    forall c | c in EdgeMap(list) ensures c in edges && EdgeMap(list)[c] == edges[c] {
      var i :| 0 <= i < |list| && list[i] == EdgeMap(list)[c];
    }
  }

  /** The index is determined by the edges. */
  lemma IndexUnique(edges: Edges, index: Index, other: Index)
    requires AllIndexed(edges, index) && AllIndexed(edges, other)
    ensures index == other
  {
    hide InOrder, DistinctBy;
    forall p ensures ChildList(index, p) == ChildList(other, p) && (p in index <==> p in other) {
      assert Indexed(edges, index, p) && Indexed(edges, other, p);
      SortedUnique(ChildList(index, p), ChildList(other, p), ChildOf);
    }
    assert forall p :: p in index ==> index[p] == ChildList(index, p);
    assert forall p :: p in other ==> other[p] == ChildList(other, p);
  }

  /** Every snapshot of a graph is accepted, and the restored graph is the same in all three maps. */
  lemma SnapshotRestores(runId: string, agents: Agents, edges: Edges, index: Index, restored: Index)
    requires WellFormed(runId, agents, edges, index)
    ensures var s := SnapshotOf(runId, agents, edges);
            && Acceptable(s) && AgentMap(s.agents) == agents && EdgeMap(s.edges) == edges
            && (AllIndexed(EdgeMap(s.edges), restored) ==> restored == index)
  {
    hide Linked, Forest, AllIndexed, SortBy, AgentValues, EdgeValues, AgentMap, EdgeMap, EdgeOk;
    AgentsListed(agents);
    EdgesListed(edges);
    var s := SnapshotOf(runId, agents, edges);
    ListedAgentMap(s.agents, agents);
    ListedEdgeMap(s.edges, edges);
    if AllIndexed(edges, restored) {
      IndexUnique(edges, index, restored);
    }
  }
}
