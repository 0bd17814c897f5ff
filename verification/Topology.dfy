/** The agent topology of a Run: what the three maps of the graph must say, and the ancestry they define. */
module Topology {
  import opened Outcomes
  import opened Sorting
  import Tables

  type Id = string

  datatype Agent = Agent(id: Id, runId: string, parent: Option<Id>, task: Option<string>, status: Tables.AgentStatus)

  datatype Edge = Edge(key: string, parent: Id, child: Id, runId: string, open: bool, task: Option<string>,
                       closedAt: Option<int>)

  datatype Snapshot = Snapshot(runId: string, agents: seq<Agent>, edges: seq<Edge>)

  datatype GraphError = WrongRun | DuplicateAgent | UnknownAgent | RootWithParent | ParentMismatch | TaskMismatch
                      | SelfParent | BadKey | DuplicateEdge | BadCloseTime | Reparented | BadTopology | NotResumable
                      | InvalidTransition

  type Agents = map<Id, Agent>
  type Edges = map<Id, Edge>
  type Index = map<Id, seq<Edge>>

  function SpawnKey(parent: Id, child: Id): string { "agent-spawn:" + parent + ":" + child }

  // ----- Ancestry -----

  datatype EdgeState = AnyEdge | OpenEdges | ClosedEdges

  predicate Passes(e: Edge, q: EdgeState) { q.AnyEdge? || (q.OpenEdges? <==> e.open) }

  /** The agent is `n` spawns below a root. */
  predicate Climbs(agents: Agents, a: Id, n: nat)
    decreases n
  {
    a in agents && match agents[a].parent case None => n == 0 case Some(p) => n > 0 && Climbs(agents, p, n - 1)
  }

  ghost predicate IsBelowRoot(agents: Agents, a: Id) { exists n: nat :: Climbs(agents, a, n) }

  lemma {:induction false} ClimbsOnce(agents: Agents, a: Id, n: nat, m: nat)
    requires Climbs(agents, a, n) && Climbs(agents, a, m)
    ensures n == m
    decreases n
  {
    if n > 0 && m > 0 {
      ClimbsOnce(agents, agents[a].parent.value, n - 1, m - 1);
    }
  }

  /** `k` spawns up from `b`, over edges in the given state, is `a`. */
  predicate StepsTo(agents: Agents, edges: Edges, q: EdgeState, b: Id, a: Id, k: nat)
    decreases k
  {
    if k == 0 then b == a
    else b in agents && agents[b].parent.Some? && b in edges && Passes(edges[b], q)
         && StepsTo(agents, edges, q, agents[b].parent.value, a, k - 1)
  }

  /** `b` descends from `a` over edges in the given state. */
  ghost predicate Under(agents: Agents, edges: Edges, q: EdgeState, a: Id, b: Id)
  {
    exists k: nat :: k > 0 && StepsTo(agents, edges, q, b, a, k)
  }

  lemma {:induction false} StepsClimb(agents: Agents, edges: Edges, q: EdgeState, b: Id, a: Id, k: nat, n: nat)
    requires StepsTo(agents, edges, q, b, a, k) && Climbs(agents, b, n)
    ensures k <= n && Climbs(agents, a, n - k)
    decreases k
  {
    if k > 0 {
      StepsClimb(agents, edges, q, agents[b].parent.value, a, k - 1, n - 1);
    }
  }

  lemma {:induction false} StepsCompose(agents: Agents, edges: Edges, q: EdgeState, c: Id, b: Id, a: Id, j: nat, k: nat)
    requires StepsTo(agents, edges, q, c, b, j) && StepsTo(agents, edges, q, b, a, k)
    ensures StepsTo(agents, edges, q, c, a, j + k)
    decreases j
  {
    if j > 0 {
      StepsCompose(agents, edges, q, agents[c].parent.value, b, a, j - 1, k);
    }
  }

  /** There is one agent `k` spawns up. */
  lemma {:induction false} StepsAgree(agents: Agents, edges: Edges, q: EdgeState, b: Id, a: Id, a': Id, k: nat)
    requires StepsTo(agents, edges, q, b, a, k) && StepsTo(agents, edges, q, b, a', k)
    ensures a == a'
    decreases k
  {
    if k > 0 {
      StepsAgree(agents, edges, q, agents[b].parent.value, a, a', k - 1);
    }
  }

  /** Root first, the agent itself last left out. */
  function Lineage(agents: Agents, a: Id, n: nat): seq<Id>
    requires Climbs(agents, a, n)
    decreases n
  {
    if n == 0 then [] else Lineage(agents, agents[a].parent.value, n - 1) + [agents[a].parent.value]
  }

  // ----- The invariant -----

  predicate EdgeOk(e: Edge, runId: string)
  {
    e.runId == runId && e.key == SpawnKey(e.parent, e.child) && e.parent != e.child && (e.open <==> e.closedAt.None?)
  }

  /** An agent and its spawn edge agree; a root has none. */
  predicate AgentLinked(agents: Agents, edges: Edges, a: Id)
    requires a in agents
  {
    match agents[a].parent
    case None => a !in edges
    case Some(p) => p in agents && a in edges && edges[a].parent == p && edges[a].task == agents[a].task
  }

  predicate Linked(agents: Agents, edges: Edges)
  {
    && (forall a :: a in agents ==> AgentLinked(agents, edges, a))
    && (forall c :: c in edges ==> edges[c].parent in agents && c in agents)
  }

  ghost predicate Forest(agents: Agents) { forall a :: a in agents ==> IsBelowRoot(agents, a) }

  function ChildOf(e: Edge): string { e.child }

  function ChildList(index: Index, p: Id): seq<Edge> { if p in index then index[p] else [] }

  /** The index lists exactly the edges of the parent, once each, in order of the child. */
  ghost predicate Indexed(edges: Edges, index: Index, p: Id)
  {
    && (p in index ==> index[p] != [])
    && InOrder(ChildList(index, p), ChildOf)
    && (forall e :: e in ChildList(index, p) <==> e.parent == p && e.child in edges && edges[e.child] == e)
    && DistinctBy(ChildList(index, p), ChildOf)
  }

  predicate Keyed(runId: string, agents: Agents, edges: Edges)
  {
    && (forall a :: a in agents ==> agents[a].id == a && agents[a].runId == runId)
    && (forall c :: c in edges ==> edges[c].child == c && EdgeOk(edges[c], runId))
  }

  ghost predicate AllIndexed(edges: Edges, index: Index) { forall p :: Indexed(edges, index, p) }

  ghost predicate WellFormed(runId: string, agents: Agents, edges: Edges, index: Index)
  {
    && Keyed(runId, agents, edges) && Linked(agents, edges) && Forest(agents)
    && AllIndexed(edges, index)
  }

  // ----- The index -----

  function Without(list: seq<Edge>, child: Id): (r: seq<Edge>)
    ensures forall e :: e in r <==> e in list && e.child != child
  {
    if list == [] then []
    else (if list[0].child == child then [] else [list[0]]) + Without(list[1..], child)
  }

  lemma {:induction false} WithoutDistinct(list: seq<Edge>, child: Id)
    requires DistinctBy(list, ChildOf)
    ensures DistinctBy(Without(list, child), ChildOf)
  {
    if list != [] {
      WithoutDistinct(list[1..], child);
      assert forall e :: e in list[1..] ==> ChildOf(e) != ChildOf(list[0]);
    }
  }

  /** `setEdge` on the index: the edge replaces the one of its child, and the list is sorted again. */
  function WithEdge(index: Index, e: Edge): Index
  {
    index[e.parent := Relisted(ChildList(index, e.parent), e)]
  }

  function Relisted(list: seq<Edge>, e: Edge): seq<Edge> { SortBy(Without(list, e.child) + [e], ChildOf) }

  lemma RelistedIsList(list: seq<Edge>, e: Edge)
    requires DistinctBy(list, ChildOf)
    ensures var r := Relisted(list, e);
            && r != [] && InOrder(r, ChildOf) && DistinctBy(r, ChildOf)
            && forall x :: x in r <==> x == e || (x in list && x.child != e.child)
  {
    hide SortBy, Without;
    var kept := Without(list, e.child);
    WithoutDistinct(list, e.child);
    assert forall i :: 0 <= i < |kept| ==> kept[i] in kept;
    Sorts(kept + [e], ChildOf);
    SortDistinct(kept + [e], ChildOf, ChildOf);
    var r := SortBy(kept + [e], ChildOf);
    assert forall x :: x in r <==> x in multiset(r);
    assert forall x :: x in kept + [e] <==> x in multiset(kept + [e]);
    assert e in kept + [e];
  }

  lemma WithEdgeIndexed(edges: Edges, index: Index, e: Edge, p: Id)
    requires Indexed(edges, index, p)
    requires e.child in edges ==> edges[e.child].parent == e.parent && edges[e.child].child == e.child
    ensures Indexed(edges[e.child := e], WithEdge(index, e), p)
  {
    hide Relisted, InOrder, DistinctBy;
    if p == e.parent {
      RelistedIsList(ChildList(index, p), e);
    }
  }

  // ----- Changes -----

  predicate SameParents(before: Agents, after: Agents)
  {
    forall a :: a in before ==> a in after && after[a].parent == before[a].parent
  }

  lemma {:induction false} ClimbsStill(before: Agents, after: Agents, a: Id, n: nat)
    requires SameParents(before, after) && Climbs(before, a, n)
    ensures Climbs(after, a, n)
    decreases n
  {
    if n > 0 {
      ClimbsStill(before, after, before[a].parent.value, n - 1);
    }
  }

  /** A new agent below one that is there, or a change that leaves parents alone, keeps the forest. */
  lemma ForestGrows(before: Agents, after: Agents, id: Id)
    requires Forest(before) && SameParents(before, after) && after.Keys == before.Keys + {id}
    requires id in before || after[id].parent.None? || after[id].parent.value in before
    ensures Forest(after)
  {
    forall a | a in after ensures IsBelowRoot(after, a) {
      if a in before {
        assert IsBelowRoot(before, a);
        var n: nat :| Climbs(before, a, n);
        ClimbsStill(before, after, a, n);
      } else if after[a].parent.None? {
        assert Climbs(after, a, 0);
      } else {
        var p := after[a].parent.value;
        assert IsBelowRoot(before, p);
        var n: nat :| Climbs(before, p, n);
        ClimbsStill(before, after, p, n);
        assert Climbs(after, a, n + 1);
      }
    }
  }

  lemma SetEdgeIndexed(edges: Edges, index: Index, e: Edge)
    requires AllIndexed(edges, index)
    requires e.child in edges ==> edges[e.child].parent == e.parent && edges[e.child].child == e.child
    ensures AllIndexed(edges[e.child := e], WithEdge(index, e))
  {
    var after, relisted := edges[e.child := e], WithEdge(index, e);
    hide WithEdge, Indexed;
    forall p ensures Indexed(after, relisted, p) {
      WithEdgeIndexed(edges, index, e, p);
    }
  }

  lemma RootJoins(runId: string, agents: Agents, edges: Edges, index: Index, agent: Agent)
    requires WellFormed(runId, agents, edges, index)
    requires agent.runId == runId && agent.parent.None? && agent.id !in agents
    ensures WellFormed(runId, agents[agent.id := agent], edges, index)
  {
    ForestGrows(agents, agents[agent.id := agent], agent.id);
    hide Forest, AllIndexed, EdgeOk;
  }

  lemma ChildJoins(runId: string, agents: Agents, edges: Edges, index: Index, agent: Agent, edge: Edge)
    requires WellFormed(runId, agents, edges, index)
    requires agent.runId == runId && agent.parent == Some(edge.parent) && agent.id !in agents && edge.parent in agents
    requires EdgeOk(edge, runId) && edge.child == agent.id && edge.task == agent.task
    ensures agent.id !in edges
    ensures WellFormed(runId, agents[agent.id := agent], edges[edge.child := edge], WithEdge(index, edge))
  {
    hide AllIndexed, EdgeOk, WithEdge, IsBelowRoot;
    assert agent.id !in edges;
    SetEdgeIndexed(edges, index, edge);
    ForestGrows(agents, agents[agent.id := agent], agent.id);
    ChildLinks(agents, edges, agent, edge);
    hide Forest, Linked;
  }

  lemma ChildLinks(agents: Agents, edges: Edges, agent: Agent, edge: Edge)
    requires Linked(agents, edges) && agent.parent == Some(edge.parent) && agent.id !in agents && edge.parent in agents
    requires edge.child == agent.id && edge.task == agent.task
    ensures Linked(agents[agent.id := agent], edges[edge.child := edge])
  {
  }

  lemma EdgeCloses(runId: string, agents: Agents, edges: Edges, index: Index, child: Id, at: int)
    requires WellFormed(runId, agents, edges, index) && child in edges && edges[child].open
    ensures edges[child].child == child
    ensures var closed := edges[child].(open := false, closedAt := Some(at));
            WellFormed(runId, agents, edges[child := closed], WithEdge(index, closed))
  {
    SetEdgeIndexed(edges, index, edges[child].(open := false, closedAt := Some(at)));
    hide Forest, AllIndexed, WithEdge;
  }

  lemma StatusMoves(runId: string, agents: Agents, edges: Edges, index: Index, id: Id, status: Tables.AgentStatus)
    requires WellFormed(runId, agents, edges, index) && id in agents
    ensures WellFormed(runId, agents[id := agents[id].(status := status)], edges, index)
  {
    ForestGrows(agents, agents[id := agents[id].(status := status)], id);
    hide Forest, AllIndexed, EdgeOk;
  }

  // ----- Relations between agents -----

  /** The agents above `b`, and only they, are those that it descends from. */
  lemma {:induction false} LineageIsAbove(agents: Agents, edges: Edges, b: Id, n: nat, a: Id)
    requires Linked(agents, edges) && Climbs(agents, b, n)
    ensures a in Lineage(agents, b, n) <==> Under(agents, edges, AnyEdge, a, b)
    decreases n
  {
    if n > 0 {
      var p := agents[b].parent.value;
      assert AgentLinked(agents, edges, b);
      LineageIsAbove(agents, edges, p, n - 1, a);
      if a == p {
        assert StepsTo(agents, edges, AnyEdge, p, a, 0);
        assert StepsTo(agents, edges, AnyEdge, b, a, 1);
      }
      if Under(agents, edges, AnyEdge, a, p) {
        var k: nat :| k > 0 && StepsTo(agents, edges, AnyEdge, p, a, k);
        assert StepsTo(agents, edges, AnyEdge, b, a, k + 1);
      }
      if Under(agents, edges, AnyEdge, a, b) {
        var k: nat :| k > 0 && StepsTo(agents, edges, AnyEdge, b, a, k);
        assert StepsTo(agents, edges, AnyEdge, p, a, k - 1);
        if k > 1 {
          assert Under(agents, edges, AnyEdge, a, p);
        }
      }
    }
  }

  /** No agent descends from itself, and no two siblings have a descendant in common. */
  lemma BranchesApart(agents: Agents, edges: Edges, q: EdgeState, p: Id, c: Id, d: Id, b: Id)
    requires Linked(agents, edges) && Forest(agents) && p in agents && c in agents && d in agents && b in agents
    requires agents[c].parent == Some(p) && agents[d].parent == Some(p) && c != d
    ensures !(b == c && Under(agents, edges, q, d, b))
    ensures !(Under(agents, edges, q, c, b) && Under(agents, edges, q, d, b))
  {
    assert IsBelowRoot(agents, b) && IsBelowRoot(agents, c) && IsBelowRoot(agents, d);
    var m: nat :| Climbs(agents, b, m);
    var i: nat :| Climbs(agents, c, i);
    var j: nat :| Climbs(agents, d, j);
    ClimbsOnce(agents, p, i - 1, j - 1);
    if Under(agents, edges, q, d, b) {
      var l: nat :| l > 0 && StepsTo(agents, edges, q, b, d, l);
      StepsClimb(agents, edges, q, b, d, l, m);
      ClimbsOnce(agents, d, m - l, j);
      if b == c {
        ClimbsOnce(agents, c, m, i);
      }
      if Under(agents, edges, q, c, b) {
        var k: nat :| k > 0 && StepsTo(agents, edges, q, b, c, k);
        StepsClimb(agents, edges, q, b, c, k, m);
        ClimbsOnce(agents, c, m - k, i);
        StepsAgree(agents, edges, q, b, c, d, k);
      }
    }
  }

  /** What lies under an agent is its children over such edges and what lies under them. */
  lemma UnderUnfolds(agents: Agents, edges: Edges, q: EdgeState, p: Id, b: Id)
    requires Linked(agents, edges)
    ensures Under(agents, edges, q, p, b) <==>
            exists c :: IsChild(agents, edges, q, p, c) && (b == c || Under(agents, edges, q, c, b))
  {
    if Under(agents, edges, q, p, b) {
      var k: nat :| k > 0 && StepsTo(agents, edges, q, b, p, k);
      var c := LastStep(agents, edges, q, b, p, k);
    }
    if c :| IsChild(agents, edges, q, p, c) && (b == c || Under(agents, edges, q, c, b)) {
      assert StepsTo(agents, edges, q, p, p, 0);
      assert StepsTo(agents, edges, q, c, p, 1);
      if b != c {
        var k: nat :| k > 0 && StepsTo(agents, edges, q, b, c, k);
        StepsCompose(agents, edges, q, b, c, p, k, 1);
      }
    }
  }

  predicate IsChild(agents: Agents, edges: Edges, q: EdgeState, p: Id, c: Id)
  {
    c in agents && agents[c].parent == Some(p) && c in edges && Passes(edges[c], q)
  }

  lemma {:induction false} LastStep(agents: Agents, edges: Edges, q: EdgeState, b: Id, p: Id, k: nat) returns (c: Id)
    requires k > 0 && StepsTo(agents, edges, q, b, p, k)
    ensures IsChild(agents, edges, q, p, c) && (b == c || Under(agents, edges, q, c, b))
    decreases k
  {
    if k == 1 {
      c := b;
      assert StepsTo(agents, edges, q, agents[b].parent.value, p, 0);
    } else {
      var parent := agents[b].parent.value;
      c := LastStep(agents, edges, q, parent, p, k - 1);
      if parent == c {
        assert StepsTo(agents, edges, q, parent, c, 0);
        assert StepsTo(agents, edges, q, b, c, 1);
      } else {
        var j: nat :| j > 0 && StepsTo(agents, edges, q, parent, c, j);
        assert StepsTo(agents, edges, q, b, c, j + 1);
      }
    }
  }

  /** The way to the root is open. */
  predicate OpenUp(agents: Agents, edges: Edges, a: Id, n: nat)
    requires Climbs(agents, a, n)
    decreases n
  {
    n == 0 || (a in edges && edges[a].open && OpenUp(agents, edges, agents[a].parent.value, n - 1))
  }

  predicate IsRoot(agents: Agents, a: Id) { a in agents && agents[a].parent.None? }

  /** ... exactly when a walk down over open edges from some root reaches the agent, or it is itself a root. */
  lemma {:induction false} OpenUpIsReached(agents: Agents, edges: Edges, a: Id, n: nat)
    requires Linked(agents, edges) && Climbs(agents, a, n)
    ensures OpenUp(agents, edges, a, n) <==>
            IsRoot(agents, a) || exists r :: IsRoot(agents, r) && Under(agents, edges, OpenEdges, r, a)
    decreases n
  {
    if n > 0 {
      var p := agents[a].parent.value;
      assert AgentLinked(agents, edges, a);
      OpenUpIsReached(agents, edges, p, n - 1);
      if edges[a].open {
        if IsRoot(agents, p) {
          assert StepsTo(agents, edges, OpenEdges, p, p, 0);
          assert StepsTo(agents, edges, OpenEdges, a, p, 1);
        }
        forall r | IsRoot(agents, r) && Under(agents, edges, OpenEdges, r, p)
          ensures Under(agents, edges, OpenEdges, r, a)
        {
          var k: nat :| k > 0 && StepsTo(agents, edges, OpenEdges, p, r, k);
          assert StepsTo(agents, edges, OpenEdges, a, r, k + 1);
        }
      }
      forall r | IsRoot(agents, r) && Under(agents, edges, OpenEdges, r, a)
        ensures edges[a].open && (r == p || Under(agents, edges, OpenEdges, r, p))
      {
        var k: nat :| k > 0 && StepsTo(agents, edges, OpenEdges, a, r, k);
        assert StepsTo(agents, edges, OpenEdges, p, r, k - 1);
      }
    }
  }
}
