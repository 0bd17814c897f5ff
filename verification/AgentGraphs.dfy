/** The in-memory agent graph: its operations, its walks, and its snapshots. */
module AgentGraphs {
  import opened Outcomes
  import opened Sorting
  import opened Text
  import opened Topology
  import Tables

  class AgentGraph {
    const runId: string
    var agentsById: Agents
    var edgesByChild: Edges
    var edgesByParent: Index

    ghost predicate Valid()
      reads this
    {
      WellFormed(runId, agentsById, edgesByChild, edgesByParent)
    }

    constructor (runId: string)
      ensures Valid() && this.runId == runId
      ensures agentsById == map[] && edgesByChild == map[] && edgesByParent == map[]
    {
      this.runId := runId;
      agentsById, edgesByChild, edgesByParent := map[], map[], map[];
    }

    // ----- Changing the graph -----

    method RegisterRoot(agent: Agent) returns (error: Option<GraphError>)
      requires Valid()
      modifies this
      ensures Valid()
      ensures error.None? <==> agent.runId == runId && agent.parent.None? && agent.id !in old(agentsById)
      ensures agentsById == if error.None? then old(agentsById)[agent.id := agent] else old(agentsById)
      ensures edgesByChild == old(edgesByChild) && edgesByParent == old(edgesByParent)
    {
      hide WellFormed;
      if agent.runId != runId {
        return Some(GraphError.WrongRun);
      }
      if agent.parent.Some? {
        return Some(RootWithParent);
      }
      if agent.id in agentsById {
        return Some(DuplicateAgent);
      }
      RootJoins(runId, agentsById, edgesByChild, edgesByParent, agent);
      agentsById := agentsById[agent.id := agent];
      return None;
    }

    /** `setEdge`: no child is moved to another parent. */
    method SetEdge(e: Edge) returns (error: Option<GraphError>)
      requires AllIndexed(edgesByChild, edgesByParent)
      requires e.child in edgesByChild ==> edgesByChild[e.child].child == e.child
      modifies `edgesByChild, `edgesByParent
      ensures error.None? <==> e.child in old(edgesByChild) ==> old(edgesByChild)[e.child].parent == e.parent
      ensures error.None? ==>
                edgesByChild == old(edgesByChild)[e.child := e] && edgesByParent == WithEdge(old(edgesByParent), e)
      ensures error.Some? ==> edgesByChild == old(edgesByChild) && edgesByParent == old(edgesByParent)
      ensures AllIndexed(edgesByChild, edgesByParent)
    {
      hide AllIndexed, SortBy, Without;
      if e.child in edgesByChild && edgesByChild[e.child].parent != e.parent {
        return Some(Reparented);
      }
      SetEdgeIndexed(edgesByChild, edgesByParent, e);
      edgesByChild := edgesByChild[e.child := e];
      var children := ChildList(edgesByParent, e.parent);
      var list := SortBy(Without(children, e.child) + [e], ChildOf);
      edgesByParent := edgesByParent[e.parent := list];
      return None;
    }

    method Spawn(agent: Agent, parent: Id, task: Option<string>) returns (error: Option<GraphError>)
      requires Valid()
      modifies this
      ensures Valid()
      ensures error.None? <==>
                && agent.runId == runId && parent in old(agentsById) && agent.id !in old(agentsById)
                && agent.parent == Some(parent) && (task.Some? ==> task == agent.task)
      ensures error.None? ==>
                && agentsById == old(agentsById)[agent.id := agent]
                && edgesByChild == old(edgesByChild)[agent.id := Edge(SpawnKey(parent, agent.id), parent, agent.id,
                    runId, true, agent.task, None)]
      ensures error.Some? ==>
                agentsById == old(agentsById) && edgesByChild == old(edgesByChild)
                    && edgesByParent == old(edgesByParent)
    {
      if agent.runId != runId {
        return Some(GraphError.WrongRun);
      }
      if parent !in agentsById {
        return Some(UnknownAgent);
      }
      if agent.id in agentsById {
        return Some(DuplicateAgent);
      }
      if agent.id == parent {
        return Some(SelfParent);
      }
      if agent.parent != Some(parent) {
        return Some(ParentMismatch);
      }
      if task.Some? && task != agent.task {
        return Some(TaskMismatch);
      }
      var edge := Edge(SpawnKey(parent, agent.id), parent, agent.id, runId, true, agent.task, None);
      ChildJoins(runId, agentsById, edgesByChild, edgesByParent, agent, edge);
      hide Linked, Keyed, Forest, AllIndexed, WithEdge;
      agentsById := agentsById[agent.id := agent];
      error := SetEdge(edge);
    }

    method CloseSpawnEdge(child: Id, closedAt: int) returns (error: Option<GraphError>)
      requires Valid()
      modifies `edgesByChild, `edgesByParent
      ensures Valid()
      ensures error.None? <==> child in old(edgesByChild)
      ensures error.None? ==>
                var e := old(edgesByChild)[child];
                edgesByChild == if e.open then old(edgesByChild)[child := e.(open := false, closedAt := Some(closedAt))]
                                else old(edgesByChild)
      ensures error.Some? || !old(edgesByChild)[child].open ==>
                edgesByChild == old(edgesByChild) && edgesByParent == old(edgesByParent)
    {
      if child !in edgesByChild {
        return Some(UnknownAgent);
      }
      var current := edgesByChild[child];
      if !current.open {
        return None;
      }
      EdgeCloses(runId, agentsById, edgesByChild, edgesByParent, child, closedAt);
      hide Linked, Keyed, Forest, AllIndexed, WithEdge;
      error := SetEdge(current.(open := false, closedAt := Some(closedAt)));
    }

    method TransitionAgent(id: Id, status: Tables.AgentStatus) returns (error: Option<GraphError>)
      requires Valid()
      modifies `agentsById
      ensures Valid()
      ensures error.None? <==>
                && id in old(agentsById)
                && (old(agentsById)[id].status == status || Tables.CanMoveAgent(old(agentsById)[id].status, status))
      ensures agentsById == if error.None? then old(agentsById)[id := old(agentsById)[id].(status := status)]
                            else old(agentsById)
    {
      hide WellFormed, Tables.CanMoveAgent;
      if id !in agentsById {
        return Some(UnknownAgent);
      }
      var current := agentsById[id];
      if current.status == status {
        assert current == current.(status := status);
        assert agentsById == agentsById[id := current];
        return None;
      }
      if !Tables.CanMoveAgent(current.status, status) {
        return Some(GraphError.InvalidTransition);
      }
      StatusMoves(runId, agentsById, edgesByChild, edgesByParent, id, status);
      agentsById := agentsById[id := current.(status := status)];
      return None;
    }

    // ----- Walking up -----

    /** `ancestors`: from the root down to the parent. No cycle can stop it. */
    method Ancestors(id: Id) returns (lineage: seq<Id>)
      requires Valid() && id in agentsById
      ensures forall n: nat :: Climbs(agentsById, id, n) ==> lineage == Lineage(agentsById, id, n)
      ensures forall a :: a in lineage <==> Under(agentsById, edgesByChild, AnyEdge, a, id)
    {
      assert IsBelowRoot(agentsById, id) && Linked(agentsById, edgesByChild);
      assert forall a :: a in agentsById ==> agentsById[a].id == a;
      hide Valid;
      ghost var depth: nat :| Climbs(agentsById, id, depth);
      lineage := [];
      var visited := {id};
      var current := agentsById[id];
      ghost var left := depth;
      assert ClimbsAtLeast(agentsById, id, left);
      while current.parent.Some?
        invariant current.id in agentsById && agentsById[current.id] == current && Climbs(agentsById, current.id, left)
        invariant Lineage(agentsById, id, depth) == Lineage(agentsById, current.id, left) + lineage
        invariant forall v :: v in visited ==> ClimbsAtLeast(agentsById, v, left)
        decreases left
      {
        var parent := current.parent.value;
        assert AgentLinked(agentsById, edgesByChild, current.id);
        assert parent !in visited by {
          if parent in visited {
            var m: nat :| m >= left && Climbs(agentsById, parent, m);
            ClimbsOnce(agentsById, parent, m, left - 1);
          }
        }
        assert Climbs(agentsById, parent, left - 1);
        visited := visited + {parent};
        current := agentsById[parent];
        lineage := [parent] + lineage;
        left := left - 1;
      }
      forall n: nat | Climbs(agentsById, id, n) ensures n == depth {
        ClimbsOnce(agentsById, id, n, depth);
      }
      forall a ensures a in lineage <==> Under(agentsById, edgesByChild, AnyEdge, a, id) {
        LineageIsAbove(agentsById, edgesByChild, id, depth, a);
      }
    }

    /** `hasOpenAncestry`: just when the agent is a root, or a walk over open edges from a root comes to it. */
    method HasOpenAncestry(id: Id) returns (isOpen: bool)
      requires Valid() && id in agentsById
      ensures isOpen <==> IsRoot(agentsById, id)
                          || exists r :: IsRoot(agentsById, r) && Under(agentsById, edgesByChild, OpenEdges, r, id)
    {
      assert IsBelowRoot(agentsById, id);
      ghost var depth: nat :| Climbs(agentsById, id, depth);
      OpenUpIsReached(agentsById, edgesByChild, id, depth);
      var current := agentsById[id];
      ghost var left := depth;
      while current.parent.Some?
        invariant current.id in agentsById && agentsById[current.id] == current && Climbs(agentsById, current.id, left)
        invariant OpenUp(agentsById, edgesByChild, id, depth) <==> OpenUp(agentsById, edgesByChild, current.id, left)
        decreases left
      {
        assert AgentLinked(agentsById, edgesByChild, current.id);
        if current.id !in edgesByChild || !edgesByChild[current.id].open {
          return false;
        }
        current := agentsById[current.parent.value];
        left := left - 1;
      }
      return true;
    }

    /** `resumeAgent`: only behind open edges does an agent come back into the queue. */
    method ResumeAgent(id: Id) returns (error: Option<GraphError>)
      requires Valid()
      modifies `agentsById
      ensures Valid()
      ensures error.None? <==>
                && id in old(agentsById) && IsResumable(old(agentsById)[id].status)
                && (IsRoot(old(agentsById), id)
                    || exists r :: IsRoot(old(agentsById), r) && Under(old(agentsById), edgesByChild, OpenEdges, r, id))
      ensures agentsById == if error.None?
                            then old(agentsById)[id := old(agentsById)[id].(status := Tables.AgentQueued)]
                            else old(agentsById)
    {
      if id !in agentsById {
        return Some(UnknownAgent);
      }
      if !IsResumable(agentsById[id].status) {
        return Some(NotResumable);
      }
      var reached := HasOpenAncestry(id);
      if !reached {
        return Some(NotResumable);
      }
      error := TransitionAgent(id, Tables.AgentQueued);
    }

    // ----- Walking down -----

    function ChildEdges(p: Id, q: EdgeState): (r: seq<Edge>)
      reads this
      ensures forall e :: e in r <==> e in ChildList(edgesByParent, p) && Passes(e, q)
    {
      Filter(ChildList(edgesByParent, p), q)
    }

    /** The walk over children and, below each child before the next, its own children: `depth` levels of it. */
    function DepthFirst(p: Id, q: EdgeState, depth: nat): seq<Id>
      reads this
      decreases depth, 1, 0
    {
      Branches(ChildEdges(p, q), q, depth)
    }

    function Branches(edges: seq<Edge>, q: EdgeState, depth: nat): seq<Id>
      reads this
      decreases depth, 0, |edges|
    {
      if edges == [] then []
      else
        var last := edges[|edges| - 1].child;
        Branches(edges[..|edges| - 1], q, depth) + ([last] + if depth == 0 then [] else DepthFirst(last, q, depth - 1))
    }

    /** `descendants`: every agent below `id` over edges in the given state, each exactly once, depth first. No cycle
        can stop it. */
    method Descendants(id: Id, q: EdgeState) returns (found: seq<Id>)
      requires Valid() && id in agentsById
      ensures Distinct(found)
      ensures forall b :: b in found <==> Under(agentsById, edgesByChild, q, id, b)
      ensures found == DepthFirst(id, q, |agentsById|)
    {
      forall b | Under(agentsById, edgesByChild, q, id, b) ensures b != id { NotUnderItself(id, q); }
      Smaller(agentsById.Keys - {id}, agentsById.Keys);
      var visited;
      found, visited := Visit(id, q, {id}, |agentsById|);
    }

    ghost predicate AtOrUnder(q: EdgeState, c: Id, b: Id)
      reads this
    {
      b == c || Under(agentsById, edgesByChild, q, c, b)
    }

    /** Found are the first `i` children and all below them. */
    ghost predicate Covers(q: EdgeState, edges: seq<Edge>, i: nat, found: seq<Id>)
      requires i <= |edges|
      reads this
    {
      forall b :: b in found <==> exists j :: 0 <= j < i && AtOrUnder(q, edges[j].child, b)
    }

    /** One level of the walk: the children of `p`, each with what lies below it. */
    method Visit(p: Id, q: EdgeState, visited: set<Id>, ghost depth: nat) returns (found: seq<Id>, seen: set<Id>)
      requires Valid() && p in agentsById && visited <= agentsById.Keys && depth >= |agentsById.Keys - visited|
      requires forall b :: Under(agentsById, edgesByChild, q, p, b) ==> b !in visited
      ensures Distinct(found) && found == DepthFirst(p, q, depth)
      ensures forall b :: b in found <==> Under(agentsById, edgesByChild, q, p, b)
      ensures seen == visited + Members(found) && seen <= agentsById.Keys
      decreases agentsById.Keys - visited
    {
      hide AtOrUnder, Under, ChildEdges, Branches, Valid, Covers, Members, Distinct;
      found, seen := [], visited;
      var edges := ChildEdges(p, q);
      NothingFound(q, edges, depth);
      for i := 0 to |edges|
        invariant Distinct(found) && Covers(q, edges, i, found) && found == Branches(edges[..i], q, depth)
        invariant seen == visited + Members(found) && seen <= agentsById.Keys
      {
        hide DepthFirst;
        var c := edges[i].child;
        BranchUnseen(p, q, i, visited, found);
        Fewer(agentsById.Keys, visited, seen + {c}, c);
        ghost var before := found;
        var below;
        below, seen := Visit(c, q, seen + {c}, depth - 1);
        BranchJoins(q, edges, i, before, below);
        OneMoreBranch(edges, i, q, depth);
        found := found + ([c] + below);
      }
      assert edges[..|edges|] == edges;
      AllFound(p, q, found);
    }

    lemma AllFound(p: Id, q: EdgeState, found: seq<Id>)
      requires Valid() && p in agentsById && Covers(q, ChildEdges(p, q), |ChildEdges(p, q)|, found)
      ensures forall b :: b in found <==> Under(agentsById, edgesByChild, q, p, b)
    {
      hide Under, ChildEdges, Valid, AtOrUnder;
      forall b ensures b in found <==> Under(agentsById, edgesByChild, q, p, b) { BranchesCover(p, q, b); }
    }

    lemma BranchUnseen(p: Id, q: EdgeState, i: nat, visited: set<Id>, found: seq<Id>)
      requires Valid() && p in agentsById && i < |ChildEdges(p, q)| && Covers(q, ChildEdges(p, q), i, found)
      requires forall b :: Under(agentsById, edgesByChild, q, p, b) ==> b !in visited
      ensures var c := ChildEdges(p, q)[i].child;
              && c in agentsById && !Under(agentsById, edgesByChild, q, c, c) && c !in visited + Members(found)
              && c !in found
              && forall b :: Under(agentsById, edgesByChild, q, c, b) ==> b !in visited + Members(found) && b !in found
    {
      var c := ChildEdges(p, q)[i].child;
      hide Valid, Under, ChildEdges;
      BranchIsNew(p, q, i);
      AtOrUnderMeans(q, c);
      hide AtOrUnder;
      assert forall b :: AtOrUnder(q, c, b) ==> b !in visited && b !in found;
    }

    /** A branch that was not seen before joins what was found. */
    lemma BranchJoins(q: EdgeState, edges: seq<Edge>, i: nat, found: seq<Id>, below: seq<Id>)
      requires i < |edges| && Covers(q, edges, i, found) && Distinct(found) && Distinct(below)
      requires edges[i].child !in found && edges[i].child !in below && forall b :: b in below ==> b !in found
      requires forall b :: b in below <==> Under(agentsById, edgesByChild, q, edges[i].child, b)
      ensures Distinct(found + ([edges[i].child] + below))
      ensures Covers(q, edges, i + 1, found + ([edges[i].child] + below))
      ensures Members(found + ([edges[i].child] + below)) == Members(found) + {edges[i].child} + Members(below)
    {
      hide Under;
      AtOrUnderMeans(q, edges[i].child);
      DistinctJoin(found, [edges[i].child] + below);
    }

    lemma NothingFound(q: EdgeState, edges: seq<Edge>, depth: nat)
      ensures Branches(edges[..0], q, depth) == [] && Covers(q, edges, 0, []) && Distinct([]) && Members([]) == {}
    {
    }

    lemma OneMoreBranch(edges: seq<Edge>, i: nat, q: EdgeState, depth: nat)
      requires i < |edges| && depth > 0
      ensures Branches(edges[..i + 1], q, depth)
           == Branches(edges[..i], q, depth) + ([edges[i].child] + DepthFirst(edges[i].child, q, depth - 1))
    {
      hide DepthFirst;
      assert edges[..i + 1][..i] == edges[..i];
    }

    lemma AtOrUnderMeans(q: EdgeState, c: Id)
      ensures forall b :: AtOrUnder(q, c, b) <==> b == c || Under(agentsById, edgesByChild, q, c, b)
    {
    }

    lemma ChildrenListed(p: Id, q: EdgeState)
      requires Valid()
      ensures DistinctBy(ChildEdges(p, q), ChildOf)
      ensures forall c :: IsChild(agentsById, edgesByChild, q, p, c) <==>
                          exists i :: 0 <= i < |ChildEdges(p, q)| && ChildEdges(p, q)[i].child == c
    {
      assert Indexed(edgesByChild, edgesByParent, p);
      var list := ChildEdges(p, q);
      FilterDistinct(ChildList(edgesByParent, p), q);
      forall c | IsChild(agentsById, edgesByChild, q, p, c) ensures exists i :: 0 <= i < |list| && list[i].child == c {
        assert AgentLinked(agentsById, edgesByChild, c);
        assert edgesByChild[c] in list;
      }
      forall i | 0 <= i < |list| ensures IsChild(agentsById, edgesByChild, q, p, list[i].child) {
        assert list[i] in list;
        assert AgentLinked(agentsById, edgesByChild, list[i].child);
      }
    }

    /** Nothing in the branch of a child was in the branch of an earlier one. */
    lemma BranchIsNew(p: Id, q: EdgeState, i: nat)
      requires Valid() && p in agentsById && i < |ChildEdges(p, q)|
      ensures var edges := ChildEdges(p, q);
              var c := edges[i].child;
              && c in agentsById && !Under(agentsById, edgesByChild, q, c, c)
              && forall b :: AtOrUnder(q, c, b) ==>
                   && Under(agentsById, edgesByChild, q, p, b)
                   && forall j :: 0 <= j < i ==> !AtOrUnder(q, edges[j].child, b)
    {
      var edges := ChildEdges(p, q);
      var c := edges[i].child;
      ChildrenListed(p, q);
      assert IsChild(agentsById, edgesByChild, q, p, c);
      NotUnderItself(c, q);
      forall b | AtOrUnder(q, c, b)
        ensures Under(agentsById, edgesByChild, q, p, b)
        ensures forall j :: 0 <= j < i ==> !AtOrUnder(q, edges[j].child, b)
      {
        UnderUnfolds(agentsById, edgesByChild, q, p, b);
        forall j | 0 <= j < i ensures !AtOrUnder(q, edges[j].child, b) {
          assert ChildOf(edges[j]) != ChildOf(edges[i]);
          assert IsChild(agentsById, edgesByChild, q, p, edges[j].child);
          BranchesApart(agentsById, edgesByChild, q, p, c, edges[j].child, b);
          BranchesApart(agentsById, edgesByChild, q, p, edges[j].child, c, b);
        }
      }
    }

    lemma BranchesCover(p: Id, q: EdgeState, b: Id)
      requires Valid() && p in agentsById
      ensures Under(agentsById, edgesByChild, q, p, b) <==>
              exists j :: 0 <= j < |ChildEdges(p, q)| && AtOrUnder(q, ChildEdges(p, q)[j].child, b)
    {
      hide Under, ChildEdges;
      ChildrenListed(p, q);
      UnderUnfolds(agentsById, edgesByChild, q, p, b);
      var edges := ChildEdges(p, q);
      if c :| IsChild(agentsById, edgesByChild, q, p, c) && (b == c || Under(agentsById, edgesByChild, q, c, b)) {
        var j :| 0 <= j < |edges| && edges[j].child == c;
        assert AtOrUnder(q, edges[j].child, b);
      }
      if j :| 0 <= j < |edges| && AtOrUnder(q, edges[j].child, b) {
        assert IsChild(agentsById, edgesByChild, q, p, edges[j].child);
      }
    }

    /** Nothing in a forest is below itself. */
    lemma NotUnderItself(id: Id, q: EdgeState)
      requires Valid() && id in agentsById
      ensures !Under(agentsById, edgesByChild, q, id, id)
    {
      if Under(agentsById, edgesByChild, q, id, id) {
        var k: nat :| k > 0 && StepsTo(agentsById, edgesByChild, q, id, id, k);
        assert IsBelowRoot(agentsById, id);
        var n: nat :| Climbs(agentsById, id, n);
        StepsClimb(agentsById, edgesByChild, q, id, id, k, n);
        ClimbsOnce(agentsById, id, n - k, n);
      }
    }
  }

  function Members(ids: seq<Id>): set<Id> { set b | b in ids }

  ghost predicate ClimbsAtLeast(agents: Agents, v: Id, n: nat) { exists m: nat :: m >= n && Climbs(agents, v, m) }

  predicate IsResumable(status: Tables.AgentStatus)
  {
    || status.AgentWaiting? || status.AgentSuspended? || status.AgentRecovering?
    || status.AgentFailed? || status.AgentStopped?
  }

  function Filter(list: seq<Edge>, q: EdgeState): (r: seq<Edge>)
    ensures forall e :: e in r <==> e in list && Passes(e, q)
  {
    if list == [] then [] else (if Passes(list[0], q) then [list[0]] else []) + Filter(list[1..], q)
  }

  lemma {:induction false} FilterDistinct(list: seq<Edge>, q: EdgeState)
    requires DistinctBy(list, ChildOf)
    ensures DistinctBy(Filter(list, q), ChildOf)
  {
    if list != [] {
      FilterDistinct(list[1..], q);
      assert forall e :: e in list[1..] ==> ChildOf(e) != ChildOf(list[0]);
    }
  }

  lemma Fewer(all: set<Id>, visited: set<Id>, seen: set<Id>, c: Id)
    requires visited <= seen && c in seen && c in all && c !in visited
    ensures |all - seen| < |all - visited|
  {
    assert all - seen <= (all - visited) - {c};
    Smaller(all - seen, (all - visited) - {c});
  }

  lemma {:induction false} Smaller(a: set<Id>, b: set<Id>)
    requires a <= b
    ensures |a| <= |b|
  {
    if x :| x in a {
      Smaller(a - {x}, b - {x});
    }
  }

  lemma DistinctJoin(a: seq<string>, b: seq<string>)
    requires Distinct(a) && Distinct(b) && forall x :: x in b ==> x !in a
    ensures Distinct(a + b)
  {
    assert forall i :: 0 <= i < |b| ==> b[i] !in a;
    assert forall i :: 0 <= i < |a| ==> (a + b)[i] == a[i] && a[i] in a;
    assert forall i :: |a| <= i < |a + b| ==> (a + b)[i] == b[i - |a|];
  }
}
