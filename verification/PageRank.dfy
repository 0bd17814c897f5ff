/** The structural ranking of the repository map, over the reals. */
module PageRank {
  datatype Link = Link(target: string, weight: real)

  /** The links of each path, in the order they were first added. */
  type Graph = map<string, seq<Link>>

  type Ranks = map<string, real>

  const DAMPING := 0.85
  const ITERATIONS := 24

  predicate AreDistinct(paths: seq<string>) { forall i, j :: 0 <= i < j < |paths| ==> paths[i] != paths[j] }

  // ----- The graph -----

  /** Every link goes from a path to another one, with a positive weight, and no two from one path go to the same. */
  ghost predicate GraphOk(paths: seq<string>, graph: Graph)
  {
    && (forall p :: p in paths <==> p in graph)
    && (forall p, i :: p in graph && 0 <= i < |graph[p]| ==>
          graph[p][i].target in paths && graph[p][i].target != p && graph[p][i].weight > 0.0)
    && (forall p :: p in graph ==> TargetsDiffer(graph[p]))
  }

  predicate TargetsDiffer(links: seq<Link>)
  {
    forall i, j :: 0 <= i < j < |links| ==> links[i].target != links[j].target
  }

  function WithWeight(links: seq<Link>, target: string, weight: real): seq<Link>
  {
    if links == [] then [Link(target, weight)]
    else if links[0].target == target then [Link(target, links[0].weight + weight)] + links[1..]
    else [links[0]] + WithWeight(links[1..], target, weight)
  }

  /** `addEdge`. */
  function AddEdge(graph: Graph, source: string, target: string, weight: real): Graph
  {
    if source == target || weight <= 0.0 || source !in graph then graph
    else graph[source := WithWeight(graph[source], target, weight)]
  }

  function WeightOf(links: seq<Link>, target: string): real
  {
    if links == [] then 0.0
    else WeightOf(links[..|links| - 1], target)
         + if links[|links| - 1].target == target then links[|links| - 1].weight else 0.0
  }

  function TotalWeight(links: seq<Link>): real
  {
    if links == [] then 0.0 else TotalWeight(links[..|links| - 1]) + links[|links| - 1].weight
  }

  predicate HasTarget(links: seq<Link>, target: string) { exists j :: 0 <= j < |links| && links[j].target == target }

  lemma {:induction false} WithWeightOk(links: seq<Link>, target: string, weight: real)
    requires weight > 0.0 && forall i :: 0 <= i < |links| ==> links[i].weight > 0.0
    ensures forall x :: x in WithWeight(links, target, weight) ==>
              x.weight > 0.0 && (x.target == target || HasTarget(links, x.target))
  {
    if links != [] && links[0].target != target {
      var rest := links[1..];
      WithWeightOk(rest, target, weight);
      forall x | x in WithWeight(links, target, weight)
        ensures x.weight > 0.0 && (x.target == target || HasTarget(links, x.target))
      {
        if x != links[0] {
          assert x in WithWeight(rest, target, weight);
          if HasTarget(rest, x.target) {
            var j :| 0 <= j < |rest| && rest[j].target == x.target;
            assert links[j + 1].target == x.target;
          }
        }
      }
    }
  }

  lemma {:induction false} TargetsStayDifferent(links: seq<Link>, target: string, weight: real)
    requires weight > 0.0 && TargetsDiffer(links) && forall i :: 0 <= i < |links| ==> links[i].weight > 0.0
    ensures TargetsDiffer(WithWeight(links, target, weight))
  {
    if links != [] && links[0].target != target {
      var rest, after := links[1..], WithWeight(links[1..], target, weight);
      TargetsStayDifferent(rest, target, weight);
      WithWeightOk(rest, target, weight);
      forall i | 0 <= i < |after| ensures after[i].target != links[0].target {
        assert after[i] in after;
      }
    }
  }

  /** Edges between known paths keep the graph in order. */
  lemma AddEdgeKeepsOk(paths: seq<string>, graph: Graph, source: string, target: string, weight: real)
    requires GraphOk(paths, graph) && target in paths
    ensures GraphOk(paths, AddEdge(graph, source, target, weight))
  {
    if source != target && weight > 0.0 && source in graph {
      var links, r := graph[source], WithWeight(graph[source], target, weight);
      WithWeightOk(links, target, weight);
      TargetsStayDifferent(links, target, weight);
      hide WithWeight, TargetsDiffer;
      forall i | 0 <= i < |r| ensures r[i].target in paths && r[i].target != source && r[i].weight > 0.0 {
        assert r[i] in r;
      }
    }
  }

  datatype Reference = Reference(source: string, target: string, weight: real)

  /** The graph of a repository: empty links for every path, then an edge for every reference found. */
  function Build(paths: seq<string>, references: seq<Reference>): Graph
  {
    if references == [] then map p | p in paths :: []
    else
      var last := references[|references| - 1];
      AddEdge(Build(paths, references[..|references| - 1]), last.source, last.target, last.weight)
  }

  /** Whatever references are found between known paths, the graph is in order. */
  lemma {:induction false} BuiltGraphOk(paths: seq<string>, references: seq<Reference>)
    requires forall i :: 0 <= i < |references| ==> references[i].target in paths
    ensures GraphOk(paths, Build(paths, references))
  {
    if references != [] {
      var last, front := references[|references| - 1], references[..|references| - 1];
      BuiltGraphOk(paths, front);
      hide AddEdge, GraphOk;
      AddEdgeKeepsOk(paths, Build(paths, front), last.source, last.target, last.weight);
    }
  }

  /** `addEdge` adds the weight to the link it is for and to no other; loops and weights that are not positive are
      dropped. */
  lemma AddEdgeWeighs(graph: Graph, source: string, target: string, weight: real, p: string, t: string)
    requires p in graph
    ensures var after := AddEdge(graph, source, target, weight);
            && after.Keys == graph.Keys
            && WeightOf(after[p], t) == WeightOf(graph[p], t)
                 + if p == source && t == target && source != target && weight > 0.0 then weight else 0.0
  {
    hide WithWeight, WeightOf;
    if p == source && source != target && weight > 0.0 {
      LinkWeighs(graph[p], target, weight, t);
    }
  }

  lemma {:induction false} LinkWeighs(links: seq<Link>, target: string, weight: real, p: string)
    ensures WeightOf(WithWeight(links, target, weight), p) == WeightOf(links, p) + if p == target then weight else 0.0
  {
    var after := WithWeight(links, target, weight);
    if links == [] {
      assert after[..0] == [];
    } else if links[0].target == target {
      WeightFromFront(links, p);
      WeightFromFront(after, p);
      assert after[1..] == links[1..];
    } else {
      LinkWeighs(links[1..], target, weight, p);
      WeightFromFront(links, p);
      WeightFromFront(after, p);
      assert after[1..] == WithWeight(links[1..], target, weight);
    }
  }

  lemma {:induction false} WeightFromFront(links: seq<Link>, p: string)
    requires links != []
    ensures WeightOf(links, p) == (if links[0].target == p then links[0].weight else 0.0) + WeightOf(links[1..], p)
  {
    var n := |links| - 1;
    if n == 0 {
      assert links[..n] == [];
    } else {
      WeightFromFront(links[..n], p);
      assert links[..n][1..] == links[1..][..n - 1];
      assert links[1..][n - 1] == links[n];
    }
  }

  // ----- Ranks, as a definition -----

  /** The part of a damped rank that a weight out of the whole weight earns. */
  function Share(rank: real, weight: real, whole: real): real
    requires whole != 0.0
  {
    DAMPING * rank * weight / whole
  }

  /** What one path gives to another in an iteration; a path without links gives to all alike. */
  function Given(paths: seq<string>, links: seq<Link>, rank: real, target: string): real
    requires paths != []
  {
    if links == [] then DAMPING * rank / |paths| as real
    else if TotalWeight(links) == 0.0 then 0.0
    else Share(rank, WeightOf(links, target), TotalWeight(links))
  }

  function RankOf(ranks: Ranks, p: string): real { if p in ranks then ranks[p] else 0.0 }

  function LinksOf(graph: Graph, p: string): seq<Link> { if p in graph then graph[p] else [] }

  function Received(paths: seq<string>, graph: Graph, ranks: Ranks, sources: seq<string>, target: string): real
    requires paths != []
  {
    if sources == [] then 0.0
    else
      var s := sources[|sources| - 1];
      Received(paths, graph, ranks, sources[..|sources| - 1], target)
      + Given(paths, LinksOf(graph, s), RankOf(ranks, s), target)
  }

  function Base(paths: seq<string>): real
    requires paths != []
  {
    (1.0 - DAMPING) / |paths| as real
  }

  /** The rank a path has after `k` iterations. */
  function RanksAfter(paths: seq<string>, graph: Graph, k: nat): Ranks
    requires paths != []
  {
    if k == 0 then map p | p in paths :: 1.0 / |paths| as real
    else
      var before := RanksAfter(paths, graph, k - 1);
      map p | p in paths :: Base(paths) + Received(paths, graph, before, paths, p)
  }

  // ----- Conservation -----

  function Total(paths: seq<string>, f: string -> real): real
  {
    if paths == [] then 0.0 else Total(paths[..|paths| - 1], f) + f(paths[|paths| - 1])
  }

  lemma {:induction false} TotalSum(paths: seq<string>, f: string -> real, g: string -> real, h: string -> real)
    requires forall p :: p in paths ==> h(p) == f(p) + g(p)
    ensures Total(paths, h) == Total(paths, f) + Total(paths, g)
  {
    if paths != [] {
      TotalSum(paths[..|paths| - 1], f, g, h);
    }
  }

  lemma {:induction false} TotalScaled(paths: seq<string>, f: string -> real, h: string -> real, c: real)
    requires forall p :: p in paths ==> h(p) == c * f(p)
    ensures Total(paths, h) == c * Total(paths, f)
  {
    if paths != [] {
      TotalScaled(paths[..|paths| - 1], f, h, c);
    }
  }

  lemma {:induction false} TotalConstant(paths: seq<string>, h: string -> real, c: real)
    requires forall p :: p in paths ==> h(p) == c
    ensures Total(paths, h) == |paths| as real * c
  {
    if paths != [] {
      TotalConstant(paths[..|paths| - 1], h, c);
    }
  }

  lemma {:induction false} TotalPoint(paths: seq<string>, h: string -> real, at: string, c: real)
    requires AreDistinct(paths) && forall p :: p in paths ==> h(p) == if p == at then c else 0.0
    ensures Total(paths, h) == if at in paths then c else 0.0
  {
    if paths != [] {
      TotalPoint(paths[..|paths| - 1], h, at, c);
    }
  }

  lemma {:induction false} TotalOfWeights(paths: seq<string>, links: seq<Link>)
    requires AreDistinct(paths) && forall i :: 0 <= i < |links| ==> links[i].target in paths
    ensures Total(paths, p => WeightOf(links, p)) == TotalWeight(links)
  {
    if links == [] {
      TotalConstant(paths, p => WeightOf(links, p), 0.0);
    } else {
      var last, front := links[|links| - 1], links[..|links| - 1];
      var point := p => if p == last.target then last.weight else 0.0;
      TotalOfWeights(paths, front);
      TotalPoint(paths, point, last.target, last.weight);
      TotalSum(paths, p => WeightOf(front, p), point, p => WeightOf(links, p));
    }
  }

  lemma {:induction false} WeightsPositive(links: seq<Link>)
    requires forall i :: 0 <= i < |links| ==> links[i].weight > 0.0
    ensures links != [] ==> TotalWeight(links) > 0.0
    ensures forall p :: WeightOf(links, p) >= 0.0
  {
    if links != [] {
      WeightsPositive(links[..|links| - 1]);
    }
  }

  lemma DivideOut(x: real, w: real, t: real)
    requires w != 0.0
    ensures x / w * t == x * t / w && x / w * w == x && w * (x / w) == x
  {
  }

  lemma ShareAdds(rank: real, v: real, e: real, w: real)
    requires w != 0.0
    ensures Share(rank, v, w) + Share(rank, e, w) == Share(rank, v + e, w) && Share(rank, 0.0, w) == 0.0
    ensures Share(rank, w, w) == DAMPING * rank
  {
    var x := DAMPING * rank;
    DivideOut(x, w, v);
    DivideOut(x, w, e);
    DivideOut(x, w, v + e);
    DivideOut(x, w, 0.0);
    DivideOut(x, w, w);
  }

  lemma {:induction false} TotalOfShares(paths: seq<string>, f: string -> real, h: string -> real, rank: real, w: real)
    requires w != 0.0 && forall p :: p in paths ==> h(p) == Share(rank, f(p), w)
    ensures Total(paths, h) == Share(rank, Total(paths, f), w)
  {
    hide Share;
    ShareAdds(rank, 0.0, 0.0, w);
    if paths != [] {
      var n := |paths| - 1;
      TotalOfShares(paths[..n], f, h, rank, w);
      ShareAdds(rank, Total(paths[..n], f), f(paths[n]), w);
    }
  }

  /** A path gives away 0.85 of its rank, no more and no less, whether it has links or not. */
  lemma GivenInAll(paths: seq<string>, links: seq<Link>, rank: real)
    requires paths != [] && AreDistinct(paths)
    requires forall i :: 0 <= i < |links| ==> links[i].target in paths && links[i].weight > 0.0
    ensures Total(paths, p => Given(paths, links, rank, p)) == 0.85 * rank
  {
    hide Share, TotalWeight, WeightOf;
    var h := p => Given(paths, links, rank, p);
    if links == [] {
      var n := |paths| as real;
      DivideOut(DAMPING * rank, n, 1.0);
      TotalConstant(paths, h, DAMPING * rank / n);
    } else {
      WeightsPositive(links);
      TotalOfWeights(paths, links);
      var w := TotalWeight(links);
      TotalOfShares(paths, p => WeightOf(links, p), h, rank, w);
      ShareAdds(rank, 0.0, 0.0, w);
    }
  }

  /** A path with links gives to each target in proportion to the weight of the link, and nothing to a path it has no
      link to; a path without links gives every path the same. */
  lemma GivenByWeight(paths: seq<string>, links: seq<Link>, rank: real, t: string, u: string)
    requires paths != [] && forall i :: 0 <= i < |links| ==> links[i].weight > 0.0
    ensures links == [] ==>
              Given(paths, links, rank, t) == Given(paths, links, rank, u)
              && |paths| as real * Given(paths, links, rank, t) == 0.85 * rank
    ensures links != [] ==>
              && TotalWeight(links) > 0.0
              && Given(paths, links, rank, t) * TotalWeight(links) == 0.85 * rank * WeightOf(links, t)
              && Given(paths, links, rank, t) * WeightOf(links, u) == Given(paths, links, rank, u) * WeightOf(links, t)
              && (!HasTarget(links, t) ==> Given(paths, links, rank, t) == 0.0)
  {
    hide Share, WeightOf, TotalWeight, HasTarget;
    if links == [] {
      DivideOut(DAMPING * rank, |paths| as real, 1.0);
      hide Given;
    } else {
      WeightsPositive(links);
      var v, e, w := WeightOf(links, t), WeightOf(links, u), TotalWeight(links);
      assert Given(paths, links, rank, t) == Share(rank, v, w) && Given(paths, links, rank, u) == Share(rank, e, w);
      hide Given;
      ShareWeighs(rank, v, w);
      SharesCross(rank, v, e, w);
      NoTargetNoWeight(links, t);
    }
  }

  lemma ShareWeighs(rank: real, v: real, w: real)
    requires w != 0.0
    ensures Share(rank, v, w) * w == 0.85 * rank * v && (v == 0.0 ==> Share(rank, v, w) == 0.0)
  {
    DivideOut(DAMPING * rank * v, w, 1.0);
    DivideOut(0.0, w, 1.0);
  }

  lemma SharesCross(rank: real, v: real, e: real, w: real)
    requires w != 0.0
    ensures Share(rank, v, w) * e == Share(rank, e, w) * v
  {
    var x := DAMPING * rank;
    DivideOut(x, w, v);
    DivideOut(x, w, e);
    Commutes(x / w, v, e);
  }

  lemma Commutes(x: real, v: real, e: real)
    ensures x * v * e == x * e * v
  {
  }

  lemma {:induction false} NoTargetNoWeight(links: seq<Link>, t: string)
    ensures !HasTarget(links, t) ==> WeightOf(links, t) == 0.0
  {
    if links != [] {
      var n := |links| - 1;
      NoTargetNoWeight(links[..n], t);
      assert links[n].target == t ==> HasTarget(links, t);
      assert HasTarget(links[..n], t) ==> HasTarget(links, t) by {
        if HasTarget(links[..n], t) {
          var j :| 0 <= j < n && links[..n][j].target == t;
          assert links[j].target == t;
        }
      }
    }
  }

  /** What a path receives in an iteration is the sum of what every path gives to it, each out of its own rank. */
  lemma {:induction false} ReceivedIsSum(paths: seq<string>, graph: Graph, ranks: Ranks, sources: seq<string>,
      target: string)
    requires paths != []
    ensures Received(paths, graph, ranks, sources, target)
         == Total(sources, s => Given(paths, LinksOf(graph, s), RankOf(ranks, s), target))
  {
    hide Given;
    if sources != [] {
      ReceivedIsSum(paths, graph, ranks, sources[..|sources| - 1], target);
    }
  }

  lemma {:induction false} ReceivedInAll(paths: seq<string>, graph: Graph, ranks: Ranks, sources: seq<string>)
    requires paths != [] && AreDistinct(paths) && GraphOk(paths, graph)
    ensures Total(paths, p => Received(paths, graph, ranks, sources, p))
            == DAMPING * Total(sources, s => RankOf(ranks, s))
  {
    if sources == [] {
      TotalConstant(paths, p => Received(paths, graph, ranks, sources, p), 0.0);
    } else {
      var front, s := sources[..|sources| - 1], sources[|sources| - 1];
      var links, rank := LinksOf(graph, s), RankOf(ranks, s);
      ReceivedInAll(paths, graph, ranks, front);
      GivenInAll(paths, links, rank);
      hide Given;
      TotalSum(paths, p => Received(paths, graph, ranks, front, p), p => Given(paths, links, rank, p),
               p => Received(paths, graph, ranks, sources, p));
    }
  }

  lemma {:induction false} ReceivedPositive(paths: seq<string>, graph: Graph, ranks: Ranks, sources: seq<string>,
      p: string)
    requires paths != [] && GraphOk(paths, graph) && forall x :: x in ranks ==> ranks[x] >= 0.0
    ensures Received(paths, graph, ranks, sources, p) >= 0.0
  {
    if sources != [] {
      ReceivedPositive(paths, graph, ranks, sources[..|sources| - 1], p);
      var s := sources[|sources| - 1];
      GivenPositive(paths, LinksOf(graph, s), RankOf(ranks, s), p);
      hide Given;
    }
  }

  lemma GivenPositive(paths: seq<string>, links: seq<Link>, rank: real, p: string)
    requires paths != [] && rank >= 0.0 && forall i :: 0 <= i < |links| ==> links[i].weight > 0.0
    ensures Given(paths, links, rank, p) >= 0.0
  {
    WeightsPositive(links);
    if links != [] {
      var x, w, v := DAMPING * rank, TotalWeight(links), WeightOf(links, p);
      QuotientPositive(x * v, w) by { ProductPositive(x, v); }
    }
  }

  lemma ProductPositive(x: real, v: real)
    requires x >= 0.0 && v >= 0.0
    ensures x * v >= 0.0
  {
  }

  lemma QuotientPositive(x: real, w: real)
    requires x >= 0.0 && w > 0.0
    ensures x / w >= 0.0
  {
  }

  lemma BaseIsShare(paths: seq<string>)
    requires paths != []
    ensures |paths| as real * Base(paths) == 1.0 - DAMPING && 0.0 <= Base(paths) <= 1.0 / |paths| as real
    ensures |paths| as real * (1.0 / |paths| as real) == 1.0
  {
    var n := |paths| as real;
    DivideOut(1.0 - DAMPING, n, 1.0);
    DivideOut(1.0, n, 1.0);
    QuotientPositive(1.0 - DAMPING, n);
    QuotientPositive(DAMPING, n);
  }

  lemma BaseIs(paths: seq<string>)
    requires paths != []
    ensures Base(paths) == 0.15 / |paths| as real
  {
  }

  lemma FirstRanks(paths: seq<string>, graph: Graph)
    requires paths != []
    ensures Total(paths, p => RankOf(RanksAfter(paths, graph, 0), p)) == 1.0
    ensures forall p :: p in paths ==> RankOf(RanksAfter(paths, graph, 0), p) == 1.0 / |paths| as real >= Base(paths)
  {
    BaseIsShare(paths);
    var ranks := RanksAfter(paths, graph, 0);
    var share := 1.0 / |paths| as real;
    assert forall p :: p in paths ==> RankOf(ranks, p) == share;
    hide RanksAfter, Base, RankOf;
    TotalConstant(paths, p => RankOf(ranks, p), share);
  }

  lemma NextRanks(paths: seq<string>, graph: Graph, k: nat, p: string)
    requires paths != [] && k > 0 && p in paths
    ensures RankOf(RanksAfter(paths, graph, k), p)
            == Base(paths) + Received(paths, graph, RanksAfter(paths, graph, k - 1), paths, p)
  {
    hide Received, Base;
  }

  lemma {:induction false} RanksNotNegative(paths: seq<string>, graph: Graph, k: nat)
    requires paths != [] && GraphOk(paths, graph)
    ensures forall x :: x in RanksAfter(paths, graph, k) ==> RanksAfter(paths, graph, k)[x] >= 0.0
  {
    BaseIsShare(paths);
    if k == 0 {
      hide Base, Received;
    } else {
      hide Base, Received;
      var before := RanksAfter(paths, graph, k - 1);
      RanksNotNegative(paths, graph, k - 1);
      forall p ensures Received(paths, graph, before, paths, p) >= 0.0 {
        ReceivedPositive(paths, graph, before, paths, p);
      }
    }
  }

  /** The ranks start out equal; after any number of iterations they add up to exactly 1, and none is below 0.15 divided
      by the number of paths. */
  lemma {:induction false} RanksConserved(paths: seq<string>, graph: Graph, k: nat)
    requires paths != [] && AreDistinct(paths) && GraphOk(paths, graph)
    ensures Total(paths, p => RankOf(RanksAfter(paths, graph, k), p)) == 1.0
    ensures forall p :: p in paths ==> RankOf(RanksAfter(paths, graph, k), p) >= 0.15 / |paths| as real
    ensures k == 0 ==> forall p, q :: p in paths && q in paths ==>
              RankOf(RanksAfter(paths, graph, k), p) == RankOf(RanksAfter(paths, graph, k), q)
  {
    hide RanksAfter, RankOf, Received, Base;
    BaseIs(paths);
    if k == 0 {
      FirstRanks(paths, graph);
    } else {
      var before, ranks := RanksAfter(paths, graph, k - 1), RanksAfter(paths, graph, k);
      var base, received := p => Base(paths), p => Received(paths, graph, before, paths, p);
      RanksConserved(paths, graph, k - 1);
      ReceivedInAll(paths, graph, before, paths);
      BaseIsShare(paths);
      TotalConstant(paths, base, Base(paths));
      forall p | p in paths ensures RankOf(ranks, p) == base(p) + received(p) && received(p) >= 0.0 {
        NextRanks(paths, graph, k, p);
        RanksNotNegative(paths, graph, k - 1);
        ReceivedPositive(paths, graph, before, paths, p);
      }
      TotalSum(paths, base, received, p => RankOf(ranks, p));
    }
  }

  // ----- Ranks, as computed -----

  /** The part of a path without links: the same to every path. */
  method PushAlike(paths: seq<string>, ranks: Ranks, share: real) returns (next: Ranks)
    requires AreDistinct(paths) && forall p :: p in paths <==> p in ranks
    ensures forall p :: p in paths <==> p in next
    ensures forall p :: p in paths ==> next[p] == ranks[p] + share
  {
    next := ranks;
    for i := 0 to |paths|
      invariant forall p :: p in paths <==> p in next
      invariant forall j :: 0 <= j < |paths| ==>
                  next[paths[j]] == if j < i then ranks[paths[j]] + share else ranks[paths[j]]
    {
      next := next[paths[i] := next[paths[i]] + share];
    }
  }

  /** The part of a path with links: to each target by its weight. */
  method PushAlong(paths: seq<string>, links: seq<Link>, rank: real, ranks: Ranks) returns (next: Ranks)
    requires TotalWeight(links) != 0.0
    requires (forall p :: p in paths <==> p in ranks) && forall i :: 0 <= i < |links| ==> links[i].target in paths
    ensures forall p :: p in paths <==> p in next
    ensures forall p :: p in paths ==> next[p] == ranks[p] + Share(rank, WeightOf(links, p), TotalWeight(links))
  {
    hide Share;
    var weight := 0.0;
    for i := 0 to |links|
      invariant weight == TotalWeight(links[..i])
    {
      assert links[..i + 1][..i] == links[..i];
      weight := weight + links[i].weight;
    }
    assert links[..|links|] == links;
    ShareAdds(rank, 0.0, 0.0, weight);
    next := ranks;
    for i := 0 to |links|
      invariant forall p :: p in paths <==> p in next
      invariant forall p :: p in paths ==> next[p] == ranks[p] + Share(rank, WeightOf(links[..i], p), weight)
    {
      hide WeightOf, TotalWeight;
      var target, edgeWeight := links[i].target, links[i].weight;
      WeightStep(links, i);
      ShareAdds(rank, WeightOf(links[..i], target), edgeWeight, weight);
      next := next[target := next[target] + Share(rank, edgeWeight, weight)];
    }
  }

  lemma WeightStep(links: seq<Link>, i: nat)
    requires i < |links|
    ensures forall p :: WeightOf(links[..i + 1], p)
                        == if p == links[i].target then WeightOf(links[..i], p) + links[i].weight
                            else WeightOf(links[..i], p)
  {
    assert links[..i + 1][..i] == links[..i];
  }

  /** One iteration: every source in turn pushes what it gives onto the ranks of its targets. */
  method Iterate(paths: seq<string>, graph: Graph, ranks: Ranks) returns (next: Ranks)
    requires paths != [] && AreDistinct(paths) && GraphOk(paths, graph)
    ensures forall p :: p in paths <==> p in next
    ensures forall p :: p in paths ==>
              next[p] == 0.15 / |paths| as real + Received(paths, graph, ranks, paths, p)
  {
    hide Base;
    BaseIs(paths);
    next := map p | p in paths :: Base(paths);
    for i := 0 to |paths|
      invariant forall p :: p in paths <==> p in next
      invariant forall p :: p in paths ==> next[p] == Base(paths) + Received(paths, graph, ranks, paths[..i], p)
    {
      var source := paths[i];
      var outgoing, rank := graph[source], RankOf(ranks, source);
      ghost var before := next;
      if outgoing == [] {
        next := PushAlike(paths, next, DAMPING * rank / |paths| as real);
      } else {
        WeightsPositive(outgoing);
        next := PushAlong(paths, outgoing, rank, next);
      }
      forall p | p in paths
        ensures next[p] == Base(paths) + Received(paths, graph, ranks, paths[..i + 1], p)
      {
        assert next[p] == before[p] + Given(paths, outgoing, rank, p);
        ReceivedStep(paths, graph, ranks, i, p);
      }
    }
    assert paths[..|paths|] == paths;
  }

  lemma ReceivedStep(paths: seq<string>, graph: Graph, ranks: Ranks, i: nat, p: string)
    requires paths != [] && i < |paths|
    ensures Received(paths, graph, ranks, paths[..i + 1], p)
            == Received(paths, graph, ranks, paths[..i], p)
               + Given(paths, LinksOf(graph, paths[i]), RankOf(ranks, paths[i]), p)
  {
    assert paths[..i + 1][..i] == paths[..i];
    hide Given;
  }

  lemma RanksHeld(paths: seq<string>, graph: Graph, k: nat)
    requires paths != []
    ensures var ranks := RanksAfter(paths, graph, k);
            forall p :: p in paths ==> p in ranks && ranks[p] == RankOf(ranks, p)
  {
    hide Received, Base;
  }

  /** `pageRank`: the ranks after all the iterations; they conserve the whole. */
  method Compute(paths: seq<string>, graph: Graph) returns (ranks: Ranks)
    requires AreDistinct(paths) && GraphOk(paths, graph)
    ensures paths == [] ==> ranks == map[]
    ensures paths != [] ==>
              && ranks == RanksAfter(paths, graph, 24)
              && Total(paths, p => RankOf(ranks, p)) == 1.0
              && forall p :: p in paths ==> p in ranks && ranks[p] >= 0.15 / |paths| as real
  {
    hide Received, Base, RankOf, Total, GraphOk, AreDistinct;
    if paths == [] {
      return map[];
    }
    BaseIs(paths);
    ranks := map p | p in paths :: 1.0 / |paths| as real;
    for k := 0 to ITERATIONS
      invariant ranks == RanksAfter(paths, graph, k)
    {
      var next := Iterate(paths, graph, ranks);
      assert next == RanksAfter(paths, graph, k + 1);
      ranks := next;
    }
    RanksConserved(paths, graph, ITERATIONS);
    RanksHeld(paths, graph, ITERATIONS);
  }
}
