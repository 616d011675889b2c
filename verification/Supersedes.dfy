/**
 The check that the items of a diagnosis do not supersede each other in a circle: a depth-first search over
 two mutable sets, proved to accept exactly the acyclic graphs.
 */
module Supersedes {
  /** Item identifiers, numbered in their text order. */
  type Id = nat

  type Graph = map<Id, seq<Id>>

  predicate Edge(g: Graph, a: Id, b: Id) { a in g && b in g && b in g[a] }

  ghost predicate Path(g: Graph, p: seq<Id>) { forall i :: 0 <= i < |p| - 1 ==> Edge(g, p[i], p[i + 1]) }

  ghost predicate Cyclic(g: Graph) { exists p :: |p| >= 2 && Path(g, p) && p[0] == p[|p| - 1] }

  // ----- ranks rule out circles -----

  /** Every node of `rank` has all its targets below it. */
  ghost predicate Ranked(g: Graph, rank: map<Id, nat>) {
    forall a, b :: a in rank && Edge(g, a, b) ==> b in rank && rank[b] < rank[a]
  }

  lemma {:induction false} RankFalls(g: Graph, rank: map<Id, nat>, p: seq<Id>)
    requires Ranked(g, rank) && |p| >= 1 && Path(g, p) && p[0] in rank
    ensures p[|p| - 1] in rank && (|p| >= 2 ==> rank[p[|p| - 1]] < rank[p[0]])
  {
    if |p| >= 2 {
      assert Edge(g, p[0], p[0 + 1]);
      var q := p[1..];
      forall i | 0 <= i < |q| - 1 ensures Edge(g, q[i], q[i + 1]) { assert Edge(g, p[i + 1], p[i + 1 + 1]); }
      RankFalls(g, rank, q);
    }
  }

  lemma RankedIsAcyclic(g: Graph, rank: map<Id, nat>)
    requires Ranked(g, rank) && g.Keys <= rank.Keys
    ensures !Cyclic(g)
  {
    if Cyclic(g) {
      var p :| |p| >= 2 && Path(g, p) && p[0] == p[|p| - 1];
      assert Edge(g, p[0], p[0 + 1]);
      RankFalls(g, rank, p);
    }
  }

  /** A walk that meets one of its own nodes again has found a circle. */
  lemma WalkCloses(g: Graph, stack: seq<Id>, id: Id)
    requires Path(g, stack + [id]) && id in stack
    ensures Cyclic(g)
  {
    var i :| 0 <= i < |stack| && stack[i] == id;
    var p := stack[i..] + [id];
    forall j | 0 <= j < |p| - 1 ensures Edge(g, p[j], p[j + 1]) {
      var w := stack + [id];
      assert Edge(g, w[i + j], w[i + j + 1]);
    }
    assert |p| >= 2 && Path(g, p) && p[0] == p[|p| - 1];
  }

  // ----- the search -----

  ghost predicate OnStack(s: set<Id>, stack: seq<Id>) { forall x :: x in s <==> x in stack }

  class Search {
    const graph: Graph
    var visiting: set<Id>
    var visited: set<Id>
    ghost var rank: map<Id, nat>
    ghost var next: nat

    ghost predicate Valid()
      reads this
    {
      && visiting <= graph.Keys && visited == rank.Keys && visited <= graph.Keys && visiting !! visited
      && Ranked(graph, rank) && forall a :: a in rank ==> rank[a] < next
    }

    constructor (graph: Graph)
      ensures Valid() && this.graph == graph && visiting == {} && visited == {}
    {
      this.graph := graph;
      visiting, visited, rank, next := {}, {}, map[], 0;
    }

    /** `stack` is the chain of calls that led here. */
    method Visit(id: Id, ghost stack: seq<Id>) returns (ok: bool)
      requires Valid() && id in graph && Path(graph, stack + [id]) && OnStack(visiting, stack)
      modifies this
      ensures !ok ==> Cyclic(graph)
      ensures ok ==> Valid() && id in visited && visiting == old(visiting) && old(visited) <= visited
      decreases |graph.Keys - visiting|, 0
    {
      hide Path, Cyclic, Ranked;
      if id in visiting {
        WalkCloses(graph, stack, id);
        return false;
      }
      if id in visited { return true; }
      Smaller(graph.Keys, visiting, id);
      visiting := visiting + {id};
      assert OnStack(visiting, stack + [id]);
      ok := VisitTargets(id, stack + [id]);
      if !ok { return; }
      Leave(id);
      assert visiting == old(visiting);
    }

    method Leave(id: Id)
      requires Valid() && id in visiting
      requires forall i :: 0 <= i < |graph[id]| && graph[id][i] in graph ==> graph[id][i] in visited
      modifies this
      ensures Valid() && visiting == old(visiting) - {id} && visited == old(visited) + {id}
    {
      hide Ranked;
      RankMore(graph, rank, id, next);
      visiting := visiting - {id};
      visited := visited + {id};
      rank, next := rank[id := next], next + 1;
    }

    method VisitTargets(id: Id, ghost stack: seq<Id>) returns (ok: bool)
      requires Valid() && id in graph && stack != [] && stack[|stack| - 1] == id
      requires Path(graph, stack) && OnStack(visiting, stack)
      modifies this
      ensures !ok ==> Cyclic(graph)
      ensures ok ==> Valid() && visiting == old(visiting) && old(visited) <= visited
      ensures ok ==> forall i :: 0 <= i < |graph[id]| && graph[id][i] in graph ==> graph[id][i] in visited
      decreases |graph.Keys - visiting|, 1
    {
      hide Path, Cyclic, Ranked;
      var targets := graph[id];
      var k := 0;
      while k < |targets|
        invariant k <= |targets| && Valid() && visiting == old(visiting) && old(visited) <= visited
        invariant forall i :: 0 <= i < k && targets[i] in graph ==> targets[i] in visited
      {
        if targets[k] in graph {
          assert Edge(graph, id, targets[k]);
          Longer(graph, stack, targets[k]);
          ok := Visit(targets[k], stack);
          if !ok { return; }
        }
        k := k + 1;
      }
      return true;
    }

    /** Starts a search at every node. */
    method VisitAll() returns (ok: bool)
      requires Valid() && visiting == {}
      modifies this
      ensures ok <==> !Cyclic(graph)
    {
      var rest := graph.Keys;
      while rest != {}
        invariant Valid() && visiting == {} && rest <= graph.Keys && graph.Keys <= visited + rest
        decreases |rest|
      {
        var id :| id in rest;
        ok := Visit(id, []);
        if !ok { return; }
        rest := rest - {id};
      }
      RankedIsAcyclic(graph, rank);
      return true;
    }
  }

  lemma RankMore(g: Graph, rank: map<Id, nat>, id: Id, next: nat)
    requires Ranked(g, rank) && id in g && id !in rank && (forall a :: a in rank ==> rank[a] < next)
    requires forall i :: 0 <= i < |g[id]| && g[id][i] in g ==> g[id][i] in rank
    ensures Ranked(g, rank[id := next])
  {}

  lemma Smaller(keys: set<Id>, visiting: set<Id>, id: Id)
    requires id in keys && id !in visiting
    ensures |keys - (visiting + {id})| < |keys - visiting|
  {
    assert keys - visiting == (keys - (visiting + {id})) + {id};
  }

  lemma Longer(g: Graph, stack: seq<Id>, target: Id)
    requires Path(g, stack) && stack != [] && Edge(g, stack[|stack| - 1], target)
    ensures Path(g, stack + [target])
  {
    var p := stack + [target];
    forall i | 0 <= i < |p| - 1 ensures Edge(g, p[i], p[i + 1]) {
      if i < |stack| - 1 { assert Edge(g, stack[i], stack[i + 1]); }
    }
  }

  // ----- the check on items and drafts -----

  /** What the check sees of an item or a draft. */
  datatype Node = Node(id: Id, supersedes: seq<Id>)

  function Ids(nodes: seq<Node>): set<Id> { set i | 0 <= i < |nodes| :: nodes[i].id }

  ghost predicate IsNode(nodes: seq<Node>, a: Id, targets: seq<Id>) {
    exists i :: 0 <= i < |nodes| && nodes[i].id == a && nodes[i].supersedes == targets
  }

  /** Later nodes replace earlier ones of the same identifier. */
  function GraphOf(nodes: seq<Node>): (g: Graph)
    ensures g.Keys == Ids(nodes)
    ensures forall a :: a in g ==> IsNode(nodes, a, g[a])
  {
    if nodes == [] then map[]
    else
      var n := |nodes| - 1;
      var before := GraphOf(nodes[..n]);
      GraphStep(nodes, before);
      before[nodes[n].id := nodes[n].supersedes]
  }

  lemma GraphStep(nodes: seq<Node>, before: Graph)
    requires nodes != [] && before.Keys == Ids(nodes[..|nodes| - 1])
    requires forall a :: a in before ==> IsNode(nodes[..|nodes| - 1], a, before[a])
    ensures var last := nodes[|nodes| - 1]; var g := before[last.id := last.supersedes];
            g.Keys == Ids(nodes) && forall a :: a in g ==> IsNode(nodes, a, g[a])
  {
    var n := |nodes| - 1;
    var g := before[nodes[n].id := nodes[n].supersedes];
    forall a | a in g ensures IsNode(nodes, a, g[a]) {
      if a == nodes[n].id {
        assert nodes[n].supersedes == g[a];
      } else {
        var i :| 0 <= i < n && nodes[..n][i].id == a && nodes[..n][i].supersedes == before[a];
        assert nodes[i].id == a && nodes[i].supersedes == g[a];
      }
    }
    forall a ensures a in g.Keys <==> a in Ids(nodes) {
      if a in Ids(nodes) {
        var i :| 0 <= i < |nodes| && nodes[i].id == a;
        if i < n { assert nodes[..n][i].id == a; }
      }
      if a in g.Keys { assert IsNode(nodes, a, g[a]); }
    }
  }

  predicate TargetsKnown(current: seq<Node>, drafts: seq<Node>) {
    forall i, t :: 0 <= i < |drafts| && t in drafts[i].supersedes ==> t in Ids(current) + Ids(drafts)
  }

  datatype Verdict = Accepted | UnknownTarget | Circle

  /** Accepts exactly when every target of a draft is known and the graph has no circle. */
  method ValidateSupersedes(current: seq<Node>, drafts: seq<Node>) returns (r: Verdict)
    ensures r.UnknownTarget? <==> !TargetsKnown(current, drafts)
    ensures r.Circle? <==> TargetsKnown(current, drafts) && Cyclic(GraphOf(current + drafts))
  {
    var known := Ids(current) + Ids(drafts);
    var i := 0;
    while i < |drafts|
      invariant i <= |drafts|
      invariant forall j, t :: 0 <= j < i && t in drafts[j].supersedes ==> t in known
    {
      var unknown := (set t | t in drafts[i].supersedes) - known;
      if unknown != {} {
        var t :| t in unknown;
        assert t in drafts[i].supersedes;
        return UnknownTarget;
      }
      assert forall t :: t in drafts[i].supersedes ==> t !in unknown;
      i := i + 1;
    }
    var search := new Search(GraphOf(current + drafts));
    var ok := search.VisitAll();
    return if ok then Accepted else Circle;
  }

  // ----- graphs that only lose edges -----

  /** Every edge of `h` is one of `g`, except into nodes without targets. */
  predicate Within(h: Graph, g: Graph) {
    forall a :: a in h ==> h[a] == [] || (a in g && forall t :: t in h[a] ==> t in g[a])
  }

  /** Dropping nodes and adding nodes that supersede nothing closes no circle. */
  lemma WithinStaysAcyclic(h: Graph, g: Graph)
    requires Within(h, g) && !Cyclic(g)
    ensures !Cyclic(h)
  {
    if Cyclic(h) {
      var p :| |p| >= 2 && Path(h, p) && p[0] == p[|p| - 1];
      forall i | 0 <= i < |p| - 1 ensures Edge(g, p[i], p[i + 1]) {
        assert Edge(h, p[i], p[i + 1]);
        var next := if i + 1 < |p| - 1 then i + 1 else 0;
        assert Edge(h, p[next], p[next + 1]);
        assert p[next] == p[i + 1];
      }
      assert Path(g, p);
    }
  }
}
