/** Directed graphs given by a finite edge set: paths, reachability, cycles, and the closure search. */
module Graph {

  datatype Edge = Edge(node: nat, dep: nat)

  ghost predicate IsPath(edges: set<Edge>, p: seq<nat>) {
    |p| >= 1 && forall i :: 0 <= i < |p| - 1 ==> Edge(p[i], p[i + 1]) in edges
  }

  ghost predicate PathBetween(edges: set<Edge>, p: seq<nat>, a: nat, b: nat) {
    IsPath(edges, p) && p[0] == a && p[|p| - 1] == b
  }

  /** `b` is `a` or lies upstream of `a`. */
  ghost predicate Reaches(edges: set<Edge>, a: nat, b: nat) {
    exists p :: PathBetween(edges, p, a, b)
  }

  /** `b` is upstream of `a` by at least one edge. */
  ghost predicate ReachesPlus(edges: set<Edge>, a: nat, b: nat) {
    exists p :: PathBetween(edges, p, a, b) && |p| >= 2
  }

  ghost predicate Acyclic(edges: set<Edge>) {
    forall n: nat :: !ReachesPlus(edges, n, n)
  }

  lemma ReachesRefl(edges: set<Edge>, a: nat)
    ensures Reaches(edges, a, a)
  {
    assert PathBetween(edges, [a], a, a);
  }

  lemma StepPlus(edges: set<Edge>, a: nat, b: nat, c: nat)
    requires Edge(a, b) in edges && Reaches(edges, b, c)
    ensures ReachesPlus(edges, a, c)
  {
    var p :| PathBetween(edges, p, b, c);
    assert PathBetween(edges, [a] + p, a, c);
  }

  lemma PlusIsReach(edges: set<Edge>, a: nat, b: nat)
    requires ReachesPlus(edges, a, b)
    ensures Reaches(edges, a, b)
  {
  }

  lemma Join(edges: set<Edge>, a: nat, b: nat, c: nat)
    requires Reaches(edges, a, b) && Reaches(edges, b, c)
    ensures Reaches(edges, a, c)
  {
    var p :| PathBetween(edges, p, a, b);
    var q :| PathBetween(edges, q, b, c);
    var r := p + q[1..];
    forall i | 0 <= i < |r| - 1 ensures Edge(r[i], r[i + 1]) in edges {
      if i >= |p| - 1 {
        assert r[i] == q[i - (|p| - 1)] && r[i + 1] == q[i - (|p| - 1) + 1];
      }
    }
    assert PathBetween(edges, r, a, c);
  }

  lemma Extend(edges: set<Edge>, a: nat, b: nat, c: nat)
    requires Reaches(edges, a, b) && Edge(b, c) in edges
    ensures ReachesPlus(edges, a, c)
  {
    var p :| PathBetween(edges, p, a, b);
    assert PathBetween(edges, p + [c], a, c);
  }

  lemma FirstStep(edges: set<Edge>, a: nat, b: nat) returns (next: nat)
    requires ReachesPlus(edges, a, b)
    ensures Edge(a, next) in edges && Reaches(edges, next, b)
  {
    var p :| PathBetween(edges, p, a, b) && |p| >= 2;
    next := p[1];
    assert PathBetween(edges, p[1..], next, b);
  }

  lemma LastStep(edges: set<Edge>, a: nat, b: nat) returns (before: nat)
    requires ReachesPlus(edges, a, b)
    ensures Edge(before, b) in edges && Reaches(edges, a, before)
  {
    var p :| PathBetween(edges, p, a, b) && |p| >= 2;
    before := p[|p| - 2];
    assert PathBetween(edges, p[..|p| - 1], a, before);
  }

  lemma ReachesMonotone(edges: set<Edge>, more: set<Edge>, a: nat, b: nat)
    requires edges <= more
    ensures Reaches(edges, a, b) ==> Reaches(more, a, b)
    ensures ReachesPlus(edges, a, b) ==> ReachesPlus(more, a, b)
  {
    if Reaches(edges, a, b) {
      var p :| PathBetween(edges, p, a, b);
      assert PathBetween(more, p, a, b);
    }
    if ReachesPlus(edges, a, b) {
      var p :| PathBetween(edges, p, a, b) && |p| >= 2;
      assert PathBetween(more, p, a, b);
    }
  }

  lemma SubgraphAcyclic(edges: set<Edge>, more: set<Edge>)
    requires edges <= more && Acyclic(more)
    ensures Acyclic(edges)
  {
    forall n: nat ensures !ReachesPlus(edges, n, n) {
      ReachesMonotone(edges, more, n, n);
    }
  }

  /** A path over one more edge either avoids it or splits around it. */
  lemma {:induction false} SplitAtEdge(edges: set<Edge>, e: Edge, p: seq<nat>)
    requires IsPath(edges + {e}, p)
    ensures Reaches(edges, p[0], p[|p| - 1]) ||
            (Reaches(edges, p[0], e.node) && Reaches(edges, e.dep, p[|p| - 1]))
    decreases |p|
  {
    var last := p[|p| - 1];
    if |p| == 1 {
      ReachesRefl(edges, last);
    } else {
      assert Edge(p[0], p[1]) in edges + {e};
      SplitAtEdge(edges, e, p[1..]);
      if Edge(p[0], p[1]) in edges {
        if Reaches(edges, p[1], last) {
          StepPlus(edges, p[0], p[1], last);
        } else {
          StepPlus(edges, p[0], p[1], e.node);
        }
      } else {
        ReachesRefl(edges, e.node);
      }
    }
  }

  /** An edge closes a cycle exactly when its upper end already reaches its lower end. */
  lemma AddEdgeAcyclicIff(edges: set<Edge>, e: Edge)
    requires Acyclic(edges)
    ensures Acyclic(edges + {e}) <==> !Reaches(edges, e.dep, e.node)
  {
    var more := edges + {e};
    if Reaches(edges, e.dep, e.node) {
      ReachesMonotone(edges, more, e.dep, e.node);
      StepPlus(more, e.node, e.dep, e.node);
    } else {
      forall n: nat ensures !ReachesPlus(more, n, n) {
        if ReachesPlus(more, n, n) {
          var next := FirstStep(more, n, n);
          var p :| PathBetween(more, p, next, n);
          SplitAtEdge(edges, e, p);
          ReachesRefl(edges, n);
          if Edge(n, next) in edges {
            if Reaches(edges, next, n) {
              StepPlus(edges, n, next, n);
            } else {
              StepPlus(edges, n, next, e.node);
              Join(edges, e.dep, n, e.node);
            }
          }
        }
      }
    }
  }

  /** Nothing reaches a node no edge points to, except the node itself. */
  lemma NoWayInto(edges: set<Edge>, a: nat, n: nat)
    requires forall e :: e in edges ==> e.dep != n
    requires a != n
    ensures !Reaches(edges, a, n)
  {
    forall p: seq<nat> | |p| >= 2 && p[0] == a && p[|p| - 1] == n
      ensures !IsPath(edges, p)
    {
      assert Edge(p[|p| - 2], n) !in edges;
    }
  }

  /** Edges leaving a node that nothing points to never close a cycle. */
  lemma {:induction false} FreshNodeAcyclic(edges: set<Edge>, n: nat, deps: set<nat>)
    requires Acyclic(edges)
    requires forall e :: e in edges ==> e.dep != n
    requires n !in deps
    ensures Acyclic(edges + set d | d in deps :: Edge(n, d))
    decreases deps
  {
    var added := set d | d in deps :: Edge(n, d);
    if deps == {} {
      assert edges + added == edges;
    } else {
      var d :| d in deps;
      var rest := deps - {d};
      var some := set x | x in rest :: Edge(n, x);
      FreshNodeAcyclic(edges, n, rest);
      assert edges + added == (edges + some) + {Edge(n, d)};
      NoWayInto(edges + some, d, n);
      AddEdgeAcyclicIff(edges + some, Edge(n, d));
    }
  }

  /** A path in an acyclic graph never visits a node twice. */
  lemma AcyclicPathDistinct(edges: set<Edge>, p: seq<nat>, i: int, j: int)
    requires Acyclic(edges) && IsPath(edges, p)
    requires 0 <= i < j < |p|
    ensures p[i] != p[j]
  {
    if p[i] == p[j] {
      assert PathBetween(edges, p[i..j + 1], p[i], p[i]);
      assert ReachesPlus(edges, p[i], p[i]);
    }
  }

  /** A sequence of distinct members of a finite set is no longer than the set. */
  lemma {:induction false} Pigeonhole(s: set<nat>, p: seq<nat>)
    requires forall i :: 0 <= i < |p| ==> p[i] in s
    requires forall i, j :: 0 <= i < j < |p| ==> p[i] != p[j]
    ensures |p| <= |s|
  {
    if p != [] {
      var last := |p| - 1;
      Pigeonhole(s - {p[last]}, p[..last]);
    }
  }

  /** The nodes some edge points to. */
  function Targets(edges: set<Edge>): set<nat> {
    set e | e in edges :: e.dep
  }

  /**
   * The recursive closure query: seed with the direct dependencies of `start`,
   * then keep adding dependencies of queued rows, dropping repeats (UNION).
   */
  method Upstream(edges: set<Edge>, start: nat) returns (up: set<nat>)
    ensures forall x: nat :: x in up <==> ReachesPlus(edges, start, x)
  {
    up := set e | e in edges && e.node == start :: e.dep;
    var queue := up;
    forall x | x in up ensures ReachesPlus(edges, start, x) {
      assert Edge(start, x) in edges;
      ReachesRefl(edges, x);
      StepPlus(edges, start, x, x);
    }
    while queue != {}
      invariant queue <= up <= Targets(edges)
      invariant forall x :: x in up ==> ReachesPlus(edges, start, x)
      invariant forall e :: e in edges && (e.node == start || e.node in up - queue) ==> e.dep in up
      decreases Targets(edges) - up, queue
    {
      var n :| n in queue;
      var found := set e | e in edges && e.node == n && e.dep !in up :: e.dep;
      forall x | x in found ensures ReachesPlus(edges, start, x) {
        assert Edge(n, x) in edges;
        PlusIsReach(edges, start, n);
        Extend(edges, start, n, x);
      }
      ghost var before := up;
      up := up + found;
      queue := queue - {n} + found;
      if found != {} {
        var x :| x in found;
        assert x in Targets(edges) - before && x !in Targets(edges) - up;
      } else {
        assert up == before;
      }
    }
    forall x: nat | ReachesPlus(edges, start, x) ensures x in up {
      ClosedUnderReach(edges, start, up, x);
    }
  }

  lemma ClosedUnderReach(edges: set<Edge>, start: nat, up: set<nat>, x: nat)
    requires forall e :: e in edges && (e.node == start || e.node in up) ==> e.dep in up
    requires ReachesPlus(edges, start, x)
    ensures x in up
  {
    var p :| PathBetween(edges, p, start, x) && |p| >= 2;
    var i := 1;
    assert Edge(p[0], p[1]) in edges;
    while i < |p| - 1
      invariant 1 <= i < |p| && p[i] in up
    {
      assert Edge(p[i], p[i + 1]) in edges;
      i := i + 1;
    }
  }
}
