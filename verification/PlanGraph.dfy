/** The PlanGraph tables, the transactions on them, and what every run of those transactions keeps. */
module PlanGraph {
  import opened Prelude
  import opened Text
  import opened Graph

  datatype NodeStatus = Pending | InProgress | Done | Blocked | Failed | Skipped

  /** A `plan_graph_nodes` row; the row at index `i` has node id `i + 1`. */
  datatype Node = Node(
    graph: nat, key: string, status: NodeStatus, attempts: nat,
    taskId: Option<string>, source: Option<nat>, kind: string)

  /** The kind of node a follow-up is. */
  const REPAIR := "repair"

  /** A `plan_graph_dependencies` row. */
  datatype Dep = Dep(graph: nat, node: nat, dep: nat)

  datatype Link = Link(graph: nat, node: Option<nat>)

  /** A `replan_decisions` row; the row at index `i` has replan id `i + 1`. */
  datatype Replan = Replan(task: string, link: Option<Link>)

  /** All four tables. Graph ids are 1 to `graphs`. */
  datatype Db = Db(graphs: nat, nodes: seq<Node>, deps: set<Dep>, replans: seq<Replan>)

  datatype Error =
    | EmptyKey | EmptyTitle | EmptyKind | EmptySource | UnknownStatus | NegativeAttempts | AmbiguousAttempts
    | NodeWithoutGraph
    | GraphNotFound | NodesNotFound | DuplicateKey | SelfDependency | WouldCycle

  const EmptyDb := Db(0, [], {}, [])

  // ---------------------------------------------------------------- reading

  predicate HasGraph(db: Db, g: nat) {
    1 <= g <= db.graphs
  }

  predicate HasNode(db: Db, n: nat) {
    1 <= n <= |db.nodes|
  }

  predicate NodeIn(db: Db, g: nat, n: nat) {
    HasNode(db, n) && db.nodes[n - 1].graph == g
  }

  predicate NodesIn(db: Db, g: nat, ids: seq<nat>) {
    forall i :: 0 <= i < |ids| ==> NodeIn(db, g, ids[i])
  }

  /** The node that holds `key` in graph `g`. */
  function FindKey(nodes: seq<Node>, g: nat, key: string): (r: Option<nat>)
    ensures r.Some? ==> 1 <= r.value <= |nodes| && nodes[r.value - 1].graph == g && nodes[r.value - 1].key == key
    ensures r.None? ==> forall i :: 0 <= i < |nodes| ==> nodes[i].graph != g || nodes[i].key != key
  {
    if nodes == [] then None
    else
      var last := nodes[|nodes| - 1];
      if last.graph == g && last.key == key then Some(|nodes|)
      else FindKey(nodes[..|nodes| - 1], g, key)
  }

  /** The key reserved for the follow-up of replan decision `id`. */
  function ReplanKey(id: nat): string {
    "replan-" + Decimal(id)
  }

  lemma ReplanKeyInjective(a: nat, b: nat)
    requires ReplanKey(a) == ReplanKey(b)
    ensures a == b
  {
    assert Decimal(a) == ReplanKey(a)[7..] && Decimal(b) == ReplanKey(b)[7..];
    DecimalInjective(a, b);
  }

  ghost function GraphEdges(deps: set<Dep>, g: nat): set<Edge> {
    set d | d in deps && d.graph == g :: Edge(d.node, d.dep)
  }

  predicate DepDone(db: Db, d: Dep) {
    HasNode(db, d.dep) ==> db.nodes[d.dep - 1].status == Done
  }

  /** Pending, and no dependency row points at a node that is not done. */
  predicate Ready(db: Db, g: nat, n: nat) {
    && NodeIn(db, g, n)
    && db.nodes[n - 1].status == Pending
    && forall d :: d in db.deps && d.graph == g && d.node == n ==> DepDone(db, d)
  }

  /** Ready nodes of `g` among the first `k` rows, in id order. */
  function ReadyUpTo(db: Db, g: nat, k: nat): (r: seq<nat>)
    requires k <= |db.nodes|
    ensures forall n: nat :: n in r <==> n <= k && Ready(db, g, n)
    ensures forall i, j :: 0 <= i < j < |r| ==> r[i] < r[j]
  {
    if k == 0 then []
    else
      var before := ReadyUpTo(db, g, k - 1);
      assert forall i :: 0 <= i < |before| ==> before[i] in before;
      if Ready(db, g, k) then before + [k] else before
  }

  function ReadyList(db: Db, g: nat): seq<nat> {
    ReadyUpTo(db, g, |db.nodes|)
  }

  // ------------------------------------------------------------ transactions

  /** INSERT OR IGNORE under the primary key (node, dep) and the no-self-edge check. */
  function InsertDep(deps: set<Dep>, d: Dep): set<Dep> {
    if d.node == d.dep || (exists row :: row in deps && row.node == d.node && row.dep == d.dep) then deps
    else deps + {d}
  }

  function InsertDeps(deps: set<Dep>, g: nat, n: nat, ids: seq<nat>): set<Dep> {
    if ids == [] then deps
    else InsertDep(InsertDeps(deps, g, n, ids[..|ids| - 1]), Dep(g, n, ids[|ids| - 1]))
  }

  datatype NewNode = NewNode(
    graph: nat, key: string, title: string, kind: string, status: NodeStatus, attempts: int,
    dependsOn: seq<nat>, taskId: Option<string>, source: Option<nat>)

  function AddNodeError(db: Db, a: NewNode): Option<Error> {
    if Blank(a.key) then Some(EmptyKey)
    else if Blank(a.title) then Some(EmptyTitle)
    else if Blank(a.kind) then Some(EmptyKind)
    else if a.attempts < 0 then Some(NegativeAttempts)
    else if !HasGraph(db, a.graph) then Some(GraphNotFound)
    else if !NodesIn(db, a.graph, a.dependsOn) then Some(NodesNotFound)
    else if a.source.Some? && !NodeIn(db, a.graph, a.source.value) then Some(NodesNotFound)
    else if FindKey(db.nodes, a.graph, Strip(a.key)).Some? then Some(DuplicateKey)
    else None
  }

  function AddNode(db: Db, a: NewNode): Db {
    if AddNodeError(db, a).Some? then db
    else
      var n := |db.nodes| + 1;
      db.(nodes := db.nodes + [Node(a.graph, Strip(a.key), a.status, a.attempts, a.taskId, a.source, a.kind)],
          deps := InsertDeps(db.deps, a.graph, n, a.dependsOn))
  }

  ghost function AddDependencyError(db: Db, g: nat, n: nat, d: nat): Option<Error> {
    if n == d then Some(SelfDependency)
    else if !NodeIn(db, g, n) || !NodeIn(db, g, d) then Some(NodesNotFound)
    else if ReachesPlus(GraphEdges(db.deps, g), d, n) then Some(WouldCycle)
    else None
  }

  ghost function AddDependency(db: Db, g: nat, n: nat, d: nat): Db {
    if AddDependencyError(db, g, n, d).Some? then db
    else db.(deps := InsertDep(db.deps, Dep(g, n, d)))
  }

  /** How `update_plan_graph_node_status` is told about attempts. */
  datatype Attempts = KeepAttempts | SetAttempts(count: nat) | AddAttempt

  function SetStatus(db: Db, n: nat, status: NodeStatus, attempts: Attempts, taskId: Option<string>): Db {
    if !HasNode(db, n) then db
    else
      var row := db.nodes[n - 1];
      var count := match attempts
                   case KeepAttempts => row.attempts
                   case SetAttempts(c) => c
                   case AddAttempt => row.attempts + 1;
      db.(nodes := db.nodes[n - 1 := row.(status := status, attempts := count,
                                          taskId := if taskId.Some? then taskId else row.taskId)])
  }

  predicate LinkOk(db: Db, link: Link) {
    HasGraph(db, link.graph) && (link.node.Some? ==> NodeIn(db, link.graph, link.node.value))
  }

  function RecordReplan(db: Db, task: string, link: Option<Link>): Db {
    if link.Some? && !LinkOk(db, link.value) then db
    else db.(replans := db.replans + [Replan(task, link)])
  }

  /** Attach the task's still unlinked replan decisions. */
  function LinkReplans(db: Db, task: string, link: Link): Db {
    if !LinkOk(db, link) then db
    else db.(replans := seq(|db.replans|, i requires 0 <= i < |db.replans| =>
               var r := db.replans[i];
               if r.task == task && r.link.None? then r.(link := Some(link)) else r))
  }

  /** The parent node named by replan row `i` when `create_replan_follow_up_nodes` selects it. */
  function SelectedParent(db: Db, task: string, g: nat, i: nat): Option<nat>
    requires i < |db.replans|
  {
    var r := db.replans[i];
    if r.task == task && r.link.Some? && r.link.value.graph == g then r.link.value.node else None
  }

  /** One turn of the follow-up loop: reuse or insert the node, then insert its edge to the parent. */
  function FollowRow(db: Db, task: string, g: nat, i: nat): Db
    requires i < |db.replans|
  {
    var parent := SelectedParent(db, task, g, i);
    if parent.None? then db
    else
      var key := ReplanKey(i + 1);
      var existing := FindKey(db.nodes, g, key);
      if existing.Some? then
        db.(deps := InsertDep(db.deps, Dep(g, existing.value, parent.value)))
      else
        db.(nodes := db.nodes + [Node(g, key, Pending, 0, Some(task), Some(parent.value), REPAIR)],
            deps := InsertDep(db.deps, Dep(g, |db.nodes| + 1, parent.value)))
  }

  function FollowRows(db: Db, task: string, g: nat, k: nat): (r: Db)
    requires k <= |db.replans|
    ensures r.replans == db.replans && r.graphs == db.graphs
    ensures |db.nodes| <= |r.nodes| && r.nodes[..|db.nodes|] == db.nodes
  {
    if k == 0 then db else FollowRow(FollowRows(db, task, g, k - 1), task, g, k - 1)
  }

  predicate ParentsKnown(db: Db, task: string, g: nat) {
    forall i :: 0 <= i < |db.replans| ==>
      var parent := SelectedParent(db, task, g, i);
      parent.Some? ==> NodeIn(db, g, parent.value)
  }

  function FollowUps(db: Db, task: string, g: nat): Db {
    if HasGraph(db, g) && ParentsKnown(db, task, g) then FollowRows(db, task, g, |db.replans|) else db
  }

  datatype Op =
    | CreateGraph
    | OpAddNode(a: NewNode)
    | OpAddDependency(g: nat, n: nat, d: nat)
    | OpSetStatus(n: nat, status: NodeStatus, attempts: Attempts, taskId: Option<string>)
    | OpRecordReplan(task: string, link: Option<Link>)
    | OpLinkReplans(task: string, to: Link)
    | OpFollowUps(task: string, g: nat)

  ghost function Step(db: Db, op: Op): Db {
    match op
    case CreateGraph => db.(graphs := db.graphs + 1)
    case OpAddNode(a) => AddNode(db, a)
    case OpAddDependency(g, n, d) => AddDependency(db, g, n, d)
    case OpSetStatus(n, status, attempts, taskId) => SetStatus(db, n, status, attempts, taskId)
    case OpRecordReplan(task, link) => RecordReplan(db, task, link)
    case OpLinkReplans(task, to) => LinkReplans(db, task, to)
    case OpFollowUps(task, g) => FollowUps(db, task, g)
  }

  ghost function Run(db: Db, ops: seq<Op>): Db {
    if ops == [] then db else Step(Run(db, ops[..|ops| - 1]), ops[|ops| - 1])
  }

  // --------------------------------------------------------------- invariants

  /** Referential integrity: both ends of an edge are rows of the edge's own graph, keys are unique. */
  ghost predicate Shape(db: Db) {
    && (forall i :: 0 <= i < |db.nodes| ==> HasGraph(db, db.nodes[i].graph))
    && (forall i, j :: 0 <= i < j < |db.nodes| && db.nodes[i].graph == db.nodes[j].graph ==>
          db.nodes[i].key != db.nodes[j].key)
    && (forall d :: d in db.deps ==> NodeIn(db, d.graph, d.node) && NodeIn(db, d.graph, d.dep))
    && (forall i :: 0 <= i < |db.replans| && db.replans[i].link.Some? ==> LinkOk(db, db.replans[i].link.value))
  }

  ghost predicate AllAcyclic(db: Db) {
    forall g: nat :: Acyclic(GraphEdges(db.deps, g))
  }

  /** Node `n` is the follow-up of replan `id`: the decision is linked to a parent that `n` depends on. */
  predicate OwnedBy(db: Db, n: nat, id: nat) {
    && HasNode(db, n)
    && 1 <= id <= |db.replans|
    && db.replans[id - 1].link.Some?
    && db.replans[id - 1].link.value.graph == db.nodes[n - 1].graph
    && db.replans[id - 1].link.value.node.Some?
    && Dep(db.nodes[n - 1].graph, n, db.replans[id - 1].link.value.node.value) in db.deps
  }

  ghost predicate ReplanKeysOwned(db: Db) {
    forall n: nat, id: nat :: HasNode(db, n) && db.nodes[n - 1].key == ReplanKey(id) ==> OwnedBy(db, n, id)
  }

  ghost predicate Inv(db: Db) {
    Shape(db) && AllAcyclic(db) && ReplanKeysOwned(db)
  }

  /** `replan-<id>` keys are left to follow-ups. */
  ghost predicate LeavesReplanKeys(op: Op) {
    op.OpAddNode? ==> forall id: nat :: Strip(op.a.key) != ReplanKey(id)
  }

  // ------------------------------------------------------------- small lemmas

  lemma InsertDepEdges(deps: set<Dep>, d: Dep, g: nat)
    requires forall row :: row in deps && row.node == d.node ==> row.graph == d.graph
    requires d.node != d.dep
    ensures InsertDep(deps, d) == deps + {d}
    ensures GraphEdges(deps + {d}, g) ==
            if g == d.graph then GraphEdges(deps, g) + {Edge(d.node, d.dep)} else GraphEdges(deps, g)
  {
    if exists row :: row in deps && row.node == d.node && row.dep == d.dep {
      var row :| row in deps && row.node == d.node && row.dep == d.dep;
      assert row == d;
    }
    var before, after := GraphEdges(deps, g), GraphEdges(deps + {d}, g);
    forall e ensures e in after <==> e in before || (g == d.graph && e == Edge(d.node, d.dep)) {
      if e in before {
        assert Dep(g, e.node, e.dep) in deps + {d};
      }
      if g == d.graph && e == Edge(d.node, d.dep) {
        assert d in deps + {d};
      }
    }
  }

  lemma {:induction false} InsertDepsFresh(deps: set<Dep>, g: nat, n: nat, ids: seq<nat>)
    requires forall row :: row in deps ==> row.node != n
    requires n !in ids
    ensures InsertDeps(deps, g, n, ids) == deps + set x | x in ids :: Dep(g, n, x)
  {
    if ids != [] {
      var rest, last := ids[..|ids| - 1], ids[|ids| - 1];
      InsertDepsFresh(deps, g, n, rest);
      var sofar := deps + set x | x in rest :: Dep(g, n, x);
      InsertDepEdges(sofar, Dep(g, n, last), g);
      assert ids == rest + [last];
      assert deps + (set x | x in ids :: Dep(g, n, x)) == sofar + {Dep(g, n, last)};
    }
  }

  /** Rows of a graph's nodes appear as edges of that graph. */
  lemma NodeUnknownBefore(db: Db, n: nat, g: nat)
    requires Shape(db) && n > |db.nodes|
    ensures forall row :: row in db.deps ==> row.node != n && row.dep != n
    ensures forall e :: e in GraphEdges(db.deps, g) ==> e.node != n && e.dep != n
  {
  }

  // ---------------------------------------------------- what each step keeps

  lemma FreshEdges(deps: set<Dep>, after: set<Dep>, g: nat, n: nat, ids: seq<nat>, h: nat)
    requires after == deps + set x | x in ids :: Dep(g, n, x)
    requires n !in ids && forall row :: row in deps ==> row.node != n && row.dep != n
    requires Acyclic(GraphEdges(deps, h))
    ensures Acyclic(GraphEdges(after, h))
  {
    var before := GraphEdges(deps, h);
    if g == h {
      var up := set x | x in ids;
      FreshNodeAcyclic(before, n, up);
      var added := set x | x in up :: Edge(n, x);
      forall e ensures e in GraphEdges(after, h) <==> e in before + added {
        if e in before { assert Dep(h, e.node, e.dep) in after; }
        if e in added { assert Dep(g, n, e.dep) in after; }
      }
      assert GraphEdges(after, h) == before + added;
    } else {
      forall e ensures e in GraphEdges(after, h) <==> e in before {
        if e in before { assert Dep(h, e.node, e.dep) in after; }
      }
      assert GraphEdges(after, h) == before;
    }
  }

  lemma AddNodeKeepsShape(db: Db, a: NewNode)
    requires Shape(db)
    ensures Shape(AddNode(db, a))
    ensures db.deps <= AddNode(db, a).deps
    ensures AllAcyclic(db) ==> AllAcyclic(AddNode(db, a))
  {
    if AddNodeError(db, a).None? {
      var n, after := |db.nodes| + 1, AddNode(db, a);
      NodeUnknownBefore(db, n, a.graph);
      InsertDepsFresh(db.deps, a.graph, n, a.dependsOn);
      hide InsertDeps, Strip, Blank;
      AddedNodeShape(db, after, a);
      if AllAcyclic(db) {
        hide Shape, AddNode, AddNodeError, FindKey;
        forall g: nat ensures Acyclic(GraphEdges(after.deps, g)) {
          FreshEdges(db.deps, after.deps, a.graph, n, a.dependsOn, g);
        }
      }
    }
  }

  lemma AddedNodeShape(db: Db, after: Db, a: NewNode)
    requires Shape(db) && AddNodeError(db, a).None? && after == AddNode(db, a)
    requires after.deps == db.deps + set x | x in a.dependsOn :: Dep(a.graph, |db.nodes| + 1, x)
    ensures Shape(after)
  {
    hide InsertDeps, Strip, Blank;
    assert after.nodes[..|db.nodes|] == db.nodes;
    forall d | d in after.deps ensures NodeIn(after, d.graph, d.node) && NodeIn(after, d.graph, d.dep) {
      if d in db.deps {
        assert NodeIn(db, d.graph, d.node) && NodeIn(db, d.graph, d.dep);
      } else {
        assert NodeIn(db, a.graph, d.dep);
      }
    }
    forall i | 0 <= i < |after.replans| && after.replans[i].link.Some?
      ensures LinkOk(after, after.replans[i].link.value)
    {
      assert LinkOk(db, db.replans[i].link.value);
    }
  }

  lemma ReachesEither(edges: set<Edge>, a: nat, b: nat)
    ensures Reaches(edges, a, b) <==> a == b || ReachesPlus(edges, a, b)
  {
    ReachesRefl(edges, a);
    if Reaches(edges, a, b) && a != b {
      var p :| PathBetween(edges, p, a, b);
      assert |p| >= 2;
    }
  }

  /** An edge between known nodes is refused exactly when it would close a cycle. */
  lemma RejectedIffCloses(db: Db, g: nat, n: nat, d: nat)
    requires Shape(db) && AllAcyclic(db)
    requires NodeIn(db, g, n) && NodeIn(db, g, d)
    ensures AddDependencyError(db, g, n, d).Some? <==> !Acyclic(GraphEdges(db.deps, g) + {Edge(n, d)})
    ensures AddDependencyError(db, g, n, d) == Some(WouldCycle) <==>
            n != d && !Acyclic(GraphEdges(db.deps, g) + {Edge(n, d)})
  {
    AddEdgeAcyclicIff(GraphEdges(db.deps, g), Edge(n, d));
    ReachesEither(GraphEdges(db.deps, g), d, n);
  }

  /** Inserting an edge between two nodes of one graph, checked or not. */
  lemma InsertEdge(db: Db, after: Db, g: nat, n: nat, d: nat)
    requires Shape(db) && NodeIn(db, g, n) && NodeIn(db, g, d) && n != d
    requires after == db.(deps := InsertDep(db.deps, Dep(g, n, d)))
    ensures Shape(after) && after.deps == db.deps + {Dep(g, n, d)}
    ensures AllAcyclic(db) ==> (AllAcyclic(after) <==> !ReachesPlus(GraphEdges(db.deps, g), d, n))
  {
    InsertDepEdges(db.deps, Dep(g, n, d), g);
    hide InsertDep, GraphEdges;
    if AllAcyclic(db) {
      RejectedIffCloses(db, g, n, d);
      hide Shape, Acyclic;
      if !ReachesPlus(GraphEdges(db.deps, g), d, n) {
        forall h: nat ensures Acyclic(GraphEdges(after.deps, h)) {
          InsertDepEdges(db.deps, Dep(g, n, d), h);
        }
      }
    }
  }

  lemma AddDependencyKeepsShape(db: Db, g: nat, n: nat, d: nat)
    requires Shape(db)
    ensures Shape(AddDependency(db, g, n, d))
    ensures db.deps <= AddDependency(db, g, n, d).deps
    ensures AllAcyclic(db) ==> AllAcyclic(AddDependency(db, g, n, d))
  {
    if AddDependencyError(db, g, n, d).None? {
      InsertEdge(db, AddDependency(db, g, n, d), g, n, d);
    }
  }

  /**
   * The follow-up loop inserts its edge unchecked. The row is harmless when its key is free (the node is
   * new), when the holder of the key is the parent itself (the self edge is ignored), or when the parent
   * does not already lie downstream, which is what the closure query would have answered.
   */
  ghost predicate RowSafe(db: Db, task: string, g: nat, i: nat)
    requires i < |db.replans|
  {
    var parent := SelectedParent(db, task, g, i);
    var holder := FindKey(db.nodes, g, ReplanKey(i + 1));
    parent.Some? && holder.Some? && holder.value != parent.value ==>
      !ReachesPlus(GraphEdges(db.deps, g), parent.value, holder.value)
  }

  /** A follow-up inserted with a free key is a new node with one edge. */
  lemma FollowFresh(db: Db, after: Db, g: nat, key: string, task: string, p: nat)
    requires Shape(db) && HasGraph(db, g) && NodeIn(db, g, p) && FindKey(db.nodes, g, key).None?
    requires after == db.(nodes := db.nodes + [Node(g, key, Pending, 0, Some(task), Some(p), REPAIR)],
                          deps := InsertDep(db.deps, Dep(g, |db.nodes| + 1, p)))
    ensures Shape(after) && after.deps == db.deps + {Dep(g, |db.nodes| + 1, p)}
    ensures AllAcyclic(db) ==> AllAcyclic(after)
  {
    var n := |db.nodes| + 1;
    NodeUnknownBefore(db, n, g);
    InsertDepEdges(db.deps, Dep(g, n, p), g);
    hide InsertDep, FindKey, Acyclic, GraphEdges;
    FollowedShape(db, after, g, key, task, p);
    if AllAcyclic(db) {
      hide Shape, HasGraph, NodeIn;
      assert after.deps == db.deps + set x | x in [p] :: Dep(g, n, x);
      forall h: nat ensures Acyclic(GraphEdges(after.deps, h)) {
        FreshEdges(db.deps, after.deps, g, n, [p], h);
      }
    }
  }

  lemma FollowedShape(db: Db, after: Db, g: nat, key: string, task: string, p: nat)
    requires Shape(db) && HasGraph(db, g) && NodeIn(db, g, p) && FindKey(db.nodes, g, key).None?
    requires after == db.(nodes := db.nodes + [Node(g, key, Pending, 0, Some(task), Some(p), REPAIR)],
                          deps := db.deps + {Dep(g, |db.nodes| + 1, p)})
    ensures Shape(after)
  {
    hide FindKey;
    assert after.nodes[..|db.nodes|] == db.nodes;
  }

  lemma FollowRowKeepsShape(db: Db, task: string, g: nat, i: nat)
    requires Shape(db) && i < |db.replans| && HasGraph(db, g)
    ensures Shape(FollowRow(db, task, g, i))
    ensures db.deps <= FollowRow(db, task, g, i).deps
    ensures AllAcyclic(db) ==> (AllAcyclic(FollowRow(db, task, g, i)) <==> RowSafe(db, task, g, i))
  {
    var parent, after := SelectedParent(db, task, g, i), FollowRow(db, task, g, i);
    if parent.Some? {
      var p := parent.value;
      assert LinkOk(db, Link(g, Some(p)));
      var holder := FindKey(db.nodes, g, ReplanKey(i + 1));
      if holder.None? {
        FollowFresh(db, after, g, ReplanKey(i + 1), task, p);
      } else if holder.value != p {
        InsertEdge(db, after, g, holder.value, p);
      }
    }
  }

  lemma CycleStays(db: Db, after: Db)
    requires db.deps <= after.deps && AllAcyclic(after)
    ensures AllAcyclic(db)
  {
    forall g: nat ensures Acyclic(GraphEdges(db.deps, g)) {
      SubgraphAcyclic(GraphEdges(db.deps, g), GraphEdges(after.deps, g));
    }
  }

  ghost predicate RowsSafe(db: Db, task: string, g: nat, k: nat)
    requires k <= |db.replans|
  {
    k > 0 ==> RowsSafe(db, task, g, k - 1) && RowSafe(FollowRows(db, task, g, k - 1), task, g, k - 1)
  }

  lemma {:induction false} FollowRowsKeepShape(db: Db, task: string, g: nat, k: nat)
    requires Shape(db) && k <= |db.replans| && HasGraph(db, g)
    ensures Shape(FollowRows(db, task, g, k))
    ensures db.deps <= FollowRows(db, task, g, k).deps
    ensures AllAcyclic(db) ==> (AllAcyclic(FollowRows(db, task, g, k)) <==> RowsSafe(db, task, g, k))
  {
    if k > 0 {
      var before := FollowRows(db, task, g, k - 1);
      FollowRowsKeepShape(db, task, g, k - 1);
      FollowRowKeepsShape(before, task, g, k - 1);
      if AllAcyclic(FollowRows(db, task, g, k)) {
        CycleStays(before, FollowRows(db, task, g, k));
      }
    }
  }

  /** What one transaction must satisfy to keep the graphs acyclic: only follow-ups can fail it. */
  ghost predicate StepSafe(db: Db, op: Op) {
    op.OpFollowUps? && HasGraph(db, op.g) ==> RowsSafe(db, op.task, op.g, |db.replans|)
  }

  lemma StepKeepsShape(db: Db, op: Op)
    requires Shape(db)
    ensures Shape(Step(db, op))
    ensures db.deps <= Step(db, op).deps
    ensures AllAcyclic(db) ==> (AllAcyclic(Step(db, op)) <==> StepSafe(db, op))
  {
    match op
    case OpAddNode(a) => AddNodeKeepsShape(db, a);
    case OpAddDependency(g, n, d) => AddDependencyKeepsShape(db, g, n, d);
    case OpFollowUps(task, g) => FollowUpsKeepShape(db, task, g);
    case _ => RowsKeepShape(db, op);
  }

  lemma FollowUpsKeepShape(db: Db, task: string, g: nat)
    requires Shape(db)
    ensures Shape(FollowUps(db, task, g))
    ensures db.deps <= FollowUps(db, task, g).deps
    ensures AllAcyclic(db) ==> (AllAcyclic(FollowUps(db, task, g)) <==> StepSafe(db, OpFollowUps(task, g)))
  {
    hide FollowRows, AllAcyclic;
    if HasGraph(db, g) {
      assert forall i :: 0 <= i < |db.replans| && db.replans[i].link.Some? ==> LinkOk(db, db.replans[i].link.value);
      assert ParentsKnown(db, task, g);
      FollowRowsKeepShape(db, task, g, |db.replans|);
    }
  }

  /** The transactions that add no edge. */
  lemma RowsKeepShape(db: Db, op: Op)
    requires Shape(db) && !op.OpAddNode? && !op.OpAddDependency? && !op.OpFollowUps?
    ensures Shape(Step(db, op)) && Step(db, op).deps == db.deps
    ensures AllAcyclic(Step(db, op)) <==> AllAcyclic(db)
  {
    hide Acyclic, GraphEdges;
  }

  lemma EmptyDbInv()
    ensures Inv(EmptyDb)
  {
    forall g: nat, n: nat ensures !ReachesPlus(GraphEdges(EmptyDb.deps, g), n, n) {
      if ReachesPlus(GraphEdges(EmptyDb.deps, g), n, n) {
        var _ := FirstStep(GraphEdges(EmptyDb.deps, g), n, n);
      }
    }
  }

  /** Each transaction of the run was safe where it ran. */
  ghost predicate RunSafe(ops: seq<Op>) {
    ops != [] ==>
      var last := |ops| - 1;
      RunSafe(ops[..last]) && StepSafe(Run(EmptyDb, ops[..last]), ops[last])
  }

  /** Whatever keys users choose, a run ends acyclic exactly when each of its follow-up calls was safe. */
  lemma {:induction false} RunAcyclicIff(ops: seq<Op>)
    ensures Shape(Run(EmptyDb, ops))
    ensures AllAcyclic(Run(EmptyDb, ops)) <==> RunSafe(ops)
  {
    EmptyDbInv();
    if ops != [] {
      var last := |ops| - 1;
      var before := Run(EmptyDb, ops[..last]);
      RunAcyclicIff(ops[..last]);
      StepKeepsShape(before, ops[last]);
      if AllAcyclic(Run(EmptyDb, ops)) {
        CycleStays(before, Run(EmptyDb, ops));
      }
    }
  }

  // ------------------------------------------------------- follow-ups, repeated

  /** The follow-up of replan row `i` exists, and its edge to the parent would not be inserted again. */
  predicate RowFollowed(db: Db, task: string, g: nat, i: nat)
    requires i < |db.replans|
  {
    var parent := SelectedParent(db, task, g, i);
    var holder := FindKey(db.nodes, g, ReplanKey(i + 1));
    parent.Some? ==>
      holder.Some? && InsertDep(db.deps, Dep(g, holder.value, parent.value)) == db.deps
  }

  lemma FindAfterAppend(nodes: seq<Node>, node: Node, g: nat, key: string)
    ensures FindKey(nodes + [node], g, key) ==
            if node.graph == g && node.key == key then Some(|nodes| + 1) else FindKey(nodes, g, key)
  {
    assert (nodes + [node])[..|nodes|] == nodes;
  }

  /** A turn of the loop leaves its own follow-up in place, and the follow-ups of other rows where they are. */
  lemma FollowRowFollows(db: Db, task: string, g: nat, i: nat, j: nat)
    requires i < |db.replans| && j < |db.replans|
    ensures RowFollowed(FollowRow(db, task, g, i), task, g, i)
    ensures RowFollowed(db, task, g, j) ==> RowFollowed(FollowRow(db, task, g, i), task, g, j)
    ensures RowFollowed(db, task, g, j) && SelectedParent(db, task, g, j).Some? ==>
      FindKey(FollowRow(db, task, g, i).nodes, g, ReplanKey(j + 1)) == FindKey(db.nodes, g, ReplanKey(j + 1))
    ensures RowFollowed(db, task, g, i) ==> FollowRow(db, task, g, i) == db
  {
    hide ReplanKey, FindKey;
    var parent := SelectedParent(db, task, g, i);
    if parent.Some? && FindKey(db.nodes, g, ReplanKey(i + 1)).None? {
      var node := Node(g, ReplanKey(i + 1), Pending, 0, Some(task), parent, REPAIR);
      FindAfterAppend(db.nodes, node, g, ReplanKey(i + 1));
      FindAfterAppend(db.nodes, node, g, ReplanKey(j + 1));
    }
  }

  lemma {:induction false} FollowRowsFollow(db: Db, task: string, g: nat, k: nat, j: nat)
    requires j < k <= |db.replans|
    ensures RowFollowed(FollowRows(db, task, g, k), task, g, j)
  {
    hide FollowRow, RowFollowed;
    var before := FollowRows(db, task, g, k - 1);
    if j < k - 1 {
      FollowRowsFollow(db, task, g, k - 1, j);
    }
    FollowRowFollows(before, task, g, k - 1, j);
  }

  lemma {:induction false} NothingToFollow(db: Db, task: string, g: nat, k: nat)
    requires k <= |db.replans| && forall j :: 0 <= j < k ==> RowFollowed(db, task, g, j)
    ensures FollowRows(db, task, g, k) == db
  {
    hide FollowRow, RowFollowed;
    if k > 0 {
      NothingToFollow(db, task, g, k - 1);
      FollowRowFollows(db, task, g, k - 1, k - 1);
    }
  }

  /** Asking for the follow-ups again inserts nothing: every decision already has its node and its edge. */
  lemma FollowUpsTwice(db: Db, task: string, g: nat)
    ensures FollowUps(FollowUps(db, task, g), task, g) == FollowUps(db, task, g)
  {
    hide RowFollowed;
    if HasGraph(db, g) && ParentsKnown(db, task, g) {
      var after := FollowUps(db, task, g);
      forall j | 0 <= j < |after.replans| ensures RowFollowed(after, task, g, j) {
        FollowRowsFollow(db, task, g, |db.replans|, j);
      }
      NothingToFollow(after, task, g, |after.replans|);
    }
  }

  /** The follow-up nodes of the first `k` replan rows, in row order. */
  function FollowIds(db: Db, task: string, g: nat, k: nat): seq<nat>
    requires k <= |db.replans|
  {
    if k == 0 then []
    else
      var holder := FindKey(db.nodes, g, ReplanKey(k));
      FollowIds(db, task, g, k - 1) +
      if SelectedParent(db, task, g, k - 1).Some? && holder.Some? then [holder.value] else []
  }

  lemma {:induction false} FollowIdsStay(db: Db, task: string, g: nat, i: nat, k: nat)
    requires i < |db.replans| && k <= |db.replans|
    requires forall j :: 0 <= j < k ==> RowFollowed(db, task, g, j)
    ensures FollowIds(FollowRow(db, task, g, i), task, g, k) == FollowIds(db, task, g, k)
  {
    hide RowFollowed, FindKey, ReplanKey;
    if k > 0 {
      FollowIdsStay(db, task, g, i, k - 1);
      FollowRowFollows(db, task, g, i, k - 1);
    }
  }

  // ------------------------------------------------------ follow-ups, row by row

  /** A decision of the task, linked to a node of the graph. */
  ghost predicate Selects(r: Replan, task: string, g: nat) {
    r.task == task && r.link.Some? && r.link.value.graph == g && r.link.value.node.Some?
  }

  /** Node `m` is keyed for decision `i + 1` and, unless it is the parent itself, depends on the parent. */
  ghost predicate FollowsUp(db: Db, task: string, g: nat, i: nat, m: nat)
    requires i < |db.replans| && Selects(db.replans[i], task, g)
  {
    var parent := db.replans[i].link.value.node.value;
    && NodeIn(db, g, m) && db.nodes[m - 1].key == "replan-" + Decimal(i + 1)
    && (m != parent ==> exists row :: row in db.deps && row.node == m && row.dep == parent)
  }

  /** A pending repair node keyed for one of the task's decisions. */
  ghost predicate IsFollowNode(replans: seq<Replan>, task: string, g: nat, node: Node) {
    exists i :: 0 <= i < |replans| && IsNodeOf(replans[i], task, g, i, node)
  }

  ghost predicate IsNodeOf(r: Replan, task: string, g: nat, i: nat, node: Node) {
    && Selects(r, task, g)
    && node == Node(g, "replan-" + Decimal(i + 1), Pending, 0, Some(task), r.link.value.node, "repair")
  }

  /** An edge from such a node to the node its decision is linked to. */
  ghost predicate IsFollowEdge(db: Db, task: string, g: nat, d: Dep) {
    exists i :: 0 <= i < |db.replans| && IsEdgeOf(db, task, g, i, d)
  }

  ghost predicate IsEdgeOf(db: Db, task: string, g: nat, i: nat, d: Dep)
    requires i < |db.replans|
  {
    && Selects(db.replans[i], task, g) && FollowsUp(db, task, g, i, d.node)
    && d.graph == g && Some(d.dep) == db.replans[i].link.value.node
  }

  /** What was there stays, and what is new are such nodes and edges. */
  ghost predicate OnlyFollowUps(db: Db, after: Db, task: string, g: nat) {
    && |db.nodes| <= |after.nodes| && (forall k :: 0 <= k < |db.nodes| ==> after.nodes[k] == db.nodes[k])
    && db.deps <= after.deps && after.replans == db.replans && after.graphs == db.graphs
    && (forall k :: |db.nodes| <= k < |after.nodes| ==> IsFollowNode(db.replans, task, g, after.nodes[k]))
    && (forall d :: d in after.deps && d !in db.deps ==> IsFollowEdge(after, task, g, d))
  }

  lemma {:induction false} FollowRowsWrite(db: Db, task: string, g: nat, k: nat)
    requires k <= |db.replans|
    ensures OnlyFollowUps(db, FollowRows(db, task, g, k), task, g)
  {
    hide FollowRow;
    if k > 0 {
      var mid := FollowRows(db, task, g, k - 1);
      FollowRowsWrite(db, task, g, k - 1);
      FollowRowWrites(mid, task, g, k - 1);
      OnlyFollowUpsJoin(db, mid, FollowRow(mid, task, g, k - 1), task, g);
    }
  }

  lemma OnlyFollowUpsJoin(a: Db, b: Db, c: Db, task: string, g: nat)
    requires OnlyFollowUps(a, b, task, g) && OnlyFollowUps(b, c, task, g)
    ensures OnlyFollowUps(a, c, task, g)
  {
    hide IsFollowNode, IsFollowEdge;
    forall d | d in c.deps && d !in a.deps ensures IsFollowEdge(c, task, g, d) {
      if d in b.deps {
        FollowEdgeStays(b, c, task, g, d);
      }
    }
  }

  lemma FollowEdgeStays(db: Db, after: Db, task: string, g: nat, d: Dep)
    requires OnlyFollowUps(db, after, task, g) && IsFollowEdge(db, task, g, d)
    ensures IsFollowEdge(after, task, g, d)
  {
    hide OnlyFollowUps;
    var i :| 0 <= i < |db.replans| && IsEdgeOf(db, task, g, i, d);
    FollowsUpStays(db, after, task, g, i, d.node);
    assert IsEdgeOf(after, task, g, i, d);
  }

  lemma FollowsUpStays(db: Db, after: Db, task: string, g: nat, i: nat, m: nat)
    requires OnlyFollowUps(db, after, task, g) && i < |db.replans| && Selects(db.replans[i], task, g)
    requires FollowsUp(db, task, g, i, m)
    ensures after.replans == db.replans && FollowsUp(after, task, g, i, m)
  {
    hide IsFollowNode, IsFollowEdge;
  }

  lemma FollowRowWrites(db: Db, task: string, g: nat, i: nat)
    requires i < |db.replans|
    ensures OnlyFollowUps(db, FollowRow(db, task, g, i), task, g)
    ensures Selects(db.replans[i], task, g) ==>
      var holder := FindKey(FollowRow(db, task, g, i).nodes, g, ReplanKey(i + 1));
      holder.Some? && FollowsUp(FollowRow(db, task, g, i), task, g, i, holder.value)
  {
    hide FindKey;
    if Selects(db.replans[i], task, g) {
      var after, parent := FollowRow(db, task, g, i), db.replans[i].link.value.node.value;
      var existing, node := FindKey(db.nodes, g, ReplanKey(i + 1)),
                            Node(g, ReplanKey(i + 1), Pending, 0, Some(task), Some(parent), REPAIR);
      var m := if existing.Some? then existing.value else |db.nodes| + 1;
      if existing.None? {
        FindAfterAppend(db.nodes, node, g, ReplanKey(i + 1));
        assert IsNodeOf(db.replans[i], task, g, i, node);
      }
      assert FindKey(after.nodes, g, ReplanKey(i + 1)) == Some(m);
      if m != parent && after.deps != db.deps {
        assert Dep(g, m, parent) in after.deps;
      }
      assert FollowsUp(after, task, g, i, m);
      assert after.deps != db.deps ==> IsEdgeOf(after, task, g, i, Dep(g, m, parent));
    }
  }

  /** What creating follow-ups writes: each selected decision has its node and edge, and nothing else is new. */
  lemma FollowUpsWrite(db: Db, task: string, g: nat)
    ensures OnlyFollowUps(db, FollowUps(db, task, g), task, g)
    ensures HasGraph(db, g) && ParentsKnown(db, task, g) ==>
      var after := FollowUps(db, task, g);
      forall i :: 0 <= i < |db.replans| && Selects(db.replans[i], task, g) ==>
        var holder := FindKey(after.nodes, g, ReplanKey(i + 1));
        holder.Some? && FollowsUp(after, task, g, i, holder.value)
  {
    hide FollowRow, FollowsUp, FindKey;
    if HasGraph(db, g) && ParentsKnown(db, task, g) {
      FollowRowsWrite(db, task, g, |db.replans|);
      forall i | 0 <= i < |db.replans| && Selects(db.replans[i], task, g)
        ensures var after := FollowUps(db, task, g);
          var holder := FindKey(after.nodes, g, ReplanKey(i + 1));
          holder.Some? && FollowsUp(after, task, g, i, holder.value)
      {
        FollowRowsFound(db, task, g, |db.replans|, i);
      }
    } else {
      NothingFollows(db, task, g);
    }
  }

  lemma NothingFollows(db: Db, task: string, g: nat)
    ensures OnlyFollowUps(db, db, task, g)
  {
  }

  lemma {:induction false} FollowRowsFound(db: Db, task: string, g: nat, k: nat, i: nat)
    requires i < k <= |db.replans| && Selects(db.replans[i], task, g)
    ensures var after := FollowRows(db, task, g, k);
      var holder := FindKey(after.nodes, g, ReplanKey(i + 1));
      holder.Some? && FollowsUp(after, task, g, i, holder.value)
  {
    hide FollowRow, FollowsUp, FindKey, RowFollowed;
    var mid := FollowRows(db, task, g, k - 1);
    FollowRowWrites(mid, task, g, k - 1);
    if i < k - 1 {
      FollowRowsFound(db, task, g, k - 1, i);
      FollowRowsFollow(db, task, g, k - 1, i);
      FollowRowFollows(mid, task, g, k - 1, i);
      var holder := FindKey(mid.nodes, g, ReplanKey(i + 1));
      FollowsUpStays(mid, FollowRow(mid, task, g, k - 1), task, g, i, holder.value);
    }
  }

  // -------------------------------------------------- the reserved-key discipline

  /** Rows stay put, decisions stay linked, edges stay: an owned node stays owned. */
  lemma OwnedStays(db: Db, after: Db, n: nat, id: nat)
    requires OwnedBy(db, n, id)
    requires db.deps <= after.deps && |db.nodes| <= |after.nodes| && |db.replans| <= |after.replans|
    requires after.nodes[n - 1].graph == db.nodes[n - 1].graph
    requires after.replans[id - 1].link == db.replans[id - 1].link
    ensures OwnedBy(after, n, id)
  {
  }

  lemma FollowRowKeepsOwned(db: Db, task: string, g: nat, i: nat)
    requires Shape(db) && ReplanKeysOwned(db) && i < |db.replans| && HasGraph(db, g)
    ensures RowSafe(db, task, g, i) || !AllAcyclic(db)
    ensures ReplanKeysOwned(FollowRow(db, task, g, i))
  {
    var parent, after := SelectedParent(db, task, g, i), FollowRow(db, task, g, i);
    if parent.Some? {
      var p := parent.value;
      assert LinkOk(db, Link(g, Some(p)));
      var holder := FindKey(db.nodes, g, ReplanKey(i + 1));
      if holder.Some? {
        assert OwnedBy(db, holder.value, i + 1);
        var edges := GraphEdges(db.deps, g);
        assert Edge(holder.value, p) in edges by { assert Dep(g, holder.value, p) in db.deps; }
        if ReachesPlus(edges, p, holder.value) {
          PlusIsReach(edges, p, holder.value);
          StepPlus(edges, holder.value, p, holder.value);
        }
        assert after == db;
      } else {
        InsertDepEdges(db.deps, Dep(g, |db.nodes| + 1, p), g);
        forall m: nat, id: nat | HasNode(after, m) && after.nodes[m - 1].key == ReplanKey(id)
          ensures OwnedBy(after, m, id)
        {
          if m == |db.nodes| + 1 {
            ReplanKeyInjective(id, i + 1);
          } else {
            OwnedStays(db, after, m, id);
          }
        }
      }
    }
  }

  lemma {:induction false} FollowRowsKeepOwned(db: Db, task: string, g: nat, k: nat)
    requires Inv(db) && k <= |db.replans| && HasGraph(db, g)
    ensures Inv(FollowRows(db, task, g, k)) && RowsSafe(db, task, g, k)
  {
    if k > 0 {
      FollowRowsKeepOwned(db, task, g, k - 1);
      FollowRowKeepsOwned(FollowRows(db, task, g, k - 1), task, g, k - 1);
    }
    FollowRowsKeepShape(db, task, g, k);
  }

  /** When `replan-<id>` keys are left to follow-ups, every step is safe and keeps them owned. */
  lemma StepKeepsInv(db: Db, op: Op)
    requires Inv(db) && LeavesReplanKeys(op)
    ensures Inv(Step(db, op)) && StepSafe(db, op)
  {
    StepKeepsShape(db, op);
    var after := Step(db, op);
    if op.OpFollowUps? {
      if HasGraph(db, op.g) {
        FollowRowsKeepOwned(db, op.task, op.g, |db.replans|);
      }
    } else {
      forall n: nat, id: nat | HasNode(after, n) && after.nodes[n - 1].key == ReplanKey(id)
        ensures OwnedBy(after, n, id)
      {
        assert n <= |db.nodes| && db.nodes[n - 1].key == ReplanKey(id);
        OwnedStays(db, after, n, id);
      }
    }
  }

  /** Every run that leaves the reserved keys alone keeps every graph acyclic and whole. */
  lemma {:induction false} RunKeepsInv(ops: seq<Op>)
    requires forall i :: 0 <= i < |ops| ==> LeavesReplanKeys(ops[i])
    ensures Inv(Run(EmptyDb, ops))
  {
    EmptyDbInv();
    if ops != [] {
      RunKeepsInv(ops[..|ops| - 1]);
      StepKeepsInv(Run(EmptyDb, ops[..|ops| - 1]), ops[|ops| - 1]);
    }
  }

  /** Two user nodes, the first keyed as the follow-up of the first replan decision, which is linked to the second. */
  function ReservedKeyOps(): seq<Op> {
    [CreateGraph,
     OpAddNode(NewNode(1, ReplanKey(1), "first", "task", Pending, 0, [], None, None)),
     OpAddNode(NewNode(1, "build", "second", "task", Pending, 0, [1], None, None)),
     OpRecordReplan("task", Some(Link(1, Some(2))))]
  }

  function ReservedKeyDb(): Db {
    Db(1,
       [Node(1, ReplanKey(1), Pending, 0, None, None, "task"), Node(1, "build", Pending, 0, None, None, "task")],
       {Dep(1, 2, 1)},
       [Replan("task", Some(Link(1, Some(2))))])
  }

  /** The discipline is needed: a run reaches a store in which a follow-up call closes a cycle. */
  lemma ReservedKeyCycle()
    ensures Run(EmptyDb, ReservedKeyOps()) == ReservedKeyDb()
    ensures AllAcyclic(Run(EmptyDb, ReservedKeyOps()))
    ensures !AllAcyclic(Run(EmptyDb, ReservedKeyOps() + [OpFollowUps("task", 1)]))
  {
    var op := OpFollowUps("task", 1);
    assert Step(ReservedKeyDb(), op) == FollowUps(ReservedKeyDb(), "task", 1);
    hide *;
    ReservedKeyReached();
    FollowUpCloses(ReservedKeyDb());
    RunLast(ReservedKeyOps(), op);
  }

  lemma RunLast(ops: seq<Op>, op: Op)
    ensures Run(EmptyDb, ops + [op]) == Step(Run(EmptyDb, ops), op)
  {
    hide Step;
    assert (ops + [op])[..|ops|] == ops;
  }

  lemma ReservedKeyReached()
    ensures Run(EmptyDb, ReservedKeyOps()) == ReservedKeyDb()
  {
    var ops := ReservedKeyOps();
    ReservedSteps();
    FourSteps(ops[0], ops[1], ops[2], ops[3]);
    assert ops == [ops[0], ops[1], ops[2], ops[3]];
    hide *;
  }

  lemma FourSteps(a: Op, b: Op, c: Op, d: Op)
    ensures Run(EmptyDb, [a, b, c, d]) == Step(Step(Step(Step(EmptyDb, a), b), c), d)
  {
    assert Run(EmptyDb, []) == EmptyDb;
    hide *;
    RunLast([], a);
    RunLast([a], b);
    RunLast([a, b], c);
    RunLast([a, b, c], d);
    assert [] + [a] == [a] && [a] + [b] == [a, b] && [a, b] + [c] == [a, b, c] && [a, b, c] + [d] == [a, b, c, d];
  }

  lemma ReservedSteps()
    ensures var ops := ReservedKeyOps();
      Step(Step(Step(Step(EmptyDb, ops[0]), ops[1]), ops[2]), ops[3]) == ReservedKeyDb()
  {
    ReservedNodes();
    hide AddNode, ReplanKey;
  }

  /** What the two insertions write. */
  lemma ReservedNodes()
    ensures var ops, db := ReservedKeyOps(), ReservedKeyDb();
      && AddNode(EmptyDb.(graphs := 1), ops[1].a) == OneReserved()
      && AddNode(OneReserved(), ops[2].a) == db.(replans := [])
  {
    FirstReserved();
    SecondReserved();
    hide AddNode, ReplanKey;
  }

  function OneReserved(): Db {
    Db(1, [Node(1, ReplanKey(1), Pending, 0, None, None, "task")], {}, [])
  }

  lemma FirstReserved()
    ensures AddNode(EmptyDb.(graphs := 1), ReservedKeyOps()[1].a) == OneReserved()
  {
    ReplanKeyStripped(1);
    PlainTexts();
    hide ReplanKey, Strip, Blank;
    assert InsertDeps({}, 1, 1, []) == {};
  }

  lemma SecondReserved()
    ensures AddNode(OneReserved(), ReservedKeyOps()[2].a) == ReservedKeyDb().(replans := [])
  {
    PlainTexts();
    assert "build"[0] != ReplanKey(1)[0];
    hide ReplanKey, Strip, Blank;
    assert OneReserved().nodes[..0] == [] && FindKey(OneReserved().nodes, 1, "build").None?;
    assert InsertDeps({}, 1, 2, [1]) == {Dep(1, 2, 1)} by { assert [1][..0] == []; }
  }

  lemma ReplanKeyStripped(id: nat)
    ensures Strip(ReplanKey(id)) == ReplanKey(id) && !Blank(ReplanKey(id))
  {
    var key := ReplanKey(id);
    assert key[0] == 'r' && key[|key| - 1] == Decimal(id)[|Decimal(id)| - 1];
    TrimIsFixed(key);
  }

  lemma PlainTexts()
    ensures Strip("build") == "build" && !Blank("build") && !Blank("first") && !Blank("second")
    ensures !Blank("task")
  {
    TrimIsFixed("build");
    TrimIsFixed("first");
    TrimIsFixed("second");
    TrimIsFixed("task");
  }

  lemma FollowUpCloses(db: Db)
    requires db == ReservedKeyDb()
    ensures Shape(db) && AllAcyclic(db) && !AllAcyclic(FollowUps(db, "task", 1))
  {
    var after := FollowUps(db, "task", 1);
    assert "build"[0] != ReplanKey(1)[0];
    assert FindKey(db.nodes[..1], 1, ReplanKey(1)) == Some(1);
    assert SelectedParent(db, "task", 1, 0) == Some(2);
    assert FollowRows(db, "task", 1, 0) == db;
    assert Dep(1, 1, 2) in after.deps && Dep(1, 2, 1) in after.deps;
    var edges := GraphEdges(after.deps, 1);
    assert PathBetween(edges, [1, 2, 1], 1, 1);
    assert ReachesPlus(edges, 1, 1);
    forall g: nat ensures Acyclic(GraphEdges(db.deps, g)) {
      var empty: set<Edge> := {};
      EmptyDbInv();
      assert empty == GraphEdges(EmptyDb.deps, 1);
      AddEdgeAcyclicIff(empty, Edge(2, 1));
      if Reaches(empty, 1, 2) {
        ReachesEither(empty, 1, 2);
        var _ := FirstStep(empty, 1, 2);
      }
      assert GraphEdges(db.deps, g) == if g == 1 then {Edge(2, 1)} else empty;
      assert empty + {Edge(2, 1)} == {Edge(2, 1)};
    }
  }
}
