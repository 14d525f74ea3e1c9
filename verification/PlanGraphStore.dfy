/** The PlanGraph methods of the state store, each proved against its transaction. */
module PlanGraphStore {
  import opened Prelude
  import opened Text
  import Graph
  import opened PlanGraph

  datatype Reason = NodeStatusIs(status: NodeStatus) | BlockedDependencies | IsReady

  /** One readiness decision, as shown to the operator. */
  datatype Readiness = Readiness(node: nat, ready: bool, reason: Reason, blocking: set<nat>)

  /** The dependencies of `n` that are known and not done. */
  function Blocking(db: Db, g: nat, n: nat): set<nat> {
    set d | d in db.deps && d.graph == g && d.node == n && !DepDone(db, d) :: d.dep
  }

  function ReadyNodes(rows: seq<Readiness>): seq<nat> {
    if rows == [] then []
    else
      var last := rows[|rows| - 1];
      ReadyNodes(rows[..|rows| - 1]) + if last.ready then [last.node] else []
  }

  function Decide(db: Db, g: nat, n: nat): Readiness
    requires HasNode(db, n)
  {
    var status, blocking := db.nodes[n - 1].status, Blocking(db, g, n);
    var reason := if status != Pending then NodeStatusIs(status)
                  else if blocking != {} then BlockedDependencies
                  else IsReady;
    Readiness(n, reason == IsReady, reason, blocking)
  }

  function ReadinessUpTo(db: Db, g: nat, k: nat): seq<Readiness>
    requires k <= |db.nodes|
  {
    if k == 0 then []
    else ReadinessUpTo(db, g, k - 1) + if db.nodes[k - 1].graph == g then [Decide(db, g, k)] else []
  }

  /** A decision says ready exactly for ready nodes, and names a blocker exactly when a dependency is open. */
  lemma DecideIsReady(db: Db, g: nat, n: nat)
    requires NodeIn(db, g, n)
    ensures Decide(db, g, n).ready <==> Ready(db, g, n)
    ensures Decide(db, g, n).reason == BlockedDependencies <==>
            db.nodes[n - 1].status == Pending &&
            exists d :: d in db.deps && d.graph == g && d.node == n && !DepDone(db, d)
  {
    var blocking := Blocking(db, g, n);
    if blocking != {} {
      var x :| x in blocking;
      assert Dep(g, n, x) in db.deps && !DepDone(db, Dep(g, n, x));
    } else {
      forall d | d in db.deps && d.graph == g && d.node == n ensures DepDone(db, d) {
        assert d.dep !in blocking;
      }
    }
  }

  lemma {:induction false} ReadinessAgrees(db: Db, g: nat, k: nat)
    requires k <= |db.nodes|
    ensures ReadyNodes(ReadinessUpTo(db, g, k)) == ReadyUpTo(db, g, k)
  {
    hide Decide, Ready;
    if k > 0 {
      var before, rows := ReadinessUpTo(db, g, k - 1), ReadinessUpTo(db, g, k);
      ReadinessAgrees(db, g, k - 1);
      DecideNames(db, g, k);
      if NodeIn(db, g, k) {
        DecideIsReady(db, g, k);
        assert rows[..|rows| - 1] == before;
      } else {
        NotReady(db, g, k);
        assert rows == before;
      }
    }
  }

  lemma DecideNames(db: Db, g: nat, n: nat)
    requires HasNode(db, n)
    ensures Decide(db, g, n).node == n
  {
  }

  lemma NotReady(db: Db, g: nat, n: nat)
    requires !NodeIn(db, g, n)
    ensures !Ready(db, g, n)
  {
  }

  lemma FollowRowsZero(db: Db, task: string, g: nat)
    ensures FollowRows(db, task, g, 0) == db && FollowIds(db, task, g, 0) == []
  {
  }

  /** A turn of the follow-up loop answers with the node its row ends up with. */
  lemma FollowRowsNext(db: Db, task: string, g: nat, k: nat)
    requires k < |db.replans|
    ensures var work, after := FollowRows(db, task, g, k), FollowRows(db, task, g, k + 1);
      && after == FollowRow(work, task, g, k)
      && FollowIds(after, task, g, k + 1) == FollowIds(work, task, g, k) +
         if SelectedParent(work, task, g, k).None? then []
         else
           var existing := FindKey(work.nodes, g, ReplanKey(k + 1));
           [if existing.Some? then existing.value else |work.nodes| + 1]
  {
    var work := FollowRows(db, task, g, k);
    forall j | 0 <= j < k ensures RowFollowed(work, task, g, j) {
      FollowRowsFollow(db, task, g, k, j);
    }
    FollowIdsStay(work, task, g, k, k);
    if SelectedParent(work, task, g, k).Some? {
      FollowRowHolder(work, task, g, k);
    }
    hide FollowRow, RowFollowed, FindKey, ReplanKey;
  }

  /** The ids are the nodes that hold the decisions' keys. */
  lemma {:induction false} FollowIdsAre(db: Db, task: string, g: nat, k: nat)
    requires k <= |db.replans|
    ensures forall m :: m in FollowIds(db, task, g, k) <==>
      exists i :: 0 <= i < k && Selects(db.replans[i], task, g) && FindKey(db.nodes, g, ReplanKey(i + 1)) == Some(m)
  {
    hide FindKey, ReplanKey;
    if k > 0 {
      FollowIdsAre(db, task, g, k - 1);
    }
  }

  /** Each selected decision has its node among the ids, and each id is the node of one. */
  ghost predicate AllFollowed(db: Db, ids: seq<nat>, task: string, g: nat) {
    && (forall i :: 0 <= i < |db.replans| && Selects(db.replans[i], task, g) ==>
          exists m :: m in ids && FollowsUp(db, task, g, i, m))
    && (forall m :: m in ids ==>
          exists i :: 0 <= i < |db.replans| && Selects(db.replans[i], task, g) && FollowsUp(db, task, g, i, m))
  }

  lemma FollowUpsStated(db: Db, task: string, g: nat)
    ensures var after := FollowUps(db, task, g);
      && after.replans == db.replans && OnlyFollowUps(db, after, task, g)
      && (HasGraph(db, g) && ParentsKnown(db, task, g) ==>
            AllFollowed(after, FollowIds(after, task, g, |after.replans|), task, g))
  {
    var after := FollowUps(db, task, g);
    FollowUpsWrite(db, task, g);
    FollowIdsAre(after, task, g, |after.replans|);
    hide FollowUps, FollowIds, FollowsUp, FindKey, ReplanKey, ParentsKnown, IsFollowNode, IsFollowEdge, Selects;
    if HasGraph(db, g) && ParentsKnown(db, task, g) {
      forall i | 0 <= i < |after.replans| && Selects(after.replans[i], task, g)
        ensures exists m :: m in FollowIds(after, task, g, |after.replans|) && FollowsUp(after, task, g, i, m)
      {
        var holder := FindKey(after.nodes, g, ReplanKey(i + 1));
        assert FollowsUp(after, task, g, i, holder.value);
      }
    }
  }

  lemma FollowRowHolder(work: Db, task: string, g: nat, k: nat)
    requires k < |work.replans| && SelectedParent(work, task, g, k).Some?
    ensures var existing := FindKey(work.nodes, g, ReplanKey(k + 1));
      FindKey(FollowRow(work, task, g, k).nodes, g, ReplanKey(k + 1)) ==
      Some(if existing.Some? then existing.value else |work.nodes| + 1)
  {
    hide ReplanKey, FindKey;
    if FindKey(work.nodes, g, ReplanKey(k + 1)).None? {
      var node := Node(g, ReplanKey(k + 1), Pending, 0, Some(task), SelectedParent(work, task, g, k), REPAIR);
      FindAfterAppend(work.nodes, node, g, ReplanKey(k + 1));
    }
  }

  /** The errors of an insertion, and what makes it succeed, over the tables' columns. */
  lemma AddNodeErrors(db: Db, a: NewNode)
    ensures AddNodeError(db, a) == Some(EmptyKey) <==> Blank(a.key)
    ensures AddNodeError(db, a) == Some(EmptyTitle) <==> !Blank(a.key) && Blank(a.title)
    ensures AddNodeError(db, a) == Some(EmptyKind) <==> !Blank(a.key) && !Blank(a.title) && Blank(a.kind)
    ensures AddNodeError(db, a).None? <==>
      && !Blank(a.key) && !Blank(a.title) && !Blank(a.kind) && a.attempts >= 0 && 1 <= a.graph <= db.graphs
      && (forall d :: d in a.dependsOn || Some(d) == a.source ==>
            1 <= d <= |db.nodes| && db.nodes[d - 1].graph == a.graph)
      && (forall i :: 0 <= i < |db.nodes| && db.nodes[i].graph == a.graph ==> db.nodes[i].key != Strip(a.key))
  {
    hide Blank, Strip, FindKey;
    assert forall i :: 0 <= i < |a.dependsOn| ==> a.dependsOn[i] in a.dependsOn;
    if a.source.Some? {
      assert Some(a.source.value) == a.source;
    }
  }

  /** An insertion writes one edge for each node asked for, and the new node is ready once all of those are done. */
  lemma AddedNode(db: Db, a: NewNode)
    ensures AddNodeError(db, a).None? && Shape(db) ==>
      var after, n := AddNode(db, a), |db.nodes| + 1;
      && after.deps == db.deps + (set d | d in a.dependsOn :: Dep(a.graph, n, d))
      && (Ready(after, a.graph, n) <==>
            a.status == Pending && forall d :: d in a.dependsOn ==> after.nodes[d - 1].status == Done)
  {
    if AddNodeError(db, a).None? && Shape(db) {
      var after, n := AddNode(db, a), |db.nodes| + 1;
      NodeUnknownBefore(db, n, a.graph);
      InsertDepsFresh(db.deps, a.graph, n, a.dependsOn);
      hide InsertDeps, FindKey, Strip, Blank, Shape;
      if Ready(after, a.graph, n) {
        forall d | d in a.dependsOn ensures after.nodes[d - 1].status == Done {
          assert Dep(a.graph, n, d) in after.deps;
        }
      }
    }
  }

  const GRAPH_STATUSES: set<string> := {"active", "done", "blocked", "archived"}

  class Store {
    var graphs: nat
    var statuses: seq<string>   // the status column of the graphs
    var nodes: seq<Node>
    var deps: set<Dep>
    var replans: seq<Replan>

    ghost function Snapshot(): Db
      reads this
    {
      Db(graphs, nodes, deps, replans)
    }

    constructor ()
      ensures Snapshot() == EmptyDb && Inv(Snapshot()) && statuses == []
    {
      graphs, statuses, nodes, deps, replans := 0, [], [], {}, [];
      new;
      EmptyDbInv();
    }

    /** A blank title is refused, then a status outside the vocabulary. */
    method CreateGraph(title: string, status: string) returns (r: Result<nat, Error>)
      modifies this`graphs, this`statuses
      ensures r.Err? ==> Snapshot() == old(Snapshot()) && statuses == old(statuses)
      ensures Blank(title) ==> r == Err(EmptyTitle)
      ensures !Blank(title) && status !in GRAPH_STATUSES ==> r == Err(UnknownStatus)
      ensures !Blank(title) && status in GRAPH_STATUSES ==>
        && Snapshot() == Step(old(Snapshot()), Op.CreateGraph) && statuses == old(statuses) + [status]
        && r == Ok(old(graphs) + 1) && HasGraph(Snapshot(), r.value)
    {
      if Blank(title) { return Err(EmptyTitle); }
      if status !in GRAPH_STATUSES { return Err(UnknownStatus); }
      graphs, statuses := graphs + 1, statuses + [status];
      return Ok(graphs);
    }

    method AddPlanGraphNode(a: NewNode) returns (r: Result<nat, Error>)
      modifies this`nodes, this`deps
      ensures Snapshot() == AddNode(old(Snapshot()), a)
      ensures r == match AddNodeError(old(Snapshot()), a)
                   case Some(e) => Err(e)
                   case None => Ok(|old(nodes)| + 1)
      ensures r.Err? ==> nodes == old(nodes) && deps == old(deps)
      ensures r == Err(EmptyKey) <==> Blank(a.key)
      ensures r == Err(EmptyTitle) <==> !Blank(a.key) && Blank(a.title)
      ensures r == Err(EmptyKind) <==> !Blank(a.key) && !Blank(a.title) && Blank(a.kind)
      ensures r.Ok? <==>
        && !Blank(a.key) && !Blank(a.title) && !Blank(a.kind) && a.attempts >= 0 && 1 <= a.graph <= graphs
        && (forall d :: d in a.dependsOn || Some(d) == a.source ==>
              1 <= d <= |old(nodes)| && old(nodes)[d - 1].graph == a.graph)
        && (forall i :: 0 <= i < |old(nodes)| && old(nodes)[i].graph == a.graph ==> old(nodes)[i].key != Strip(a.key))
      ensures r.Ok? ==>
        && r.value == |nodes|
        && nodes == old(nodes) + [Node(a.graph, Strip(a.key), a.status, a.attempts, a.taskId, a.source, a.kind)]
      ensures r.Ok? && old(Shape(Snapshot())) ==>
        && deps == old(deps) + (set d | d in a.dependsOn :: Dep(a.graph, r.value, d))
        && (Ready(Snapshot(), a.graph, r.value) <==>
              a.status == Pending && forall d :: d in a.dependsOn ==> nodes[d - 1].status == Done)
    {
      AddedNode(Snapshot(), a);
      AddNodeErrors(Snapshot(), a);
      hide FindKey, Strip, Blank, Ready, Shape;
      if Blank(a.key) { return Err(EmptyKey); }
      if Blank(a.title) { return Err(EmptyTitle); }
      if Blank(a.kind) { return Err(EmptyKind); }
      if a.attempts < 0 { return Err(NegativeAttempts); }
      var db := Db(graphs, nodes, deps, replans);
      if !HasGraph(db, a.graph) { return Err(GraphNotFound); }
      if !NodesIn(db, a.graph, a.dependsOn) { return Err(NodesNotFound); }
      if a.source.Some? && !NodeIn(db, a.graph, a.source.value) { return Err(NodesNotFound); }
      if FindKey(nodes, a.graph, Strip(a.key)).Some? { return Err(DuplicateKey); }
      nodes := nodes + [Node(a.graph, Strip(a.key), a.status, a.attempts, a.taskId, a.source, a.kind)];
      var n := |nodes|;
      for i := 0 to |a.dependsOn|
        invariant deps == InsertDeps(old(deps), a.graph, n, a.dependsOn[..i])
        invariant graphs == old(graphs) && replans == old(replans)
        invariant nodes == old(nodes) + [Node(a.graph, Strip(a.key), a.status, a.attempts, a.taskId, a.source, a.kind)]
      {
        assert a.dependsOn[..i + 1][..i] == a.dependsOn[..i];
        deps := InsertDep(deps, Dep(a.graph, n, a.dependsOn[i]));
      }
      assert a.dependsOn[..|a.dependsOn|] == a.dependsOn;
      return Ok(n);
    }

    /** `_plan_graph_dependency_creates_cycle`. */
    method CreatesCycle(g: nat, n: nat, d: nat) returns (cycle: bool)
      ensures cycle <==> Graph.ReachesPlus(GraphEdges(deps, g), d, n)
    {
      var edges := set row | row in deps && row.graph == g :: Graph.Edge(row.node, row.dep);
      var up := Graph.Upstream(edges, d);
      cycle := n in up;
    }

    method AddPlanGraphDependency(g: nat, n: nat, d: nat) returns (r: Result<Dep, Error>)
      requires Shape(Snapshot())
      modifies this`deps
      ensures Shape(Snapshot())
      ensures Snapshot() == AddDependency(old(Snapshot()), g, n, d)
      ensures r == match AddDependencyError(old(Snapshot()), g, n, d)
                   case Some(e) => Err(e)
                   case None => Ok(Dep(g, n, d))
      ensures r == Err(SelfDependency) <==> n == d
      ensures r == Err(NodesNotFound) <==>
        n != d && !(1 <= n <= |nodes| && 1 <= d <= |nodes| && nodes[n - 1].graph == nodes[d - 1].graph == g)
      ensures deps == old(deps) + if r.Ok? then {Dep(g, n, d)} else {}
      ensures old(AllAcyclic(Snapshot())) && NodeIn(Snapshot(), g, n) && NodeIn(Snapshot(), g, d) ==>
        (r.Err? <==> !Graph.Acyclic(old(GraphEdges(deps, g)) + {Graph.Edge(n, d)}))
    {
      AddDependencyKeepsShape(Snapshot(), g, n, d);
      if AllAcyclic(Snapshot()) && NodeIn(Snapshot(), g, n) && NodeIn(Snapshot(), g, d) {
        RejectedIffCloses(Snapshot(), g, n, d);
      }
      if n == d { return Err(SelfDependency); }
      var db := Db(graphs, nodes, deps, replans);
      if !NodeIn(db, g, n) || !NodeIn(db, g, d) { return Err(NodesNotFound); }
      var cycle := CreatesCycle(g, n, d);
      if cycle { return Err(WouldCycle); }
      InsertDepEdges(deps, Dep(g, n, d), g);
      deps := InsertDep(deps, Dep(g, n, d));
      return Ok(Dep(g, n, d));
    }

    /** `update_plan_graph_node_status`; the result is the updated row, or none for an unknown node. */
    method UpdateStatus(n: nat, status: NodeStatus, attempts: Option<int>, increment: bool, taskId: Option<string>)
      returns (r: Result<Option<Node>, Error>)
      modifies this`nodes
      ensures attempts.Some? && increment ==> r == Err(AmbiguousAttempts)
      ensures attempts.Some? && !increment && attempts.value < 0 ==> r == Err(NegativeAttempts)
      ensures r.Err? ==> attempts.Some? && (increment || attempts.value < 0) && nodes == old(nodes)
      ensures r.Ok? ==>
        var change := if increment then AddAttempt
                      else if attempts.Some? then SetAttempts(attempts.value) else KeepAttempts;
        && Snapshot() == SetStatus(old(Snapshot()), n, status, change, taskId)
        && r.value == if HasNode(Snapshot(), n) then Some(nodes[n - 1]) else None
      ensures r.Ok? && (n < 1 || n > |nodes|) ==> nodes == old(nodes)
      ensures r.Ok? && 1 <= n <= |old(nodes)| ==>
        var row := old(nodes)[n - 1];
        nodes == old(nodes)[n - 1 := row.(
          status := status, taskId := if taskId.Some? then taskId else row.taskId,
          attempts := if increment then row.attempts + 1 else if attempts.Some? then attempts.value else row.attempts)]
    {
      if attempts.Some? && increment { return Err(AmbiguousAttempts); }
      if attempts.Some? && attempts.value < 0 { return Err(NegativeAttempts); }
      if n < 1 || |nodes| < n { return Ok(None); }
      var row := nodes[n - 1];
      var count := if attempts.Some? then attempts.value else if increment then row.attempts + 1 else row.attempts;
      nodes := nodes[n - 1 := row.(status := status, attempts := count,
                                   taskId := if taskId.Some? then taskId else row.taskId)];
      return Ok(Some(nodes[n - 1]));
    }

    /** `record_replan_decision`: no blank source, no node without its graph, no link to what is not there. */
    method RecordReplanDecision(task: string, source: string, graph: Option<nat>, node: Option<nat>)
      returns (r: Result<nat, Error>)
      modifies this`replans
      ensures Blank(source) ==> r == Err(EmptySource)
      ensures !Blank(source) && graph.None? && node.Some? ==> r == Err(NodeWithoutGraph)
      ensures Blank(source) || (graph.None? && node.Some?) ==> replans == old(replans)
      ensures !Blank(source) && (graph.Some? || node.None?) ==>
        var link := if graph.Some? then Some(Link(graph.value, node)) else None;
        && Snapshot() == RecordReplan(old(Snapshot()), task, link)
        && (r.Ok? <==> link.None? || LinkOk(old(Snapshot()), link.value))
        && (r.Ok? ==> r.value == |replans| && replans == old(replans) + [Replan(task, link)])
        && (r.Err? ==> replans == old(replans))
      ensures r.Ok? && graph.Some? ==> 1 <= graph.value <= graphs
      ensures r.Ok? && node.Some? ==> 1 <= node.value <= |nodes| && Some(nodes[node.value - 1].graph) == graph
    {
      if Blank(source) { return Err(EmptySource); }
      if graph.None? && node.Some? { return Err(NodeWithoutGraph); }
      var link := if graph.Some? then Some(Link(graph.value, node)) else None;
      if link.Some? {
        var db := Db(graphs, nodes, deps, replans);
        if !HasGraph(db, link.value.graph) { return Err(GraphNotFound); }
        if !LinkOk(db, link.value) { return Err(NodesNotFound); }
      }
      replans := replans + [Replan(task, link)];
      return Ok(|replans|);
    }

    /** The result lists the task's decisions, old links included. */
    method LinkReplanDecisions(task: string, to: Link) returns (r: Result<seq<nat>, Error>)
      modifies this`replans
      ensures Snapshot() == LinkReplans(old(Snapshot()), task, to)
      ensures r.Ok? <==> LinkOk(old(Snapshot()), to)
      ensures r.Ok? <==>
        && 1 <= to.graph <= graphs
        && (to.node.Some? ==> 1 <= to.node.value <= |nodes| && nodes[to.node.value - 1].graph == to.graph)
      ensures |replans| == |old(replans)|
      ensures forall i :: 0 <= i < |replans| ==>
        var row := old(replans)[i];
        replans[i] == if r.Ok? && row.task == task && row.link.None? then Replan(task, Some(to)) else row
      ensures r.Ok? ==> forall id: nat :: id in r.value <==> 1 <= id <= |replans| && replans[id - 1].task == task
    {
      var db := Db(graphs, nodes, deps, replans);
      if !HasGraph(db, to.graph) { return Err(GraphNotFound); }
      if !LinkOk(db, to) { return Err(NodesNotFound); }
      replans := LinkReplans(db, task, to).replans;
      var ids: seq<nat> := [];
      for i := 0 to |replans|
        invariant forall id: nat :: id in ids <==> 1 <= id <= i && replans[id - 1].task == task
      {
        if replans[i].task == task { ids := ids + [i + 1]; }
      }
      return Ok(ids);
    }

    /** `create_replan_follow_up_nodes`: one transaction, rolled back when a parent is unknown. */
    method CreateFollowUps(task: string, g: nat) returns (r: Result<seq<nat>, Error>)
      modifies this`nodes, this`deps
      ensures Snapshot() == FollowUps(old(Snapshot()), task, g)
      ensures r.Ok? <==> HasGraph(old(Snapshot()), g) && ParentsKnown(old(Snapshot()), task, g)
      ensures r.Ok? ==> r.value == FollowIds(Snapshot(), task, g, |replans|)
      ensures r.Err? ==> nodes == old(nodes) && deps == old(deps)
      ensures r.Ok? ==>
        AllFollowed(Snapshot(), r.value, task, g) && OnlyFollowUps(old(Snapshot()), Snapshot(), task, g)
    {
      FollowUpsStated(Snapshot(), task, g);
      hide OnlyFollowUps, AllFollowed;
      hide FollowRows, FollowIds, RowFollowed, FindKey, ReplanKey, InsertDep;
      var db := Db(graphs, nodes, deps, replans);
      if !HasGraph(db, g) { return Err(GraphNotFound); }
      var ids: seq<nat> := [];
      var work := db;
      FollowRowsZero(db, task, g);
      for i := 0 to |replans|
        invariant Db(graphs, nodes, deps, replans) == db
        invariant work == FollowRows(db, task, g, i)
        invariant ids == FollowIds(work, task, g, i)
        invariant forall k :: 0 <= k < i ==>
          SelectedParent(db, task, g, k).Some? ==> NodeIn(db, g, SelectedParent(db, task, g, k).value)
      {
        var parent := SelectedParent(work, task, g, i);
        FollowRowsNext(db, task, g, i);
        assert SelectedParent(db, task, g, i) == parent;
        if parent.Some? {
          if !NodeIn(db, g, parent.value) {
            return Err(NodesNotFound);
          }
          var existing := FindKey(work.nodes, g, ReplanKey(i + 1));
          var n := if existing.Some? then existing.value else |work.nodes| + 1;
          if existing.None? {
            work := work.(nodes := work.nodes +
              [Node(g, ReplanKey(i + 1), Pending, 0, Some(task), parent, REPAIR)]);
          }
          work := work.(deps := InsertDep(work.deps, Dep(g, n, parent.value)));
          ids := ids + [n];
        }
      }
      nodes, deps := work.nodes, work.deps;
      return Ok(ids);
    }

    /** `list_plan_graph_node_readiness`: one decision per node of the graph, in id order. */
    method ListReadiness(g: nat) returns (rows: seq<Readiness>)
      ensures rows == ReadinessUpTo(Snapshot(), g, |nodes|)
      ensures ReadyNodes(rows) == ReadyList(Snapshot(), g)
    {
      rows := [];
      var db := Db(graphs, nodes, deps, replans);
      for i := 0 to |nodes|
        invariant rows == ReadinessUpTo(db, g, i)
      {
        if nodes[i].graph == g {
          var blocking := Blocking(db, g, i + 1);
          var status := nodes[i].status;
          var reason := if status != Pending then NodeStatusIs(status)
                        else if blocking != {} then BlockedDependencies
                        else IsReady;
          rows := rows + [Readiness(i + 1, reason == IsReady, reason, blocking)];
        }
      }
      ReadinessAgrees(db, g, |nodes|);
    }

    /** `list_ready_plan_graph_nodes`. */
    method ListReady(g: nat, limit: Option<int>) returns (r: Option<seq<nat>>)
      ensures r.None? <==> limit.Some? && limit.value < 0
      ensures r.Some? ==> r.value <= ReadyList(Snapshot(), g)
      ensures r.Some? && limit.None? ==> r.value == ReadyList(Snapshot(), g)
      ensures r.Some? && limit.Some? ==>
        |r.value| == if limit.value < |ReadyList(Snapshot(), g)| then limit.value else |ReadyList(Snapshot(), g)|
      ensures r.Some? ==> forall i, j :: 0 <= i < j < |r.value| ==> r.value[i] < r.value[j]
      ensures r.Some? && limit.None? ==> forall n: nat :: n in r.value <==>
        && 1 <= n <= |nodes| && nodes[n - 1].graph == g && nodes[n - 1].status == Pending
        && forall d :: d in deps && d.graph == g && d.node == n && 1 <= d.dep <= |nodes| ==>
             nodes[d.dep - 1].status == Done
    {
      if limit.Some? && limit.value < 0 { return None; }
      var rows := ListReadiness(g);
      var ready := ReadyNodes(rows);
      if limit.Some? && limit.value < |ready| { return Some(ready[..limit.value]); }
      return Some(ready);
    }
  }
}
