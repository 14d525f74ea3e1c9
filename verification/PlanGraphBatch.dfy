/** Progress of an acyclic plan, and the serial batch runner that re-queries readiness after every node. */
module PlanGraphBatch {
  import opened Prelude
  import opened Text
  import opened Graph
  import opened PlanGraph
  import PlanGraphStore

  // ----------------------------------------------------------------- progress

  /** The edges of `g` whose upper node is not done. */
  ghost function OpenEdges(db: Db, g: nat): set<Edge> {
    set d | d in db.deps && d.graph == g && !DepDone(db, d) :: Edge(d.node, d.dep)
  }

  predicate Stuck(db: Db, n: nat) {
    HasNode(db, n) && db.nodes[n - 1].status in {InProgress, Blocked, Failed, Skipped}
  }

  /** Walk upstream through dependencies that are not done; in an acyclic graph the walk ends. */
  lemma {:induction false} WalkUp(db: Db, g: nat, p: seq<nat>) returns (m: nat)
    requires Shape(db) && Acyclic(GraphEdges(db.deps, g))
    requires IsPath(OpenEdges(db, g), p)
    requires forall i :: 0 <= i < |p| ==> NodeIn(db, g, p[i])
    requires NodeIn(db, g, p[|p| - 1]) && db.nodes[p[|p| - 1] - 1].status != Done
    ensures Reaches(OpenEdges(db, g), p[0], m)
    ensures Ready(db, g, m) || Stuck(db, m)
    decreases |db.nodes| + 1 - |p|
  {
    var open, last := OpenEdges(db, g), p[|p| - 1];
    assert PathBetween(open, p, p[0], last);
    if Ready(db, g, last) || Stuck(db, last) {
      m := last;
    } else {
      var d :| d in db.deps && d.graph == g && d.node == last && !DepDone(db, d);
      assert Edge(last, d.dep) in open;
      var q := p + [d.dep];
      forall i, j | 0 <= i < j < |q| ensures q[i] != q[j] {
        assert open <= GraphEdges(db.deps, g);
        AcyclicPathDistinct(GraphEdges(db.deps, g), q, i, j);
      }
      Pigeonhole(Ids(|db.nodes|), q);
      m := WalkUp(db, g, q);
    }
  }

  /** The node ids of a table with `k` rows. */
  ghost function Ids(k: nat): (ids: set<nat>)
    ensures |ids| == k && forall n: nat :: n in ids <==> 1 <= n <= k
  {
    if k == 0 then {} else Ids(k - 1) + {k}
  }

  /** Every pending node is ready, or an open dependency chain leads to one that is ready or stuck. */
  lemma Progress(db: Db, g: nat, n: nat)
    requires Shape(db) && Acyclic(GraphEdges(db.deps, g))
    requires NodeIn(db, g, n) && db.nodes[n - 1].status == Pending
    ensures exists m: nat :: Reaches(OpenEdges(db, g), n, m) && (Ready(db, g, m) || Stuck(db, m))
  {
    var m := WalkUp(db, g, [n]);
  }

  ghost predicate OnlyPendingOrDone(db: Db, g: nat) {
    forall n :: NodeIn(db, g, n) ==> db.nodes[n - 1].status in {Pending, Done}
  }

  /** With nothing stuck in the graph, a pending node means the ready list is not empty. */
  lemma SomethingReady(db: Db, g: nat, n: nat)
    requires Shape(db) && Acyclic(GraphEdges(db.deps, g)) && OnlyPendingOrDone(db, g)
    requires NodeIn(db, g, n) && db.nodes[n - 1].status == Pending
    ensures ReadyList(db, g) != []
  {
    var m := WalkUp(db, g, [n]);
    OpenStaysInGraph(db, g, n, m);
    assert m in ReadyList(db, g);
  }

  lemma OpenStaysInGraph(db: Db, g: nat, n: nat, m: nat)
    requires Shape(db) && NodeIn(db, g, n) && Reaches(OpenEdges(db, g), n, m)
    ensures NodeIn(db, g, m)
  {
    if n != m {
      ReachesEither(OpenEdges(db, g), n, m);
      var before := LastStep(OpenEdges(db, g), n, m);
    }
  }

  // -------------------------------------------------------------- one node run

  /** What the supervised run of a node turns out to be. */
  datatype Outcome =
    | Refused                                        // a guard stopped it before it started
    | Ran(done: bool, drawn: string, replans: nat)   // it ran and recorded that many replans; `drawn` is its random id

  predicate Succeeded(o: Outcome) {
    o.Ran? && o.done
  }

  function LongestTask(replans: seq<Replan>): (n: nat)
    ensures forall i :: 0 <= i < |replans| ==> |replans[i].task| <= n
  {
    if replans == [] then 0
    else
      var last, rest := |replans[|replans| - 1].task|, LongestTask(replans[..|replans| - 1]);
      assert forall i :: 0 <= i < |replans| - 1 ==> replans[..|replans| - 1][i] == replans[i];
      if last > rest then last else rest
  }

  predicate TaskTaken(replans: seq<Replan>, task: string) {
    exists i :: 0 <= i < |replans| && replans[i].task == task
  }

  /** The id of the task a run creates: what was drawn, or, were that ever taken, one nobody has. */
  function NewTask(replans: seq<Replan>, drawn: string): (task: string)
    ensures !TaskTaken(replans, task)
    ensures !TaskTaken(replans, drawn) ==> task == drawn
  {
    if TaskTaken(replans, drawn) then seq(LongestTask(replans) + 1, _ => '-') else drawn
  }

  function AddReplans(db: Db, task: string, k: nat): (r: Db)
    ensures r.nodes == db.nodes && r.deps == db.deps && r.graphs == db.graphs
  {
    if k == 0 then db else RecordReplan(AddReplans(db, task, k - 1), task, None)
  }

  /** `_run_plan_graph_node`. */
  function RunNode(db: Db, g: nat, n: nat, o: Outcome): Db {
    match o
    case Refused => SetStatus(db, n, Blocked, KeepAttempts, None)
    case Ran(done, drawn, replans) =>
      var task := NewTask(db.replans, drawn);
      var started := SetStatus(db, n, InProgress, AddAttempt, None);
      var recorded := AddReplans(started, task, replans);
      var finished := SetStatus(recorded, n, if done then Done else Blocked, KeepAttempts, Some(task));
      FollowUps(LinkReplans(finished, task, Link(g, Some(n))), task, g)
  }

  lemma {:induction false} AddReplansKeepsInv(db: Db, task: string, k: nat)
    requires Inv(db)
    ensures Inv(AddReplans(db, task, k))
  {
    if k > 0 {
      AddReplansKeepsInv(db, task, k - 1);
      StepKeepsInv(AddReplans(db, task, k - 1), OpRecordReplan(task, None));
    }
  }

  /** Rows already there keep everything, and only new nodes gain edges. */
  ghost predicate OnlyGrows(db: Db, after: Db) {
    && |db.nodes| <= |after.nodes| && after.nodes[..|db.nodes|] == db.nodes
    && db.deps <= after.deps
    && forall d :: d in after.deps - db.deps ==> d.node > |db.nodes|
  }

  lemma {:induction false} FollowRowsOnlyGrow(db: Db, task: string, g: nat, k: nat)
    requires Inv(db) && HasGraph(db, g) && k <= |db.replans|
    ensures Inv(FollowRows(db, task, g, k)) && OnlyGrows(db, FollowRows(db, task, g, k))
  {
    if k > 0 {
      var mid := FollowRows(db, task, g, k - 1);
      FollowRowsOnlyGrow(db, task, g, k - 1);
      FollowRowOnlyGrows(mid, task, g, k - 1);
      FollowRowsKeepOwned(db, task, g, k);
    }
  }

  lemma FollowRowOnlyGrows(db: Db, task: string, g: nat, i: nat)
    requires Inv(db) && HasGraph(db, g) && i < |db.replans|
    ensures OnlyGrows(db, FollowRow(db, task, g, i))
  {
    var parent := SelectedParent(db, task, g, i);
    if parent.Some? {
      assert LinkOk(db, Link(g, parent));
      var holder := FindKey(db.nodes, g, ReplanKey(i + 1));
      if holder.Some? {
        assert OwnedBy(db, holder.value, i + 1);
      }
    }
  }

  /** Only row `n` may change, not even its graph; rows and edges are added only for new nodes. */
  ghost predicate Frame(db: Db, after: Db, n: nat) {
    && HasNode(db, n)
    && |db.nodes| <= |after.nodes|
    && (forall i :: 0 <= i < |db.nodes| && i != n - 1 ==> after.nodes[i] == db.nodes[i])
    && after.nodes[n - 1].graph == db.nodes[n - 1].graph
    && db.deps <= after.deps
    && (forall d :: d in after.deps && d !in db.deps ==> d.node > |db.nodes|)
    && db.graphs == after.graphs
  }

  lemma FrameJoin(a: Db, b: Db, c: Db, n: nat)
    requires Frame(a, b, n) && Frame(b, c, n)
    ensures Frame(a, c, n)
  {
  }

  lemma SetStatusFrame(db: Db, n: nat, status: NodeStatus, attempts: Attempts, taskId: Option<string>)
    requires HasNode(db, n)
    ensures Frame(db, SetStatus(db, n, status, attempts, taskId), n)
    ensures SetStatus(db, n, status, attempts, taskId).nodes[n - 1].status == status
  {
  }

  lemma LinkReplansFrame(db: Db, task: string, link: Link, n: nat)
    requires HasNode(db, n)
    ensures Frame(db, LinkReplans(db, task, link), n)
    ensures LinkReplans(db, task, link).nodes == db.nodes
  {
  }

  lemma FollowUpsFrame(db: Db, task: string, g: nat, n: nat)
    requires Inv(db) && HasNode(db, n)
    ensures Frame(db, FollowUps(db, task, g), n)
    ensures FollowUps(db, task, g).nodes[n - 1] == db.nodes[n - 1]
  {
    hide Inv, FollowRows, ParentsKnown;
    if HasGraph(db, g) {
      FollowRowsOnlyGrow(db, task, g, |db.replans|);
      var after := FollowRows(db, task, g, |db.replans|);
      forall i | 0 <= i < |db.nodes| ensures after.nodes[i] == db.nodes[i] {
        assert after.nodes[..|db.nodes|][i] == after.nodes[i];
      }
    }
  }

  /** Running a node keeps the invariant, changes nothing else that existed, and leaves it done or blocked. */
  lemma RunNodeEffect(db: Db, g: nat, n: nat, o: Outcome)
    requires Inv(db) && NodeIn(db, g, n)
    ensures Inv(RunNode(db, g, n, o)) && Frame(db, RunNode(db, g, n, o), n)
    ensures RunNode(db, g, n, o).nodes[n - 1].status == if Succeeded(o) then Done else Blocked
  {
    hide Inv, LinkReplans, FollowUps, SetStatus, AddReplans;
    match o
    case Refused =>
      StepKeepsInv(db, OpSetStatus(n, Blocked, KeepAttempts, None));
      SetStatusFrame(db, n, Blocked, KeepAttempts, None);
    case Ran(done, drawn, replans) =>
      var task := NewTask(db.replans, drawn);
      var started := SetStatus(db, n, InProgress, AddAttempt, None);
      StepKeepsInv(db, OpSetStatus(n, InProgress, AddAttempt, None));
      SetStatusFrame(db, n, InProgress, AddAttempt, None);
      var recorded := AddReplans(started, task, replans);
      AddReplansKeepsInv(started, task, replans);
      var status := if done then Done else Blocked;
      var finished := SetStatus(recorded, n, status, KeepAttempts, Some(task));
      StepKeepsInv(recorded, OpSetStatus(n, status, KeepAttempts, Some(task)));
      SetStatusFrame(recorded, n, status, KeepAttempts, Some(task));
      var linked := LinkReplans(finished, task, Link(g, Some(n)));
      StepKeepsInv(finished, OpLinkReplans(task, Link(g, Some(n))));
      LinkReplansFrame(finished, task, Link(g, Some(n)), n);
      StepFollowUps(linked, task, g);
      FollowUpsFrame(linked, task, g, n);
      FrameJoin(db, recorded, finished, n);
      FrameJoin(db, finished, linked, n);
      FrameJoin(db, linked, FollowUps(linked, task, g), n);
  }

  lemma StepFollowUps(db: Db, task: string, g: nat)
    requires Inv(db)
    ensures Inv(FollowUps(db, task, g))
  {
    StepKeepsInv(db, OpFollowUps(task, g));
  }

  // ------------------------------------------------- what a node run writes, exactly

  /**
   * `k` new decisions of `task`, all linked to the node that ran; for each in turn a new pending repair node with one
   * edge, to that node; and the node's own row.
   */
  ghost predicate NodeRan(db: Db, after: Db, g: nat, n: nat, status: NodeStatus, task: string, k: nat)
    requires HasNode(db, n)
  {
    && after.graphs == db.graphs
    && |after.replans| == |db.replans| + k && after.replans[..|db.replans|] == db.replans
    && (forall i :: |db.replans| <= i < |after.replans| ==> after.replans[i] == Replan(task, Some(Link(g, Some(n)))))
    && |after.nodes| == |db.nodes| + k
    && (forall i :: 0 <= i < |db.nodes| && i != n - 1 ==> after.nodes[i] == db.nodes[i])
    && after.nodes[n - 1] ==
       db.nodes[n - 1].(status := status, attempts := db.nodes[n - 1].attempts + 1, taskId := Some(task))
    && (forall i :: |db.nodes| <= i < |after.nodes| ==>
          after.nodes[i] ==
          Node(g, "replan-" + Decimal(|db.replans| + i - |db.nodes| + 1), Pending, 0, Some(task), Some(n), "repair"))
    && EdgesAdded(db, after, g, n)
  }

  /** One edge from each new node to `n`, and no other. */
  ghost predicate EdgesAdded(db: Db, after: Db, g: nat, n: nat) {
    forall d :: d in after.deps <==>
      d in db.deps || (d.graph == g && d.dep == n && |db.nodes| < d.node <= |after.nodes|)
  }

  lemma {:induction false} AddReplansAre(db: Db, task: string, k: nat)
    ensures var after := AddReplans(db, task, k);
      && |after.replans| == |db.replans| + k && after.replans[..|db.replans|] == db.replans
      && forall j :: |db.replans| <= j < |after.replans| ==> after.replans[j] == Replan(task, None)
  {
    if k > 0 {
      AddReplansAre(db, task, k - 1);
      var mid := AddReplans(db, task, k - 1).replans;
      assert (mid + [Replan(task, None)])[..|db.replans|] == mid[..|db.replans|];
    }
  }

  /** The tables the follow-up loop starts from: the run's decisions are the last ones, all linked to the node. */
  ghost predicate ReadyToFollow(db: Db, g: nat, n: nat, task: string, from: nat) {
    && Shape(db) && NodeIn(db, g, n) && from <= |db.replans|
    && (forall i :: 0 <= i < from ==> db.replans[i].task != task)
    && (forall i :: from <= i < |db.replans| ==> db.replans[i] == Replan(task, Some(Link(g, Some(n)))))
    && (forall m: nat, id: nat :: HasNode(db, m) && db.nodes[m - 1].key == ReplanKey(id) ==> id <= from)
  }

  /** The loop's tables once it is past `j` of the run's decisions. */
  ghost predicate FollowedFirst(db: Db, after: Db, g: nat, n: nat, task: string, from: nat, j: nat) {
    && after.graphs == db.graphs && after.replans == db.replans
    && |after.nodes| == |db.nodes| + j && after.nodes[..|db.nodes|] == db.nodes
    && (forall i :: |db.nodes| <= i < |after.nodes| ==>
          after.nodes[i] ==
          Node(g, "replan-" + Decimal(from + i - |db.nodes| + 1), Pending, 0, Some(task), Some(n), "repair"))
    && EdgesAdded(db, after, g, n)
  }

  lemma {:induction false} OthersIgnored(db: Db, g: nat, n: nat, task: string, from: nat, k: nat)
    requires ReadyToFollow(db, g, n, task, from) && k <= from
    ensures FollowRows(db, task, g, k) == db
  {
    if k > 0 {
      OthersIgnored(db, g, n, task, from, k - 1);
    }
  }

  lemma {:induction false} FollowsOneByOne(db: Db, g: nat, n: nat, task: string, from: nat, j: nat)
    requires ReadyToFollow(db, g, n, task, from) && from + j <= |db.replans|
    ensures FollowedFirst(db, FollowRows(db, task, g, from + j), g, n, task, from, j)
  {
    if j == 0 {
      OthersIgnored(db, g, n, task, from, from);
    } else {
      FollowsOneByOne(db, g, n, task, from, j - 1);
      var mid := FollowRows(db, task, g, from + j - 1);
      hide FollowRows, ReplanKey;
      KeyIsFree(db, mid, g, n, task, from, j - 1);
      FollowsNext(db, mid, g, n, task, from, j - 1);
      assert FollowRows(db, task, g, from + j) == FollowRow(mid, task, g, from + j - 1) by {
        LastRow(db, task, g, from + j);
      }
    }
  }

  lemma LastRow(db: Db, task: string, g: nat, k: nat)
    requires 0 < k <= |db.replans|
    ensures FollowRows(db, task, g, k) == FollowRow(FollowRows(db, task, g, k - 1), task, g, k - 1)
  {
  }

  lemma KeyText(id: nat)
    ensures ReplanKey(id) == "replan-" + Decimal(id)
  {
  }

  lemma KeyIsFree(db: Db, mid: Db, g: nat, n: nat, task: string, from: nat, j: nat)
    requires ReadyToFollow(db, g, n, task, from) && FollowedFirst(db, mid, g, n, task, from, j)
    ensures FindKey(mid.nodes, g, ReplanKey(from + j + 1)).None?
  {
    hide FindKey, ReadyToFollow, FollowedFirst, ReplanKey;
    forall i | 0 <= i < |mid.nodes| ensures mid.nodes[i].key != ReplanKey(from + j + 1) {
      KeyAt(db, mid, g, n, task, from, j, i);
    }
  }

  lemma KeyAt(db: Db, mid: Db, g: nat, n: nat, task: string, from: nat, j: nat, i: nat)
    requires ReadyToFollow(db, g, n, task, from) && FollowedFirst(db, mid, g, n, task, from, j) && i < |mid.nodes|
    ensures mid.nodes[i].key != ReplanKey(from + j + 1)
  {
    hide Shape, EdgesAdded, ReplanKey;
    if i < |db.nodes| {
      assert HasNode(db, i + 1) && mid.nodes[i] == mid.nodes[..|db.nodes|][i];
    } else {
      KeyText(from + i - |db.nodes| + 1);
      if ReplanKey(from + i - |db.nodes| + 1) == ReplanKey(from + j + 1) {
        ReplanKeyInjective(from + i - |db.nodes| + 1, from + j + 1);
      }
    }
  }

  lemma FollowsNext(db: Db, mid: Db, g: nat, n: nat, task: string, from: nat, j: nat)
    requires ReadyToFollow(db, g, n, task, from) && FollowedFirst(db, mid, g, n, task, from, j)
    requires from + j < |db.replans| && FindKey(mid.nodes, g, ReplanKey(from + j + 1)).None?
    ensures FollowedFirst(db, FollowRow(mid, task, g, from + j), g, n, task, from, j + 1)
  {
    FollowWrites(db, mid, g, n, task, from, j);
    KeyText(from + j + 1);
    hide FindKey, Shape, InsertDep, SelectedParent, ReadyToFollow, FollowRow, ReplanKey, EdgesAdded;
    var after := FollowRow(mid, task, g, from + j);
    assert after.nodes[..|db.nodes|] == mid.nodes[..|db.nodes|];
    OneEdgeMore(db, mid, after, g, n);
  }

  lemma OneEdgeMore(db: Db, mid: Db, after: Db, g: nat, n: nat)
    requires EdgesAdded(db, mid, g, n) && |after.nodes| == |mid.nodes| + 1 && |db.nodes| <= |mid.nodes|
    requires after.deps == mid.deps + {Dep(g, |mid.nodes| + 1, n)}
    ensures EdgesAdded(db, after, g, n)
  {
  }

  lemma FollowWrites(db: Db, mid: Db, g: nat, n: nat, task: string, from: nat, j: nat)
    requires ReadyToFollow(db, g, n, task, from) && FollowedFirst(db, mid, g, n, task, from, j)
    requires from + j < |db.replans| && FindKey(mid.nodes, g, ReplanKey(from + j + 1)).None?
    ensures FollowRow(mid, task, g, from + j) ==
      mid.(nodes := mid.nodes + [Node(g, ReplanKey(from + j + 1), Pending, 0, Some(task), Some(n), "repair")],
           deps := mid.deps + {Dep(g, |mid.nodes| + 1, n)})
  {
    var d := Dep(g, |mid.nodes| + 1, n);
    hide ReplanKey;
    forall row | row in mid.deps ensures row.node != d.node {
      assert row in db.deps ==> NodeIn(db, row.graph, row.node);
    }
    assert InsertDep(mid.deps, d) == mid.deps + {d};
    assert SelectedParent(mid, task, g, from + j) == Some(n);
  }

  /** A run's decisions are the last ones, so linking and following up concern them alone. */
  lemma RunNodeWrites(db: Db, g: nat, n: nat, o: Outcome)
    requires Inv(db) && NodeIn(db, g, n)
    ensures o.Ran? ==>
      NodeRan(db, RunNode(db, g, n, o), g, n, if o.done then Done else Blocked, NewTask(db.replans, o.drawn), o.replans)
    ensures o.Refused? ==>
      RunNode(db, g, n, o) == db.(nodes := db.nodes[n - 1 := db.nodes[n - 1].(status := Blocked)])
  {
    if o.Ran? {
      var task, status := NewTask(db.replans, o.drawn), if o.done then Done else Blocked;
      var started := SetStatus(db, n, InProgress, AddAttempt, None);
      var recorded := AddReplans(started, task, o.replans);
      var finished := SetStatus(recorded, n, status, KeepAttempts, Some(task));
      var linked := LinkReplans(finished, task, Link(g, Some(n)));
      StepKeepsInv(db, OpSetStatus(n, InProgress, AddAttempt, None));
      AddReplansKeepsInv(started, task, o.replans);
      StepKeepsInv(recorded, OpSetStatus(n, status, KeepAttempts, Some(task)));
      StepKeepsInv(finished, OpLinkReplans(task, Link(g, Some(n))));
      AddReplansAre(started, task, o.replans);
      LinkedAre(db, recorded, linked, g, n, task, status, o.replans);
      hide *;
      FollowsWhole(db, linked, g, n, task, status, o.replans);
      RunNodeIs(db, g, n, o);
    }
  }

  lemma SucceededIs(o: Outcome)
    ensures Succeeded(o) <==> o.Ran? && o.done
  {
  }

  lemma RunNodeIs(db: Db, g: nat, n: nat, o: Outcome)
    requires o.Ran?
    ensures var task := NewTask(db.replans, o.drawn);
      var recorded := AddReplans(SetStatus(db, n, InProgress, AddAttempt, None), task, o.replans);
      var finished := SetStatus(recorded, n, if o.done then Done else Blocked, KeepAttempts, Some(task));
      RunNode(db, g, n, o) == FollowUps(LinkReplans(finished, task, Link(g, Some(n))), task, g)
  {
    hide FollowUps, LinkReplans, AddReplans, SetStatus;
  }

  /** The tables the follow-ups start from, beside those the run started from. */
  ghost predicate RunLinked(db: Db, linked: Db, g: nat, n: nat, task: string, status: NodeStatus, k: nat)
    requires HasNode(db, n)
  {
    && linked.graphs == db.graphs && linked.deps == db.deps && |linked.nodes| == |db.nodes|
    && (forall i :: 0 <= i < |db.nodes| && i != n - 1 ==> linked.nodes[i] == db.nodes[i])
    && linked.nodes[n - 1] ==
       db.nodes[n - 1].(status := status, attempts := db.nodes[n - 1].attempts + 1, taskId := Some(task))
    && |linked.replans| == |db.replans| + k && linked.replans[..|db.replans|] == db.replans
    && (forall i :: |db.replans| <= i < |linked.replans| ==>
          linked.replans[i] == Replan(task, Some(Link(g, Some(n)))))
  }

  lemma LinkedAre(db: Db, recorded: Db, linked: Db, g: nat, n: nat, task: string, status: NodeStatus, k: nat)
    requires Inv(db) && NodeIn(db, g, n) && !TaskTaken(db.replans, task)
    requires var started := SetStatus(db, n, InProgress, AddAttempt, None);
      && recorded == AddReplans(started, task, k)
      && |recorded.replans| == |db.replans| + k && recorded.replans[..|db.replans|] == db.replans
      && forall j :: |db.replans| <= j < |recorded.replans| ==> recorded.replans[j] == Replan(task, None)
    requires linked ==
      LinkReplans(SetStatus(recorded, n, status, KeepAttempts, Some(task)), task, Link(g, Some(n)))
    ensures RunLinked(db, linked, g, n, task, status, k)
  {
    HasItsGraph(db, g, n);
    hide Inv, AddReplans;
    forall i | 0 <= i < |db.replans| ensures linked.replans[i] == db.replans[i] {
      assert recorded.replans[..|db.replans|][i] == recorded.replans[i];
    }
  }

  lemma HasItsGraph(db: Db, g: nat, n: nat)
    requires Inv(db) && NodeIn(db, g, n)
    ensures HasGraph(db, g)
  {
  }

  lemma FollowsWhole(db: Db, linked: Db, g: nat, n: nat, task: string, status: NodeStatus, k: nat)
    requires Inv(db) && Inv(linked) && NodeIn(db, g, n) && !TaskTaken(db.replans, task)
    requires RunLinked(db, linked, g, n, task, status, k)
    ensures NodeRan(db, FollowUps(linked, task, g), g, n, status, task, k)
  {
    ReadyAfterLink(db, linked, g, n, task, status, k);
    HasItsGraph(linked, g, n);
    ParentsAreKnown(linked, task, g);
    FollowsOneByOne(linked, g, n, task, |db.replans|, k);
    hide Inv, ReadyToFollow, FollowRows, TaskTaken, ParentsKnown, FollowedFirst, NodeRan;
    LinkedThenFollowed(db, linked, FollowRows(linked, task, g, |db.replans| + k), g, n, task, status, k);
  }

  lemma LinkedThenFollowed(db: Db, linked: Db, after: Db, g: nat, n: nat, task: string, status: NodeStatus, k: nat)
    requires HasNode(db, n) && RunLinked(db, linked, g, n, task, status, k)
    requires FollowedFirst(linked, after, g, n, task, |db.replans|, k)
    ensures NodeRan(db, after, g, n, status, task, k)
  {
    assert forall i :: 0 <= i < |db.nodes| ==> after.nodes[i] == after.nodes[..|db.nodes|][i];
  }

  lemma ParentsAreKnown(db: Db, task: string, g: nat)
    requires Inv(db)
    ensures ParentsKnown(db, task, g)
  {
  }

  lemma ReadyAfterLink(db: Db, linked: Db, g: nat, n: nat, task: string, status: NodeStatus, k: nat)
    requires Inv(db) && Inv(linked) && NodeIn(db, g, n) && !TaskTaken(db.replans, task)
    requires RunLinked(db, linked, g, n, task, status, k)
    ensures ReadyToFollow(linked, g, n, task, |db.replans|)
  {
    forall i | 0 <= i < |db.replans| ensures linked.replans[i].task != task {
      assert linked.replans[..|db.replans|][i] == db.replans[i];
    }
    forall m: nat, id: nat | HasNode(linked, m) && linked.nodes[m - 1].key == ReplanKey(id) ensures id <= |db.replans| {
      assert db.nodes[m - 1].key == ReplanKey(id);
      assert OwnedBy(db, m, id);
    }
    hide AllAcyclic, ReplanKeysOwned, ReplanKey;
  }

  // -------------------------------------------------------------------- batch

  /** The nodes run, the tables each one started from, the final tables, and whether a failure stopped it. */
  datatype BatchResult = BatchResult(processed: seq<nat>, starts: seq<Db>, final: Db, stopped: bool)

  function Batch(db: Db, g: nat, maxItems: nat, world: nat -> Outcome, turn: nat): (r: BatchResult)
    ensures |r.processed| == |r.starts| <= maxItems
    decreases maxItems
  {
    if maxItems == 0 || ReadyList(db, g) == [] then BatchResult([], [], db, false)
    else
      var n := ReadyList(db, g)[0];
      var after := RunNode(db, g, n, world(turn));
      if Succeeded(world(turn)) then
        var rest := Batch(after, g, maxItems - 1, world, turn + 1);
        BatchResult([n] + rest.processed, [db] + rest.starts, rest.final, rest.stopped)
      else BatchResult([n], [db], after, true)
  }

  lemma FirstReady(db: Db, g: nat)
    requires ReadyList(db, g) != []
    ensures Ready(db, g, ReadyList(db, g)[0])
  {
    assert ReadyList(db, g)[0] in ReadyList(db, g);
  }

  /** A batch leaves done nodes done and unrun, and gives old nodes no new edges. */
  ghost predicate Settled(db: Db, r: BatchResult) {
    && |db.nodes| <= |r.final.nodes|
    && db.graphs == r.final.graphs
    && db.deps <= r.final.deps
    && (forall d :: d in r.final.deps && d !in db.deps ==> d.node > |db.nodes|)
    && (forall i :: 0 <= i < |db.nodes| ==> r.final.nodes[i].graph == db.nodes[i].graph)
    && (forall i :: 0 <= i < |db.nodes| && db.nodes[i].status == Done ==>
          r.final.nodes[i].status == Done && i + 1 !in r.processed)
  }

  /** One turn of the batch. */
  lemma BatchTurn(db: Db, g: nat, maxItems: nat, world: nat -> Outcome, turn: nat)
    requires Inv(db) && maxItems != 0 && ReadyList(db, g) != []
    ensures var n := ReadyList(db, g)[0];
      && Ready(db, g, n)
      && Inv(RunNode(db, g, n, world(turn))) && Frame(db, RunNode(db, g, n, world(turn)), n)
      && RunNode(db, g, n, world(turn)).nodes[n - 1].status == (if Succeeded(world(turn)) then Done else Blocked)
  {
    FirstReady(db, g);
    RunNodeEffect(db, g, ReadyList(db, g)[0], world(turn));
  }

  lemma {:induction false} BatchSettles(db: Db, g: nat, maxItems: nat, world: nat -> Outcome, turn: nat)
    requires Inv(db)
    ensures Inv(Batch(db, g, maxItems, world, turn).final)
    ensures Settled(db, Batch(db, g, maxItems, world, turn))
    decreases maxItems
  {
    hide Inv, ReadyList, RunNode;
    if maxItems != 0 && ReadyList(db, g) != [] {
      BatchTurn(db, g, maxItems, world, turn);
      if Succeeded(world(turn)) {
        var after := RunNode(db, g, ReadyList(db, g)[0], world(turn));
        BatchSettles(after, g, maxItems - 1, world, turn + 1);
      }
    }
  }

  ghost predicate DistinctNodes(r: BatchResult) {
    forall i, j :: 0 <= i < j < |r.processed| ==> r.processed[i] != r.processed[j]
  }

  /** Each node was ready when it started, and ended done unless it is the failure that stopped the batch. */
  ghost predicate StartedReady(r: BatchResult, g: nat) {
    && |r.processed| == |r.starts|
    && (r.stopped ==> r.processed != [])
    && forall i :: 0 <= i < |r.processed| ==>
         && Ready(r.starts[i], g, r.processed[i])
         && HasNode(r.final, r.processed[i])
         && r.final.nodes[r.processed[i] - 1].status ==
            (if r.stopped && i == |r.processed| - 1 then Blocked else Done)
  }

  /** A run node has the dependencies it started with, all done from its start to the end. */
  ghost predicate DependenciesDone(r: BatchResult, g: nat) {
    && |r.processed| == |r.starts|
    && forall i, d :: 0 <= i < |r.processed| && d in r.final.deps && d.graph == g && d.node == r.processed[i] ==>
         && d in r.starts[i].deps && HasNode(r.starts[i], d.dep) && r.starts[i].nodes[d.dep - 1].status == Done
         && HasNode(r.final, d.dep) && r.final.nodes[d.dep - 1].status == Done
  }

  /** A node runs after every node it depends on that the batch ran. */
  ghost predicate TopologicalOrder(r: BatchResult, g: nat) {
    forall i, j :: 0 <= i <= j < |r.processed| ==> Dep(g, r.processed[i], r.processed[j]) !in r.final.deps
  }

  ghost predicate RunsInOrder(r: BatchResult, g: nat) {
    DistinctNodes(r) && StartedReady(r, g) && DependenciesDone(r, g) && TopologicalOrder(r, g)
  }

  /** The dependencies of the node just run: known before, done before and after, never the node itself. */
  lemma RunDependencies(db: Db, after: Db, g: nat, n: nat)
    requires Inv(db) && Ready(db, g, n) && Frame(db, after, n)
    ensures forall d :: d in after.deps && d.graph == g && d.node == n ==>
      d in db.deps && d.dep != n && HasNode(db, d.dep) &&
      db.nodes[d.dep - 1].status == Done && after.nodes[d.dep - 1].status == Done
  {
    forall d | d in after.deps && d.graph == g && d.node == n
      ensures d in db.deps && d.dep != n && HasNode(db, d.dep) &&
        db.nodes[d.dep - 1].status == Done && after.nodes[d.dep - 1].status == Done
    {
      assert NodeIn(db, d.graph, d.dep) && DepDone(db, d);
    }
  }

  /** The batch result of running `n` from `db` and then the rest. */
  function Prepend(db: Db, n: nat, rest: BatchResult): BatchResult {
    BatchResult([n] + rest.processed, [db] + rest.starts, rest.final, rest.stopped)
  }

  lemma RunFirst(db: Db, after: Db, rest: BatchResult, g: nat, n: nat)
    requires Inv(db) && Ready(db, g, n) && Frame(db, after, n) && after.nodes[n - 1].status == Done
    requires RunsInOrder(rest, g) && Settled(after, rest)
    ensures RunsInOrder(Prepend(db, n, rest), g)
  {
    RunDependencies(db, after, g, n);
    hide Inv;
    FirstIsDistinct(db, after, rest, n);
    FirstStartedReady(db, after, rest, g, n);
    FirstDependenciesDone(db, after, rest, g, n);
    FirstInOrder(db, after, rest, g, n);
  }

  lemma FirstIsDistinct(db: Db, after: Db, rest: BatchResult, n: nat)
    requires HasNode(after, n) && after.nodes[n - 1].status == Done
    requires DistinctNodes(rest) && Settled(after, rest)
    ensures DistinctNodes(Prepend(db, n, rest))
  {
    assert (n - 1) + 1 !in rest.processed;
  }

  lemma FirstStartedReady(db: Db, after: Db, rest: BatchResult, g: nat, n: nat)
    requires Ready(db, g, n) && HasNode(after, n) && after.nodes[n - 1].status == Done
    requires StartedReady(rest, g) && Settled(after, rest)
    ensures StartedReady(Prepend(db, n, rest), g)
  {
    hide Ready;
    assert rest.final.nodes[n - 1].status == Done;
  }

  lemma FirstDependenciesDone(db: Db, after: Db, rest: BatchResult, g: nat, n: nat)
    requires HasNode(after, n) && |db.nodes| <= |after.nodes| && Settled(after, rest) && DependenciesDone(rest, g)
    requires forall d :: d in after.deps && d.graph == g && d.node == n ==>
      d in db.deps && HasNode(db, d.dep) && db.nodes[d.dep - 1].status == Done && after.nodes[d.dep - 1].status == Done
    ensures DependenciesDone(Prepend(db, n, rest), g)
  {
    var r := Prepend(db, n, rest);
    forall i, d | 0 <= i < |r.processed| && d in r.final.deps && d.graph == g && d.node == r.processed[i]
      ensures d in r.starts[i].deps && HasNode(r.starts[i], d.dep) && r.starts[i].nodes[d.dep - 1].status == Done
      ensures HasNode(r.final, d.dep) && r.final.nodes[d.dep - 1].status == Done
    {
      if i == 0 {
        assert d in after.deps;
        assert after.nodes[d.dep - 1].status == Done;
      } else {
        assert r.processed[i] == rest.processed[i - 1] && r.starts[i] == rest.starts[i - 1];
      }
    }
  }

  lemma FirstInOrder(db: Db, after: Db, rest: BatchResult, g: nat, n: nat)
    requires HasNode(after, n) && Settled(after, rest) && TopologicalOrder(rest, g)
    requires forall d :: d in after.deps && d.graph == g && d.node == n ==>
      d.dep != n && HasNode(after, d.dep) && after.nodes[d.dep - 1].status == Done
    ensures TopologicalOrder(Prepend(db, n, rest), g)
  {
    var r := Prepend(db, n, rest);
    forall i, j | 0 <= i <= j < |r.processed| ensures Dep(g, r.processed[i], r.processed[j]) !in r.final.deps {
      if i == 0 {
        var x := r.processed[j];
        assert x == n || x in rest.processed;
        assert HasNode(after, x) && after.nodes[x - 1].status == Done ==> (x - 1) + 1 !in rest.processed;
        assert Dep(g, n, x) !in after.deps;
      } else {
        assert r.processed[i] == rest.processed[i - 1] && r.processed[j] == rest.processed[j - 1];
      }
    }
  }

  /** Distinct nodes, in topological order, dependencies done from start to end, all but a last failure done. */
  lemma {:induction false} BatchRunsInOrder(db: Db, g: nat, maxItems: nat, world: nat -> Outcome, turn: nat)
    requires Inv(db)
    ensures RunsInOrder(Batch(db, g, maxItems, world, turn), g)
    decreases maxItems
  {
    hide Inv, ReadyList, RunNode;
    if maxItems != 0 && ReadyList(db, g) != [] {
      BatchTurn(db, g, maxItems, world, turn);
      var n := ReadyList(db, g)[0];
      var after := RunNode(db, g, n, world(turn));
      if Succeeded(world(turn)) {
        BatchRunsInOrder(after, g, maxItems - 1, world, turn + 1);
        BatchSettles(after, g, maxItems - 1, world, turn + 1);
        RunFirst(db, after, Batch(after, g, maxItems - 1, world, turn + 1), g, n);
      } else {
        RunDependencies(db, after, g, n);
      }
    }
  }

  // -------------------------------------------------- the follow-ups of a whole batch

  /** How many replan decisions `count` runs from `turn` on record. */
  function Total(world: nat -> Outcome, turn: nat, count: nat): nat
    decreases count
  {
    if count == 0 then 0
    else (if world(turn).Ran? then world(turn).replans else 0) + Total(world, turn + 1, count - 1)
  }

  /** Decisions stay, edges stay, rows keep what they are, and rows that were not run keep everything. */
  ghost predicate Keeps(db: Db, after: Db, processed: seq<nat>) {
    && |db.replans| <= |after.replans| && (forall i :: 0 <= i < |db.replans| ==> after.replans[i] == db.replans[i])
    && |db.nodes| <= |after.nodes| && db.deps <= after.deps
    && (forall i :: 0 <= i < |db.nodes| ==>
          && SameNode(db.nodes[i], after.nodes[i])
          && (i + 1 !in processed ==> after.nodes[i] == db.nodes[i]))
  }

  predicate SameNode(a: Node, b: Node) {
    a.graph == b.graph && a.key == b.key && a.source == b.source && a.kind == b.kind
  }

  lemma RunNodeKeeps(db: Db, g: nat, n: nat, o: Outcome)
    requires Inv(db) && NodeIn(db, g, n)
    ensures Keeps(db, RunNode(db, g, n, o), [n])
  {
    RunNodeWrites(db, g, n, o);
    hide Inv, RunNode;
    if o.Ran? {
      NodeRanKeeps(db, RunNode(db, g, n, o), g, n, if o.done then Done else Blocked, NewTask(db.replans, o.drawn),
                   o.replans);
    }
  }

  lemma NodeRanKeeps(db: Db, after: Db, g: nat, n: nat, status: NodeStatus, task: string, k: nat)
    requires HasNode(db, n) && NodeRan(db, after, g, n, status, task, k)
    ensures Keeps(db, after, [n])
  {
    assert forall i :: 0 <= i < |db.replans| ==> after.replans[i] == after.replans[..|db.replans|][i];
  }

  lemma {:induction false} BatchKeeps(db: Db, g: nat, maxItems: nat, world: nat -> Outcome, turn: nat)
    requires Inv(db)
    ensures var r := Batch(db, g, maxItems, world, turn); Keeps(db, r.final, r.processed)
    decreases maxItems
  {
    hide Inv, ReadyList, RunNode, SameNode;
    if maxItems != 0 && ReadyList(db, g) != [] {
      BatchTurn(db, g, maxItems, world, turn);
      var n := ReadyList(db, g)[0];
      ReadyIsIn(db, g, n);
      RunNodeKeeps(db, g, n, world(turn));
      if Succeeded(world(turn)) {
        var after := RunNode(db, g, n, world(turn));
        BatchKeeps(after, g, maxItems - 1, world, turn + 1);
        var rest := Batch(after, g, maxItems - 1, world, turn + 1);
        KeepsJoin(db, after, rest.final, n, rest.processed);
      }
    } else {
      KeepsNothing(db);
    }
  }

  lemma KeepsNothing(db: Db)
    ensures Keeps(db, db, [])
  {
  }

  lemma KeepsJoin(a: Db, b: Db, c: Db, n: nat, rest: seq<nat>)
    requires Keeps(a, b, [n]) && Keeps(b, c, rest)
    ensures Keeps(a, c, [n] + rest)
  {
  }

  /** The `j`-th decision after those of `db` is linked to `n` and has its own new repair node, which depends on `n`. */
  ghost predicate HasRepair(db: Db, after: Db, g: nat, n: nat, j: nat)
    requires 1 <= j
  {
    var id, m := |db.replans| + j, |db.nodes| + j;
    && id <= |after.replans| && after.replans[id - 1].link == Some(Link(g, Some(n)))
    && m <= |after.nodes|
    && after.nodes[m - 1].graph == g && after.nodes[m - 1].key == "replan-" + Decimal(id)
    && after.nodes[m - 1].source == Some(n) && after.nodes[m - 1].kind == "repair"
    && Dep(g, m, n) in after.deps
  }

  /** The run's own row and its `k` decisions, which come after `before` others of the batch. */
  ghost predicate RunFollowed(db: Db, start: Db, after: Db, g: nat, n: nat, before: nat, k: nat) {
    && HasNode(start, n) && HasNode(after, n)
    && after.nodes[n - 1].attempts == start.nodes[n - 1].attempts + 1 && after.nodes[n - 1].taskId.Some?
    && forall j :: before < j <= before + k ==> HasRepair(db, after, g, n, j)
  }

  /** As many decisions and nodes are new as the runs recorded replans, and each run has its follow-ups. */
  ghost predicate BatchFollowed(db: Db, r: BatchResult, g: nat, world: nat -> Outcome, turn: nat) {
    && |r.starts| == |r.processed|
    && |r.final.replans| == |db.replans| + Total(world, turn, |r.processed|)
    && |r.final.nodes| == |db.nodes| + Total(world, turn, |r.processed|)
    && forall i :: 0 <= i < |r.processed| && world(turn + i).Ran? ==>
         RunFollowed(db, r.starts[i], r.final, g, r.processed[i], Total(world, turn, i), world(turn + i).replans)
  }

  lemma RunFollows(db: Db, g: nat, n: nat, o: Outcome)
    requires Inv(db) && NodeIn(db, g, n) && o.Ran?
    ensures RunFollowed(db, db, RunNode(db, g, n, o), g, n, 0, o.replans)
    ensures var after := RunNode(db, g, n, o);
      |after.replans| == |db.replans| + o.replans && |after.nodes| == |db.nodes| + o.replans
  {
    RunNodeWrites(db, g, n, o);
    hide Inv, RunNode;
  }

  lemma FollowedStays(db: Db, start: Db, mid: Db, after: Db, g: nat, n: nat, before: nat, k: nat, processed: seq<nat>)
    requires RunFollowed(db, start, mid, g, n, before, k) && Keeps(mid, after, processed) && n !in processed
    ensures RunFollowed(db, start, after, g, n, before, k)
  {
    assert after.nodes[n - 1] == mid.nodes[n - 1] by { assert (n - 1) + 1 !in processed; }
    forall j | before < j <= before + k ensures HasRepair(db, after, g, n, j) {
      assert HasRepair(db, mid, g, n, j);
    }
  }

  /** Counted from `db` the decisions of a later run come after the `k` of the first. */
  lemma FollowedLater(db: Db, mid: Db, start: Db, after: Db, g: nat, n: nat, before: nat, k: nat, shift: nat)
    requires RunFollowed(mid, start, after, g, n, before, k)
    requires |mid.replans| == |db.replans| + shift && |mid.nodes| == |db.nodes| + shift
    ensures RunFollowed(db, start, after, g, n, before + shift, k)
  {
    forall j | before + shift < j <= before + shift + k ensures HasRepair(db, after, g, n, j) {
      assert HasRepair(mid, after, g, n, j - shift);
    }
  }

  lemma {:induction false} BatchFollowsUp(db: Db, g: nat, maxItems: nat, world: nat -> Outcome, turn: nat)
    requires Inv(db)
    ensures BatchFollowed(db, Batch(db, g, maxItems, world, turn), g, world, turn)
    decreases maxItems
  {
    hide Inv, ReadyList, RunNode, RunFollowed;
    if maxItems != 0 && ReadyList(db, g) != [] {
      BatchTurn(db, g, maxItems, world, turn);
      var n := ReadyList(db, g)[0];
      ReadyIsIn(db, g, n);
      var after := RunNode(db, g, n, world(turn));
      RunCounts(db, g, n, world(turn));
      if world(turn).Ran? {
        RunFollows(db, g, n, world(turn));
      }
      if Succeeded(world(turn)) {
        BatchFollowsUp(after, g, maxItems - 1, world, turn + 1);
        BatchKeeps(after, g, maxItems - 1, world, turn + 1);
        BatchSettles(after, g, maxItems - 1, world, turn + 1);
        var rest := Batch(after, g, maxItems - 1, world, turn + 1);
        FirstFollowed(db, after, rest, g, n, world, turn);
      } else {
        OneTurn(world, turn);
      }
    }
  }

  lemma OneTurn(world: nat -> Outcome, turn: nat)
    ensures Total(world, turn, 0) == 0
    ensures Total(world, turn, 1) == if world(turn).Ran? then world(turn).replans else 0
  {
    assert Total(world, turn + 1, 0) == 0;
  }

  lemma RunCounts(db: Db, g: nat, n: nat, o: Outcome)
    requires Inv(db) && NodeIn(db, g, n)
    ensures var after, k := RunNode(db, g, n, o), if o.Ran? then o.replans else 0;
      |after.replans| == |db.replans| + k && |after.nodes| == |db.nodes| + k
  {
    RunNodeWrites(db, g, n, o);
    hide Inv, RunNode;
  }

  lemma FirstFollowed(db: Db, after: Db, rest: BatchResult, g: nat, n: nat, world: nat -> Outcome, turn: nat)
    requires Succeeded(world(turn)) && HasNode(after, n) && after.nodes[n - 1].status == Done
    requires |after.replans| == |db.replans| + world(turn).replans
    requires |after.nodes| == |db.nodes| + world(turn).replans
    requires RunFollowed(db, db, after, g, n, 0, world(turn).replans)
    requires BatchFollowed(after, rest, g, world, turn + 1) && Settled(after, rest)
    requires Keeps(after, rest.final, rest.processed)
    ensures BatchFollowed(db, Prepend(db, n, rest), g, world, turn)
  {
    var r, k := Prepend(db, n, rest), world(turn).replans;
    hide RunFollowed, Keeps;
    assert n !in rest.processed by { assert (n - 1) + 1 !in rest.processed; }
    FollowedStays(db, db, after, rest.final, g, n, 0, k, rest.processed);
    hide Settled;
    forall i | 0 <= i < |r.processed| && world(turn + i).Ran?
      ensures RunFollowed(db, r.starts[i], r.final, g, r.processed[i], Total(world, turn, i), world(turn + i).replans)
    {
      if i > 0 {
        assert world(turn + 1 + (i - 1)).Ran?;
        assert r.processed[i] == rest.processed[i - 1] && r.starts[i] == rest.starts[i - 1];
        FollowedLater(db, after, rest.starts[i - 1], rest.final, g, rest.processed[i - 1],
                      Total(world, turn + 1, i - 1), world(turn + i).replans, k);
      }
    }
  }

  // -------------------------------------------------------- how long a batch goes on

  /**
   * Each node run is the ready one with the lowest id; all but the last run end done, and so does the last unless the
   * batch is stopped; a batch that is not stopped used up its budget or left no ready node.
   */
  ghost predicate GoesOnWhileDone(g: nat, maxItems: nat, world: nat -> Outcome, turn: nat, r: BatchResult) {
    && |r.processed| == |r.starts| <= maxItems
    && (forall i :: 0 <= i < |r.processed| ==> RanAt(g, world, turn, r, i))
    && (r.stopped ==> r.processed != [])
    && (!r.stopped ==> |r.processed| == maxItems || forall n :: !Ready(r.final, g, n))
  }

  ghost predicate RanAt(g: nat, world: nat -> Outcome, turn: nat, r: BatchResult, i: nat)
    requires i < |r.processed| == |r.starts|
  {
    var o := world(turn + i);
    && IsFirstReady(r.starts[i], g, r.processed[i])
    && (o.Ran? && o.done <==> !r.stopped || i < |r.processed| - 1)
  }

  ghost predicate IsFirstReady(db: Db, g: nat, n: nat) {
    Ready(db, g, n) && forall m :: Ready(db, g, m) ==> n <= m
  }

  lemma FirstIsFirst(db: Db, g: nat)
    ensures ReadyList(db, g) != [] ==> IsFirstReady(db, g, ReadyList(db, g)[0])
    ensures ReadyList(db, g) == [] ==> forall n :: !Ready(db, g, n)
  {
    var ready := ReadyList(db, g);
    if ready != [] {
      FirstReady(db, g);
      forall m | Ready(db, g, m) ensures ready[0] <= m {
        assert m in ready;
      }
    } else {
      forall n ensures !Ready(db, g, n) {
        assert Ready(db, g, n) ==> n in ready;
      }
    }
  }

  lemma {:induction false} BatchGoesOn(db: Db, g: nat, maxItems: nat, world: nat -> Outcome, turn: nat)
    ensures GoesOnWhileDone(g, maxItems, world, turn, Batch(db, g, maxItems, world, turn))
    decreases maxItems
  {
    hide ReadyList, RunNode, IsFirstReady, Ready;
    FirstIsFirst(db, g);
    if maxItems != 0 && ReadyList(db, g) != [] && Succeeded(world(turn)) {
      var n := ReadyList(db, g)[0];
      var after := RunNode(db, g, n, world(turn));
      BatchGoesOn(after, g, maxItems - 1, world, turn + 1);
      var rest, r := Batch(after, g, maxItems - 1, world, turn + 1), Batch(db, g, maxItems, world, turn);
      assert r == BatchResult([n] + rest.processed, [db] + rest.starts, rest.final, rest.stopped);
      assert RanAt(g, world, turn, r, 0);
      hide Batch;
      forall i | 0 <= i < |r.processed| ensures RanAt(g, world, turn, r, i) {
        if i > 0 {
          assert RanAt(g, world, turn + 1, rest, i - 1);
        }
      }
    }
  }

  // ------------------------------------------------------------- completeness

  ghost function PendingNodes(db: Db, g: nat): set<nat> {
    set n: nat | 1 <= n <= |db.nodes| && NodeIn(db, g, n) && db.nodes[n - 1].status == Pending
  }

  /** Every run succeeds and records no replan. */
  ghost predicate AllGoesWell(world: nat -> Outcome) {
    forall k :: Succeeded(world(k)) && world(k).replans == 0
  }

  lemma RunNodeQuiet(db: Db, g: nat, n: nat, world: nat -> Outcome, turn: nat)
    requires Inv(db) && NodeIn(db, g, n) && AllGoesWell(world)
    ensures var after := RunNode(db, g, n, world(turn));
      |after.nodes| == |db.nodes|
  {
    assert Succeeded(world(turn));
    var task := NewTask(db.replans, world(turn).drawn);
    assert forall i :: 0 <= i < |db.replans| ==> db.replans[i].task != task;
    var started := SetStatus(db, n, InProgress, AddAttempt, None);
    assert AddReplans(started, task, 0) == started;
    var finished := SetStatus(started, n, Done, KeepAttempts, Some(task));
    var linked := LinkReplans(finished, task, Link(g, Some(n)));
    assert linked.replans == db.replans;
    NoRowsSelected(linked, task, g, |linked.replans|);
  }

  lemma {:induction false} NoRowsSelected(db: Db, task: string, g: nat, k: nat)
    requires k <= |db.replans|
    requires forall i :: 0 <= i < |db.replans| ==> db.replans[i].task != task
    ensures FollowRows(db, task, g, k) == db
  {
    if k > 0 {
      NoRowsSelected(db, task, g, k - 1);
    }
  }

  /** A large enough batch over a plan with nothing stuck, in which every run succeeds, finishes the plan. */
  lemma {:induction false} BatchCompletes(db: Db, g: nat, maxItems: nat, world: nat -> Outcome, turn: nat)
    requires Inv(db) && OnlyPendingOrDone(db, g) && AllGoesWell(world)
    requires maxItems >= |PendingNodes(db, g)|
    ensures var r := Batch(db, g, maxItems, world, turn);
      && !r.stopped
      && (forall n :: NodeIn(r.final, g, n) ==> r.final.nodes[n - 1].status == Done)
    decreases maxItems
  {
    hide Inv, ReadyList, RunNode, Ready;
    var pending := PendingNodes(db, g);
    if pending == {} {
      forall n | NodeIn(db, g, n) ensures db.nodes[n - 1].status == Done {
        assert n !in pending;
      }
      NothingReady(db, g);
    } else {
      var some :| some in pending;
      PendingMeansReady(db, g, some);
      BatchTurn(db, g, maxItems, world, turn);
      var n := ReadyList(db, g)[0];
      assert Succeeded(world(turn));
      ReadyIsPending(db, g, n);
      var after := RunNode(db, g, n, world(turn));
      RunNodeQuiet(db, g, n, world, turn);
      assert forall m: nat :: NodeIn(after, g, m) ==> NodeIn(db, g, m);
      assert PendingNodes(after, g) == pending - {n};
      BatchCompletes(after, g, maxItems - 1, world, turn + 1);
    }
  }

  lemma ReadyIsPending(db: Db, g: nat, n: nat)
    requires Ready(db, g, n)
    ensures n in PendingNodes(db, g)
  {
  }

  lemma NothingReady(db: Db, g: nat)
    ensures ReadyList(db, g) != [] ==> PendingNodes(db, g) != {}
  {
    if ReadyList(db, g) != [] {
      FirstReady(db, g);
      ReadyIsPending(db, g, ReadyList(db, g)[0]);
    }
  }

  lemma PendingMeansReady(db: Db, g: nat, n: nat)
    requires Inv(db) && OnlyPendingOrDone(db, g) && n in PendingNodes(db, g)
    ensures ReadyList(db, g) != []
  {
    SomethingReady(db, g, n);
  }

  // -------------------------------------------------------- the batch command

  /** `_run_plan_graph_node` over the store. */
  method RunStoredNode(store: PlanGraphStore.Store, g: nat, n: nat, o: Outcome) returns (done: bool)
    requires Inv(store.Snapshot()) && NodeIn(store.Snapshot(), g, n)
    modifies store
    ensures store.Snapshot() == RunNode(old(store.Snapshot()), g, n, o)
    ensures done <==> Succeeded(o)
    ensures o.Ran? ==>
      NodeRan(old(store.Snapshot()), store.Snapshot(), g, n, if o.done then Done else Blocked,
              NewTask(old(store.replans), o.drawn), o.replans)
    ensures o.Refused? ==>
      var row := old(store.nodes)[n - 1];
      store.Snapshot() == old(store.Snapshot()).(nodes := old(store.nodes)[n - 1 := row.(status := Blocked)])
  {
    RunNodeWrites(store.Snapshot(), g, n, o);
    SucceededIs(o);
    if o.Ran? { RunNodeIs(store.Snapshot(), g, n, o); }
    hide *;
    match o {
      case Refused =>
        var _ := store.UpdateStatus(n, Blocked, None, false, None);
        return false;
      case Ran(succeeded, drawn, replans) =>
        var task := NewTask(store.replans, drawn);
        var _ := store.UpdateStatus(n, InProgress, None, true, None);
        RecordReplans(store, task, replans);
        var _ := store.UpdateStatus(n, if succeeded then Done else Blocked, None, false, Some(task));
        var _ := store.LinkReplanDecisions(task, Link(g, Some(n)));
        var _ := store.CreateFollowUps(task, g);
        return succeeded;
    }
  }

  /** The decisions a supervised run records for its task, none linked yet. */
  method RecordReplans(store: PlanGraphStore.Store, task: string, replans: nat)
    modifies store`replans
    ensures store.Snapshot() == AddReplans(old(store.Snapshot()), task, replans)
  {
    for k := 0 to replans
      invariant store.Snapshot() == AddReplans(old(store.Snapshot()), task, k)
    {
      var _ := store.RecordReplanDecision(task, "supervisor", None, None);
    }
  }

  /** After the turns so far, `db` is where the rest of the whole batch begins. */
  ghost predicate Remaining(
    whole: BatchResult, processed: seq<nat>, db: Db, g: nat, left: nat, world: nat -> Outcome, turn: nat)
  {
    var rest := Batch(db, g, left, world, turn);
    whole.final == rest.final && whole.stopped == rest.stopped && whole.processed == processed + rest.processed
  }

  lemma RemainingTurn(
    whole: BatchResult, processed: seq<nat>, db: Db, g: nat, left: nat, world: nat -> Outcome, turn: nat)
    requires Remaining(whole, processed, db, g, left, world, turn)
    ensures left == 0 || ReadyList(db, g) == [] ==>
      whole.final == db && !whole.stopped && whole.processed == processed
    ensures left > 0 && ReadyList(db, g) != [] ==>
      var n := ReadyList(db, g)[0];
      var after := RunNode(db, g, n, world(turn));
      if Succeeded(world(turn)) then Remaining(whole, processed + [n], after, g, left - 1, world, turn + 1)
      else whole.final == after && whole.stopped && whole.processed == processed + [n]
  {
    hide ReadyList, RunNode;
  }

  lemma RemainingStart(db: Db, g: nat, left: nat, world: nat -> Outcome)
    ensures Remaining(Batch(db, g, left, world, 0), [], db, g, left, world, 0)
  {
  }

  /** The first ready node, if any, of a fresh readiness query. */
  method NextReady(store: PlanGraphStore.Store, g: nat) returns (n: Option<nat>)
    ensures n == if ReadyList(store.Snapshot(), g) == [] then None else Some(ReadyList(store.Snapshot(), g)[0])
  {
    hide *;
    var ready := store.ListReady(g, Some(1));
    n := if ready.value == [] then None else Some(ready.value[0]);
  }

  /**
   * `autopilot plan run-batch`: a known graph and a positive budget; without `--execute` the ready nodes are only
   * shown, else one ready node is run at a time.
   */
  method RunBatch(store: PlanGraphStore.Store, g: nat, maxItems: int, execute: bool, world: nat -> Outcome)
    returns (processed: seq<nat>, code: int)
    requires Inv(store.Snapshot())
    modifies store
    ensures Inv(store.Snapshot())
    ensures maxItems <= 0 || !HasGraph(old(store.Snapshot()), g) ==>
      processed == [] && code == 1 && store.Snapshot() == old(store.Snapshot())
    ensures maxItems > 0 && HasGraph(old(store.Snapshot()), g) && !execute ==>
      processed == [] && code == 0 && store.Snapshot() == old(store.Snapshot())
    ensures maxItems > 0 && HasGraph(old(store.Snapshot()), g) && execute ==>
      var r := Batch(old(store.Snapshot()), g, maxItems, world, 0);
      store.Snapshot() == r.final && processed == r.processed && code == (if r.stopped then 1 else 0) &&
      RunsInOrder(r, g) && BatchFollowed(old(store.Snapshot()), r, g, world, 0) &&
      GoesOnWhileDone(g, maxItems, world, 0, r)
  {
    processed, code := [], 1;
    if maxItems <= 0 || g < 1 || store.graphs < g {
      return;
    }
    if !execute {
      return [], 0;
    }
    hide *;
    ghost var db := store.Snapshot();
    BatchSettles(db, g, maxItems, world, 0);
    BatchRunsInOrder(db, g, maxItems, world, 0);
    BatchFollowsUp(db, g, maxItems, world, 0);
    BatchGoesOn(db, g, maxItems, world, 0);
    processed, code := RunTurns(store, g, maxItems, world);
  }

  method RunTurns(store: PlanGraphStore.Store, g: nat, maxItems: nat, world: nat -> Outcome)
    returns (processed: seq<nat>, code: int)
    requires Inv(store.Snapshot())
    modifies store
    ensures var r := Batch(old(store.Snapshot()), g, maxItems, world, 0);
      store.Snapshot() == r.final && processed == r.processed && code == (if r.stopped then 1 else 0)
  {
    hide *;
    processed, code := [], 1;
    ghost var whole := Batch(store.Snapshot(), g, maxItems, world, 0);
    RemainingStart(store.Snapshot(), g, maxItems, world);
    for turn := 0 to maxItems
      invariant Inv(store.Snapshot())
      invariant Remaining(whole, processed, store.Snapshot(), g, maxItems - turn, world, turn)
    {
      RemainingTurn(whole, processed, store.Snapshot(), g, maxItems - turn, world, turn);
      var ready := NextReady(store, g);
      if ready.None? {
        return processed, 0;
      }
      BatchTurn(store.Snapshot(), g, maxItems - turn, world, turn);
      ReadyIsIn(store.Snapshot(), g, ready.value);
      var done := RunStoredNode(store, g, ready.value, world(turn));
      processed := processed + [ready.value];
      if !done {
        return processed, 1;
      }
    }
    RemainingTurn(whole, processed, store.Snapshot(), g, 0, world, maxItems);
    code := 0;
  }

  lemma ReadyIsIn(db: Db, g: nat, n: nat)
    requires Ready(db, g, n)
    ensures NodeIn(db, g, n)
  {
  }
}
