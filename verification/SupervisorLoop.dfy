/** The supervisor's loop over the task store, proved against a reference function of the turns it meets. */
module SupervisorLoop {
  import opened Prelude
  import opened Supervisor

  /** The task's rows as the supervisor updates them. */
  class TaskStore {
    var status: TaskStatus
    var iterations: seq<Iteration>

    function Snapshot(): Task
      reads this
    {
      Task(status, iterations)
    }

    constructor ()
      ensures Snapshot() == Task(Created, [])
    {
      status, iterations := Created, [];
    }

    method UpdateStatus(to: TaskStatus)
      modifies this`status
      ensures status == to
    {
      status := to;
    }

    method AddIteration(index: nat, decision: Decision)
      modifies this`iterations
      ensures iterations == old(iterations) + [Iteration(index, decision, [], 0, false)]
    {
      iterations := iterations + [Iteration(index, decision, [], 0, false)];
    }

    /** `add_verification_run` for the last iteration. */
    method AddVerificationRun(check: CheckStatus)
      requires iterations != []
      modifies this`iterations
      ensures var last := Last(old(Snapshot()));
        Snapshot() == WithLast(old(Snapshot()), last.(runs := last.runs + [check]))
    {
      var last := iterations[|iterations| - 1];
      iterations := iterations[|iterations| - 1 := last.(runs := last.runs + [check])];
    }

    /** `_record_replan_decision` for the last iteration: only for failed checks of an unfinished decision. */
    method RecordReplanDecision(decision: Decision, checks: seq<CheckStatus>)
      requires iterations != []
      modifies this`iterations
      ensures var last := Last(old(Snapshot()));
        var more := if decision in {Continue, Blocked} && SomeFailed(checks) then 1 else 0;
        Snapshot() == WithLast(old(Snapshot()), last.(replans := last.replans + more))
    {
      var last := iterations[|iterations| - 1];
      if decision == Done {
        assert WithLast(Snapshot(), last.(replans := last.replans + 0)) == Snapshot();
        return;
      }
      var failed := false;
      for i := 0 to |checks|
        invariant iterations == old(iterations)
        invariant failed <==> exists k :: 0 <= k < i && FailedCheck(checks[k])
      {
        failed := failed || FailedCheck(checks[i]);
      }
      assert failed <==> SomeFailed(checks);
      if failed {
        iterations := iterations[|iterations| - 1 := last.(replans := last.replans + 1)];
      } else {
        assert WithLast(Snapshot(), last.(replans := last.replans + 0)) == Snapshot();
      }
    }

    method FinishIteration()
      requires iterations != []
      modifies this`iterations
      ensures Snapshot() == WithLast(old(Snapshot()), Last(old(Snapshot())).(finished := true))
    {
      var last := iterations[|iterations| - 1];
      iterations := iterations[|iterations| - 1 := last.(finished := true)];
    }
  }

  // -------------------------------------------------------------- surroundings

  /** What an operator does to the task meanwhile. */
  datatype Operator = Nothing | Cancels | Recovers

  /** Everything an attempt meets: the clock, the agent, the checks, the repository, and operators. */
  datatype Turn = Turn(
    before: Operator, budgetBefore: bool,
    agent: AgentStatus, files: seq<string>, during: Operator,
    budgetAfter: bool, late: Operator,
    checks: seq<CheckStatus>, repoChanged: bool, snapshot: Option<string>,
    storing: Operator)

  datatype Signature = Signature(agent: AgentStatus, files: seq<string>, snapshot: string)

  datatype RunStatus = RunDone | RunBlocked | RunCancelled

  datatype Limits = Limits(maxIterations: int, maxNoChange: int, requireRepoChange: bool)

  // -------------------------------------------------------------- the reference

  /** The task's status after an operator acted. */
  function Acted(op: Operator, status: TaskStatus): TaskStatus {
    match op
    case Nothing => status
    case Cancels => Cancelled
    case Recovers => TaskBlocked
  }

  function ActMoves(op: Operator): seq<Move> {
    match op
    case Nothing => []
    case Cancels => [OperatorCancel]
    case Recovers => [OperatorBlock]
  }

  /** Why an attempt stops before the agent is called: the runtime budget first, then a cancelled task. */
  function BeforeStop(turn: Turn, status: TaskStatus): Option<RunStatus> {
    if turn.budgetBefore then Some(RunBlocked)
    else if Acted(turn.before, status) == Cancelled then Some(RunCancelled)
    else None
  }

  function BeforeMoves(turn: Turn, status: TaskStatus): seq<Move> {
    ActMoves(turn.before) +
    if turn.budgetBefore then [BudgetOut]
    else if Acted(turn.before, status) == Cancelled then [StopCancelled]
    else []
  }

  /** Why it stops after the agent returned: a cancel, then the budget, then a cancel before verification. */
  function AfterStop(turn: Turn, status: TaskStatus): Option<RunStatus> {
    var during := Acted(turn.during, status);
    if turn.agent == AgentCancelled || during == Cancelled then Some(RunCancelled)
    else if turn.agent != Success then None
    else if turn.budgetAfter then Some(RunBlocked)
    else if Acted(turn.late, during) == Cancelled then Some(RunCancelled)
    else None
  }

  function AfterMoves(turn: Turn, status: TaskStatus): seq<Move> {
    var during := Acted(turn.during, status);
    ActMoves(turn.during) +
    if turn.agent == AgentCancelled || during == Cancelled then [WriteCancelled]
    else if turn.agent != Success then []
    else if turn.budgetAfter then [BudgetOut]
    else ActMoves(turn.late) + if Acted(turn.late, during) == Cancelled then [StopCancelled] else []
  }

  /** The status an attempt goes on with. */
  function AfterStatus(turn: Turn, status: TaskStatus): TaskStatus {
    var during := Acted(turn.during, status);
    if turn.agent == Success then Acted(turn.late, during) else during
  }

  /** An attempt judged: the decision with both overrides, and the no-change detector after it. */
  datatype Judgement = Judgement(
    decision: Decision, checks: seq<CheckStatus>, noRepoChange: bool, stalled: bool,
    count: nat, latest: Option<Signature>)

  function ChecksOf(turn: Turn): seq<CheckStatus> {
    if turn.agent == Success then turn.checks else []
  }

  /** The signature an attempt adds to the detector: only a continue whose repository snapshot was observed has one. */
  function SignatureOf(l: Limits, turn: Turn, attempt: nat): Option<Signature> {
    if Decide(turn.agent, ChecksOf(turn), attempt, l.maxIterations) == Continue && turn.snapshot.Some?
    then Some(Signature(turn.agent, turn.files, turn.snapshot.value)) else None
  }

  function Judged(l: Limits, turn: Turn, attempt: nat, noChange: nat, previous: Option<Signature>): Judgement {
    var checks := ChecksOf(turn);
    var decision := Decide(turn.agent, checks, attempt, l.maxIterations);
    var noRepoChange := l.requireRepoChange && turn.files == [] && !turn.repoChanged;
    var signature := SignatureOf(l, turn, attempt);
    if signature.None? then
      Judgement(Adjusted(decision, noRepoChange, false), checks, noRepoChange, false, noChange, previous)
    else
      var count := if previous == signature then noChange + 1 else 1;
      var stalled := l.maxNoChange > 0 && count >= l.maxNoChange;
      Judgement(Adjusted(decision, noRepoChange, stalled), checks, noRepoChange, stalled, count, signature)
  }

  function StoreRuns(n: nat): seq<Move> {
    if n == 0 then [] else StoreRuns(n - 1) + [StoreRun]
  }

  /** The writes of a decided attempt, in their order; an operator may act once the iteration is stored. */
  function StoreMoves(checks: nat, op: Operator): seq<Move> {
    [StoreIteration] + ActMoves(op) + StoreRuns(checks) + [RecordReplan, FinishIteration]
  }

  function LastMove(decision: Decision): Move {
    match decision
    case Done => WriteDone
    case Blocked => WriteBlocked
    case Continue => NextAttempt
  }

  function ConcludeStop(decision: Decision): Option<RunStatus> {
    match decision
    case Done => Some(RunDone)
    case Blocked => Some(RunBlocked)
    case Continue => None
  }

  /** How a run ends, every move it makes, and what it counted. */
  datatype Report = Report(
    status: RunStatus, moves: seq<Move>, calls: nat, judged: nat, noChange: nat, tail: bool)

  /** The moves of one judged attempt. */
  function AttemptMoves(l: Limits, turn: Turn, status: TaskStatus, j: Judgement): seq<Move> {
    CalledMoves(turn, status) + [Judge(j.checks, j.noRepoChange, j.stalled)] +
    (StoreMoves(|j.checks|, turn.storing) + [LastMove(j.decision)])
  }

  /** The moves up to the end of the agent's part. */
  function CalledMoves(turn: Turn, status: TaskStatus): seq<Move> {
    BeforeMoves(turn, status) + [CallAgent(turn.agent)] + AfterMoves(turn, Acted(turn.before, status))
  }

  function NextStatus(turn: Turn, status: TaskStatus): TaskStatus {
    Acted(turn.storing, AfterStatus(turn, Acted(turn.before, status)))
  }

  /** The run from attempt `attempt` on, as a function of the turns it meets. */
  function Attempts(
    l: Limits, world: nat -> Turn, attempt: nat, status: TaskStatus, noChange: nat, previous: Option<Signature>): Report
    decreases l.maxIterations - attempt
  {
    if attempt > l.maxIterations then Report(RunBlocked, [WriteExhausted], 0, 0, noChange, true)
    else
      var turn := world(attempt);
      var before, after := BeforeStop(turn, status), AfterStop(turn, Acted(turn.before, status));
      if before.Some? then Report(before.value, BeforeMoves(turn, status), 0, 0, noChange, false)
      else if after.Some? then Report(after.value, CalledMoves(turn, status), 1, 0, noChange, false)
      else
        var j := Judged(l, turn, attempt, noChange, previous);
        var moves, stop := AttemptMoves(l, turn, status, j), ConcludeStop(j.decision);
        if stop.Some? then Report(stop.value, moves, 1, 1, j.count, false)
        else Prepend(moves, Attempts(l, world, attempt + 1, NextStatus(turn, status), j.count, j.latest))
  }

  /** One judged attempt in front of the rest of the run. */
  function Prepend(moves: seq<Move>, rest: Report): Report {
    Report(rest.status, moves + rest.moves, rest.calls + 1, rest.judged + 1, rest.noChange, rest.tail)
  }

  function BeginMoves(resumed: bool): seq<Move> {
    (if resumed then [Resume, SeeActive] else [RunOnce]) + [WriteRunning]
  }

  /** The whole run of a task, begun or resumed. */
  function WholeRun(l: Limits, world: nat -> Turn, task: Task, resumed: bool, available: bool): Report {
    if resumed && task.status == Cancelled then Report(RunCancelled, [Resume, SeeCancelled], 0, 0, 0, false)
    else if !available then
      Report(RunBlocked, BeginMoves(resumed) + [StoreUnavailable, BlockUnavailable], 0, 0, 0, false)
    else
      var r := Attempts(l, world, 1, Running, 0, None);
      r.(moves := BeginMoves(resumed) + [StartLoop] + r.moves)
  }

  // ------------------------------------------------- what the reference promises

  /** `n` is the length of the run of equal signatures at the end. */
  ghost predicate TrailingRun(seen: seq<Signature>, n: nat) {
    && n <= |seen| && (seen != [] ==> n >= 1)
    && (forall i :: |seen| - n <= i < |seen| ==> seen[i] == seen[|seen| - 1])
    && (n < |seen| ==> seen[|seen| - n - 1] != seen[|seen| - 1])
  }

  /** The signatures of the observed continue iterations among the `n` attempts from `attempt` on. */
  function Signatures(l: Limits, world: nat -> Turn, attempt: nat, n: nat): seq<Signature>
    decreases n
  {
    if n == 0 then []
    else
      var signature := SignatureOf(l, world(attempt), attempt);
      (if signature.Some? then [signature.value] else []) + Signatures(l, world, attempt + 1, n - 1)
  }

  function LastOf(seen: seq<Signature>): Option<Signature> {
    if seen == [] then None else Some(seen[|seen| - 1])
  }

  lemma Seen(seen: seq<Signature>, n: nat, next: Signature)
    requires TrailingRun(seen, n)
    ensures TrailingRun(seen + [next], if seen != [] && seen[|seen| - 1] == next then n + 1 else 1)
  {
    var more := seen + [next];
    if seen != [] && seen[|seen| - 1] == next {
      assert forall i :: |more| - (n + 1) <= i < |seen| ==> more[i] == seen[i];
      if n < |seen| {
        assert more[|more| - (n + 1) - 1] == seen[|seen| - n - 1];
      }
    }
  }

  /** One judgement moves the detector by the attempt's own signature. */
  lemma JudgedSees(l: Limits, turn: Turn, attempt: nat, seen: seq<Signature>, noChange: nat)
    requires TrailingRun(seen, noChange)
    ensures var j := Judged(l, turn, attempt, noChange, LastOf(seen));
      var signature := SignatureOf(l, turn, attempt);
      var all := seen + if signature.Some? then [signature.value] else [];
      TrailingRun(all, j.count) && j.latest == LastOf(all)
  {
    var signature := SignatureOf(l, turn, attempt);
    hide TrailingRun, SignatureOf, Decide;
    if signature.Some? {
      Seen(seen, noChange, signature.value);
    } else {
      assert seen + [] == seen;
    }
  }

  /** The detector blocks an attempt exactly when the last `maxNoChange` signatures are all the attempt's own. */
  lemma StalledIff(l: Limits, turn: Turn, attempt: nat, seen: seq<Signature>, noChange: nat)
    requires TrailingRun(seen, noChange)
    ensures var signature := SignatureOf(l, turn, attempt);
      Judged(l, turn, attempt, noChange, LastOf(seen)).stalled <==>
        && l.maxNoChange > 0 && signature.Some?
        && var all := seen + [signature.value];
           |all| >= l.maxNoChange && forall i :: |all| - l.maxNoChange <= i < |all| ==> all[i] == signature.value
  {
    var signature := SignatureOf(l, turn, attempt);
    var j := Judged(l, turn, attempt, noChange, LastOf(seen));
    hide SignatureOf, Decide, Adjusted;
    if signature.Some? && l.maxNoChange > 0 {
      JudgedSees(l, turn, attempt, seen, noChange);
      var all := seen + [signature.value];
      assert TrailingRun(all, j.count) && all[|all| - 1] == signature.value;
      if j.count < l.maxNoChange <= |all| {
        assert all[|all| - j.count - 1] != signature.value;
      }
    }
  }

  lemma {:induction false} DetectorTrails(
    l: Limits, world: nat -> Turn, attempt: nat, status: TaskStatus, noChange: nat, seen: seq<Signature>)
    requires TrailingRun(seen, noChange)
    ensures var r := Attempts(l, world, attempt, status, noChange, LastOf(seen));
      TrailingRun(seen + Signatures(l, world, attempt, r.judged), r.noChange)
    decreases l.maxIterations - attempt
  {
    var r := Attempts(l, world, attempt, status, noChange, LastOf(seen));
    var turn := world(attempt);
    hide TrailingRun, SignatureOf, Decide, BeforeStop, AfterStop, AttemptMoves, CalledMoves, Judged;
    if r.judged == 0 {
      assert seen + [] == seen;
    } else {
      var j := Judged(l, turn, attempt, noChange, LastOf(seen));
      var signature := SignatureOf(l, turn, attempt);
      var own := if signature.Some? then [signature.value] else [];
      JudgedSees(l, turn, attempt, seen, noChange);
      if ConcludeStop(j.decision).Some? {
        assert Signatures(l, world, attempt + 1, 0) == [];
        assert own + [] == own;
      } else {
        DetectorTrails(l, world, attempt + 1, NextStatus(turn, status), j.count, seen + own);
        assert (seen + own) + Signatures(l, world, attempt + 1, r.judged - 1)
            == seen + Signatures(l, world, attempt, r.judged);
      }
    }
  }

  /**
   * The no-change count a run ends with is the length of the run of equal signatures at the end of those of its
   * judged continue iterations whose snapshot was observed.
   */
  lemma NoChangeIsTrailingRun(l: Limits, world: nat -> Turn, task: Task, resumed: bool, available: bool)
    ensures var r := WholeRun(l, world, task, resumed, available);
      TrailingRun(Signatures(l, world, 1, r.judged), r.noChange)
  {
    DetectorTrails(l, world, 1, Running, 0, []);
    assert forall seen: seq<Signature> :: [] + seen == seen;
  }

  /** How many moves call the agent, and how many judge an attempt. */
  datatype MoveCount = MoveCount(calls: nat, judges: nat)

  function Count(moves: seq<Move>): MoveCount {
    if moves == [] then MoveCount(0, 0)
    else
      var rest := Count(moves[1..]);
      MoveCount(rest.calls + if moves[0].CallAgent? then 1 else 0, rest.judges + if moves[0].Judge? then 1 else 0)
  }

  lemma {:induction false} CountJoin(a: seq<Move>, b: seq<Move>)
    ensures Count(a + b) == MoveCount(Count(a).calls + Count(b).calls, Count(a).judges + Count(b).judges)
  {
    if a == [] {
      assert a + b == b;
    } else {
      assert (a + b)[1..] == a[1..] + b;
      CountJoin(a[1..], b);
    }
  }

  /** A move the supervisor makes on its own: no call, judgement or begin, nor an operator's move or a crash. */
  predicate OwnMove(m: Move) {
    !(m.RunOnce? || m.Resume? || m.Crash? || m.OperatorCancel? || m.OperatorBlock? || m.CallAgent? || m.Judge?)
  }

  predicate LoopMove(m: Move) {
    OwnMove(m) || m.CallAgent? || m.Judge? || m.OperatorCancel? || m.OperatorBlock?
  }

  lemma {:induction false} NoCalls(moves: seq<Move>)
    requires forall i :: 0 <= i < |moves| ==> !moves[i].CallAgent? && !moves[i].Judge?
    ensures Count(moves) == MoveCount(0, 0)
  {
    if moves != [] {
      NoCalls(moves[1..]);
    }
  }

  lemma {:induction false} StoreRunsOnly(n: nat)
    ensures forall i :: 0 <= i < |StoreRuns(n)| ==> StoreRuns(n)[i] == StoreRun
  {
    if n > 0 {
      StoreRunsOnly(n - 1);
    }
  }

  lemma BeforeOnly(turn: Turn, status: TaskStatus)
    ensures Count(BeforeMoves(turn, status)) == MoveCount(0, 0)
    ensures forall m :: m in BeforeMoves(turn, status) ==> LoopMove(m)
  {
    NoCalls(BeforeMoves(turn, status));
    hide Count;
  }

  lemma AfterOnly(turn: Turn, status: TaskStatus)
    ensures Count(AfterMoves(turn, status)) == MoveCount(0, 0)
    ensures forall m :: m in AfterMoves(turn, status) ==> LoopMove(m)
  {
    NoCalls(AfterMoves(turn, status));
    hide Count;
  }

  lemma CallCounts(agent: AgentStatus)
    ensures Count([CallAgent(agent)]) == MoveCount(1, 0) && LoopMove(CallAgent(agent))
  {
    assert [CallAgent(agent)][1..] == [];
  }

  lemma OneCall(turn: Turn, status: TaskStatus)
    ensures Count(CalledMoves(turn, status)) == MoveCount(1, 0) && Count(BeforeMoves(turn, status)) == MoveCount(0, 0)
    ensures forall m :: m in CalledMoves(turn, status) ==> LoopMove(m)
    ensures forall m :: m in BeforeMoves(turn, status) ==> LoopMove(m)
  {
    hide Count, BeforeMoves, AfterMoves, LoopMove;
    var before, after := BeforeMoves(turn, status), AfterMoves(turn, Acted(turn.before, status));
    BeforeOnly(turn, status);
    AfterOnly(turn, Acted(turn.before, status));
    CallCounts(turn.agent);
    CountJoin(before, [CallAgent(turn.agent)]);
    CountJoin(before + [CallAgent(turn.agent)], after);
  }

  lemma StoresOnly(checks: nat, op: Operator, decision: Decision)
    ensures var moves := StoreMoves(checks, op) + [LastMove(decision)];
      Count(moves) == MoveCount(0, 0) && forall m :: m in moves ==> LoopMove(m)
  {
    StoreRunsOnly(checks);
    NoCalls(StoreMoves(checks, op) + [LastMove(decision)]);
    hide Count;
  }

  lemma JudgeCounts(m: Move)
    requires m.Judge?
    ensures Count([m]) == MoveCount(0, 1)
  {
    assert [m][1..] == [];
  }

  lemma AttemptCallsOnce(l: Limits, turn: Turn, status: TaskStatus, j: Judgement)
    ensures Count(AttemptMoves(l, turn, status, j)) == MoveCount(1, 1)
    ensures forall m :: m in AttemptMoves(l, turn, status, j) ==> LoopMove(m)
  {
    var judge := [Judge(j.checks, j.noRepoChange, j.stalled)];
    JudgeCounts(judge[0]);
    assert LoopMove(judge[0]);
    hide Count, CalledMoves, StoreMoves, LoopMove;
    OneCall(turn, status);
    StoresOnly(|j.checks|, turn.storing, j.decision);
    CountJoin(CalledMoves(turn, status), judge);
    CountJoin(CalledMoves(turn, status) + judge, StoreMoves(|j.checks|, turn.storing) + [LastMove(j.decision)]);
  }

  /** What is counted are the calls and judgements among the moves; nothing crashes or begins inside the loop. */
  lemma {:induction false} AttemptsCount(
    l: Limits, world: nat -> Turn, attempt: nat, status: TaskStatus, noChange: nat, previous: Option<Signature>)
    ensures var r := Attempts(l, world, attempt, status, noChange, previous);
      && MoveCount(r.calls, r.judged) == Count(r.moves) && r.judged <= r.calls <= r.judged + 1
      && attempt + r.calls <= Max(attempt, l.maxIterations + 1)
      && (r.tail <==> attempt > l.maxIterations)
      && forall m :: m in r.moves ==> LoopMove(m)
    decreases l.maxIterations - attempt
  {
    var turn := world(attempt);
    hide BeforeStop, AfterStop, BeforeMoves, AttemptMoves, CalledMoves, Judged, Count, LoopMove;
    if attempt > l.maxIterations {
      Exhausting();
    } else if BeforeStop(turn, status).Some? || AfterStop(turn, Acted(turn.before, status)).Some? {
      OneCall(turn, status);
    } else {
      var j := Judged(l, turn, attempt, noChange, previous);
      AttemptCallsOnce(l, turn, status, j);
      if ConcludeStop(j.decision).None? {
        LastContinues(l, turn, attempt, noChange, previous);
        var rest := Attempts(l, world, attempt + 1, NextStatus(turn, status), j.count, j.latest);
        AttemptsCount(l, world, attempt + 1, NextStatus(turn, status), j.count, j.latest);
        CountJoin(AttemptMoves(l, turn, status, j), rest.moves);
      }
    }
  }

  lemma Exhausting()
    ensures Count([WriteExhausted]) == MoveCount(0, 0) && LoopMove(WriteExhausted)
  {
    assert [WriteExhausted][1..] == [];
  }

  /** A judged attempt goes on only while attempts are left. */
  lemma LastContinues(l: Limits, turn: Turn, attempt: nat, noChange: nat, previous: Option<Signature>)
    requires Judged(l, turn, attempt, noChange, previous).decision == Continue
    ensures attempt < l.maxIterations
  {
    ContinueIff(turn.agent, ChecksOf(turn), attempt, l.maxIterations);
    hide Decide, SomeFailed, SignatureOf;
  }

  lemma BeginsOnce(resumed: bool, more: seq<Move>)
    requires forall i :: 0 <= i < |more| ==> OwnMove(more[i])
    ensures var moves := BeginMoves(resumed) + more;
      && Count(moves) == MoveCount(0, 0) && (forall m :: m in moves ==> !m.Crash?)
      && forall i :: 1 <= i < |moves| ==> !moves[i].RunOnce? && !moves[i].Resume?
  {
    NoCalls(BeginMoves(resumed) + more);
  }

  /** Of a whole run: the counts are those of its moves, at most `maxIterations` calls, and nothing crashes. */
  lemma RunCalls(l: Limits, world: nat -> Turn, task: Task, resumed: bool, available: bool)
    ensures var r := WholeRun(l, world, task, resumed, available);
      && MoveCount(r.calls, r.judged) == Count(r.moves) && r.judged <= r.calls <= Max(0, l.maxIterations)
      && (r.tail <==> available && !(resumed && task.status == Cancelled) && l.maxIterations <= 0)
      && (forall m :: m in r.moves ==> !m.Crash?)
      && (forall i :: 1 <= i < |r.moves| ==> !r.moves[i].RunOnce? && !r.moves[i].Resume?)
  {
    hide Attempts, Count, BeginMoves;
    AttemptsCount(l, world, 1, Running, 0, None);
    BeginsOnce(resumed, [StoreUnavailable, BlockUnavailable]);
    BeginsOnce(resumed, [StartLoop]);
    NoCalls([Resume, SeeCancelled]);
    var begin, loop := BeginMoves(resumed) + [StartLoop], Attempts(l, world, 1, Running, 0, None).moves;
    CountJoin(begin, loop);
    assert forall i :: 0 <= i < |loop| ==> loop[i] in loop;
    assert forall i :: |begin| <= i < |begin + loop| ==> (begin + loop)[i] == loop[i - |begin|];
  }

  // --------------------------------------- how a run ends, told from its turns alone

  /** The operators' acts of a judged attempt; the last look before verification is taken after a success only. */
  function ActsOf(turn: Turn): seq<Operator> {
    [turn.before, turn.during] + (if turn.agent == Success then [turn.late] else []) + [turn.storing]
  }

  /** The acts of the attempts before `k`. */
  function ActsBefore(world: nat -> Turn, k: nat): seq<Operator> {
    if k <= 1 then [] else ActsBefore(world, k - 1) + ActsOf(world(k - 1))
  }

  /** The last thing an operator did is to cancel. */
  predicate LastCancels(acts: seq<Operator>) {
    acts != [] &&
    var last := acts[|acts| - 1];
    last == Cancels || (last == Nothing && LastCancels(acts[..|acts| - 1]))
  }

  /** The signatures observed by the attempts before `k`, all of which were to be tried again. */
  function Observed(world: nat -> Turn, k: nat): seq<Signature> {
    if k <= 1 then []
    else
      var turn := world(k - 1);
      Observed(world, k - 1) +
      if turn.snapshot.Some? then [Signature(turn.agent, turn.files, turn.snapshot.value)] else []
  }

  predicate CancelledBefore(world: nat -> Turn, k: nat) {
    LastCancels(ActsBefore(world, k) + [world(k).before])
  }

  predicate CancelledDuring(world: nat -> Turn, k: nat) {
    world(k).agent == AgentCancelled || LastCancels(ActsBefore(world, k) + [world(k).before, world(k).during])
  }

  predicate CancelledLate(world: nat -> Turn, k: nat) {
    LastCancels(ActsBefore(world, k) + [world(k).before, world(k).during, world(k).late])
  }

  /** Nothing stops attempt `k` before it is judged. */
  predicate Unstopped(world: nat -> Turn, k: nat) {
    && !world(k).budgetBefore && !CancelledBefore(world, k) && !CancelledDuring(world, k)
    && (world(k).agent == Success ==> !world(k).budgetAfter && !CancelledLate(world, k))
  }

  /** All checks passed, and the repository changed if it has to. */
  predicate IsDone(l: Limits, turn: Turn) {
    && turn.agent == Success && turn.checks != [] && (forall i :: 0 <= i < |turn.checks| ==> turn.checks[i] == Passed)
    && (l.requireRepoChange ==> turn.files != [] || turn.repoChanged)
  }

  /** A check failed on its own account, none by policy, and attempts are left. */
  predicate MayRetry(l: Limits, turn: Turn, k: nat) {
    && turn.agent == Success && k < l.maxIterations
    && (exists i :: 0 <= i < |turn.checks| && turn.checks[i] !in {Passed, NeedsApproval, PolicyDenied})
    && (forall i :: 0 <= i < |turn.checks| ==> turn.checks[i] !in {NeedsApproval, PolicyDenied})
  }

  /** The last `maxNoChange` observed signatures, the attempt's own included, are all the same. */
  predicate Stalls(l: Limits, turn: Turn, seen: seq<Signature>) {
    && l.maxNoChange > 0 && turn.snapshot.Some?
    && var all := seen + [Signature(turn.agent, turn.files, turn.snapshot.value)];
       |all| >= l.maxNoChange && forall i :: |all| - l.maxNoChange <= i < |all| ==> all[i] == all[|all| - 1]
  }

  predicate GoesOn(l: Limits, world: nat -> Turn, k: nat) {
    Unstopped(world, k) && MayRetry(l, world(k), k) && !Stalls(l, world(k), Observed(world, k))
  }

  /** All attempts before `k` went on to the next. */
  predicate Reached(l: Limits, world: nat -> Turn, k: nat) {
    k <= 1 || (Reached(l, world, k - 1) && GoesOn(l, world, k - 1))
  }

  /** The run ends with attempt `k`: why, and how many attempts called the agent and were judged. */
  predicate EndsAt(
    l: Limits, world: nat -> Turn, k: nat, status: RunStatus, calls: nat, judged: nat)
  {
    && 1 <= k <= l.maxIterations && Reached(l, world, k) && !GoesOn(l, world, k)
    && (status == RunDone <==> Unstopped(world, k) && IsDone(l, world(k)))
    && (status == RunCancelled <==>
          && !world(k).budgetBefore
          && (CancelledBefore(world, k) || CancelledDuring(world, k) ||
              (world(k).agent == Success && !world(k).budgetAfter && CancelledLate(world, k))))
    && calls == (if world(k).budgetBefore || CancelledBefore(world, k) then k - 1 else k)
    && judged == (if Unstopped(world, k) then k else k - 1)
  }

  /** The decision of a judgement is done, or to go on, exactly under these conditions on the turn; else blocked. */
  lemma JudgedDecides(l: Limits, turn: Turn, attempt: nat, seen: seq<Signature>, noChange: nat)
    requires TrailingRun(seen, noChange)
    ensures var j := Judged(l, turn, attempt, noChange, LastOf(seen));
      && (j.decision == Done <==> IsDone(l, turn))
      && (j.decision == Continue <==> MayRetry(l, turn, attempt) && !Stalls(l, turn, seen))
  {
    StalledIff(l, turn, attempt, seen, noChange);
    DoneIff(turn.agent, ChecksOf(turn), attempt, l.maxIterations);
    ContinueIff(turn.agent, ChecksOf(turn), attempt, l.maxIterations);
    RetryIff(l, turn, attempt);
    hide Decide, TrailingRun, LastOf, MayRetry;
  }

  lemma RetryIff(l: Limits, turn: Turn, k: nat)
    ensures MayRetry(l, turn, k) <==>
      && turn.agent == Success && k < l.maxIterations && SomeFailed(turn.checks)
      && forall i :: 0 <= i < |turn.checks| ==> turn.checks[i] !in {PolicyDenied, NeedsApproval}
  {
    if SomeFailed(turn.checks) {
      var i :| 0 <= i < |turn.checks| && FailedCheck(turn.checks[i]);
    }
  }

  /** The stored status an attempt meets: the last act of an operator tells it. */
  ghost predicate StatusTells(status: TaskStatus, acts: seq<Operator>) {
    status == Cancelled <==> LastCancels(acts)
  }

  lemma ActTells(status: TaskStatus, acts: seq<Operator>, op: Operator)
    requires StatusTells(status, acts)
    ensures StatusTells(Acted(op, status), acts + [op])
  {
    assert (acts + [op])[..|acts|] == acts;
  }

  lemma TurnTells(turn: Turn, status: TaskStatus, acts: seq<Operator>)
    requires StatusTells(status, acts)
    ensures StatusTells(Acted(turn.before, status), acts + [turn.before])
    ensures StatusTells(Acted(turn.during, Acted(turn.before, status)), acts + [turn.before, turn.during])
    ensures turn.agent == Success ==>
      StatusTells(AfterStatus(turn, Acted(turn.before, status)), acts + [turn.before, turn.during, turn.late])
    ensures StatusTells(NextStatus(turn, status), acts + ActsOf(turn))
  {
    var before, two, three := acts + [turn.before], acts + [turn.before, turn.during],
                              acts + [turn.before, turn.during, turn.late];
    ActTells(status, acts, turn.before);
    ActTells(Acted(turn.before, status), before, turn.during);
    assert before + [turn.during] == two;
    ActTells(Acted(turn.during, Acted(turn.before, status)), two, turn.late);
    assert two + [turn.late] == three;
    ActTells(AfterStatus(turn, Acted(turn.before, status)), if turn.agent == Success then three else two, turn.storing);
    assert acts + ActsOf(turn) == (if turn.agent == Success then three else two) + [turn.storing];
    hide StatusTells;
  }

  /** What stops an attempt before it is judged, in terms of its turn and the acts so far. */
  lemma StopsTold(world: nat -> Turn, k: nat, status: TaskStatus)
    requires k >= 1 && StatusTells(status, ActsBefore(world, k))
    ensures var turn := world(k);
      var before, after := BeforeStop(turn, status), AfterStop(turn, Acted(turn.before, status));
      && (before.Some? <==> turn.budgetBefore || CancelledBefore(world, k))
      && (before == Some(RunBlocked) <==> turn.budgetBefore)
      && (before.None? ==>
            && (after.Some? <==> !Unstopped(world, k))
            && (after == Some(RunCancelled) <==>
                  || CancelledDuring(world, k)
                  || (turn.agent == Success && !turn.budgetAfter && CancelledLate(world, k))))
      && before != Some(RunDone) && after != Some(RunDone)
  {
    TurnTells(world(k), status, ActsBefore(world, k));
    hide LastCancels, ActsBefore;
  }

  /** From attempt `k` on: the run ends with some attempt, as told from the turns. */
  lemma {:induction false} AttemptsEnd(l: Limits, world: nat -> Turn, k: nat, status: TaskStatus, noChange: nat)
    returns (end: nat)
    requires 1 <= k <= l.maxIterations && Reached(l, world, k) && StatusTells(status, ActsBefore(world, k))
    requires TrailingRun(Observed(world, k), noChange)
    ensures var r := Attempts(l, world, k, status, noChange, LastOf(Observed(world, k)));
      EndsAt(l, world, end, r.status, k - 1 + r.calls, k - 1 + r.judged)
    decreases l.maxIterations - k
  {
    var seen, turn := Observed(world, k), world(k);
    var j := Judged(l, turn, k, noChange, LastOf(seen));
    hide *;
    if GoesOn(l, world, k) {
      OnGoes(l, world, k, status, noChange);
      NextActs(world, k, status);
      end := AttemptsEnd(l, world, k + 1, NextStatus(turn, status), j.count);
    } else {
      end := k;
      EndsHere(l, world, k, status, noChange);
    }
  }

  /** An attempt that goes on is judged, and the rest of the run comes after it. */
  lemma OnGoes(l: Limits, world: nat -> Turn, k: nat, status: TaskStatus, noChange: nat)
    requires 1 <= k <= l.maxIterations && Reached(l, world, k) && StatusTells(status, ActsBefore(world, k))
    requires TrailingRun(Observed(world, k), noChange) && GoesOn(l, world, k)
    ensures k + 1 <= l.maxIterations && Reached(l, world, k + 1)
    ensures var j := Judged(l, world(k), k, noChange, LastOf(Observed(world, k)));
      var r := Attempts(l, world, k, status, noChange, LastOf(Observed(world, k)));
      var rest := Attempts(l, world, k + 1, NextStatus(world(k), status), j.count, LastOf(Observed(world, k + 1)));
      && TrailingRun(Observed(world, k + 1), j.count)
      && r.status == rest.status && r.calls == rest.calls + 1 && r.judged == rest.judged + 1
  {
    StopsTold(world, k, status);
    JudgedDecides(l, world(k), k, Observed(world, k), noChange);
    NextSeen(l, world, k, noChange);
    RetriesLeft(l, world(k), k);
    hide TrailingRun, Judged, BeforeStop, AfterStop, StatusTells, Unstopped, CancelledBefore, CancelledDuring;
    hide IsDone, MayRetry, Stalls, BeforeMoves, CalledMoves, AttemptMoves, LastOf, Observed, ActsBefore, CancelledLate;
  }

  lemma RetriesLeft(l: Limits, turn: Turn, k: nat)
    ensures MayRetry(l, turn, k) ==> k < l.maxIterations
  {
  }

  lemma EndsHere(l: Limits, world: nat -> Turn, k: nat, status: TaskStatus, noChange: nat)
    requires 1 <= k <= l.maxIterations && Reached(l, world, k) && StatusTells(status, ActsBefore(world, k))
    requires TrailingRun(Observed(world, k), noChange) && !GoesOn(l, world, k)
    ensures var r := Attempts(l, world, k, status, noChange, LastOf(Observed(world, k)));
      EndsAt(l, world, k, r.status, k - 1 + r.calls, k - 1 + r.judged)
  {
    hide *;
    if Unstopped(world, k) {
      EndsJudged(l, world, k, status, noChange);
    } else {
      EndsStopped(l, world, k, status, noChange);
    }
  }

  lemma EndsJudged(l: Limits, world: nat -> Turn, k: nat, status: TaskStatus, noChange: nat)
    requires 1 <= k <= l.maxIterations && Reached(l, world, k) && StatusTells(status, ActsBefore(world, k))
    requires TrailingRun(Observed(world, k), noChange) && !GoesOn(l, world, k) && Unstopped(world, k)
    ensures var r := Attempts(l, world, k, status, noChange, LastOf(Observed(world, k)));
      EndsAt(l, world, k, r.status, k - 1 + r.calls, k - 1 + r.judged)
  {
    StopsTold(world, k, status);
    JudgedDecides(l, world(k), k, Observed(world, k), noChange);
    hide TrailingRun, Judged, BeforeStop, AfterStop, StatusTells, CancelledBefore, CancelledDuring, CancelledLate;
    hide IsDone, MayRetry, Stalls, BeforeMoves, CalledMoves, AttemptMoves, LastOf, Observed, ActsBefore, Reached;
  }

  lemma EndsStopped(l: Limits, world: nat -> Turn, k: nat, status: TaskStatus, noChange: nat)
    requires 1 <= k <= l.maxIterations && Reached(l, world, k) && StatusTells(status, ActsBefore(world, k))
    requires !Unstopped(world, k)
    ensures var r := Attempts(l, world, k, status, noChange, LastOf(Observed(world, k)));
      EndsAt(l, world, k, r.status, k - 1 + r.calls, k - 1 + r.judged)
  {
    StopsTold(world, k, status);
    hide TrailingRun, Judged, BeforeStop, AfterStop, StatusTells, CancelledBefore, CancelledDuring, CancelledLate;
    hide IsDone, MayRetry, Stalls, BeforeMoves, CalledMoves, AttemptMoves, LastOf, Observed, ActsBefore, Reached;
  }

  lemma NextActs(world: nat -> Turn, k: nat, status: TaskStatus)
    requires k >= 1 && StatusTells(status, ActsBefore(world, k))
    ensures StatusTells(NextStatus(world(k), status), ActsBefore(world, k + 1))
  {
    TurnTells(world(k), status, ActsBefore(world, k));
    hide StatusTells, NextStatus;
  }

  lemma NextSeen(l: Limits, world: nat -> Turn, k: nat, noChange: nat)
    requires k >= 1 && TrailingRun(Observed(world, k), noChange) && MayRetry(l, world(k), k)
    ensures var j := Judged(l, world(k), k, noChange, LastOf(Observed(world, k)));
      TrailingRun(Observed(world, k + 1), j.count) && j.latest == LastOf(Observed(world, k + 1))
  {
    JudgedSees(l, world(k), k, Observed(world, k), noChange);
    ContinueIff(world(k).agent, ChecksOf(world(k)), k, l.maxIterations);
    RetryIff(l, world(k), k);
    hide TrailingRun, Judged, Decide, LastOf, MayRetry;
    assert Observed(world, k) + [] == Observed(world, k);
  }

  /**
   * How a run that gets into its loop ends, told from its turns: it is done exactly when the attempt it ends with was
   * judged with all checks passed and, where required, a repository change; cancelled exactly for a cancel seen there
   * and the runtime budget not out before; and blocked otherwise, a stalled attempt included.
   */
  lemma RunEnds(l: Limits, world: nat -> Turn, task: Task, resumed: bool) returns (end: nat)
    requires l.maxIterations >= 1 && !(resumed && task.status == Cancelled)
    ensures var r := WholeRun(l, world, task, resumed, true);
      EndsAt(l, world, end, r.status, r.calls, r.judged)
  {
    hide Attempts, BeginMoves, EndsAt;
    assert StatusTells(Running, ActsBefore(world, 1)) && TrailingRun(Observed(world, 1), 0);
    assert LastOf(Observed(world, 1)) == None;
    end := AttemptsEnd(l, world, 1, Running, 0);
  }

  // --------------------------------------------------------------------- paths

  /** Every move fits where it comes up. */
  ghost predicate AllFit(s: State, moves: seq<Move>) {
    moves != [] ==>
      var last := |moves| - 1;
      AllFit(s, moves[..last]) && Fits(Play(s, moves[..last]), moves[last])
  }

  /** The moves, none of them skipped, lead from `s` to `t`. */
  ghost predicate Path(s: State, moves: seq<Move>, t: State) {
    AllFit(s, moves) && Play(s, moves) == t
  }

  lemma {:induction false} PathJoin(a: State, first: seq<Move>, b: State, second: seq<Move>, c: State)
    requires Path(a, first, b) && Path(b, second, c)
    ensures Path(a, first + second, c)
  {
    hide Fits, Do;
    if second == [] {
      assert first + second == first;
    } else {
      var last := |second| - 1;
      PathJoin(a, first, b, second[..last], Play(b, second[..last]));
      assert (first + second)[..|first + second| - 1] == first + second[..last];
    }
  }

  lemma PathNil(s: State)
    ensures Path(s, [], s)
  {
  }

  /** One more move at the end of a path. */
  lemma Go(a: State, moves: seq<Move>, s: State, m: Move)
    requires Path(a, moves, s) && Fits(s, m)
    ensures Path(a, moves + [m], Do(s, m))
  {
    assert (moves + [m])[..|moves|] == moves;
  }

  /** What the invariant says of the states a path leads to. */
  lemma PathKeeps(a: State, moves: seq<Move>, t: State)
    requires Inv(a) && Path(a, moves, t)
    ensures Inv(t) && t.maxIterations == a.maxIterations
    ensures t.task.status == TaskDone ==> Verified(t.task)
    ensures t.stage.Exhausted? ==> t.maxIterations <= 0
    ensures t.calls == 0 || t.calls <= t.maxIterations
    ensures t.stage.Closing? && t.stage.decision == Continue ==> t.stage.attempt < t.maxIterations
  {
    PlayKeepsInv(a, moves);
  }

  // ---------------------------------------------------------------- the loop

  class Loop {
    const store: TaskStore
    const limits: Limits
    var stops: nat   // sessions stopped so far

    constructor (store: TaskStore, limits: Limits)
      ensures this.store == store && this.limits == limits && stops == 0
    {
      stops := 0;
      this.store, this.limits := store, limits;
    }

    /** The machine state `s` has this store's task. */
    ghost predicate At(s: State, stage: Stage)
      reads store
    {
      s.task == store.Snapshot() && s.maxIterations == limits.maxIterations && s.stage == stage
    }

    method StopSession()
      modifies this`stops
      ensures stops == old(stops) + 1
    {
      stops := stops + 1;
    }

    /** An operator writes between two steps of the supervisor. */
    method OperatorActs(op: Operator, ghost s: State) returns (ghost t: State)
      requires At(s, s.stage)
      modifies store`status
      ensures Path(s, ActMoves(op), t) && At(t, s.stage) && t.calls == s.calls
      ensures store.status == Acted(op, old(store.status))
    {
      PathNil(s);
      hide Path;
      match op
      case Nothing => t := s;
      case Cancels =>
        store.UpdateStatus(Cancelled);
        t := Do(s, OperatorCancel);
        Go(s, [], s, OperatorCancel);
        assert [] + [OperatorCancel] == ActMoves(op);
      case Recovers =>
        store.UpdateStatus(TaskBlocked);
        t := Do(s, OperatorBlock);
        Go(s, [], s, OperatorBlock);
        assert [] + [OperatorBlock] == ActMoves(op);
    }

    /** Store the iteration, its verification runs one by one, its replan decision, and its end. */
    method StoreOutcome(
      start: nat, attempt: nat, decision: Decision, checks: seq<CheckStatus>, op: Operator, ghost s: State)
      returns (ghost t: State)
      requires start + attempt >= 1
      requires At(s, Decided(start, attempt, decision, checks))
      modifies store
      ensures Path(s, StoreMoves(|checks|, op), t) && At(t, Closing(start, attempt, decision)) && t.calls == s.calls
      ensures store.status == Acted(op, old(store.status))
    {
      hide *;
      ghost var began := StoreBegin(start, attempt, decision, checks, op, s);
      ghost var ran := StoreChecks(start, attempt, decision, checks, began);
      t := StoreEnd(start, attempt, decision, checks, ran);
      PathJoin(s, [StoreIteration] + ActMoves(op), began, StoreRuns(|checks|), ran);
      PathJoin(s, [StoreIteration] + ActMoves(op) + StoreRuns(|checks|), ran, [RecordReplan, FinishIteration], t);
      StoreMovesAre(|checks|, op);
    }

    method StoreChecks(start: nat, attempt: nat, decision: Decision, checks: seq<CheckStatus>, ghost s: State)
      returns (ghost t: State)
      requires At(s, Storing(start, attempt, decision, checks, 0)) && store.iterations != []
      modifies store`iterations
      ensures Path(s, StoreRuns(|checks|), t) && At(t, Storing(start, attempt, decision, checks, |checks|))
      ensures t.calls == s.calls && store.iterations != []
    {
      t := s;
      PathNil(s);
      hide Path, SomeFailed;
      for k := 0 to |checks|
        invariant Path(s, StoreRuns(k), t) && At(t, Storing(start, attempt, decision, checks, k))
        invariant t.calls == s.calls && store.iterations != []
      {
        store.AddVerificationRun(checks[k]);
        Go(s, StoreRuns(k), t, StoreRun);
        t := Do(t, StoreRun);
      }
    }

    method StoreEnd(start: nat, attempt: nat, decision: Decision, checks: seq<CheckStatus>, ghost s: State)
      returns (ghost t: State)
      requires At(s, Storing(start, attempt, decision, checks, |checks|)) && store.iterations != []
      modifies store`iterations
      ensures Path(s, [RecordReplan, FinishIteration], t) && At(t, Closing(start, attempt, decision))
      ensures t.calls == s.calls
    {
      PathNil(s);
      hide Path, SomeFailed;
      store.RecordReplanDecision(decision, checks);
      Go(s, [], s, RecordReplan);
      t := Do(s, RecordReplan);
      store.FinishIteration();
      Go(s, [] + [RecordReplan], t, FinishIteration);
      t := Do(t, FinishIteration);
      assert [] + [RecordReplan] + [FinishIteration] == [RecordReplan, FinishIteration];
    }

    method StoreBegin(
      start: nat, attempt: nat, decision: Decision, checks: seq<CheckStatus>, op: Operator, ghost s: State)
      returns (ghost t: State)
      requires start + attempt >= 1
      requires At(s, Decided(start, attempt, decision, checks))
      modifies store
      ensures Path(s, [StoreIteration] + ActMoves(op), t) && At(t, Storing(start, attempt, decision, checks, 0))
      ensures t.calls == s.calls && store.iterations != [] && store.status == Acted(op, old(store.status))
    {
      PathNil(s);
      hide Path, ActMoves;
      store.AddIteration(start + attempt - 1, decision);
      Go(s, [], s, StoreIteration);
      ghost var stored := Do(s, StoreIteration);
      assert [] + [StoreIteration] == [StoreIteration];
      t := OperatorActs(op, stored);
      PathJoin(s, [StoreIteration], stored, ActMoves(op), t);
    }

    /** The top of an attempt: the runtime budget, then a look for a cancelled task. */
    method BeforeAgent(turn: Turn, start: nat, attempt: nat, ghost s: State)
      returns (stop: Option<RunStatus>, ghost t: State)
      requires At(s, Looping(start, attempt))
      modifies store`status
      ensures stop == BeforeStop(turn, old(store.status))
      ensures Path(s, BeforeMoves(turn, old(store.status)), t) && t.calls == s.calls
      ensures At(t, if stop.Some? then Idle else Looping(start, attempt))
      ensures stop.None? ==> store.status == Acted(turn.before, old(store.status))
      ensures stop.Some? ==> store.status == StoppedStatus(stop.value)
    {
      hide Path, ActMoves;
      t := OperatorActs(turn.before, s);
      ghost var done := ActMoves(turn.before);
      if turn.budgetBefore {
        store.UpdateStatus(TaskBlocked);
        Go(s, done, t, BudgetOut);
        return Some(RunBlocked), Do(t, BudgetOut);
      }
      if store.status == Cancelled {
        Go(s, done, t, StopCancelled);
        return Some(RunCancelled), Do(t, StopCancelled);
      }
      assert done + [] == done;
      stop := None;
    }

    /** After the agent returned: cancellation wins, then the budget, then cancellation again before verifying. */
    method AfterAgent(turn: Turn, start: nat, attempt: nat, ghost s: State)
      returns (stop: Option<RunStatus>, ghost t: State)
      requires At(s, Returned(start, attempt, turn.agent))
      modifies store`status
      ensures stop == AfterStop(turn, old(store.status))
      ensures Path(s, AfterMoves(turn, old(store.status)), t) && t.calls == s.calls
      ensures At(t, if stop.Some? then Idle else Returned(start, attempt, turn.agent))
      ensures stop.None? ==> store.status == AfterStatus(turn, old(store.status))
      ensures stop.Some? ==> store.status == StoppedStatus(stop.value)
    {
      hide Path, ActMoves;
      t := OperatorActs(turn.during, s);
      ghost var done := ActMoves(turn.during);
      if turn.agent == AgentCancelled || store.status == Cancelled {
        Go(s, done, t, WriteCancelled);
        store.UpdateStatus(Cancelled);
        return Some(RunCancelled), Do(t, WriteCancelled);
      }
      if turn.agent != Success {
        assert done + [] == done;
        return None, t;
      }
      if turn.budgetAfter {
        store.UpdateStatus(TaskBlocked);
        Go(s, done, t, BudgetOut);
        return Some(RunBlocked), Do(t, BudgetOut);
      }
      ghost var before := t;
      t := OperatorActs(turn.late, t);
      PathJoin(s, done, before, ActMoves(turn.late), t);
      if store.status == Cancelled {
        Go(s, done + ActMoves(turn.late), t, StopCancelled);
        assert done + ActMoves(turn.late) + [StopCancelled] == done + (ActMoves(turn.late) + [StopCancelled]);
        return Some(RunCancelled), Do(t, StopCancelled);
      }
      assert done + ActMoves(turn.late) == done + (ActMoves(turn.late) + []);
      stop := None;
    }

    /** Decide the attempt, and block it when nothing changes any more. */
    method JudgeAttempt(
      turn: Turn, start: nat, attempt: nat, noChange: nat, previous: Option<Signature>, ghost s: State)
      returns (decision: Decision, checks: seq<CheckStatus>, count: nat, latest: Option<Signature>, ghost t: State)
      requires At(s, Returned(start, attempt, turn.agent)) && turn.agent != AgentCancelled
      ensures var j := Judged(limits, turn, attempt, noChange, previous);
        decision == j.decision && checks == j.checks && count == j.count && latest == j.latest
      ensures var j := Judged(limits, turn, attempt, noChange, previous);
        Path(s, [Judge(j.checks, j.noRepoChange, j.stalled)], t)
      ensures t.calls == s.calls && At(t, Decided(start, attempt, decision, checks))
      ensures decision == Done <==> IsDone(limits, turn)
      ensures decision == Continue <==>
        && MayRetry(limits, turn, attempt)
        && (limits.maxNoChange > 0 && turn.snapshot.Some? ==>
              var own := Signature(turn.agent, turn.files, turn.snapshot.value);
              (if previous == Some(own) then noChange + 1 else 1) < limits.maxNoChange)
    {
      DoneIff(turn.agent, ChecksOf(turn), attempt, limits.maxIterations);
      ContinueIff(turn.agent, ChecksOf(turn), attempt, limits.maxIterations);
      RetryIff(limits, turn, attempt);
      PathNil(s);
      hide Path, Inv, Verified, SomeFailed, Decide, MayRetry;
      count, latest := noChange, previous;
      checks := if turn.agent == Success then turn.checks else [];
      decision := Decide(turn.agent, checks, attempt, limits.maxIterations);
      var noRepoChange := limits.requireRepoChange && turn.files == [] && !turn.repoChanged;
      var stalled := false;
      if decision == Continue && turn.snapshot.Some? {
        var signature := Signature(turn.agent, turn.files, turn.snapshot.value);
        count := if previous == Some(signature) then noChange + 1 else 1;
        latest := Some(signature);
        stalled := limits.maxNoChange > 0 && count >= limits.maxNoChange;
      }
      Go(s, [], s, Judge(checks, noRepoChange, stalled));
      t := Do(s, Judge(checks, noRepoChange, stalled));
      assert [] + [Judge(checks, noRepoChange, stalled)] == [Judge(checks, noRepoChange, stalled)];
      decision := Adjusted(decision, noRepoChange, stalled);
    }

    /** Store the decided attempt and act on the decision. */
    method Conclude(
      start: nat, attempt: nat, decision: Decision, checks: seq<CheckStatus>, op: Operator, ghost s: State)
      returns (stop: Option<RunStatus>, ghost t: State)
      requires start >= 1 && At(s, Decided(start, attempt, decision, checks))
      modifies store
      ensures stop == ConcludeStop(decision)
      ensures Path(s, StoreMoves(|checks|, op) + [LastMove(decision)], t) && t.calls == s.calls
      ensures At(t, if stop.Some? then Idle else LoopFrom(start, attempt + 1, limits.maxIterations))
      ensures store.status == if stop.Some? then StoppedStatus(stop.value) else Acted(op, old(store.status))
    {
      hide Path, Inv, Verified, SomeFailed, Decide, StoreMoves;
      t := StoreOutcome(start, attempt, decision, checks, op, s);
      Go(s, StoreMoves(|checks|, op), t, LastMove(decision));
      t := Do(t, LastMove(decision));
      match decision
      case Done =>
        store.UpdateStatus(TaskDone);
        stop := Some(RunDone);
      case Blocked =>
        store.UpdateStatus(TaskBlocked);
        stop := Some(RunBlocked);
      case Continue =>
        stop := None;
    }

    /** The agent's part of an attempt; `returned` tells whether it was called. */
    method CallAgent(turn: Turn, start: nat, attempt: nat, ghost s: State)
      returns (stop: Option<RunStatus>, returned: bool, ghost t: State)
      requires At(s, Looping(start, attempt))
      modifies store`status
      ensures var status := old(store.status);
        var before, after := BeforeStop(turn, status), AfterStop(turn, Acted(turn.before, status));
        if before.Some? then
          stop == before && !returned && Path(s, BeforeMoves(turn, status), t) && t.calls == s.calls
        else
          && stop == after && returned && Path(s, CalledMoves(turn, status), t) && t.calls == s.calls + 1
          && (stop.None? ==> store.status == AfterStatus(turn, Acted(turn.before, status)))
      ensures At(t, if stop.Some? then Idle else Returned(start, attempt, turn.agent))
      ensures stop.Some? ==> store.status == StoppedStatus(stop.value)
    {
      hide Path, BeforeStop, AfterStop, BeforeMoves, AfterMoves, AfterStatus;
      ghost var status := store.status;
      stop, t := BeforeAgent(turn, start, attempt, s);
      if stop.Some? {
        return stop, false, t;
      }
      Go(s, BeforeMoves(turn, status), t, Move.CallAgent(turn.agent));
      ghost var called := Do(t, Move.CallAgent(turn.agent));
      stop, t := AfterAgent(turn, start, attempt, called);
      PathJoin(s, BeforeMoves(turn, status) + [Move.CallAgent(turn.agent)], called,
               AfterMoves(turn, Acted(turn.before, status)), t);
      returned := true;
    }

    /**
     * `_run`: mark the task running, then attempt after attempt until a decision ends the run. What it returns
     * and every move it makes are those of the reference run over the same turns.
     */
    method Run(resumed: bool, available: bool, world: nat -> Turn)
      returns (status: RunStatus, calls: nat, noChange: nat, tail: bool, ghost t: State)
      requires Inv(State(store.Snapshot(), Idle, limits.maxIterations, 0))
      requires !resumed ==> store.Snapshot() == Task(Created, [])
      modifies store, this`stops
      ensures var r := WholeRun(limits, world, old(store.Snapshot()), resumed, available);
        && status == r.status && calls == r.calls && noChange == r.noChange && tail == r.tail
        && Path(old(State(store.Snapshot(), Idle, limits.maxIterations, 0)), r.moves, t) && At(t, Idle)
      ensures store.status == StoppedStatus(status)
      ensures status == RunDone ==> Verified(store.Snapshot())
      ensures available && !(resumed && old(store.status) == Cancelled) && limits.maxIterations >= 1 ==>
        exists end, judged :: EndsAt(limits, world, end, status, calls, judged)
      ensures status == RunDone <==> store.status == TaskDone
      ensures status == RunCancelled <==> store.status == Cancelled
      ensures resumed && old(store.status) == Cancelled ==>
        status == RunCancelled && calls == 0 && store.iterations == old(store.iterations)
      ensures !available && !(resumed && old(store.status) == Cancelled) ==>
        && status == RunBlocked && calls == 0
        && store.iterations ==
           old(store.iterations) + [Iteration(|old(store.iterations)| + 1, Blocked, [], 0, false)]
      ensures available && !(resumed && old(store.status) == Cancelled) && limits.maxIterations < 1 ==>
        status == RunBlocked && calls == 0
      ensures stops == old(stops) + if available && !(resumed && old(store.status) == Cancelled) then 1 else 0
    {
      ghost var a := State(store.Snapshot(), Idle, limits.maxIterations, 0);
      ghost var task := store.Snapshot();
      var cancelled := resumed && store.status == Cancelled;
      var start := |store.iterations| + 1;
      assert start >= 1;
      if available && !cancelled && limits.maxIterations >= 1 {
        var end := RunEnds(limits, world, task, resumed);
      }
      hide *;
      WholeRunIs(limits, world, task, resumed, available);
      NoAttempts(limits, world);
      StoppedStatuses();
      t := Begin(resumed, a);
      if cancelled {
        return RunCancelled, 0, 0, false, t;
      }
      ghost var begun := t;
      if !available {
        t := Unavailable(start, begun);
        PathJoin(a, BeginMoves(resumed), begun, [StoreUnavailable, BlockUnavailable], t);
        return RunBlocked, 0, 0, false, t;
      }
      ghost var started := Started(begun, start);
      PathJoin(a, BeginMoves(resumed), begun, [StartLoop], started);
      PathKeeps(a, BeginMoves(resumed) + [StartLoop], started);
      status, calls, noChange, tail, t := RunLoop(start, world, started);
      PathJoin(a, BeginMoves(resumed) + [StartLoop], started,
               Attempts(limits, world, 1, Running, 0, None).moves, t);
    }

    /** Up to running: a resume looks for a cancelled task first. */
    method Begin(resumed: bool, ghost a: State) returns (ghost t: State)
      requires At(a, Idle) && (!resumed ==> store.Snapshot() == Task(Created, []))
      modifies store`status
      ensures if resumed && old(store.status) == Cancelled then
          Path(a, [Resume, SeeCancelled], t) && At(t, Idle) && store.status == Cancelled
        else
          Path(a, BeginMoves(resumed), t) && At(t, Ready(|store.iterations| + 1)) && store.status == Running
    {
      PathNil(a);
      hide Path;
      if resumed {
        Go(a, [], a, Resume);
        t := Do(a, Resume);
        if store.status == Cancelled {
          Go(a, [] + [Resume], t, SeeCancelled);
          assert [] + [Resume] + [SeeCancelled] == [Resume, SeeCancelled];
          return Do(t, SeeCancelled);
        }
        Go(a, [] + [Resume], t, SeeActive);
        t := Do(t, SeeActive);
        assert [] + [Resume] + [SeeActive] == [Resume, SeeActive];
      } else {
        Go(a, [], a, RunOnce);
        t := Do(a, RunOnce);
        assert [] + [RunOnce] == [RunOnce];
      }
      store.UpdateStatus(Running);
      Go(a, if resumed then [Resume, SeeActive] else [RunOnce], t, WriteRunning);
      t := Do(t, WriteRunning);
    }

    /** The agent is not available: one blocked iteration, and the task is blocked. */
    method Unavailable(start: nat, ghost s: State) returns (ghost t: State)
      requires At(s, Ready(start))
      modifies store
      ensures Path(s, [StoreUnavailable, BlockUnavailable], t) && At(t, Idle)
      ensures store.status == StoppedStatus(RunBlocked)
      ensures store.iterations == old(store.iterations) + [Iteration(start, Blocked, [], 0, false)]
    {
      PathNil(s);
      hide Path;
      store.AddIteration(start, Blocked);
      Go(s, [], s, StoreUnavailable);
      t := Do(s, StoreUnavailable);
      store.UpdateStatus(TaskBlocked);
      Go(s, [] + [StoreUnavailable], t, BlockUnavailable);
      t := Do(t, BlockUnavailable);
      assert [] + [StoreUnavailable] + [BlockUnavailable] == [StoreUnavailable, BlockUnavailable];
    }

    /** The session started: the loop begins at its first attempt. */
    lemma Started(s: State, start: nat) returns (t: State)
      requires At(s, Ready(start))
      ensures Path(s, [StartLoop], t) && At(t, LoopFrom(start, 1, limits.maxIterations)) && t.calls == 0
    {
      PathNil(s);
      t := Do(s, StartLoop);
      Go(s, [], s, StartLoop);
      assert [] + [StartLoop] == [StartLoop];
    }

    /** One attempt: the agent's part, the judgement, and what the decision comes to. */
    method Attempt(
      turn: Turn, start: nat, attempt: nat, noChange: nat, previous: Option<Signature>, ghost s: State)
      returns (stop: Option<RunStatus>, called: bool, count: nat, latest: Option<Signature>, ghost t: State)
      requires start >= 1 && At(s, Looping(start, attempt))
      modifies store
      ensures var status, j := old(store.status), Judged(limits, turn, attempt, noChange, previous);
        && stop == TurnStop(turn, status, j) && called == BeforeStop(turn, status).None?
        && count == TurnCount(turn, status, noChange, j) && Path(s, TurnMoves(limits, turn, status, j), t)
        && (stop.None? ==> latest == j.latest && store.status == NextStatus(turn, status))
      ensures At(t, if stop.Some? then Idle else LoopFrom(start, attempt + 1, limits.maxIterations))
      ensures stop.Some? ==> store.status == StoppedStatus(stop.value)
    {
      hide Path, CalledMoves, BeforeMoves, StoreMoves, AttemptMoves, BeforeStop, AfterStop, AfterStatus;
      hide Judged, StoppedStatus, LoopFrom;
      ghost var status := store.status;
      count, latest := noChange, previous;
      stop, called, t := CallAgent(turn, start, attempt, s);
      if stop.Some? {
        return;
      }
      NotCancelled(turn, status);
      ghost var returned := t;
      ghost var j := Judged(limits, turn, attempt, noChange, previous);
      ghost var judge := [Judge(j.checks, j.noRepoChange, j.stalled)];
      var decision, checks;
      decision, checks, count, latest, t := JudgeAttempt(turn, start, attempt, noChange, previous, returned);
      ghost var judged := t;
      stop, t := Conclude(start, attempt, decision, checks, turn.storing, judged);
      PathJoin(s, CalledMoves(turn, status), returned, judge, judged);
      PathJoin(s, CalledMoves(turn, status) + judge, judged,
               StoreMoves(|checks|, turn.storing) + [LastMove(decision)], t);
      JoinedMoves(limits, turn, status, j);
    }

    /** The loop from the started session to its one stop. */
    method RunLoop(start: nat, world: nat -> Turn, ghost s: State)
      returns (status: RunStatus, calls: nat, noChange: nat, tail: bool, ghost t: State)
      requires Inv(s) && At(s, LoopFrom(start, 1, limits.maxIterations)) && s.calls == 0 && start >= 1
      modifies store, this`stops
      ensures var r := Attempts(limits, world, 1, old(store.status), 0, None);
        && status == r.status && calls == r.calls && noChange == r.noChange && tail == r.tail
        && Path(s, r.moves, t) && At(t, Idle)
      ensures store.status == StoppedStatus(status)
      ensures status == RunDone ==> Verified(store.Snapshot())
      ensures stops == old(stops) + 1
    {
      PathNil(s);
      ghost var whole := Attempts(limits, world, 1, store.status, 0, None);
      RemainingStart(limits, world, store.status);
      hide Path, Inv, Verified, Attempts, Remaining, TurnStop, TurnMoves, TurnCount, BeforeStop, Judged, NextStatus;
      hide LoopFrom;
      status, calls, noChange, tail, t := RunBlocked, 0, 0, false, s;
      var previous: Option<Signature> := None;
      var attempt := 1;
      ghost var done: seq<Move> := [];
      while attempt <= limits.maxIterations
        invariant 1 <= attempt && calls == attempt - 1 && stops == old(stops)
        invariant Path(s, done, t) && At(t, LoopFrom(start, attempt, limits.maxIterations))
        invariant Remaining(whole, done, calls, limits, world, attempt, store.status, noChange, previous)
        decreases limits.maxIterations - attempt
      {
        var turn := world(attempt);
        LoopAt(start, attempt, limits.maxIterations);
        ghost var before, was, j := t, store.status, Judged(limits, turn, attempt, noChange, previous);
        RemainingTurn(whole, done, calls, limits, world, attempt, was, noChange, previous);
        var stop, called;
        stop, called, noChange, previous, t := Attempt(turn, start, attempt, noChange, previous, before);
        PathJoin(s, done, before, TurnMoves(limits, turn, was, j), t);
        done := done + TurnMoves(limits, turn, was, j);
        if stop.Some? {
          EndsVerified(s, done, t);
          StopSession();
          return stop.value, if called then calls + 1 else calls, noChange, false, t;
        }
        StopsUncalled(turn, was, j);
        attempt, calls := attempt + 1, calls + 1;
      }
      RemainingTurn(whole, done, calls, limits, world, attempt, store.status, noChange, previous);
      LoopAt(start, attempt, limits.maxIterations);
      ghost var before := t;
      t := Exhaust(before);
      PathJoin(s, done, before, [WriteExhausted], t);
      StopSession();
      return RunBlocked, calls, noChange, true, t;
    }

    /** The tail after the last attempt. */
    method Exhaust(ghost s: State) returns (ghost t: State)
      requires At(s, Exhausted)
      modifies store`status
      ensures Path(s, [WriteExhausted], t) && At(t, Idle) && store.status == StoppedStatus(RunBlocked)
    {
      PathNil(s);
      store.UpdateStatus(TaskBlocked);
      t := Do(s, WriteExhausted);
      Go(s, [], s, WriteExhausted);
      assert [] + [WriteExhausted] == [WriteExhausted];
    }
  }

  lemma LoopAt(start: nat, attempt: nat, maxIterations: int)
    ensures LoopFrom(start, attempt, maxIterations) ==
            if attempt <= maxIterations then Looping(start, attempt) else Exhausted
  {
  }

  lemma StoppedStatuses()
    ensures forall status: RunStatus :: StoppedStatus(status) == TaskDone <==> status == RunDone
    ensures forall status: RunStatus :: StoppedStatus(status) == Cancelled <==> status == RunCancelled
  {
  }

  lemma NoAttempts(l: Limits, world: nat -> Turn)
    ensures l.maxIterations < 1 ==>
      Attempts(l, world, 1, Running, 0, None) == Report(RunBlocked, [WriteExhausted], 0, 0, 0, true)
  {
  }

  lemma WholeRunIs(l: Limits, world: nat -> Turn, task: Task, resumed: bool, available: bool)
    ensures var r := WholeRun(l, world, task, resumed, available);
      if resumed && task.status == Cancelled then r == Report(RunCancelled, [Resume, SeeCancelled], 0, 0, 0, false)
      else if !available then
        r == Report(RunBlocked, BeginMoves(resumed) + [StoreUnavailable, BlockUnavailable], 0, 0, 0, false)
      else
        var loop := Attempts(l, world, 1, Running, 0, None);
        r == loop.(moves := BeginMoves(resumed) + [StartLoop] + loop.moves)
  {
    hide Attempts, BeginMoves;
  }

  lemma EndsVerified(s: State, done: seq<Move>, t: State)
    requires Inv(s) && Path(s, done, t)
    ensures t.task.status == TaskDone ==> Verified(t.task)
  {
    hide *;
    PathKeeps(s, done, t);
  }

  lemma NotCancelled(turn: Turn, status: TaskStatus)
    requires AfterStop(turn, Acted(turn.before, status)).None?
    ensures turn.agent != AgentCancelled
  {
  }

  lemma StoreMovesAre(checks: nat, op: Operator)
    ensures StoreMoves(checks, op) ==
            [StoreIteration] + ActMoves(op) + StoreRuns(checks) + [RecordReplan, FinishIteration]
  {
  }

  /** The moves of one turn of the loop, however it ends. */
  function TurnMoves(l: Limits, turn: Turn, status: TaskStatus, j: Judgement): seq<Move> {
    if BeforeStop(turn, status).Some? then BeforeMoves(turn, status)
    else if AfterStop(turn, Acted(turn.before, status)).Some? then CalledMoves(turn, status)
    else AttemptMoves(l, turn, status, j)
  }

  function TurnStop(turn: Turn, status: TaskStatus, j: Judgement): Option<RunStatus> {
    var before, after := BeforeStop(turn, status), AfterStop(turn, Acted(turn.before, status));
    if before.Some? then before else if after.Some? then after else ConcludeStop(j.decision)
  }

  predicate TurnJudged(turn: Turn, status: TaskStatus) {
    BeforeStop(turn, status).None? && AfterStop(turn, Acted(turn.before, status)).None?
  }

  function TurnCount(turn: Turn, status: TaskStatus, noChange: nat, j: Judgement): nat {
    if TurnJudged(turn, status) then j.count else noChange
  }

  lemma StopsUncalled(turn: Turn, status: TaskStatus, j: Judgement)
    requires TurnStop(turn, status, j).None?
    ensures BeforeStop(turn, status).None?
  {
  }

  /** The status a finished run leaves in the store. */
  function StoppedStatus(status: RunStatus): TaskStatus {
    match status
    case RunDone => TaskDone
    case RunBlocked => TaskBlocked
    case RunCancelled => Cancelled
  }

  /** After the moves `done` and `calls` judged attempts, the rest of the whole run begins here. */
  ghost predicate Remaining(
    whole: Report, done: seq<Move>, calls: nat, l: Limits, world: nat -> Turn, attempt: nat, status: TaskStatus,
    noChange: nat, previous: Option<Signature>)
  {
    var rest := Attempts(l, world, attempt, status, noChange, previous);
    whole == Report(rest.status, done + rest.moves, calls + rest.calls, calls + rest.judged, rest.noChange, rest.tail)
  }

  lemma RemainingStart(l: Limits, world: nat -> Turn, status: TaskStatus)
    ensures Remaining(Attempts(l, world, 1, status, 0, None), [], 0, l, world, 1, status, 0, None)
  {
    hide Attempts;
    assert forall moves: seq<Move> :: [] + moves == moves;
  }

  lemma JoinedMoves(l: Limits, turn: Turn, status: TaskStatus, j: Judgement)
    ensures AttemptMoves(l, turn, status, j) ==
            CalledMoves(turn, status) + [Judge(j.checks, j.noRepoChange, j.stalled)] +
            (StoreMoves(|j.checks|, turn.storing) + [LastMove(j.decision)])
  {
  }

  /** One turn of the loop, against the reference. */
  lemma RemainingTurn(
    whole: Report, done: seq<Move>, calls: nat, l: Limits, world: nat -> Turn, attempt: nat, status: TaskStatus,
    noChange: nat, previous: Option<Signature>)
    requires Remaining(whole, done, calls, l, world, attempt, status, noChange, previous)
    ensures attempt > l.maxIterations ==>
      && whole.status == RunBlocked && whole.moves == done + [WriteExhausted] && whole.calls == calls
      && whole.noChange == noChange && whole.tail
    ensures attempt <= l.maxIterations ==>
      var turn, j := world(attempt), Judged(l, world(attempt), attempt, noChange, previous);
      var moves := done + TurnMoves(l, turn, status, j);
      if TurnStop(turn, status, j).Some? then
        && whole.status == TurnStop(turn, status, j).value && whole.moves == moves
        && whole.calls == (if BeforeStop(turn, status).None? then calls + 1 else calls)
        && whole.noChange == TurnCount(turn, status, noChange, j) && !whole.tail
      else
        && TurnCount(turn, status, noChange, j) == j.count
        && Remaining(whole, moves, calls + 1, l, world, attempt + 1, NextStatus(turn, status), j.count, j.latest)
  {
    hide BeforeStop, AfterStop, BeforeMoves, CalledMoves, AttemptMoves, Judged, NextStatus;
    if attempt <= l.maxIterations {
      var turn := world(attempt);
      var j := Judged(l, turn, attempt, noChange, previous);
      var rest := Attempts(l, world, attempt + 1, NextStatus(turn, status), j.count, j.latest);
      assert done + AttemptMoves(l, turn, status, j) + rest.moves
          == done + (AttemptMoves(l, turn, status, j) + rest.moves);
    }
  }
}
