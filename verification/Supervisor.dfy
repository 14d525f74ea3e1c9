/**
 * One supervised task as a step system. Every store write of the supervisor is one step; operator writes,
 * crashes and resumes may come between any two of them. One supervisor at a time works on the task.
 */
module Supervisor {
  datatype CheckStatus = Passed | NeedsApproval | PolicyDenied | OtherStatus(text: string)

  datatype Decision = Done | Continue | Blocked

  datatype TaskStatus = Created | Running | TaskDone | TaskBlocked | Cancelled

  datatype AgentStatus = Success | AgentCancelled | AgentFailed(text: string)

  /** An `iterations` row with its verification runs and replan decisions. */
  datatype Iteration = Iteration(
    index: nat, decision: Decision, runs: seq<CheckStatus>, replans: nat, finished: bool)

  datatype Task = Task(status: TaskStatus, iterations: seq<Iteration>)

  // ----------------------------------------------------------------- decisions

  function NotPassed(checks: seq<CheckStatus>): seq<CheckStatus> {
    if checks == [] then []
    else (if checks[0] != Passed then [checks[0]] else []) + NotPassed(checks[1..])
  }

  function ByPolicy(checks: seq<CheckStatus>): seq<CheckStatus> {
    if checks == [] then []
    else (if checks[0] in {PolicyDenied, NeedsApproval} then [checks[0]] else []) + ByPolicy(checks[1..])
  }

  /** `DecisionEngine.decide`. */
  function Decide(agent: AgentStatus, checks: seq<CheckStatus>, iteration: int, maxIterations: int): Decision {
    if agent != Success then Blocked
    else if checks == [] then Blocked
    else
      var failed := NotPassed(checks);
      if failed == [] then Done
      else if ByPolicy(failed) != [] then Blocked
      else if iteration >= maxIterations then Blocked
      else Continue
  }

  predicate AllPassed(checks: seq<CheckStatus>) {
    forall i :: 0 <= i < |checks| ==> checks[i] == Passed
  }

  /** A check that failed on its own account, not by policy. */
  predicate FailedCheck(c: CheckStatus) {
    c !in {Passed, NeedsApproval, PolicyDenied}
  }

  predicate SomeFailed(checks: seq<CheckStatus>) {
    exists i :: 0 <= i < |checks| && FailedCheck(checks[i])
  }

  lemma {:induction false} NotPassedEmpty(checks: seq<CheckStatus>)
    ensures NotPassed(checks) == [] <==> AllPassed(checks)
  {
    if checks != [] {
      NotPassedEmpty(checks[1..]);
      assert checks == [checks[0]] + checks[1..];
    }
  }

  lemma {:induction false} ByPolicyEmpty(checks: seq<CheckStatus>)
    ensures ByPolicy(NotPassed(checks)) == [] <==>
            forall i :: 0 <= i < |checks| ==> checks[i] !in {PolicyDenied, NeedsApproval}
  {
    if checks != [] {
      ByPolicyEmpty(checks[1..]);
      assert checks == [checks[0]] + checks[1..];
      if checks[0] != Passed {
        assert NotPassed(checks)[1..] == NotPassed(checks[1..]);
      } else {
        assert NotPassed(checks) == NotPassed(checks[1..]);
      }
    }
  }

  /** Done is decided exactly when the agent succeeded and there are checks, all of them passed. */
  lemma DoneIff(agent: AgentStatus, checks: seq<CheckStatus>, iteration: int, maxIterations: int)
    ensures Decide(agent, checks, iteration, maxIterations) == Done <==>
            agent == Success && checks != [] && AllPassed(checks)
  {
    NotPassedEmpty(checks);
  }

  /** Another attempt is decided exactly when attempts are left and some check failed, none of them by policy. */
  lemma ContinueIff(agent: AgentStatus, checks: seq<CheckStatus>, iteration: int, maxIterations: int)
    ensures Decide(agent, checks, iteration, maxIterations) == Continue <==>
            agent == Success && iteration < maxIterations && SomeFailed(checks) &&
            forall i :: 0 <= i < |checks| ==> checks[i] !in {PolicyDenied, NeedsApproval}
  {
    NotPassedEmpty(checks);
    ByPolicyEmpty(checks);
  }

  /** The overrides of `_run`: done without a repository change, or too many attempts without one, is blocked. */
  function Adjusted(d: Decision, noRepoChange: bool, stalled: bool): Decision {
    if d == Done && noRepoChange then Blocked
    else if d == Continue && stalled then Blocked
    else d
  }

  // ---------------------------------------------------------------- the machine

  /** Where the live supervisor stands; `start` is the index of the run's first iteration. */
  datatype Stage =
    | Idle
    | Counted(start: nat)                                // a resume counted the stored iterations
    | Starting(start: nat)                               // the task was not seen cancelled
    | Ready(start: nat)                                  // running is written
    | UnavailableStored
    | Looping(start: nat, attempt: nat)
    | Returned(start: nat, attempt: nat, agent: AgentStatus)
    | Decided(start: nat, attempt: nat, decision: Decision, checks: seq<CheckStatus>)
    | Storing(start: nat, attempt: nat, decision: Decision, checks: seq<CheckStatus>, stored: nat)
    | Recorded(start: nat, attempt: nat, decision: Decision, checks: seq<CheckStatus>)
    | Closing(start: nat, attempt: nat, decision: Decision)
    | Exhausted

  datatype State = State(task: Task, stage: Stage, maxIterations: int, calls: nat)

  datatype Move =
    | RunOnce | Resume | SeeCancelled | SeeActive | WriteRunning
    | StoreUnavailable | BlockUnavailable
    | StartLoop | BudgetOut | StopCancelled | CallAgent(agent: AgentStatus)
    | WriteCancelled
    | Judge(checks: seq<CheckStatus>, noRepoChange: bool, stalled: bool)
    | StoreIteration | StoreRun | RecordReplan | FinishIteration
    | WriteDone | WriteBlocked | NextAttempt | WriteExhausted
    | Crash | OperatorCancel | OperatorBlock

  predicate CanMove(s: State, m: Move) {
    match m
    case RunOnce => s.stage.Idle? && s.task == Task(Created, [])
    case Resume => s.stage.Idle?
    case SeeCancelled => s.stage.Counted? && s.task.status == Cancelled
    case SeeActive => s.stage.Counted? && s.task.status != Cancelled
    case WriteRunning => s.stage.Starting?
    case StoreUnavailable => s.stage.Ready?
    case BlockUnavailable => s.stage.UnavailableStored?
    case StartLoop => s.stage.Ready?
    case BudgetOut => s.stage.Looping? || (s.stage.Returned? && s.stage.agent == Success)
    case StopCancelled => (s.stage.Looping? || s.stage.Returned?) && s.task.status == Cancelled
    case CallAgent(_) => s.stage.Looping?
    case WriteCancelled => s.stage.Returned? && (s.stage.agent == AgentCancelled || s.task.status == Cancelled)
    case Judge(checks, _, _) =>
      s.stage.Returned? && s.stage.agent != AgentCancelled && (s.stage.agent != Success ==> checks == [])
    case StoreIteration => s.stage.Decided? && s.stage.start + s.stage.attempt >= 1
    case StoreRun => s.stage.Storing? && s.stage.stored < |s.stage.checks|
    case RecordReplan => s.stage.Storing? && s.stage.stored == |s.stage.checks|
    case FinishIteration => s.stage.Recorded? && s.task.iterations != []
    case WriteDone => s.stage.Closing? && s.stage.decision == Done
    case WriteBlocked => s.stage.Closing? && s.stage.decision == Blocked
    case NextAttempt => s.stage.Closing? && s.stage.decision == Continue
    case WriteExhausted => s.stage.Exhausted?
    case Crash => true
    case OperatorCancel => true
    case OperatorBlock => true
  }

  function WithStatus(s: State, status: TaskStatus, stage: Stage): State {
    s.(task := s.task.(status := status), stage := stage)
  }

  /** The last stored iteration, replaced. */
  function WithLast(task: Task, it: Iteration): Task
    requires task.iterations != []
  {
    task.(iterations := task.iterations[|task.iterations| - 1 := it])
  }

  function Last(task: Task): Iteration
    requires task.iterations != []
  {
    task.iterations[|task.iterations| - 1]
  }

  /** The attempt the loop goes on to, or the tail after it. */
  function LoopFrom(start: nat, attempt: nat, maxIterations: int): Stage {
    if attempt <= maxIterations then Looping(start, attempt) else Exhausted
  }

  function Do(s: State, m: Move): State
    requires CanMove(s, m) && (m.StoreRun? || m.RecordReplan? ==> s.task.iterations != [])
  {
    match m
    case RunOnce => s.(stage := Starting(1))
    case Resume => s.(stage := Counted(|s.task.iterations| + 1))
    case SeeCancelled => s.(stage := Idle)
    case SeeActive => s.(stage := Starting(s.stage.start))
    case WriteRunning => WithStatus(s, Running, Ready(s.stage.start))
    case StoreUnavailable =>
      s.(task := s.task.(iterations := s.task.iterations + [Iteration(s.stage.start, Blocked, [], 0, false)]),
         stage := UnavailableStored)
    case BlockUnavailable => WithStatus(s, TaskBlocked, Idle)
    case StartLoop => s.(stage := LoopFrom(s.stage.start, 1, s.maxIterations), calls := 0)
    case BudgetOut => WithStatus(s, TaskBlocked, Idle)
    case StopCancelled => s.(stage := Idle)
    case CallAgent(agent) => s.(stage := Returned(s.stage.start, s.stage.attempt, agent), calls := s.calls + 1)
    case WriteCancelled => WithStatus(s, Cancelled, Idle)
    case Judge(checks, noRepoChange, stalled) =>
      var d := Decide(s.stage.agent, checks, s.stage.attempt, s.maxIterations);
      s.(stage := Decided(s.stage.start, s.stage.attempt, Adjusted(d, noRepoChange, stalled), checks))
    case StoreIteration =>
      var g := s.stage;
      s.(task := s.task.(iterations := s.task.iterations +
                         [Iteration(g.start + g.attempt - 1, g.decision, [], 0, false)]),
         stage := Storing(g.start, g.attempt, g.decision, g.checks, 0))
    case StoreRun =>
      var last := Last(s.task);
      s.(task := WithLast(s.task, last.(runs := last.runs + [s.stage.checks[s.stage.stored]])),
         stage := s.stage.(stored := s.stage.stored + 1))
    case RecordReplan =>
      var last := Last(s.task);
      var more := if s.stage.decision in {Continue, Blocked} && SomeFailed(s.stage.checks) then 1 else 0;
      s.(task := WithLast(s.task, last.(replans := last.replans + more)),
         stage := Recorded(s.stage.start, s.stage.attempt, s.stage.decision, s.stage.checks))
    case FinishIteration =>
      s.(task := WithLast(s.task, Last(s.task).(finished := true)),
         stage := Closing(s.stage.start, s.stage.attempt, s.stage.decision))
    case WriteDone => WithStatus(s, TaskDone, Idle)
    case WriteBlocked => WithStatus(s, TaskBlocked, Idle)
    case NextAttempt => s.(stage := LoopFrom(s.stage.start, s.stage.attempt + 1, s.maxIterations))
    case WriteExhausted => WithStatus(s, TaskBlocked, Idle)
    case Crash => s.(stage := Idle)
    case OperatorCancel => WithStatus(s, Cancelled, s.stage)
    case OperatorBlock => WithStatus(s, TaskBlocked, s.stage)
  }

  predicate Fits(s: State, m: Move) {
    CanMove(s, m) && (m.StoreRun? || m.RecordReplan? ==> s.task.iterations != [])
  }

  /** Any list of moves is a history; moves that do not fit where they come up are skipped. */
  function Play(s: State, moves: seq<Move>): State {
    if moves == [] then s
    else
      var before, m := Play(s, moves[..|moves| - 1]), moves[|moves| - 1];
      if Fits(before, m) then Do(before, m) else before
  }

  function NewTask(maxIterations: int): State {
    State(Task(Created, []), Idle, maxIterations, 0)
  }

  // ----------------------------------------------------------------- invariants

  /** What the Markdown report calls verified. */
  predicate Verified(task: Task) {
    && task.iterations != []
    && Last(task).decision == Done
    && Last(task).runs != []
    && AllPassed(Last(task).runs)
  }

  /** Stored iterations are numbered 1 to n. */
  predicate Numbered(task: Task) {
    forall i :: 0 <= i < |task.iterations| ==> task.iterations[i].index == i + 1
  }

  /** A finished iteration has a replan decision exactly when a check failed on its own account, and only one. */
  predicate ReplansRight(it: Iteration) {
    it.finished ==> it.replans == if SomeFailed(it.runs) then 1 else 0
  }

  predicate BeforeRunning(g: Stage) {
    g.Idle? || g.Counted? || g.Starting?
  }

  /** The current iteration is stored and holds what the supervisor meant to store so far. */
  predicate Current(task: Task, start: nat, attempt: nat, decision: Decision, runs: seq<CheckStatus>) {
    && 1 <= attempt && start + attempt - 1 == |task.iterations| && task.iterations != []
    && Last(task).decision == decision && Last(task).runs == runs && !Last(task).finished
  }

  /** What is known of a decision and its checks. */
  predicate Sound(decision: Decision, checks: seq<CheckStatus>, attempt: nat, maxIterations: int) {
    && (decision == Done ==> checks != [] && AllPassed(checks))
    && (decision == Continue ==> attempt < maxIterations)
  }

  predicate StageOk(s: State) {
    match s.stage
    case Idle => true
    case Counted(start) => start == |s.task.iterations| + 1
    case Starting(start) => start == |s.task.iterations| + 1
    case Ready(start) => start == |s.task.iterations| + 1
    case UnavailableStored => true
    case Looping(start, attempt) =>
      1 <= attempt <= s.maxIterations && start + attempt == |s.task.iterations| + 2 && s.calls == attempt - 1
    case Returned(start, attempt, agent) =>
      1 <= attempt <= s.maxIterations && start + attempt == |s.task.iterations| + 2 && s.calls == attempt
    case Decided(start, attempt, decision, checks) =>
      && 1 <= attempt <= s.maxIterations && start + attempt == |s.task.iterations| + 2 && s.calls == attempt
      && Sound(decision, checks, attempt, s.maxIterations)
    case Storing(start, attempt, decision, checks, stored) =>
      && attempt <= s.maxIterations && s.calls == attempt
      && stored <= |checks| && Current(s.task, start, attempt, decision, checks[..stored])
      && Last(s.task).replans == 0 && Sound(decision, checks, attempt, s.maxIterations)
    case Recorded(start, attempt, decision, checks) =>
      && attempt <= s.maxIterations && s.calls == attempt
      && Current(s.task, start, attempt, decision, checks)
      && Last(s.task).replans == (if SomeFailed(checks) then 1 else 0)
      && Sound(decision, checks, attempt, s.maxIterations)
    case Closing(start, attempt, decision) =>
      && 1 <= attempt <= s.maxIterations && start + attempt - 1 == |s.task.iterations| && s.calls == attempt
      && (decision == Done ==> Verified(s.task))
      && (decision == Continue ==> attempt < s.maxIterations)
    case Exhausted => s.maxIterations <= 0
  }

  ghost predicate Inv(s: State) {
    && Numbered(s.task)
    && (forall i :: 0 <= i < |s.task.iterations| ==> ReplansRight(s.task.iterations[i]))
    && StageOk(s)
    && (s.task.status == TaskDone ==> BeforeRunning(s.stage) && Verified(s.task))
    && (s.calls == 0 || s.calls <= s.maxIterations)
  }

  lemma JudgeKeepsInv(s: State, m: Move)
    requires Inv(s) && Fits(s, m) && m.Judge?
    ensures Inv(Do(s, m))
  {
    DoneIff(s.stage.agent, m.checks, s.stage.attempt, s.maxIterations);
    ContinueIff(s.stage.agent, m.checks, s.stage.attempt, s.maxIterations);
    hide Decide, SomeFailed;
  }

  predicate StoresIteration(m: Move) {
    m.StoreUnavailable? || m.StoreIteration? || m.StoreRun? || m.RecordReplan? || m.FinishIteration?
  }

  lemma StoreKeepsInv(s: State, m: Move)
    requires Inv(s) && Fits(s, m) && (m.StoreUnavailable? || m.StoreIteration?)
    ensures Inv(Do(s, m))
  {
    hide SomeFailed, AllPassed, Decide;
    var after := Do(s, m).task.iterations;
    assert after[..|after| - 1] == s.task.iterations;
    assert !after[|after| - 1].finished;
  }

  lemma StoreRunKeepsInv(s: State, m: Move)
    requires Inv(s) && Fits(s, m) && m.StoreRun?
    ensures Inv(Do(s, m))
  {
    hide SomeFailed, AllPassed, Decide;
    var checks, k := s.stage.checks, s.stage.stored;
    assert checks[..k] + [checks[k]] == checks[..k + 1];
  }

  lemma RecordKeepsInv(s: State, m: Move)
    requires Inv(s) && Fits(s, m) && (m.RecordReplan? || m.FinishIteration?)
    ensures Inv(Do(s, m))
  {
    hide Decide;
    if m.RecordReplan? {
      assert s.stage.checks[..|s.stage.checks|] == s.stage.checks;
      assert s.stage.decision == Done ==> !SomeFailed(s.stage.checks);
    }
    hide SomeFailed, AllPassed;
  }

  lemma OtherKeepsInv(s: State, m: Move)
    requires Inv(s) && Fits(s, m) && !m.Judge? && !StoresIteration(m)
    ensures Inv(Do(s, m))
  {
    hide Decide, SomeFailed, AllPassed, ReplansRight;
  }

  /** Every step keeps the numbering, the replan rule and the verification gate. */
  lemma DoKeepsInv(s: State, m: Move)
    requires Inv(s) && Fits(s, m)
    ensures Inv(Do(s, m))
  {
    hide *;
    if m.Judge? {
      JudgeKeepsInv(s, m);
    } else if m.StoreUnavailable? || m.StoreIteration? {
      StoreKeepsInv(s, m);
    } else if m.StoreRun? {
      StoreRunKeepsInv(s, m);
    } else if m.RecordReplan? || m.FinishIteration? {
      RecordKeepsInv(s, m);
    } else {
      NotStoring(m);
      OtherKeepsInv(s, m);
    }
  }

  lemma NotStoring(m: Move)
    requires !(m.StoreUnavailable? || m.StoreIteration? || m.StoreRun? || m.RecordReplan? || m.FinishIteration?)
    ensures !StoresIteration(m)
  {
  }

  lemma {:induction false} PlayKeepsInv(s: State, moves: seq<Move>)
    requires Inv(s)
    ensures Inv(Play(s, moves)) && Play(s, moves).maxIterations == s.maxIterations
  {
    hide Inv, Do, CanMove;
    if moves != [] {
      PlayKeepsInv(s, moves[..|moves| - 1]);
      var before, m := Play(s, moves[..|moves| - 1]), moves[|moves| - 1];
      if Fits(before, m) {
        DoKeepsInv(before, m);
        DoKeepsLimit(before, m);
      }
    }
  }

  lemma DoKeepsLimit(s: State, m: Move)
    requires Fits(s, m)
    ensures Do(s, m).maxIterations == s.maxIterations
  {
  }

  /**
   * Done only after verification: in every state the store can be in, whatever cancels, recoveries, crashes and
   * resumes came in between, a task that is done has a last iteration decided done with stored checks that all
   * passed, which is what the report calls verified.
   */
  lemma DoneIsVerified(maxIterations: int, moves: seq<Move>)
    ensures var s := Play(NewTask(maxIterations), moves); s.task.status == TaskDone ==> Verified(s.task)
  {
    PlayKeepsInv(NewTask(maxIterations), moves);
  }

  /** In every such state the iterations are numbered 1 to n and the finished ones have the right replans. */
  lemma IterationsRight(maxIterations: int, moves: seq<Move>, i: nat)
    requires i < |Play(NewTask(maxIterations), moves).task.iterations|
    ensures var it := Play(NewTask(maxIterations), moves).task.iterations[i];
      it.index == i + 1 && ReplansRight(it)
  {
    PlayKeepsInv(NewTask(maxIterations), moves);
  }

  /** The agent is called at most `maxIterations` times a run, and the tail after the loop needs a budget below one. */
  lemma CallsBounded(maxIterations: int, moves: seq<Move>)
    ensures var s := Play(NewTask(maxIterations), moves);
      (s.calls == 0 || s.calls <= maxIterations) && (s.stage.Exhausted? ==> maxIterations <= 0)
  {
    PlayKeepsInv(NewTask(maxIterations), moves);
  }

  /** With a budget below one the tail is where an available agent's run goes. */
  lemma TailReached(maxIterations: int)
    requires maxIterations <= 0
    ensures Play(NewTask(maxIterations), [RunOnce, WriteRunning, StartLoop]).stage.Exhausted?
  {
    var s := NewTask(maxIterations);
    assert [RunOnce, WriteRunning, StartLoop][..2] == [RunOnce, WriteRunning];
    assert [RunOnce, WriteRunning][..1] == [RunOnce];
    assert Play(s, [RunOnce]) == s.(stage := Starting(1));
  }
}
