/** Outside the histories the retry results are about: inputs that lose an approval, or run its call again or never. */
module AskOverlaps {
  import opened Prelude
  import opened Text
  import opened PolicyActions
  import opened ToolCalls
  import opened ActionJournal
  import opened BrokerMachine
  import opened ApprovalRetry

  predicate Holdable(call: ToolCall) {
    ValidCall(call) && !Forbidden(call)
  }

  ghost predicate Step(m: Machine, l: Label, after: Machine) {
    Fits(m, l) && Next(m, l) == after
  }

  lemma TwoSteps(m: Machine, a: Label, n: Machine, b: Label, o: Machine)
    requires Step(m, a, n) && Step(n, b, o)
    ensures Run(m, [a, b]) == o
  {
    hide Fits, Next;
    RunStart(m);
    RunAppend(m, [], a);
    RunAppend(m, [a], b);
    assert [] + [a] == [a] && [a] + [b] == [a, b];
  }

  lemma ThreeSteps(m: Machine, a: Label, n: Machine, b: Label, o: Machine, c: Label, p: Machine)
    requires Step(m, a, n) && Step(n, b, o) && Step(o, c, p)
    ensures Run(m, [a, b, c]) == p
  {
    TwoSteps(m, a, n, b, o);
    hide Fits, Next, Run;
    RunAppend(m, [a, b], c);
    assert [a, b] + [c] == [a, b, c];
  }

  lemma {:induction false} RunJoin(m: Machine, labels: seq<Label>, more: seq<Label>)
    ensures Run(m, labels + more) == Run(Run(m, labels), more)
  {
    hide Fits, Next;
    if more == [] {
      assert labels + more == labels;
    } else {
      RunJoin(m, labels, more[..|more| - 1]);
      assert (labels + more)[..|labels + more| - 1] == labels + more[..|more| - 1];
    }
  }

  // -------------------------------------------------------------- the steps, one by one

  lemma AskCreates(m: Machine, a: nat)
    requires Aligned(m) && a in m.live && m.live[a].Asking? && m.live[a].approval.None?
    ensures var g := m.live[a];
      Step(m, CreateApproval(a), m.(approvals := m.approvals + [AskOf(g.call)],
                                    live := m.live[a := Asking(g.row, g.call, Some(|m.approvals| + 1))]))
  {
    hide Aligned;
  }

  lemma AskCloses(m: Machine, a: nat)
    requires Aligned(m) && a in m.live && m.live[a].Asking? && m.live[a].approval.Some?
    ensures var g := m.live[a];
      Step(m, FinishAsk(a), m.(rows := Complete(m.rows, g.row, NeedsApproval,
                                                StoredResult(Some(NeedsApproval), g.approval)),
                               live := m.live - {a}))
  {
    hide Complete;
  }

  lemma RunExecutes(m: Machine, a: nat, execution: Execution)
    requires Aligned(m) && a in m.live && m.live[a].Granted?
    ensures var g, t := m.live[a], m.tally[m.live[a].row - 1];
      Step(m, Execute(a, execution), m.(live := m.live[a := Executed(g.row, g.call, g.approval, ResultOf(execution))],
                                        tally := m.tally[g.row - 1 := t.(execs := t.execs + 1)]))
  {
    hide ResultOf;
  }

  lemma RunCompletes(m: Machine, a: nat)
    requires Aligned(m) && a in m.live && m.live[a].Executed?
    ensures var g, t := m.live[a], m.tally[m.live[a].row - 1];
      Step(m, CompleteExecuted(a),
           m.(rows := Complete(m.rows, g.row, g.result.status,
                               StoredResult(Some(g.result.status), ReportedApproval(g))),
              live := m.live - {a},
              tally := m.tally[g.row - 1 := t.(completed := t.completed + 1)]))
  {
    hide Complete, ReportedApproval;
  }

  /** A retry whose record is new, let through. */
  lemma RetryInserts(m: Machine, a: nat, c: ToolCall, r: Record)
    requires Aligned(m) && a !in m.live && Holdable(c)
    requires r == StoredRecord(c, ApprovalKey(c.key, 1), Allow, Started, NoResult) && FindRow(m.rows, r.key).None?
    ensures Step(m, BeginApproved(a, c, 1, Allow),
                 m.(rows := m.rows + [r], live := m.live[a := Granted(|m.rows| + 1, c, Some(1))],
                    tally := m.tally + [TallyFor(c, 0, 0)], excuses := m.excuses + Excuses(c)))
  {
    hide Strip, ApprovalKey, ValidCall;
    assert EffectivePolicy(c, Allow) == Allow && r.status == Started;
    hide StoredRecord, EffectivePolicy;
    assert LiveOn(Recorded(m, r, c.tier == Network), |m.rows| + 1) == {};
    hide LiveOn, FindRow, Aligned, Forbidden;
  }

  // --------------------------------------------------------------- a call held back

  /** The record of a held call, naming an approval or not yet. */
  function HeldRow(call: ToolCall, named: Option<nat>): Record {
    StoredRecord(call, call.key, Ask, NeedsApproval, StoredResult(Some(NeedsApproval), named))
  }

  function AskOf(call: ToolCall): Approval {
    Approval(call.task, call.iteration, FromBroker)
  }

  function RetriedRow(call: ToolCall): Record {
    RetryRecord(call, 1, Allow)
  }

  /** The retry's record, completed. */
  function DoneRow(call: ToolCall): Record {
    RetriedRow(call).(status := Succeeded, result := StoredResult(Some(Succeeded), Some(1)))
  }

  function FirstRetry(call: ToolCall): ToolCall {
    TrimCall(call)
  }

  /** What the lookup makes of the first retry's own record. */
  function SecondRetry(call: ToolCall): ToolCall {
    TrimCall(call).(key := ApprovalKey(Strip(call.key), 1))
  }

  /** Retries of network-tier calls are excused from the unsafe count. */
  function Excuses(call: ToolCall): nat {
    if call.tier == Network then 1 else 0
  }

  function TallyFor(call: ToolCall, execs: nat, completed: nat): Tally {
    Tally(1, execs, completed, 0, 0, call.tier == Network)
  }

  /** What is known of the keys and calls involved. */
  ghost predicate KeysApart(call: ToolCall) {
    var k := Strip(call.key);
    && Strip(ApprovalKey(k, 1)) == ApprovalKey(k, 1)
    && Strip(ApprovalKey(ApprovalKey(k, 1), 1)) == ApprovalKey(ApprovalKey(k, 1), 1)
    && k != ApprovalKey(k, 1) && k != ApprovalKey(ApprovalKey(k, 1), 1)
    && ApprovalKey(k, 1) != ApprovalKey(ApprovalKey(k, 1), 1)
    && Holdable(FirstRetry(call)) && Holdable(SecondRetry(call))
    && Strip(Strip(call.key)) == k
    && Strip(Strip(ResolvedActionType(call))) == Strip(ResolvedActionType(call))
  }

  lemma HeldKeys(call: ToolCall)
    requires Holdable(call)
    ensures KeysApart(call)
  {
    var k := Strip(call.key);
    StripTrims(call.key);
    TrimIsFixed(k);
    LongerKeys(k);
    HoldableAgain(call);
    hide Forbidden, ValidCall, ApprovalKey, Strip, ResolvedActionType;
  }

  lemma LongerKeys(k: string)
    requires Trim(k)
    ensures var k1, k2 := ApprovalKey(k, 1), ApprovalKey(ApprovalKey(k, 1), 1);
      k != k1 && k != k2 && k1 != k2 && Strip(k1) == k1 && Strip(k2) == k2
  {
    ApprovalKeyTrim(k, 1);
    TrimIsFixed(ApprovalKey(k, 1));
    ApprovalKeyTrim(ApprovalKey(k, 1), 1);
    TrimIsFixed(ApprovalKey(ApprovalKey(k, 1), 1));
    hide Strip;
    assert |ApprovalKey(ApprovalKey(k, 1), 1)| > |ApprovalKey(k, 1)| > |k|;
  }

  lemma HoldableAgain(call: ToolCall)
    requires Holdable(call)
    ensures Holdable(FirstRetry(call)) && Holdable(SecondRetry(call))
    ensures Strip(Strip(ResolvedActionType(call))) == Strip(ResolvedActionType(call))
  {
    var named := ResolvedActionType(call);
    assert !Blank(named);
    StripTrims(call.key);
    StripTrims(named);
    TrimIsFixed(Strip(named));
    StillShown(Strip(call.key));
    StillShown(Strip(named));
    ApprovalKeyTrim(Strip(call.key), 1);
    StillShown(ApprovalKey(Strip(call.key), 1));
    RebuildSameClass(call, Ask, NeedsApproval, NoResult);
    RebuildSameCall(call, Ask, NeedsApproval, NoResult);
    SameClass(FirstRetry(call), SecondRetry(call));
    hide Classify, Strip, Blank, ApprovalKey, ResolvedActionType;
  }

  lemma StillShown(s: string)
    requires Trim(s)
    ensures !Blank(s)
  {
    NotBlank(s, 0);
  }

  lemma SameClass(c: ToolCall, d: ToolCall)
    requires d == c.(key := d.key)
    ensures Forbidden(c) == Forbidden(d)
  {
    assert LooksSecret(c) == LooksSecret(d);
    hide LooksSecret;
  }

  // ------------------------------------------------------------------ two asks at once

  function BothAsking(call: ToolCall, first: Option<nat>): Machine {
    Machine([HeldRow(call, None)], if first.None? then [] else [AskOf(call)],
            map[0 := Asking(1, call, first), 1 := Asking(1, call, None)], [ZeroTally], 0)
  }

  function OneAsking(call: ToolCall): Machine {
    Machine([HeldRow(call, Some(1))], [AskOf(call)], map[1 := Asking(1, call, None)], [ZeroTally], 0)
  }

  lemma FirstAsks(call: ToolCall)
    requires Holdable(call)
    ensures var m := Machine([HeldRow(call, None)], [], map[0 := Asking(1, call, None)], [ZeroTally], 0);
      && Step(InitialMachine, BeginRun(0, call, Ask), m) && Step(m, BeginRun(1, call, Ask), BothAsking(call, None))
  {
    var m := Machine([HeldRow(call, None)], [], map[0 := Asking(1, call, None)], [ZeroTally], 0);
    HeldIsHeld(call, None);
    hide Strip, ValidCall, Forbidden, HeldRow, StoredRecord, Rebuild;
    assert FindRow(m.rows, Strip(call.key)) == Some(1);
    AsksOnKnown(m, 1, call, 1);
    FirstAsk(call);
  }

  lemma FirstAsk(call: ToolCall)
    requires Holdable(call)
    ensures Step(InitialMachine, BeginRun(0, call, Ask),
                 Machine([HeldRow(call, None)], [], map[0 := Asking(1, call, None)], [ZeroTally], 0))
  {
    hide Strip, ValidCall, Forbidden;
  }

  lemma FirstCarries(call: ToolCall)
    ensures Step(BothAsking(call, None), CreateApproval(0), BothAsking(call, Some(1)))
  {
    hide HeldRow, Step;
    AskCreates(BothAsking(call, None), 0);
    assert BothAsking(call, None).approvals + [AskOf(call)] == [AskOf(call)];
    assert BothAsking(call, None).live[0 := Asking(1, call, Some(1))] == BothAsking(call, Some(1)).live;
  }

  lemma FirstFinishes(call: ToolCall)
    ensures Step(BothAsking(call, Some(1)), FinishAsk(0), OneAsking(call))
  {
    HeldIsHeld(call, Some(1));
    HeldIsHeld(call, None);
    hide Strip, StoredRecord, HeldRow, Step, Rebuild;
    AskCloses(BothAsking(call, Some(1)), 0);
    assert BothAsking(call, Some(1)).live - {0} == OneAsking(call).live;
  }

  lemma HeldIsHeld(call: ToolCall, named: Option<nat>)
    ensures HeldRow(call, named) == HeldRow(call, None).(result := StoredResult(Some(NeedsApproval), named))
    ensures HeldRow(call, named).lease == NoLease && HeldRow(call, named).status == NeedsApproval
    ensures HeldRow(call, named).key == Strip(call.key)
    ensures HeldRow(call, named).task == call.task && HeldRow(call, named).iteration == call.iteration
    ensures HeldRow(call, named).result == StoredResult(Some(NeedsApproval), named)
    ensures Rebuild(HeldRow(call, named)) == FirstRetry(call)
  {
    hide Strip, Classify;
  }

  /** Two asks overlap; the first is finished. */
  function TwoAsks(call: ToolCall): seq<Label> {
    [BeginRun(0, call, Ask), BeginRun(1, call, Ask)] + [CreateApproval(0), FinishAsk(0)]
  }

  lemma AsksOverlapped(call: ToolCall)
    requires Holdable(call)
    ensures Run(InitialMachine, TwoAsks(call)) == OneAsking(call)
    ensures RetriedCall(OneAsking(call).rows, AskOf(call), 1) == Some(FirstRetry(call))
  {
    FirstAsks(call);
    FirstCarries(call);
    FirstFinishes(call);
    HeldIsHeld(call, Some(1));
    hide Step, HeldRow, Strip, Rebuild, TrimCall, Forbidden, ValidCall;
    TwoSteps(InitialMachine, BeginRun(0, call, Ask),
             Machine([HeldRow(call, None)], [], map[0 := Asking(1, call, None)], [ZeroTally], 0),
             BeginRun(1, call, Ask), BothAsking(call, None));
    TwoSteps(BothAsking(call, None), CreateApproval(0), BothAsking(call, Some(1)), FinishAsk(0), OneAsking(call));
    hide Run;
    RunJoin(InitialMachine, [BeginRun(0, call, Ask), BeginRun(1, call, Ask)], [CreateApproval(0), FinishAsk(0)]);
  }

  // ---------------------------------------------------------------- the approval retried

  /** The retry of approval 1 under way, then done, then overwritten by the second ask. */
  function Retrying(call: ToolCall, g: Stage, execs: nat): Machine {
    Machine([HeldRow(call, Some(1)), RetriedRow(FirstRetry(call))], [AskOf(call)],
            map[1 := Asking(1, call, None), 2 := g], [ZeroTally, TallyFor(call, execs, 0)], Excuses(call))
  }

  function RetryGranted(call: ToolCall): Machine {
    Retrying(call, Granted(2, FirstRetry(call), Some(1)), 0)
  }

  function RetryExecuted(call: ToolCall): Machine {
    Retrying(call, Executed(2, FirstRetry(call), Some(1), ToolResult(Succeeded, None)), 1)
  }

  function RetryDone(call: ToolCall): Machine {
    Machine([HeldRow(call, Some(1)), DoneRow(FirstRetry(call))], [AskOf(call)],
            map[1 := Asking(1, call, None)], [ZeroTally, TallyFor(call, 1, 1)], Excuses(call))
  }

  lemma RetriedRowIs(call: ToolCall)
    requires KeysApart(call)
    ensures var r := RetriedRow(FirstRetry(call));
      && r.key == ApprovalKey(Strip(call.key), 1) && r.status == Started && r.lease == NoLease && r.result == NoResult
      && r.task == call.task && r.iteration == call.iteration
      && Rebuild(r) == SecondRetry(call)
      && r == StoredRecord(FirstRetry(call), ApprovalKey(FirstRetry(call).key, 1), Allow, Started, NoResult)
  {
    hide Strip, Classify, ApprovalKey, ValidCall;
    assert EffectivePolicy(FirstRetry(call), Allow) == Allow;
  }

  lemma RetryBegun(call: ToolCall)
    requires KeysApart(call)
    ensures Step(OneAsking(call), BeginApproved(2, FirstRetry(call), 1, Allow), RetryGranted(call))
  {
    RetriedRowIs(call);
    HeldIsHeld(call, Some(1));
    var m, c := OneAsking(call), FirstRetry(call);
    hide Strip, ApprovalKey, Holdable, StoredRecord, RetriedRow, HeldRow, Step, Rebuild, ResolvedActionType;
    RetryInserts(m, 2, c, RetriedRow(c));
    assert TallyFor(c, 0, 0) == TallyFor(call, 0, 0);
    assert m.rows + [RetriedRow(c)] == RetryGranted(call).rows;
  }

  lemma RetryFinished(call: ToolCall)
    requires KeysApart(call)
    ensures Step(RetryGranted(call), Execute(2, Output(None)), RetryExecuted(call))
    ensures Step(RetryExecuted(call), CompleteExecuted(2), RetryDone(call))
  {
    RetriedRowIs(call);
    hide Strip, ApprovalKey, RetriedRow, HeldRow, TrimCall, KeysApart, Step, FirstRetry, Rebuild;
    RunExecutes(RetryGranted(call), 2, Output(None));
    RunCompletes(RetryExecuted(call), 2);
    assert RetryExecuted(call).live - {2} == RetryDone(call).live;
  }

  function OneRetry(call: ToolCall): seq<Label> {
    [BeginApproved(2, FirstRetry(call), 1, Allow), Execute(2, Output(None)), CompleteExecuted(2)]
  }

  lemma RetryRan(call: ToolCall)
    requires KeysApart(call)
    ensures Run(OneAsking(call), OneRetry(call)) == RetryDone(call)
  {
    RetryBegun(call);
    RetryFinished(call);
    hide *;
    ThreeSteps(OneAsking(call), BeginApproved(2, FirstRetry(call), 1, Allow), RetryGranted(call),
               Execute(2, Output(None)), RetryExecuted(call), CompleteExecuted(2), RetryDone(call));
    OneRetryIs(call);
  }

  lemma OneRetryIs(call: ToolCall)
    ensures OneRetry(call) ==
            [BeginApproved(2, FirstRetry(call), 1, Allow), Execute(2, Output(None)), CompleteExecuted(2)]
  {
  }

  // --------------------------------------------------------------- the second ask's end

  function SecondCarries(call: ToolCall): Machine {
    RetryDone(call).(approvals := [AskOf(call), AskOf(call)], live := map[1 := Asking(1, call, Some(2))])
  }

  function Overwritten(call: ToolCall): Machine {
    Machine([HeldRow(call, Some(2)), DoneRow(FirstRetry(call))], [AskOf(call), AskOf(call)], map[],
            [ZeroTally, TallyFor(call, 1, 1)], Excuses(call))
  }

  lemma SecondFinishes(call: ToolCall)
    ensures Run(RetryDone(call), [CreateApproval(1), FinishAsk(1)]) == Overwritten(call)
  {
    HeldIsHeld(call, Some(1));
    HeldIsHeld(call, Some(2));
    hide Strip, HeldRow, DoneRow, TrimCall, Run, Step, FirstRetry, Rebuild;
    AskCreates(RetryDone(call), 1);
    AskCloses(SecondCarries(call), 1);
    assert RetryDone(call).live[1 := Asking(1, call, Some(2))] == SecondCarries(call).live;
    assert SecondCarries(call).live - {1} == map[];
    TwoSteps(RetryDone(call), CreateApproval(1), SecondCarries(call), FinishAsk(1), Overwritten(call));
  }

  // ----------------------------------------------------------------- the retry retried

  function Again(call: ToolCall, g: Stage, execs: nat): Machine {
    Machine(Overwritten(call).rows + [RetriedRow(SecondRetry(call))], [AskOf(call), AskOf(call)], map[3 := g],
            [ZeroTally, TallyFor(call, 1, 1), TallyFor(call, execs, 0)], 2 * Excuses(call))
  }

  lemma LookupMisled(call: ToolCall)
    requires KeysApart(call)
    ensures FindFrom(Overwritten(call).rows, AskOf(call), 1, 0) == Some(2)
    ensures RetriedCall(Overwritten(call).rows, AskOf(call), 1) == Some(SecondRetry(call))
  {
    RetriedRowIs(call);
    HeldIsHeld(call, Some(2));
    hide Strip, ApprovalKey, HeldRow, RetriedRow, TrimCall, KeysApart;
    var rows := Overwritten(call).rows;
    assert FindFrom(rows, AskOf(call), 1, 1) == Some(2);
    assert Rebuild(rows[1]) == Rebuild(RetriedRow(FirstRetry(call)));
  }

  lemma SecondRowIs(call: ToolCall)
    requires KeysApart(call)
    ensures var r := RetriedRow(SecondRetry(call));
      && r.key == ApprovalKey(ApprovalKey(Strip(call.key), 1), 1) && r.status == Started && r.lease == NoLease
      && r == StoredRecord(SecondRetry(call), ApprovalKey(SecondRetry(call).key, 1), Allow, Started, NoResult)
  {
    hide Strip, Classify, ApprovalKey, ValidCall;
    assert EffectivePolicy(SecondRetry(call), Allow) == Allow;
  }

  lemma AgainBegun(call: ToolCall)
    requires KeysApart(call)
    ensures Step(Overwritten(call), BeginApproved(3, SecondRetry(call), 1, Allow),
                 Again(call, Granted(3, SecondRetry(call), Some(1)), 0))
  {
    RetriedRowIs(call);
    SecondRowIs(call);
    HeldIsHeld(call, Some(2));
    var m, c := Overwritten(call), SecondRetry(call);
    hide Strip, ApprovalKey, Holdable, StoredRecord, RetriedRow, HeldRow, Step, Rebuild, ResolvedActionType;
    RetryInserts(m, 3, c, RetriedRow(c));
    assert TallyFor(c, 0, 0) == TallyFor(call, 0, 0);
  }

  lemma AgainExecuted(call: ToolCall)
    ensures Step(Again(call, Granted(3, SecondRetry(call), Some(1)), 0), Execute(3, Output(None)),
                 Again(call, Executed(3, SecondRetry(call), Some(1), ToolResult(Succeeded, None)), 1))
  {
    hide Strip, ApprovalKey, HeldRow, RetriedRow, TrimCall, SecondRetry, FirstRetry, Step;
    var m := Again(call, Granted(3, SecondRetry(call), Some(1)), 0);
    RunExecutes(m, 3, Output(None));
    assert m.tally[2 := TallyFor(call, 1, 0)] == [ZeroTally, TallyFor(call, 1, 1), TallyFor(call, 1, 0)];
    assert m.live[3 := Executed(3, SecondRetry(call), Some(1), ToolResult(Succeeded, None))]
        == map[3 := Executed(3, SecondRetry(call), Some(1), ToolResult(Succeeded, None))];
  }

  lemma AgainRan(call: ToolCall)
    requires KeysApart(call)
    ensures Run(Overwritten(call), [BeginApproved(3, SecondRetry(call), 1, Allow), Execute(3, Output(None))])
         == Again(call, Executed(3, SecondRetry(call), Some(1), ToolResult(Succeeded, None)), 1)
  {
    AgainBegun(call);
    AgainExecuted(call);
    hide *;
    TwoSteps(Overwritten(call), BeginApproved(3, SecondRetry(call), 1, Allow),
             Again(call, Granted(3, SecondRetry(call), Some(1)), 0), Execute(3, Output(None)),
             Again(call, Executed(3, SecondRetry(call), Some(1), ToolResult(Succeeded, None)), 1));
  }

  /** Two asks of one call overlap; the first approval is retried between their ends, and once more after them. */
  function AsksMisled(call: ToolCall): seq<Label> {
    TwoAsks(call) + OneRetry(call) + [CreateApproval(1), FinishAsk(1)]
  }

  function RetryAgain(call: ToolCall): seq<Label> {
    [BeginApproved(3, SecondRetry(call), 1, Allow), Execute(3, Output(None))]
  }

  /**
   * The failing input, for any call that can be held: when two asks overlap on a key, the second's last write takes
   * the record from the first approval. The lookup then answers with the retry's own record, so the next retry runs
   * under a new key and calls the executor for the approval a second time, though no retry was abandoned or overlapped.
   */
  lemma OverlappingAsksRunTwice(call: ToolCall)
    requires Holdable(call)
    ensures var m := Run(InitialMachine, AsksMisled(call));
      && m.approvals == [AskOf(call), AskOf(call)] && |m.rows| == 2
      && m.rows[0].result.approvalId == Some(2)
      && FindFrom(m.rows, m.approvals[0], 1, 0) == Some(2) && m.rows[1].key == ApprovalKey(Strip(call.key), 1)
      && RetriedCall(m.rows, m.approvals[0], 1) == Some(SecondRetry(call))
    ensures var m := Run(InitialMachine, AsksMisled(call) + RetryAgain(call));
      && |m.rows| == 3 && m.rows[2].key == ApprovalKey(ApprovalKey(Strip(call.key), 1), 1)
      && m.tally == [ZeroTally, TallyFor(call, 1, 1), TallyFor(call, 1, 0)]
  {
    HeldKeys(call);
    AsksOverlapped(call);
    RetryRan(call);
    SecondFinishes(call);
    LookupMisled(call);
    AgainRan(call);
    RunJoin(InitialMachine, TwoAsks(call), OneRetry(call));
    RunJoin(InitialMachine, TwoAsks(call) + OneRetry(call), [CreateApproval(1), FinishAsk(1)]);
    RunJoin(InitialMachine, AsksMisled(call), RetryAgain(call));
    RetriedRowIs(call);
    SecondRowIs(call);
    HeldIsHeld(call, Some(2));
    hide Run, KeysApart, Strip, ApprovalKey, HeldRow, RetriedRow, TrimCall, SecondRetry, TwoAsks, OneRetry;
    hide Holdable, FindFrom, RetriedCall;
  }

  // --------------------------------------------------------------- a run beside an ask

  /** On one record, `a` is about to execute while `b` asks. */
  ghost predicate RunBesideAsk(m: Machine, a: nat, b: nat) {
    && Aligned(m) && a in m.live && b in m.live
    && m.live[a].Granted? && m.live[a].approval.None? && m.live[b].Asking? && m.live[b].approval.None?
    && m.live[a].row == m.live[b].row
  }

  /** The ask is finished, then the run. */
  function AskThenRun(a: nat, b: nat): seq<Label> {
    [CreateApproval(b), FinishAsk(b)] + [Execute(a, Output(None)), CompleteExecuted(a)]
  }

  lemma AskEnds(m: Machine, a: nat, b: nat) returns (after: Machine)
    requires RunBesideAsk(m, a, b)
    ensures after == Run(m, [CreateApproval(b), FinishAsk(b)])
    ensures Aligned(after) && a in after.live && after.live[a] == m.live[a] && |after.rows| == |m.rows|
    ensures after.approvals == m.approvals + [AskOf(m.live[b].call)]
    ensures forall i :: 0 <= i < |m.rows| && i != m.live[a].row - 1 ==> after.rows[i] == m.rows[i]
  {
    AskCreates(m, b);
    var asked := m.(approvals := m.approvals + [AskOf(m.live[b].call)],
                    live := m.live[b := Asking(m.live[b].row, m.live[b].call, Some(|m.approvals| + 1))]);
    hide Step, Run;
    AskCloses(asked, b);
    var g := asked.live[b];
    after := asked.(rows := Complete(asked.rows, g.row, NeedsApproval, StoredResult(Some(NeedsApproval), g.approval)),
                    live := asked.live - {b});
    TwoSteps(m, CreateApproval(b), asked, FinishAsk(b), after);
  }

  lemma RunEnds(m: Machine, a: nat) returns (after: Machine)
    requires Aligned(m) && a in m.live && m.live[a].Granted? && m.live[a].approval.None?
    ensures after == Run(m, [Execute(a, Output(None)), CompleteExecuted(a)])
    ensures |after.rows| == |m.rows| && after.approvals == m.approvals
    ensures after.rows[m.live[a].row - 1].result.approvalId == None
    ensures forall i :: 0 <= i < |m.rows| && i != m.live[a].row - 1 ==> after.rows[i] == m.rows[i]
  {
    RunExecutes(m, a, Output(None));
    var g, t := m.live[a], m.tally[m.live[a].row - 1];
    var ran := m.(live := m.live[a := Executed(g.row, g.call, g.approval, ResultOf(Output(None)))],
                  tally := m.tally[g.row - 1 := t.(execs := t.execs + 1)]);
    hide Step, Run;
    RunCompletes(ran, a);
    var h, u := ran.live[a], ran.tally[ran.live[a].row - 1];
    after := ran.(rows := Complete(ran.rows, h.row, h.result.status,
                                   StoredResult(Some(h.result.status), ReportedApproval(h))),
                  live := ran.live - {a},
                  tally := ran.tally[h.row - 1 := u.(completed := u.completed + 1)]);
    TwoSteps(m, Execute(a, Output(None)), ran, CompleteExecuted(a), after);
  }

  /** The run's last write takes the record from the approval just asked for: no record names it any more. */
  lemma RunErasesAsk(m: Machine, a: nat, b: nat)
    requires RunBesideAsk(m, a, b)
    requires forall i :: 0 <= i < |m.rows| ==> m.rows[i].result.approvalId != Some(|m.approvals| + 1)
    ensures var after, call := Run(m, AskThenRun(a, b)), m.live[b].call;
      && after.approvals == m.approvals + [AskOf(call)]
      && FindFrom(after.rows, AskOf(call), |m.approvals| + 1, 0) == None
  {
    hide Run, Matches, Aligned;
    RunIsOn(m, a, b);
    var asked := AskEnds(m, a, b);
    var after := RunEnds(asked, a);
    RunJoin(m, [CreateApproval(b), FinishAsk(b)], [Execute(a, Output(None)), CompleteExecuted(a)]);
    forall i | 0 <= i < |after.rows| ensures after.rows[i].result.approvalId != Some(|m.approvals| + 1) {
      if i != m.live[a].row - 1 {
        assert after.rows[i] == m.rows[i];
      }
    }
  }

  lemma RunIsOn(m: Machine, a: nat, b: nat)
    requires RunBesideAsk(m, a, b)
    ensures HasRow(m.rows, m.live[a].row)
  {
  }

  /** A read-tier call runs and asks at once, whichever begins first: a crashed run leaves its record started. */
  function RunFirst(call: ToolCall): seq<Label> {
    [BeginRun(0, call, Allow), BeginRun(1, call, Ask)]
  }

  function AskFirst(call: ToolCall): seq<Label> {
    [BeginRun(2, call, Allow), Crash(2)] + [BeginRun(1, call, Ask), BeginRun(0, call, Allow)]
  }

  function RunRow(call: ToolCall): Record {
    StoredRecord(call, call.key, Allow, Started, NoResult)
  }

  lemma BeginsOnNew(call: ToolCall, a: nat)
    requires Holdable(call) && call.tier == Read
    ensures Step(InitialMachine, BeginRun(a, call, Allow),
                 Machine([RunRow(call)], [], map[a := Granted(1, call, None)], [ZeroTally.(begun := 1)], 0))
  {
    RunningFits(InitialMachine, a, call);
    hide Holdable, StoredRecord, Strip, Next, Fits, Enabled, Aligned;
    RunStep(InitialMachine, a, call, Allow);
    assert RunRecord(call, Allow) == RunRow(call) && RunRow(call).status == Started;
    assert LiveOn(Recorded(InitialMachine, RunRow(call), false), 1) == {};
    hide FindRow, RunRecord, RunRow, LiveOn;
  }

  lemma RunningFits(m: Machine, a: nat, call: ToolCall)
    requires Aligned(m) && Holdable(call) && call.tier == Read && a !in m.live
    ensures Fits(m, BeginRun(a, call, Allow)) && Enabled(m, BeginRun(a, call, Allow))
    ensures EffectivePolicy(call, Allow) == Allow && BlockedStatus(call, Allow) == None
  {
    hide Forbidden, ValidCall, Aligned;
  }

  lemma CrashesAlone(call: ToolCall, a: nat)
    ensures Step(Machine([RunRow(call)], [], map[a := Granted(1, call, None)], [ZeroTally.(begun := 1)], 0), Crash(a),
                 Machine([RunRow(call)], [], map[], [ZeroTally.(begun := 1, abandoned := 1)], 0))
  {
    hide RunRow;
  }

  lemma AsksOnStarted(m: Machine, call: ToolCall)
    requires Aligned(m) && Holdable(call) && m.rows == [RunRow(call)] && 1 !in m.live
    ensures Step(m, BeginRun(1, call, Ask), m.(live := m.live[1 := Asking(1, call, None)]))
  {
    hide Strip, ValidCall, Forbidden;
    assert FindRow(m.rows, Strip(call.key)) == Some(1);
    AsksOnKnown(m, 1, call, 1);
    assert RunRow(call).result == NoResult;
    hide Aligned, Next, Fits, StoredRecord;
  }

  lemma RunsOnStarted(m: Machine, call: ToolCall)
    requires Aligned(m) && Holdable(call) && call.tier == Read && m.rows == [RunRow(call)] && 0 !in m.live
    requires LiveOn(m, 1) == {}
    ensures Step(m, BeginRun(0, call, Allow),
                 m.(live := m.live[0 := Granted(1, call, None)], tally := [m.tally[0].(begun := m.tally[0].begun + 1)]))
  {
    hide Strip, ValidCall, Forbidden;
    assert FindRow(m.rows, Strip(call.key)) == Some(1);
    hide Aligned, LiveOn;
  }

  /** Both orders are reached, so both lose the approval. */
  lemma RunsBesideAsks(call: ToolCall)
    requires Holdable(call) && call.tier == Read
    ensures RunBesideAsk(Run(InitialMachine, RunFirst(call)), 0, 1)
    ensures RunBesideAsk(Run(InitialMachine, AskFirst(call)), 0, 1)
    ensures var m := Run(InitialMachine, RunFirst(call) + AskThenRun(0, 1));
      m.approvals == [AskOf(call)] && FindFrom(m.rows, AskOf(call), 1, 0) == None
    ensures var m := Run(InitialMachine, AskFirst(call) + AskThenRun(0, 1));
      m.approvals == [AskOf(call)] && FindFrom(m.rows, AskOf(call), 1, 0) == None
  {
    hide Run, AskThenRun, RunBesideAsk, FindFrom, RunRow, RunFirst, AskFirst, Holdable;
    RunThenAsk(call);
    AskThenBegins(call);
    RunErasesAsk(Run(InitialMachine, RunFirst(call)), 0, 1);
    RunErasesAsk(Run(InitialMachine, AskFirst(call)), 0, 1);
    RunJoin(InitialMachine, RunFirst(call), AskThenRun(0, 1));
    RunJoin(InitialMachine, AskFirst(call), AskThenRun(0, 1));
  }

  /** The run and the ask side by side on an unnamed record, nothing approved yet. */
  ghost predicate SideBySide(m: Machine, call: ToolCall) {
    && RunBesideAsk(m, 0, 1) && m.live[1].call == call && m.approvals == []
    && m.rows == [RunRow(call)] && RunRow(call).result == NoResult
  }

  function BothBegun(call: ToolCall, tally: Tally): Machine {
    Machine([RunRow(call)], [], map[0 := Granted(1, call, None), 1 := Asking(1, call, None)], [tally], 0)
  }

  lemma BothBegunIs(call: ToolCall, tally: Tally)
    ensures SideBySide(BothBegun(call, tally), call)
  {
    hide Strip, Classify;
  }

  lemma RunThenAsk(call: ToolCall)
    requires Holdable(call) && call.tier == Read
    ensures SideBySide(Run(InitialMachine, RunFirst(call)), call)
  {
    hide Step, Run, Holdable, Strip, RunRow, RunBesideAsk;
    BeginsOnNew(call, 0);
    var m := Machine([RunRow(call)], [], map[0 := Granted(1, call, None)], [ZeroTally.(begun := 1)], 0);
    AsksOnStarted(m, call);
    assert m.live[1 := Asking(1, call, None)] == BothBegun(call, ZeroTally.(begun := 1)).live;
    TwoSteps(InitialMachine, BeginRun(0, call, Allow), m,
             BeginRun(1, call, Ask), BothBegun(call, ZeroTally.(begun := 1)));
    BothBegunIs(call, ZeroTally.(begun := 1));
  }

  function LeftStarted(call: ToolCall): Machine {
    Machine([RunRow(call)], [], map[], [ZeroTally.(begun := 1, abandoned := 1)], 0)
  }

  lemma AskThenBegins(call: ToolCall)
    requires Holdable(call) && call.tier == Read
    ensures SideBySide(Run(InitialMachine, AskFirst(call)), call)
  {
    hide Step, Run, Holdable, RunRow, RunBesideAsk;
    var end := BothBegun(call, ZeroTally.(begun := 2, abandoned := 1));
    BothBegunIs(call, ZeroTally.(begun := 2, abandoned := 1));
    BeginsOnNew(call, 2);
    CrashesAlone(call, 2);
    var m := Machine([RunRow(call)], [], map[2 := Granted(1, call, None)], [ZeroTally.(begun := 1)], 0);
    TwoSteps(InitialMachine, BeginRun(2, call, Allow), m, Crash(2), LeftStarted(call));
    BothOnLeft(call, end);
    hide SideBySide;
    RunJoin(InitialMachine, [BeginRun(2, call, Allow), Crash(2)], [BeginRun(1, call, Ask), BeginRun(0, call, Allow)]);
  }

  lemma BothOnLeft(call: ToolCall, end: Machine)
    requires Holdable(call) && call.tier == Read && end == BothBegun(call, ZeroTally.(begun := 2, abandoned := 1))
    ensures Run(LeftStarted(call), [BeginRun(1, call, Ask), BeginRun(0, call, Allow)]) == end
  {
    hide Step, Run, Holdable, RunRow;
    var asking := LeftStarted(call).(live := map[1 := Asking(1, call, None)]);
    AsksOnStarted(LeftStarted(call), call);
    assert LiveOn(asking, 1) == {};
    RunsOnStarted(asking, call);
    hide LiveOn;
    assert asking.live[0 := Granted(1, call, None)] == end.live;
    TwoSteps(LeftStarted(call), BeginRun(1, call, Ask), asking, BeginRun(0, call, Allow), end);
  }

  // ------------------------------------------------- another call, then the one held

  function OtherDone(other: ToolCall, reported: Option<nat>): Record {
    RunRow(other).(status := Succeeded, result := StoredResult(Some(Succeeded), reported))
  }

  /** Another read-tier call is run to its end and reports an approval id or none; then the call is held. */
  function OtherThenHeld(other: ToolCall, reported: Option<nat>, call: ToolCall): seq<Label> {
    [BeginRun(0, other, Allow), Execute(0, Output(reported)), CompleteExecuted(0)] +
    [BeginRun(1, call, Ask), CreateApproval(1), FinishAsk(1)]
  }

  const DoneTally := ZeroTally.(begun := 1, execs := 1, completed := 1)

  function AfterOther(other: ToolCall, reported: Option<nat>): Machine {
    Machine([OtherDone(other, reported)], [], map[], [DoneTally], 0)
  }

  function AfterHeldToo(other: ToolCall, reported: Option<nat>, call: ToolCall): Machine {
    Machine([OtherDone(other, reported), HeldRow(call, Some(1))], [AskOf(call)], map[], [DoneTally, ZeroTally], 0)
  }

  function OtherRan(other: ToolCall, reported: Option<nat>): Machine {
    Machine([RunRow(other)], [], map[0 := Executed(1, other, None, ToolResult(Succeeded, reported))],
            [ZeroTally.(begun := 1, execs := 1)], 0)
  }

  lemma OtherCompletes(other: ToolCall, reported: Option<nat>)
    ensures Step(OtherRan(other, reported), CompleteExecuted(0), AfterOther(other, reported))
  {
    RunRowIs(other);
    hide Step, RunRow, Strip, Rebuild;
    RunCompletes(OtherRan(other, reported), 0);
    var m := OtherRan(other, reported);
    assert Complete(m.rows, 1, Succeeded, StoredResult(Some(Succeeded), reported)) == AfterOther(other, reported).rows;
    assert m.tally[0 := DoneTally] == [DoneTally];
    assert OtherRan(other, reported).live - {0} == map[];
  }

  lemma OtherRuns(other: ToolCall, reported: Option<nat>)
    requires Holdable(other) && other.tier == Read
    ensures Run(InitialMachine, [BeginRun(0, other, Allow), Execute(0, Output(reported)), CompleteExecuted(0)])
         == AfterOther(other, reported)
  {
    hide Step, Run, Holdable, RunRow, AfterOther;
    BeginsOnNew(other, 0);
    var begun := Machine([RunRow(other)], [], map[0 := Granted(1, other, None)], [ZeroTally.(begun := 1)], 0);
    RunExecutes(begun, 0, Output(reported));
    assert begun.tally[0 := ZeroTally.(begun := 1, execs := 1)] == OtherRan(other, reported).tally;
    assert begun.live[0 := Executed(1, other, None, ToolResult(Succeeded, reported))] == OtherRan(other, reported).live;
    OtherCompletes(other, reported);
    ThreeSteps(InitialMachine, BeginRun(0, other, Allow), begun, Execute(0, Output(reported)),
               OtherRan(other, reported), CompleteExecuted(0), AfterOther(other, reported));
  }

  lemma RunRowIs(call: ToolCall)
    ensures var r := RunRow(call);
      && r.lease == NoLease && r.key == Strip(call.key) && r.status == Started
      && r.task == call.task && r.iteration == call.iteration && Rebuild(r) == TrimCall(call)
  {
    hide Strip, Classify;
  }

  lemma HeldOnNew(m: Machine, call: ToolCall)
    requires Aligned(m) && Holdable(call) && 1 !in m.live && FindRow(m.rows, Strip(call.key)).None?
    ensures Step(m, BeginRun(1, call, Ask),
                 m.(rows := m.rows + [HeldRow(call, None)], live := m.live[1 := Asking(|m.rows| + 1, call, None)],
                    tally := m.tally + [ZeroTally]))
  {
    AskingFits(m, 1, call);
    HeldIsHeld(call, None);
    hide Holdable, StoredRecord, Strip, Next, Fits, Enabled, Aligned, Rebuild;
    RunStep(m, 1, call, Ask);
    assert RunRecord(call, Ask) == HeldRow(call, None);
    hide FindRow, RunRecord, HeldRow;
  }

  function AskingToo(other: ToolCall, reported: Option<nat>, call: ToolCall, named: Option<nat>): Machine {
    Machine([OtherDone(other, reported), HeldRow(call, None)], if named.None? then [] else [AskOf(call)],
            map[1 := Asking(2, call, named)], [DoneTally, ZeroTally], 0)
  }

  lemma HeldBegins(other: ToolCall, reported: Option<nat>, call: ToolCall)
    requires Holdable(call) && Strip(other.key) != Strip(call.key)
    ensures Step(AfterOther(other, reported), BeginRun(1, call, Ask), AskingToo(other, reported, call, None))
  {
    RunRowIs(other);
    hide Step, Holdable, RunRow, HeldRow, Strip, Rebuild;
    HeldOnNew(AfterOther(other, reported), call);
    assert [OtherDone(other, reported)] + [HeldRow(call, None)] == AskingToo(other, reported, call, None).rows;
    assert [DoneTally] + [ZeroTally] == AskingToo(other, reported, call, None).tally;
    assert AfterOther(other, reported).live[1 := Asking(2, call, None)] == map[1 := Asking(2, call, None)];
  }

  lemma HeldCarries(other: ToolCall, reported: Option<nat>, call: ToolCall)
    ensures Step(AskingToo(other, reported, call, None), CreateApproval(1), AskingToo(other, reported, call, Some(1)))
  {
    hide Step, RunRow, HeldRow, OtherDone, Strip;
    AskCreates(AskingToo(other, reported, call, None), 1);
    assert AskingToo(other, reported, call, None).approvals + [AskOf(call)] == [AskOf(call)];
    assert AskingToo(other, reported, call, None).live[1 := Asking(2, call, Some(1))]
        == AskingToo(other, reported, call, Some(1)).live;
  }

  lemma HeldCloses(other: ToolCall, reported: Option<nat>, call: ToolCall)
    ensures Step(AskingToo(other, reported, call, Some(1)), FinishAsk(1), AfterHeldToo(other, reported, call))
  {
    HeldIsHeld(call, None);
    HeldIsHeld(call, Some(1));
    hide Step, RunRow, HeldRow, OtherDone, Strip, Rebuild;
    AskCloses(AskingToo(other, reported, call, Some(1)), 1);
    assert AskingToo(other, reported, call, Some(1)).live - {1} == map[];
  }

  lemma HeldAfterOther(other: ToolCall, reported: Option<nat>, call: ToolCall)
    requires Holdable(call) && Strip(other.key) != Strip(call.key)
    ensures Run(AfterOther(other, reported), [BeginRun(1, call, Ask), CreateApproval(1), FinishAsk(1)])
         == AfterHeldToo(other, reported, call)
  {
    hide *;
    HeldBegins(other, reported, call);
    HeldCarries(other, reported, call);
    HeldCloses(other, reported, call);
    ThreeSteps(AfterOther(other, reported), BeginRun(1, call, Ask), AskingToo(other, reported, call, None),
               CreateApproval(1), AskingToo(other, reported, call, Some(1)),
               FinishAsk(1), AfterHeldToo(other, reported, call));
  }

  lemma BothDone(other: ToolCall, reported: Option<nat>, call: ToolCall)
    requires Holdable(other) && other.tier == Read && Holdable(call) && Strip(other.key) != Strip(call.key)
    ensures Run(InitialMachine, OtherThenHeld(other, reported, call)) == AfterHeldToo(other, reported, call)
  {
    hide *;
    OtherRuns(other, reported);
    HeldAfterOther(other, reported, call);
    OtherThenHeldIs(other, reported, call);
    RunJoin(InitialMachine, [BeginRun(0, other, Allow), Execute(0, Output(reported)), CompleteExecuted(0)],
            [BeginRun(1, call, Ask), CreateApproval(1), FinishAsk(1)]);
  }

  lemma OtherThenHeldIs(other: ToolCall, reported: Option<nat>, call: ToolCall)
    ensures OtherThenHeld(other, reported, call) ==
            [BeginRun(0, other, Allow), Execute(0, Output(reported)), CompleteExecuted(0)] +
            [BeginRun(1, call, Ask), CreateApproval(1), FinishAsk(1)]
  {
  }

  /**
   * The failing input of an executor that reports an approval id: a record of the same task and iteration that comes
   * to name the approval of a call held later is found in place of that call's, and a retry runs its call again.
   */
  lemma ReportedIdMisleads(other: ToolCall, call: ToolCall)
    requires Holdable(other) && other.tier == Read && Holdable(call) && Strip(other.key) != Strip(call.key)
    requires SameOwner(other, call)
    ensures var m := Run(InitialMachine, OtherThenHeld(other, Some(1), call));
      && m.approvals == [AskOf(call)] && |m.rows| == 2 && m.rows[1].result.approvalId == Some(1)
      && FindFrom(m.rows, m.approvals[0], 1, 0) == Some(1)
      && RetriedCall(m.rows, m.approvals[0], 1) == Some(TrimCall(other))
  {
    BothDone(other, Some(1), call);
    RunRowIs(other);
    HeldIsHeld(call, Some(1));
    hide Run, RunRow, HeldRow, Strip, Holdable, TrimCall, OtherThenHeld;
    assert Rebuild(OtherDone(other, Some(1))) == Rebuild(RunRow(other));
    hide Rebuild;
  }

  /**
   * The failing input of a plain call under a retry's key: the retry of the call held later finds that record finished,
   * so it calls no executor and answers with the other call's result.
   */
  lemma TakenRetryKey(other: ToolCall, call: ToolCall)
    requires Holdable(other) && other.tier == Read && Holdable(call)
    requires Strip(other.key) == ApprovalKey(Strip(call.key), 1)
    ensures var m := Run(InitialMachine, OtherThenHeld(other, None, call));
      && m.approvals == [AskOf(call)] && RetriedCall(m.rows, m.approvals[0], 1) == Some(TrimCall(call))
      && var l := BeginApproved(2, TrimCall(call), 1, Allow);
         && Fits(m, l) && Next(m, l).live == map[] && Next(m, l).rows == m.rows && Next(m, l).tally == m.tally
         && FindRow(m.rows, Strip(ApprovalKey(TrimCall(call).key, 1))) == Some(1)
         && CompletedResult(m.rows[0]) == Some(ToolResult(Succeeded, None))
  {
    HeldKeys(call);
    KeysDiffer(call);
    BothDone(other, None, call);
    RunRowIs(other);
    HeldIsHeld(call, Some(1));
    hide Run, RunRow, HeldRow, Strip, OtherThenHeld, ApprovalKey, Rebuild;
    Replays(AfterHeldToo(other, None, call), TrimCall(call));
    hide Next, Fits, KeysApart, Holdable;
  }

  lemma KeysDiffer(call: ToolCall)
    requires KeysApart(call)
    ensures Strip(ApprovalKey(Strip(call.key), 1)) == ApprovalKey(Strip(call.key), 1) != Strip(call.key)
    ensures TrimCall(call).key == Strip(call.key) && Holdable(TrimCall(call))
  {
    hide Strip, ApprovalKey, Holdable;
  }

  /** A retry whose record is finished executes nothing. */
  lemma Replays(m: Machine, c: ToolCall)
    requires Aligned(m) && Holdable(c) && 2 !in m.live
    requires var known := FindRow(m.rows, Strip(ApprovalKey(c.key, 1)));
      known.Some? && m.rows[known.value - 1].status != Started
    ensures var l := BeginApproved(2, c, 1, Allow);
      Fits(m, l) && Next(m, l).live == m.live && Next(m, l).rows == m.rows && Next(m, l).tally == m.tally
  {
    hide Strip, ApprovalKey, ValidCall, Forbidden, LiveOn, StoredRecord;
    FirstRecords(c, 1, Allow);
    assert EffectivePolicy(c, Allow) == Allow;
    hide EffectivePolicy;
  }
}
