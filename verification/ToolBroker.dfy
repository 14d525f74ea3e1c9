/** The broker's three entry points over the store, each proved to be a path through the step system. */
module ToolBroker {
  import opened Prelude
  import opened Text
  import opened PolicyActions
  import opened ToolCalls
  import opened ActionJournal
  import opened BrokerMachine
  import opened Secrets

  /** The step system over the stored tables, with nothing under way and nothing tallied yet. */
  function Start(rows: seq<Record>, approvals: seq<Approval>): Machine {
    Machine(rows, approvals, map[], seq(|rows|, _ => ZeroTally), 0)
  }

  /** The labels that take the begun attempt `a` to its end when nothing interrupts it. */
  function Rest(m: Machine, a: nat, execution: Execution): seq<Label> {
    if a !in m.live then []
    else match m.live[a]
      case Granted(_, _, _) => [Execute(a, execution), CompleteExecuted(a)]
      case Executed(_, _, _, _) => [CompleteExecuted(a)]
      case Asking(_, _, approval) => if approval.None? then [CreateApproval(a), FinishAsk(a)] else [FinishAsk(a)]
      case Denying(_, _) => [FinishDeny(a)]
  }

  /** The tables after the begun attempt `a` ran to its end. */
  ghost function Ended(m: Machine, a: nat, execution: Execution): Machine {
    Run(m, Rest(m, a, execution))
  }

  /** What the last write of an attempt stores, worked out from where it stands. */
  lemma EndedTables(m: Machine, a: nat, execution: Execution)
    requires Aligned(m) && a in m.live
    ensures var end := Ended(m, a, execution);
      match m.live[a]
      case Granted(row, call, approval) =>
        var r := ResultOf(execution);
        end.rows == Complete(m.rows, row, r.status,
                             StoredResult(Some(r.status), if approval.Some? then approval else r.approvalId)) &&
        end.approvals == m.approvals
      case Asking(row, call, approval) =>
        var id := if approval.Some? then approval.value else |m.approvals| + 1;
        end.rows == Complete(m.rows, row, NeedsApproval, StoredResult(Some(NeedsApproval), Some(id))) &&
        end.approvals == m.approvals + if approval.Some? then [] else [Approval(call.task, call.iteration, FromBroker)]
      case Denying(row, denied) =>
        end.rows == Complete(m.rows, row, PolicyDenied, StoredResult(Some(PolicyDenied), Some(denied))) &&
        end.approvals == m.approvals
      case Executed(_, _, _, _) => true
  {
    hide Run, Complete;
    RunStart(m);
    match m.live[a]
    case Granted(row, call, approval) =>
      RunAppend(m, [], Execute(a, execution));
      RunAppend(m, [Execute(a, execution)], CompleteExecuted(a));
      assert [] + [Execute(a, execution)] == [Execute(a, execution)];
      assert [Execute(a, execution)] + [CompleteExecuted(a)] == Rest(m, a, execution);
    case Asking(row, call, approval) =>
      if approval.Some? {
        RunAppend(m, [], FinishAsk(a));
        assert [] + [FinishAsk(a)] == Rest(m, a, execution);
      } else {
        RunAppend(m, [], CreateApproval(a));
        RunAppend(m, [CreateApproval(a)], FinishAsk(a));
        assert [] + [CreateApproval(a)] == [CreateApproval(a)];
        assert [CreateApproval(a)] + [FinishAsk(a)] == Rest(m, a, execution);
      }
    case Denying(row, denied) =>
      RunAppend(m, [], FinishDeny(a));
      assert [] + [FinishDeny(a)] == Rest(m, a, execution);
    case Executed(_, _, _, _) =>
  }

  lemma NothingLeft(m: Machine, a: nat, execution: Execution)
    requires a !in m.live
    ensures Ended(m, a, execution) == m
  {
  }

  /** The record `run` writes first. */
  function FirstRecord(call: ToolCall, policy: PolicyAction): Record {
    var effective := EffectivePolicy(call, policy);
    match BlockedStatus(call, effective)
    case None => CallRecord(call, call.key, effective, Started, NoResult)
    case Some(status) => CallRecord(call, call.key, effective, status, StoredResult(Some(status), None))
  }

  /** The record `run_approved` writes first. */
  function FirstApprovedRecord(call: ToolCall, approval: nat, policy: PolicyAction): Record {
    var effective, key := EffectivePolicy(call, policy), ApprovalKey(call.key, approval);
    if effective == Deny then
      CallRecord(call, key, effective, PolicyDenied, StoredResult(Some(PolicyDenied), Some(approval)))
    else CallRecord(call, key, effective, Started, NoResult)
  }

  /** The store trims the key and type of what it is given. */
  function Trimmed(r: Record): Record {
    r.(key := Strip(r.key), actionType := Strip(r.actionType), lease := NoLease)
  }

  /** Where a `run` stands right after its first write. */
  lemma RunBegun(rows: seq<Record>, approvals: seq<Approval>, call: ToolCall, policy: PolicyAction)
    requires ValidCall(call)
    ensures var m, r := Start(rows, approvals), Trimmed(FirstRecord(call, policy));
      Fits(m, BeginRun(0, call, policy)) &&
      var begun, id := Next(m, BeginRun(0, call, policy)), InsertedId(rows, r);
      && begun.rows == Insert(rows, r) && begun.approvals == approvals && Aligned(begun)
      && begun.live == match BlockedStatus(call, EffectivePolicy(call, policy))
                       case None =>
                         if begun.rows[id - 1].status == Started then map[0 := Granted(id, call, None)] else map[]
                       case Some(status) =>
                         if status == PolicyDenied then map[]
                         else map[0 := Asking(id, call, begun.rows[id - 1].result.approvalId)]
  {
    var m, r := Start(rows, approvals), Trimmed(FirstRecord(call, policy));
    hide Classify, Strip, ValidCall, ResolvedActionType, LiveOn;
    RecordedLive(m, r, false);
  }

  /** `l` inserts `r` and leaves the attempts `live`. */
  ghost predicate BegunAs(rows: seq<Record>, approvals: seq<Approval>, l: Label, r: Record, live: map<nat, Stage>) {
    var m := Start(rows, approvals);
    Fits(m, l) && Aligned(Next(m, l)) &&
    Next(m, l).rows == Insert(rows, r) && Next(m, l).approvals == approvals && Next(m, l).live == live
  }

  lemma ApprovedDenied(rows: seq<Record>, approvals: seq<Approval>, call: ToolCall, approval: nat, policy: PolicyAction)
    requires ValidCall(call) && approval >= 1 && EffectivePolicy(call, policy) == Deny
    ensures var r := Trimmed(FirstApprovedRecord(call, approval, policy));
      BegunAs(rows, approvals, BeginApproved(0, call, approval, policy), r,
              map[0 := Denying(InsertedId(rows, r), approval)])
  {
    hide Classify, Strip, ValidCall, ResolvedActionType, LiveOn, ApprovalKey, EffectivePolicy, Recorded;
    var m, r := Start(rows, approvals), Trimmed(FirstApprovedRecord(call, approval, policy));
    RecordedLive(m, r, false);
  }

  lemma ApprovedGranted(
    rows: seq<Record>, approvals: seq<Approval>, call: ToolCall, approval: nat, policy: PolicyAction)
    requires ValidCall(call) && approval >= 1 && EffectivePolicy(call, policy) != Deny
    ensures var r := Trimmed(FirstApprovedRecord(call, approval, policy));
      var id := InsertedId(rows, r);
      BegunAs(rows, approvals, BeginApproved(0, call, approval, policy), r,
              if Insert(rows, r)[id - 1].status == Started then map[0 := Granted(id, call, Some(approval))] else map[])
  {
    hide Classify, Strip, ValidCall, ResolvedActionType, ApprovalKey, EffectivePolicy, Recorded, GrantOrReplay;
    var m, r := Start(rows, approvals), Trimmed(FirstApprovedRecord(call, approval, policy));
    RecordedLive(m, r, call.tier == Network);
    GrantedAs(Recorded(m, r, call.tier == Network), InsertedId(rows, r), call, Some(approval));
  }

  lemma GrantedAs(m: Machine, id: nat, call: ToolCall, approval: Option<nat>)
    requires HasRow(m.rows, id) && |m.tally| == |m.rows| && m.live == map[]
    ensures var after := GrantOrReplay(m, 0, id, call, approval);
      && after.rows == m.rows && after.approvals == m.approvals && |after.tally| == |m.rows|
      && after.live == if m.rows[id - 1].status == Started then map[0 := Granted(id, call, approval)] else map[]
  {
    hide LiveOn;
  }

  /** Where a `run_approved` stands right after its first write. */
  lemma ApprovedBegun(rows: seq<Record>, approvals: seq<Approval>, call: ToolCall, approval: nat, policy: PolicyAction)
    requires ValidCall(call) && approval >= 1
    ensures var m, r := Start(rows, approvals), Trimmed(FirstApprovedRecord(call, approval, policy));
      Fits(m, BeginApproved(0, call, approval, policy)) &&
      var begun, id := Next(m, BeginApproved(0, call, approval, policy)), InsertedId(rows, r);
      && begun.rows == Insert(rows, r) && begun.approvals == approvals && Aligned(begun)
      && begun.live == (if EffectivePolicy(call, policy) == Deny then map[0 := Denying(id, approval)]
                        else if begun.rows[id - 1].status == Started then map[0 := Granted(id, call, Some(approval))]
                        else map[])
  {
    hide Next, Start, Trimmed, FirstApprovedRecord, ValidCall, EffectivePolicy, Insert, InsertedId;
    if EffectivePolicy(call, policy) == Deny {
      ApprovedDenied(rows, approvals, call, approval, policy);
    } else {
      ApprovedGranted(rows, approvals, call, approval, policy);
    }
  }

  /** The tables and the call count are what the uninterrupted attempt begun by `l` leaves behind. */
  ghost predicate FollowsPath(
    rows: seq<Record>, approvals: seq<Approval>, l: Label, execution: Execution,
    rows': seq<Record>, approvals': seq<Approval>, calls: nat)
  {
    var m := Start(rows, approvals);
    && Fits(m, l) && (l.BeginRun? || l.BeginApproved?)
    && var begun := Next(m, l);
       && rows' == Ended(begun, l.a, execution).rows
       && approvals' == Ended(begun, l.a, execution).approvals
       && calls == if l.a in begun.live && begun.live[l.a].Granted? then 1 else 0
  }

  /** The row the call writes, once it is in the table. */
  function AfterFirst(rows: seq<Record>, first: Record): Record {
    var r := Trimmed(first);
    Insert(rows, r)[InsertedId(rows, r) - 1]
  }

  /** A `run` the gate lets through: executed once if the record is started, else replayed. */
  lemma RunGrantedPath(
    rows: seq<Record>, approvals: seq<Approval>, call: ToolCall, policy: PolicyAction, execution: Execution)
    requires ValidCall(call) && BlockedStatus(call, EffectivePolicy(call, policy)).None?
    ensures var l, first, e := BeginRun(0, call, policy), FirstRecord(call, policy), ResultOf(execution);
      var id, rows' := InsertedId(rows, Trimmed(first)), Insert(rows, Trimmed(first));
      if AfterFirst(rows, first).status == Started then
        FollowsPath(rows, approvals, l, execution,
                    Complete(rows', id, e.status, StoredResult(Some(e.status), e.approvalId)), approvals, 1)
      else FollowsPath(rows, approvals, l, execution, rows', approvals, 0)
  {
    var l := BeginRun(0, call, policy);
    RunBegun(rows, approvals, call, policy);
    hide Next, Fits, Rest, Ended, Complete, Insert, Trimmed, FirstRecord, EffectivePolicy, Aligned;
    hide ValidCall, InsertedId, ResultOf, BlockedStatus, Start;
    var begun := Next(Start(rows, approvals), l);
    if 0 in begun.live {
      EndedTables(begun, 0, execution);
    } else {
      NothingLeft(begun, 0, execution);
    }
  }

  /** A `run` the gate stops: never executed, and a held one leaves its record naming an approval. */
  lemma RunBlockedPath(
    rows: seq<Record>, approvals: seq<Approval>, call: ToolCall, policy: PolicyAction, execution: Execution)
    requires ValidCall(call) && BlockedStatus(call, EffectivePolicy(call, policy)).Some?
    ensures var l, first := BeginRun(0, call, policy), FirstRecord(call, policy);
      var id, rows' := InsertedId(rows, Trimmed(first)), Insert(rows, Trimmed(first));
      var named := AfterFirst(rows, first).result.approvalId;
      if BlockedStatus(call, EffectivePolicy(call, policy)).value == PolicyDenied then
        FollowsPath(rows, approvals, l, execution, rows', approvals, 0)
      else
        FollowsPath(rows, approvals, l, execution,
                    Complete(rows', id, NeedsApproval,
                             StoredResult(Some(NeedsApproval), if named.Some? then named else Some(|approvals| + 1))),
                    approvals + (if named.Some? then [] else [Approval(call.task, call.iteration, FromBroker)]), 0)
  {
    var l := BeginRun(0, call, policy);
    RunBegun(rows, approvals, call, policy);
    hide Next, Fits, Rest, Ended, Complete, Insert, Trimmed, FirstRecord, EffectivePolicy, Aligned;
    hide ValidCall, InsertedId, BlockedStatus, Start;
    var begun := Next(Start(rows, approvals), l);
    assert approvals + [] == approvals;
    if 0 in begun.live {
      EndedTables(begun, 0, execution);
    } else {
      NothingLeft(begun, 0, execution);
    }
  }

  lemma ApprovedPaths(
    rows: seq<Record>, approvals: seq<Approval>, call: ToolCall, approval: nat, policy: PolicyAction,
    execution: Execution)
    requires ValidCall(call) && approval >= 1
    ensures var l, e := BeginApproved(0, call, approval, policy), ResultOf(execution);
      var first := FirstApprovedRecord(call, approval, policy);
      var r := Trimmed(first);
      var id, row, rows' := InsertedId(rows, r), AfterFirst(rows, first), Insert(rows, r);
      if EffectivePolicy(call, policy) == Deny then
        FollowsPath(rows, approvals, l, execution,
                    Complete(rows', id, PolicyDenied, StoredResult(Some(PolicyDenied), Some(approval))), approvals, 0)
      else if row.status == Started then
        FollowsPath(rows, approvals, l, execution,
                    Complete(rows', id, e.status, StoredResult(Some(e.status), Some(approval))), approvals, 1)
      else FollowsPath(rows, approvals, l, execution, rows', approvals, 0)
  {
    var m, l := Start(rows, approvals), BeginApproved(0, call, approval, policy);
    ApprovedBegun(rows, approvals, call, approval, policy);
    hide Next, Fits, Rest, Ended, Complete, Insert, Trimmed, FirstApprovedRecord, EffectivePolicy, Aligned;
    hide ValidCall, InsertedId, ResultOf;
    var begun := Next(m, l);
    if 0 in begun.live {
      EndedTables(begun, 0, execution);
    } else {
      NothingLeft(begun, 0, execution);
    }
  }

  lemma FirstRecordsStorable(call: ToolCall, approval: nat, policy: PolicyAction)
    requires ValidCall(call)
    ensures !Blank(FirstRecord(call, policy).key) && !Blank(FirstRecord(call, policy).actionType)
    ensures !Blank(FirstApprovedRecord(call, approval, policy).key)
    ensures !Blank(FirstApprovedRecord(call, approval, policy).actionType)
  {
    hide Classify, ApprovalKey;
    ApprovalKeyShown(call.key, approval);
  }

  lemma ApprovalKeyShown(key: string, approval: nat)
    ensures !Blank(ApprovalKey(key, approval))
  {
    assert ApprovalKey(key, approval)[|key|] == ':';
    NotBlank(ApprovalKey(key, approval), |key|);
  }

  /** The journal holds `result` for the record with `key`. */
  ghost predicate Holds(rows: seq<Record>, key: string, result: ToolResult) {
    exists id :: HasRow(rows, id) && rows[id - 1].key == key && CompletedResult(rows[id - 1]) == Some(result)
  }

  lemma CompletedHolds(rows: seq<Record>, id: nat, result: ToolResult)
    requires HasRow(rows, id)
    ensures Holds(Complete(rows, id, result.status, StoredResult(Some(result.status), result.approvalId)),
                  rows[id - 1].key, result)
  {
    var after := Complete(rows, id, result.status, StoredResult(Some(result.status), result.approvalId));
    assert HasRow(after, id) && CompletedResult(after[id - 1]) == Some(result);
  }

  lemma ReplayHolds(rows: seq<Record>, id: nat)
    requires HasRow(rows, id) && rows[id - 1].status != Started
    ensures Holds(rows, rows[id - 1].key, CompletedResult(rows[id - 1]).value)
  {
  }

  /** An executor that raises failed, one that gives an output succeeded, and a result is taken as it is. */
  predicate ExecutedAs(execution: Execution, approval: Option<nat>, result: ToolResult) {
    match execution
    case Raised => result == ToolResult(Failed, approval)
    case Output(id) => result == ToolResult(Succeeded, if approval.Some? then approval else id)
    case Returned(status, id) => result == ToolResult(status, if approval.Some? then approval else id)
  }

  /** The answer of a finished row: its result's status, or without one its own, and the approval it names. */
  predicate ReplayedAs(row: Record, result: ToolResult) {
    && result.approvalId == row.result.approvalId
    && result.status == if row.result.status.Some? then row.result.status.value else row.status
  }

  /** A started record, or a new one, is executed once and answers with the execution; a finished one is replayed. */
  ghost predicate RanOnce(
    rows: seq<Record>, key: string, approval: Option<nat>, execution: Execution, result: ToolResult, calls: nat)
  {
    var known := FindRow(rows, key);
    if known.Some? && rows[known.value - 1].status != Started then
      calls == 0 && ReplayedAs(rows[known.value - 1], result)
    else calls == 1 && ExecutedAs(execution, approval, result)
  }

  /** The row describes the call under the policy that counts, with type and key as the store keeps them. */
  ghost predicate IsRecordOf(r: Record, call: ToolCall, key: string, policy: PolicyAction) {
    && r.task == call.task && r.iteration == call.iteration && r.key == key && r.lease == NoLease
    && r.actionType == Strip(if call.actionType.Some? then call.actionType.value else call.name)
    && r.policy == (if policy == Deny || SecretCall(call) || call.tier == Destructive then Deny else policy)
    && r.payload == Payload(call.name, call.tier, call.args, Classify(call), call.tier)
  }

  /**
   * What an attempt under `key` leaves in the table: a new record of the call with the result; or the record that held
   * the key with the result, where the attempt closes it, and untouched where it does not. No other row changes.
   */
  ghost predicate Wrote(
    rows: seq<Record>, after: seq<Record>, call: ToolCall, key: string, policy: PolicyAction, result: ToolResult,
    closes: bool)
  {
    var known, stored := FindRow(rows, key), StoredResult(Some(result.status), result.approvalId);
    if known.Some? then
      after == if closes then
                 rows[known.value - 1 :=
                      rows[known.value - 1].(status := result.status, result := stored, lease := NoLease)]
               else rows
    else
      && |after| == |rows| + 1 && after[..|rows|] == rows && IsRecordOf(after[|rows|], call, key, policy)
      && after[|rows|].status == result.status && after[|rows|].result == stored
  }

  /** A held call names the approval its record names, or a new one for its task and iteration. */
  ghost predicate Asked(
    rows: seq<Record>, approvals: seq<Approval>, approvals': seq<Approval>, call: ToolCall, result: ToolResult)
  {
    var known := FindRow(rows, Strip(call.key));
    if known.Some? && rows[known.value - 1].result.approvalId.Some? then
      approvals' == approvals && result.approvalId == rows[known.value - 1].result.approvalId
    else
      && approvals' == approvals + [Approval(call.task, call.iteration, FromBroker)]
      && result.approvalId == Some(|approvals| + 1)
  }

  /** What an approved run leaves: a denial in its record and nothing executed, or one execution or a replay. */
  ghost predicate RanApproved(
    rows: seq<Record>, after: seq<Record>, call: ToolCall, approval: nat, policy: PolicyAction, execution: Execution,
    result: ToolResult, calls: nat)
  {
    var key := Strip(call.key + ":approval:" + Decimal(approval));
    var denied := policy == Deny || SecretCall(call) || call.tier == Destructive;
    && (denied ==> calls == 0 && result == ToolResult(PolicyDenied, Some(approval)))
    && (!denied ==> RanOnce(rows, key, Some(approval), execution, result, calls))
    && Wrote(rows, after, call, key, policy, result, denied || calls == 1)
  }

  /** The first records describe their call. */
  lemma FirstDescribes(call: ToolCall, approval: nat, policy: PolicyAction)
    ensures IsRecordOf(Trimmed(FirstRecord(call, policy)), call, Strip(call.key), policy)
    ensures IsRecordOf(Trimmed(FirstApprovedRecord(call, approval, policy)), call,
                       Strip(call.key + ":approval:" + Decimal(approval)), policy)
  {
    GateIff(call, policy);
    hide Classify, SecretCall, Strip, Forbidden;
  }

  lemma WroteFirst(rows: seq<Record>, first: Record, call: ToolCall, key: string, policy: PolicyAction,
                   result: ToolResult, closes: bool, after: seq<Record>)
    requires IsRecordOf(Trimmed(first), call, key, policy)
    requires var stored := StoredResult(Some(result.status), result.approvalId);
      var r, rows' := Trimmed(first), Insert(rows, Trimmed(first));
      && after == (if closes then Complete(rows', InsertedId(rows, r), result.status, stored) else rows')
      && (FindRow(rows, key).None? && !closes ==> first.status == result.status && first.result == stored)
    ensures Wrote(rows, after, call, key, policy, result, closes)
  {
    hide Classify, SecretCall, Strip;
  }

  /** What the first write finds: the record of the key, or a new started one. */
  lemma FirstIs(rows: seq<Record>, first: Record, key: string)
    requires first.status == Started && Strip(first.key) == key
    ensures AfterFirst(rows, first) ==
            var known := FindRow(rows, key);
            if known.Some? then rows[known.value - 1] else Trimmed(first)
  {
    hide Strip;
  }

  lemma FirstIsStarted(call: ToolCall, approval: nat, policy: PolicyAction)
    ensures BlockedStatus(call, EffectivePolicy(call, policy)).None? ==>
      FirstRecord(call, policy).status == Started && FirstRecord(call, policy).key == call.key
    ensures EffectivePolicy(call, policy) != Deny ==>
      && FirstApprovedRecord(call, approval, policy).status == Started
      && FirstApprovedRecord(call, approval, policy).key == call.key + ":approval:" + Decimal(approval)
  {
    hide EffectivePolicy, Classify;
  }

  lemma RanAsRow(rows: seq<Record>, first: Record, key: string, approval: Option<nat>, execution: Execution,
                 result: ToolResult, calls: nat)
    requires first.status == Started && Strip(first.key) == key
    requires var row, e := AfterFirst(rows, first), ResultOf(execution);
      if row.status == Started then
        calls == 1 && result == ToolResult(e.status, if approval.Some? then approval else e.approvalId)
      else calls == 0 && Some(result) == CompletedResult(row)
    ensures RanOnce(rows, key, approval, execution, result, calls)
  {
    FirstIs(rows, first, key);
    hide AfterFirst, Strip;
  }

  /** What a `run` comes to that the gate lets through. */
  lemma GrantedOutcome(rows: seq<Record>, approvals: seq<Approval>, call: ToolCall, policy: PolicyAction,
                       execution: Execution, result: ToolResult, calls: nat, after: seq<Record>)
    requires ValidCall(call) && BlockedStatus(call, EffectivePolicy(call, policy)).None?
    requires var first, e := FirstRecord(call, policy), ResultOf(execution);
      var row, r := AfterFirst(rows, first), Trimmed(first);
      if row.status == Started then
        && calls == 1 && result == e
        && after == Complete(Insert(rows, r), InsertedId(rows, r), e.status, StoredResult(Some(e.status), e.approvalId))
      else calls == 0 && Some(result) == CompletedResult(row) && after == Insert(rows, r)
    ensures FollowsPath(rows, approvals, BeginRun(0, call, policy), execution, after, approvals, calls)
    ensures RanOnce(rows, Strip(call.key), None, execution, result, calls)
    ensures Wrote(rows, after, call, Strip(call.key), policy, result, calls == 1)
  {
    var first := FirstRecord(call, policy);
    FirstIsStarted(call, 1, policy);
    FirstIs(rows, first, Strip(call.key));
    hide *;
    RunGrantedPath(rows, approvals, call, policy, execution);
    RanAsRow(rows, first, Strip(call.key), None, execution, result, calls);
    FirstDescribes(call, 1, policy);
    TrimmedStatus(first);
    WroteFirst(rows, first, call, Strip(call.key), policy, result, calls == 1, after);
  }

  lemma TrimmedStatus(r: Record)
    ensures Trimmed(r).status == r.status && Trimmed(r).result == r.result
  {
  }

  /** What a `run` comes to that the gate stops: nothing more than its record, or a held one naming an approval. */
  lemma BlockedOutcome(rows: seq<Record>, approvals: seq<Approval>, call: ToolCall, policy: PolicyAction,
                       execution: Execution, result: ToolResult, after: seq<Record>, approvals': seq<Approval>)
    requires ValidCall(call) && BlockedStatus(call, EffectivePolicy(call, policy)).Some?
    requires var first, status := FirstRecord(call, policy), BlockedStatus(call, EffectivePolicy(call, policy)).value;
      var r, named := Trimmed(first), AfterFirst(rows, first).result.approvalId;
      if status == PolicyDenied then
        result == ToolResult(PolicyDenied, None) && after == Insert(rows, r) && approvals' == approvals
      else
        && result == ToolResult(NeedsApproval, if named.Some? then named else Some(|approvals| + 1))
        && after == Complete(Insert(rows, r), InsertedId(rows, r), NeedsApproval,
                             StoredResult(Some(NeedsApproval), result.approvalId))
        && approvals' == approvals + if named.Some? then [] else [Approval(call.task, call.iteration, FromBroker)]
    ensures FollowsPath(rows, approvals, BeginRun(0, call, policy), execution, after, approvals', 0)
    ensures Wrote(rows, after, call, Strip(call.key), policy, result, result.status == NeedsApproval)
    ensures result.status == NeedsApproval ==> Asked(rows, approvals, approvals', call, result)
  {
    var first := FirstRecord(call, policy);
    FirstIsBlocked(rows, call, policy);
    assert approvals + [] == approvals;
    hide *;
    RunBlockedPath(rows, approvals, call, policy, execution);
    FirstDescribes(call, 1, policy);
    WroteFirst(rows, first, call, Strip(call.key), policy, result, result.status == NeedsApproval, after);
    AskedFirst(rows, approvals, approvals', call, policy, result);
  }

  lemma FirstIsBlocked(rows: seq<Record>, call: ToolCall, policy: PolicyAction)
    requires BlockedStatus(call, EffectivePolicy(call, policy)).Some?
    ensures var first, status := FirstRecord(call, policy), BlockedStatus(call, EffectivePolicy(call, policy)).value;
      && status in {PolicyDenied, NeedsApproval}
      && first.status == status && first.result == StoredResult(Some(status), None)
  {
    hide Classify, EffectivePolicy;
  }

  lemma AskedFirst(rows: seq<Record>, approvals: seq<Approval>, approvals': seq<Approval>, call: ToolCall,
                   policy: PolicyAction, result: ToolResult)
    requires BlockedStatus(call, EffectivePolicy(call, policy)).Some?
    requires var named := AfterFirst(rows, FirstRecord(call, policy)).result.approvalId;
      result.status == NeedsApproval ==>
        && result.approvalId == (if named.Some? then named else Some(|approvals| + 1))
        && approvals' == approvals + if named.Some? then [] else [Approval(call.task, call.iteration, FromBroker)]
    ensures result.status == NeedsApproval ==> Asked(rows, approvals, approvals', call, result)
  {
    FirstIsBlocked(rows, call, policy);
    FirstIsKeyed(call, policy);
    assert approvals + [] == approvals;
    hide FirstRecord, BlockedStatus, EffectivePolicy, Strip;
  }

  lemma FirstIsKeyed(call: ToolCall, policy: PolicyAction)
    ensures Trimmed(FirstRecord(call, policy)).key == Strip(call.key)
    ensures Trimmed(FirstRecord(call, policy)).result == FirstRecord(call, policy).result
  {
    hide Classify, EffectivePolicy, Strip;
  }

  /** What a `run_approved` comes to. */
  lemma ApprovedOutcome(rows: seq<Record>, approvals: seq<Approval>, call: ToolCall, approval: nat,
                        policy: PolicyAction, execution: Execution, result: ToolResult, calls: nat,
                        after: seq<Record>)
    requires ValidCall(call) && approval >= 1
    requires var first, e := FirstApprovedRecord(call, approval, policy), ResultOf(execution);
      var row, r := AfterFirst(rows, first), Trimmed(first);
      if EffectivePolicy(call, policy) == Deny then
        && calls == 0 && result == ToolResult(PolicyDenied, Some(approval))
        && after == Complete(Insert(rows, r), InsertedId(rows, r), PolicyDenied,
                             StoredResult(Some(PolicyDenied), Some(approval)))
      else if row.status == Started then
        && calls == 1 && result == ToolResult(e.status, Some(approval))
        && after == Complete(Insert(rows, r), InsertedId(rows, r), e.status,
                             StoredResult(Some(e.status), Some(approval)))
      else calls == 0 && Some(result) == CompletedResult(row) && after == Insert(rows, r)
    ensures FollowsPath(rows, approvals, BeginApproved(0, call, approval, policy), execution, after, approvals, calls)
    ensures RanApproved(rows, after, call, approval, policy, execution, result, calls)
  {
    GateIff(call, policy);
    var first, key := FirstApprovedRecord(call, approval, policy), Strip(call.key + ":approval:" + Decimal(approval));
    FirstIsStarted(call, approval, policy);
    if EffectivePolicy(call, policy) != Deny {
      FirstIs(rows, first, key);
    }
    hide *;
    ApprovedPaths(rows, approvals, call, approval, policy, execution);
    if EffectivePolicy(call, policy) != Deny {
      RanAsRow(rows, first, key, Some(approval), execution, result, calls);
    }
    FirstDescribes(call, approval, policy);
    TrimmedStatus(first);
    WroteFirst(rows, first, call, key, policy, result, calls == 1 || EffectivePolicy(call, policy) == Deny, after);
    ApprovedTold(rows, after, call, approval, policy, execution, result, calls);
  }

  lemma ApprovedTold(rows: seq<Record>, after: seq<Record>, call: ToolCall, approval: nat, policy: PolicyAction,
                     execution: Execution, result: ToolResult, calls: nat)
    requires var key := Strip(call.key + ":approval:" + Decimal(approval));
      var denied := policy == Deny || SecretCall(call) || call.tier == Destructive;
      && (denied ==> calls == 0 && result == ToolResult(PolicyDenied, Some(approval)))
      && (!denied ==> RanOnce(rows, key, Some(approval), execution, result, calls))
      && Wrote(rows, after, call, key, policy, result, calls == 1 || denied)
    ensures RanApproved(rows, after, call, approval, policy, execution, result, calls)
  {
  }

  lemma AuditWrites(rows: seq<Record>, call: ToolCall, given: ToolResult, policy: PolicyAction)
    ensures var effective := EffectivePolicy(call, policy);
      var recorded := AuditedResult(call, given, effective);
      var stored := StoredResult(Some(recorded.status), recorded.approvalId);
      var r := CallRecord(call, call.key, effective, recorded.status, stored);
      Wrote(rows, Insert(rows, Trimmed(r)), call, Strip(call.key), policy, recorded, false)
  {
    var effective := EffectivePolicy(call, policy);
    var recorded := AuditedResult(call, given, effective);
    var stored := StoredResult(Some(recorded.status), recorded.approvalId);
    var r := CallRecord(call, call.key, effective, recorded.status, stored);
    GateIff(call, policy);
    hide Classify, SecretCall, Strip, Forbidden, AuditedResult;
    WroteFirst(rows, r, call, Strip(call.key), policy, recorded, false, Insert(rows, Trimmed(r)));
  }

  class Broker {
    const store: ActionStore

    constructor (store: ActionStore)
      ensures this.store == store
    {
      this.store := store;
    }

    /** The one executor call of a granted attempt, and the write that completes its record. */
    method CallExecutor(id: nat, approval: Option<nat>, execution: Execution) returns (result: ToolResult)
      requires HasRow(store.rows, id)
      modifies store`rows
      ensures var e := ResultOf(execution);
        result == ToolResult(e.status, if approval.Some? then approval else e.approvalId) &&
        store.rows == Complete(old(store.rows), id, e.status, StoredResult(Some(e.status), result.approvalId))
    {
      result := ResultOf(execution);
      if approval.Some? {
        result := result.(approvalId := approval);
      }
      var _ := store.CompleteActionRecord(id, result.status, StoredResult(Some(result.status), result.approvalId));
    }

    /** A call that needs approval: reuse the approval its record names, or create one, and store it there. */
    method AskApproval(id: nat, call: ToolCall) returns (result: ToolResult)
      requires HasRow(store.rows, id)
      modifies store
      ensures var known := old(store.rows)[id - 1].result.approvalId;
        && result == ToolResult(NeedsApproval, if known.Some? then known else Some(|old(store.approvals)| + 1))
        && store.approvals == old(store.approvals) +
             (if known.Some? then [] else [Approval(call.task, call.iteration, FromBroker)])
      ensures store.rows ==
        Complete(old(store.rows), id, NeedsApproval, StoredResult(Some(NeedsApproval), result.approvalId))
    {
      var approvalId := store.rows[id - 1].result.approvalId;
      if approvalId.None? {
        var created := store.AddApprovalRequest(Approval(call.task, call.iteration, FromBroker));
        approvalId := Some(created);
      }
      result := ToolResult(NeedsApproval, approvalId);
      var _ := store.CompleteActionRecord(id, NeedsApproval, StoredResult(Some(NeedsApproval), approvalId));
    }

    /** The first write of an attempt: the record it inserts, or the one that holds the key. */
    method Begin(first: Record) returns (id: nat)
      requires !Blank(first.key) && !Blank(first.actionType)
      modifies store`rows
      ensures id == InsertedId(old(store.rows), Trimmed(first)) && store.rows == Insert(old(store.rows), Trimmed(first))
      ensures HasRow(store.rows, id) && store.rows[id - 1] == AfterFirst(old(store.rows), first)
      ensures store.rows[id - 1].key == Trimmed(first).key
    {
      hide Blank, Insert, Strip;
      var stored := store.RecordAction(first);
      id := stored.value;
    }

    /** Replay the record if it is finished, else execute. */
    method ReplayOrExecute(id: nat, approval: Option<nat>, execution: Execution)
      returns (result: ToolResult, calls: nat)
      requires HasRow(store.rows, id)
      modifies store`rows
      ensures var row, e := old(store.rows)[id - 1], ResultOf(execution);
        if row.status == Started then
          calls == 1 && store.rows == Complete(old(store.rows), id, e.status,
            StoredResult(Some(e.status), if approval.Some? then approval else e.approvalId))
        else calls == 0 && store.rows == old(store.rows)
      ensures var row, e := old(store.rows)[id - 1], ResultOf(execution);
        if row.status == Started then result == ToolResult(e.status, if approval.Some? then approval else e.approvalId)
        else Some(result) == CompletedResult(row)
      ensures Holds(store.rows, old(store.rows)[id - 1].key, result)
    {
      var replayed := CompletedResult(store.rows[id - 1]);
      if replayed.Some? {
        ReplayHolds(store.rows, id);
        return replayed.value, 0;
      }
      var e := ResultOf(execution);
      CompletedHolds(store.rows, id, ToolResult(e.status, if approval.Some? then approval else e.approvalId));
      hide Complete, Holds, ResultOf;
      result := CallExecutor(id, approval, execution);
      calls := 1;
    }

    /** `run`: gate the call, replay a finished record, or call the executor once and complete the record. */
    method Run(call: ToolCall, policy: PolicyAction, execution: Execution) returns (result: ToolResult, calls: nat)
      requires ValidCall(call)
      modifies store
      ensures FollowsPath(old(store.rows), old(store.approvals), BeginRun(0, call, policy), execution,
                          store.rows, store.approvals, calls)
      ensures var blocked := BlockedStatus(call, EffectivePolicy(call, policy));
        if blocked.Some? then calls == 0 && result.status == blocked.value
        else Holds(store.rows, Trimmed(FirstRecord(call, policy)).key, result)
      ensures policy == Deny || SecretCall(call) || call.tier == Destructive ==>
        calls == 0 && result == ToolResult(PolicyDenied, None) && store.approvals == old(store.approvals)
      ensures policy != Deny && !SecretCall(call) &&
              (call.tier in {Write, Network} || (policy == Ask && call.tier == Read)) ==>
        && calls == 0 && result.status == NeedsApproval
        && Asked(old(store.rows), old(store.approvals), store.approvals, call, result)
      ensures policy == Allow && !SecretCall(call) && call.tier == Read ==>
        && RanOnce(old(store.rows), Strip(call.key), None, execution, result, calls)
        && store.approvals == old(store.approvals)
      ensures var denied := policy == Deny || SecretCall(call) || call.tier == Destructive;
        Wrote(old(store.rows), store.rows, call, Strip(call.key), policy, result,
              (!denied && (policy == Ask || call.tier != Read)) || calls == 1)
    {
      GateIff(call, policy);
      var blocked := BlockedStatus(call, EffectivePolicy(call, policy));
      hide *;
      if blocked.None? {
        result, calls := RunGranted(call, policy, execution);
      } else {
        result, calls := RunBlocked(call, policy, execution);
      }
    }

    method RunGranted(call: ToolCall, policy: PolicyAction, execution: Execution)
      returns (result: ToolResult, calls: nat)
      requires ValidCall(call) && BlockedStatus(call, EffectivePolicy(call, policy)).None?
      modifies store`rows
      ensures FollowsPath(old(store.rows), store.approvals, BeginRun(0, call, policy), execution,
                          store.rows, store.approvals, calls)
      ensures Holds(store.rows, Trimmed(FirstRecord(call, policy)).key, result)
      ensures RanOnce(old(store.rows), Strip(call.key), None, execution, result, calls)
      ensures Wrote(old(store.rows), store.rows, call, Strip(call.key), policy, result, calls == 1)
    {
      hide *;
      FirstRecordsStorable(call, 1, policy);
      var id := Begin(FirstRecord(call, policy));
      result, calls := ReplayOrExecute(id, None, execution);
      GrantedOutcome(old(store.rows), store.approvals, call, policy, execution, result, calls, store.rows);
    }

    method RunBlocked(call: ToolCall, policy: PolicyAction, ghost execution: Execution)
      returns (result: ToolResult, calls: nat)
      requires ValidCall(call) && BlockedStatus(call, EffectivePolicy(call, policy)).Some?
      modifies store
      ensures FollowsPath(old(store.rows), old(store.approvals), BeginRun(0, call, policy), execution,
                          store.rows, store.approvals, calls)
      ensures calls == 0 && result.status == BlockedStatus(call, EffectivePolicy(call, policy)).value
      ensures result.status == PolicyDenied ==>
        result == ToolResult(PolicyDenied, None) && store.approvals == old(store.approvals)
      ensures Wrote(old(store.rows), store.rows, call, Strip(call.key), policy, result, result.status == NeedsApproval)
      ensures result.status == NeedsApproval ==>
        Asked(old(store.rows), old(store.approvals), store.approvals, call, result)
    {
      var status := BlockedStatus(call, EffectivePolicy(call, policy)).value;
      assert status in {PolicyDenied, NeedsApproval};
      hide *;
      FirstRecordsStorable(call, 1, policy);
      var id := Begin(FirstRecord(call, policy));
      result, calls := ToolResult(status, None), 0;
      if status == NeedsApproval {
        result := AskApproval(id, call);
      }
      BlockedOutcome(old(store.rows), old(store.approvals), call, policy, execution, result, store.rows,
                     store.approvals);
    }

    /**
     * `run_approved`: an approval id below one is refused before anything is written; else only a denied policy
     * stops the call, and otherwise it is replayed or executed once.
     */
    method RunApproved(call: ToolCall, approval: nat, policy: PolicyAction, execution: Execution)
      returns (result: Option<ToolResult>, calls: nat)
      requires ValidCall(call)
      modifies store`rows
      ensures result.None? <==> approval < 1
      ensures approval < 1 ==> calls == 0 && store.rows == old(store.rows)
      ensures approval >= 1 ==>
        FollowsPath(old(store.rows), store.approvals, BeginApproved(0, call, approval, policy), execution,
                    store.rows, store.approvals, calls) &&
        Holds(store.rows, Trimmed(FirstApprovedRecord(call, approval, policy)).key, result.value)
      ensures approval >= 1 ==>
        RanApproved(old(store.rows), store.rows, call, approval, policy, execution, result.value, calls)
    {
      if approval < 1 { return None, 0; }
      GateIff(call, policy);
      hide *;
      FirstRecordsStorable(call, approval, policy);
      var id := Begin(FirstApprovedRecord(call, approval, policy));
      var outcome, n;
      if EffectivePolicy(call, policy) == Deny {
        outcome, n := ToolResult(PolicyDenied, Some(approval)), 0;
        CompletedHolds(store.rows, id, outcome);
        var _ := store.CompleteActionRecord(id, PolicyDenied, StoredResult(Some(PolicyDenied), Some(approval)));
      } else {
        outcome, n := ReplayOrExecute(id, Some(approval), execution);
      }
      ApprovedOutcome(old(store.rows), store.approvals, call, approval, policy, execution, outcome, n, store.rows);
      return Some(outcome), n;
    }

    /** `record_result`: store the result the gate allows, unless the key already has a record. */
    method RecordResult(call: ToolCall, given: ToolResult, policy: PolicyAction) returns (recorded: ToolResult)
      requires ValidCall(call)
      modifies store`rows
      ensures recorded == AuditedResult(call, given, EffectivePolicy(call, policy))
      ensures store.rows == Audited(Start(old(store.rows), store.approvals), call, given, policy).rows
      ensures policy == Deny || SecretCall(call) || call.tier == Destructive ==>
        recorded == ToolResult(PolicyDenied, None)
      ensures policy != Deny && !SecretCall(call) && call.tier in {Write, Network} && given.status == Succeeded ==>
        recorded == ToolResult(NeedsApproval, None)
      ensures policy != Deny && !SecretCall(call) && call.tier == Read ==> recorded == given
      ensures policy != Deny && !SecretCall(call) && call.tier in {Write, Network} && given.status != Succeeded ==>
        recorded == given
      ensures Wrote(old(store.rows), store.rows, call, Strip(call.key), policy, recorded, false)
    {
      GateIff(call, policy);
      assert !Blank(ResolvedActionType(call));
      var effective := EffectivePolicy(call, policy);
      AuditWrites(store.rows, call, given, policy);
      hide Classify, Blank, Strip, ResolvedActionType, SecretCall, Wrote;
      if effective == Deny {
        recorded := ToolResult(PolicyDenied, None);
      } else if call.tier != Read && given.status == Succeeded {
        recorded := ToolResult(NeedsApproval, None);
      } else {
        recorded := given;
      }
      var _ := store.RecordAction(
        CallRecord(call, call.key, effective, recorded.status,
                   StoredResult(Some(recorded.status), recorded.approvalId)));
    }
  }
}
