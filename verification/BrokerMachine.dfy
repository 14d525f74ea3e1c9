/**
 * The tool broker as a step system: every store write and every executor call is one step, attempts may
 * overlap, crash between steps, and be recovered, and the policy may answer differently every time.
 */
module BrokerMachine {
  import opened Prelude
  import opened Text
  import opened PolicyActions
  import opened ToolCalls
  import opened ActionJournal

  // ------------------------------------------------------------------- gating

  /** Policy after the action classification had its say. */
  function EffectivePolicy(c: ToolCall, policy: PolicyAction): PolicyAction {
    if policy == Deny || Forbidden(c) then Deny else policy
  }

  /** Why `run` does not execute a call, if it does not. */
  function BlockedStatus(c: ToolCall, effective: PolicyAction): Option<ResultStatus> {
    if effective == Deny then Some(PolicyDenied)
    else if effective == Ask || c.tier != Read then Some(NeedsApproval)
    else None
  }

  /** The record a call writes, before the store trims its key and type. */
  function CallRecord(c: ToolCall, key: string, effective: PolicyAction, status: Status, result: StoredResult): Record {
    Record(c.task, c.iteration, key, ResolvedActionType(c), status, effective,
           Payload(c.name, c.tier, c.args, Classify(c), c.tier), result, NoLease)
  }

  function StoredRecord(c: ToolCall, key: string, effective: PolicyAction, status: Status, result: StoredResult):
    Record
  {
    CallRecord(c, Strip(key), effective, status, result).(actionType := Strip(ResolvedActionType(c)))
  }

  function ApprovalKey(key: string, approval: nat): string {
    key + ":approval:" + Decimal(approval)
  }

  datatype ToolResult = ToolResult(status: ResultStatus, approvalId: Option<nat>)

  /** What calling the executor comes to. */
  datatype Execution =
    | Raised
    | Output(approvalId: Option<nat>)
    | Returned(status: ResultStatus, approvalId: Option<nat>)

  function ResultOf(e: Execution): ToolResult {
    match e
    case Raised => ToolResult(Failed, None)
    case Output(id) => ToolResult(Succeeded, id)
    case Returned(status, id) => ToolResult(status, id)
  }

  function Stored(r: ToolResult): StoredResult {
    StoredResult(Some(r.status), r.approvalId)
  }

  /** `_completed_result_from_action`: nothing to replay for a started record. */
  function CompletedResult(r: Record): Option<ToolResult> {
    if r.status == Started then None
    else Some(ToolResult(if r.result.status.Some? then r.result.status.value else r.status, r.result.approvalId))
  }

  // ------------------------------------------------------------------ machine

  /** Where a live attempt stands. */
  datatype Stage =
    | Asking(row: nat, call: ToolCall, approval: Option<nat>)
    | Denying(row: nat, denied: nat)
    | Granted(row: nat, call: ToolCall, approval: Option<nat>)
    | Executed(row: nat, call: ToolCall, approval: Option<nat>, result: ToolResult)

  /** Bookkeeping of the model, one per record. */
  datatype Tally = Tally(
    begun: nat,        // attempts that found the record started and went on to execute
    execs: nat,        // executor calls
    completed: nat,    // of those attempts, how many reached complete_action_record
    abandoned: nat,    // how many crashed before it
    overlaps: nat,     // how many began while another was under way
    excused: bool)  // inserted by an approved network-tier run, or by the audit of a risky result

  const ZeroTally := Tally(0, 0, 0, 0, 0, false)

  datatype Machine = Machine(
    rows: seq<Record>, approvals: seq<Approval>, live: map<nat, Stage>,
    tally: seq<Tally>, excuses: nat)

  const InitialMachine := Machine([], [], map[], [], 0)

  datatype Label =
    | BeginRun(a: nat, call: ToolCall, policy: PolicyAction)
    | BeginApproved(a: nat, call: ToolCall, approval: nat, policy: PolicyAction)
    | Audit(call: ToolCall, given: ToolResult, policy: PolicyAction)
    | Execute(a: nat, execution: Execution)
    | CompleteExecuted(a: nat)
    | CreateApproval(a: nat)
    | FinishAsk(a: nat)
    | FinishDeny(a: nat)
    | AskElsewhere(task: string, iteration: Option<nat>, command: string)
    | Crash(a: nat)
    | Recover(id: nat)

  predicate Executing(s: Stage) {
    s.Granted? || s.Executed?
  }

  function LiveOn(m: Machine, id: nat): set<nat> {
    set a | a in m.live && Executing(m.live[a]) && m.live[a].row == id
  }

  function GrantedOn(m: Machine, id: nat): set<nat> {
    set a | a in m.live && m.live[a].Granted? && m.live[a].row == id
  }

  predicate Enabled(m: Machine, l: Label) {
    match l
    case BeginRun(a, call, _) => a !in m.live && ValidCall(call)
    case BeginApproved(a, call, approval, _) => a !in m.live && ValidCall(call) && approval >= 1
    case Audit(call, _, _) => ValidCall(call)
    case Execute(a, _) => a in m.live && m.live[a].Granted?
    case CompleteExecuted(a) => a in m.live && m.live[a].Executed?
    case CreateApproval(a) => a in m.live && m.live[a].Asking? && m.live[a].approval.None?
    case FinishAsk(a) => a in m.live && m.live[a].Asking? && m.live[a].approval.Some?
    case FinishDeny(a) => a in m.live && m.live[a].Denying?
    case AskElsewhere(_, _, _) => true
    case Crash(a) => a in m.live
    case Recover(id) => HasRow(m.rows, id) && m.rows[id - 1].status == Started
  }

  // ------------------------------------------------------------ primitive steps

  ghost predicate Aligned(m: Machine) {
    |m.tally| == |m.rows| && forall a :: a in m.live ==> HasRow(m.rows, m.live[a].row)
  }

  /** `record_action`, the model's tally kept parallel to the rows. */
  function Recorded(m: Machine, r: Record, excused: bool): Machine {
    var counted := m.(excuses := m.excuses + if excused then 1 else 0);
    if FindRow(m.rows, r.key).Some? then counted
    else counted.(rows := Insert(m.rows, r), tally := m.tally + [ZeroTally.(excused := excused)])
  }

  /** After `record_action("started")`: replay a finished record, or go on to execute. */
  function GrantOrReplay(m: Machine, a: nat, id: nat, call: ToolCall, approval: Option<nat>): Machine
    requires HasRow(m.rows, id) && |m.tally| == |m.rows|
  {
    if m.rows[id - 1].status != Started then m
    else
      var t := m.tally[id - 1];
      m.(live := m.live[a := Granted(id, call, approval)],
         tally := m.tally[id - 1 := t.(begun := t.begun + 1,
                                       overlaps := t.overlaps + if LiveOn(m, id) == {} then 0 else 1)])
  }

  /** The attempt waits on something other than the executor. */
  function Waiting(m: Machine, a: nat, s: Stage): Machine {
    m.(live := m.live[a := s])
  }

  function ExecutorCalled(m: Machine, a: nat, execution: Execution): Machine
    requires Aligned(m) && a in m.live && m.live[a].Granted?
  {
    var s := m.live[a];
    var t := m.tally[s.row - 1];
    m.(live := m.live[a := Executed(s.row, s.call, s.approval, ResultOf(execution))],
       tally := m.tally[s.row - 1 := t.(execs := t.execs + 1)])
  }

  /** `complete_action_record`, the last write of the attempt. */
  function Closed(m: Machine, a: nat, status: ResultStatus, approval: Option<nat>): Machine
    requires Aligned(m) && a in m.live
  {
    var s := m.live[a];
    var t := m.tally[s.row - 1];
    m.(rows := Complete(m.rows, s.row, status, StoredResult(Some(status), approval)),
       live := m.live - {a},
       tally := if Executing(s) then m.tally[s.row - 1 := t.(completed := t.completed + 1)] else m.tally)
  }

  function Crashed(m: Machine, a: nat): Machine
    requires Aligned(m) && a in m.live
  {
    var s := m.live[a];
    var t := m.tally[s.row - 1];
    m.(live := m.live - {a},
       tally := if Executing(s) then m.tally[s.row - 1 := t.(abandoned := t.abandoned + 1)] else m.tally)
  }

  function Recovered(m: Machine, id: nat): Machine {
    m.(rows := Complete(m.rows, id, Failed, NoResult))
  }

  // ------------------------------------------------------------------ the steps

  function RunBegins(m: Machine, a: nat, call: ToolCall, policy: PolicyAction): Machine
    requires |m.tally| == |m.rows|
  {
    var effective := EffectivePolicy(call, policy);
    match BlockedStatus(call, effective)
    case None =>
      var r := StoredRecord(call, call.key, effective, Started, NoResult);
      GrantOrReplay(Recorded(m, r, false), a, InsertedId(m.rows, r), call, None)
    case Some(status) =>
      var r := StoredRecord(call, call.key, effective, status, StoredResult(Some(status), None));
      var recorded := Recorded(m, r, false);
      if status == PolicyDenied then recorded
      else
        var id := InsertedId(m.rows, r);
        Waiting(recorded, a, Asking(id, call, recorded.rows[id - 1].result.approvalId))
  }

  function ApprovedBegins(m: Machine, a: nat, call: ToolCall, approval: nat, policy: PolicyAction): Machine
    requires |m.tally| == |m.rows|
  {
    var effective := EffectivePolicy(call, policy);
    var key := ApprovalKey(call.key, approval);
    if effective == Deny then
      var r := StoredRecord(call, key, effective, PolicyDenied, StoredResult(Some(PolicyDenied), Some(approval)));
      Waiting(Recorded(m, r, false), a, Denying(InsertedId(m.rows, r), approval))
    else
      var r := StoredRecord(call, key, effective, Started, NoResult);
      GrantOrReplay(Recorded(m, r, call.tier == Network), a, InsertedId(m.rows, r), call, Some(approval))
  }

  /** The result `record_result` stores: denied by policy, held back for risk, or as given. */
  function AuditedResult(call: ToolCall, given: ToolResult, effective: PolicyAction): ToolResult {
    if effective == Deny then ToolResult(PolicyDenied, None)
    else if call.tier != Read && given.status == Succeeded then ToolResult(NeedsApproval, None)
    else given
  }

  /** An audit whose record the unsafe count will count: a network-tier call that was let through and went wrong. */
  predicate RiskyAudit(call: ToolCall, given: ToolResult, policy: PolicyAction) {
    var effective := EffectivePolicy(call, policy);
    effective != Deny && call.tier == Network && !Blocked(AuditedResult(call, given, effective).status)
  }

  function Audited(m: Machine, call: ToolCall, given: ToolResult, policy: PolicyAction): Machine {
    var effective := EffectivePolicy(call, policy);
    var audited := AuditedResult(call, given, effective);
    Recorded(m, StoredRecord(call, call.key, effective, audited.status, Stored(audited)),
             RiskyAudit(call, given, policy))
  }

  /** What an executed attempt reports: `run_approved` puts its approval id in place of the executor's. */
  function ReportedApproval(s: Stage): Option<nat>
    requires s.Executed?
  {
    if s.approval.Some? then s.approval else s.result.approvalId
  }

  function ApprovalCreated(m: Machine, a: nat): Machine
    requires a in m.live && m.live[a].Asking?
  {
    var s := m.live[a];
    Waiting(m.(approvals := m.approvals + [Approval(s.call.task, s.call.iteration, FromBroker)]),
            a, Asking(s.row, s.call, Some(|m.approvals| + 1)))
  }

  /** `add_approval_request` by another part of the program. */
  function AskedElsewhere(m: Machine, approval: Approval): Machine {
    m.(approvals := m.approvals + [approval])
  }

  function Next(m: Machine, l: Label): Machine
    requires Aligned(m) && Enabled(m, l)
  {
    match l
    case BeginRun(a, call, policy) => RunBegins(m, a, call, policy)
    case BeginApproved(a, call, approval, policy) => ApprovedBegins(m, a, call, approval, policy)
    case Audit(call, given, policy) => Audited(m, call, given, policy)
    case Execute(a, execution) => ExecutorCalled(m, a, execution)
    case CompleteExecuted(a) => Closed(m, a, m.live[a].result.status, ReportedApproval(m.live[a]))
    case CreateApproval(a) => ApprovalCreated(m, a)
    case FinishAsk(a) => Closed(m, a, NeedsApproval, m.live[a].approval)
    case FinishDeny(a) => Closed(m, a, PolicyDenied, Some(m.live[a].denied))
    case AskElsewhere(task, iteration, command) => AskedElsewhere(m, Approval(task, iteration, FromOther(command)))
    case Crash(a) => Crashed(m, a)
    case Recover(id) => Recovered(m, id)
  }

  // ----------------------------------------------------------------- invariants

  /** The tally of one record. */
  ghost predicate RowCountsOk(m: Machine, id: nat)
    requires |m.tally| == |m.rows| && HasRow(m.rows, id)
  {
    var t := m.tally[id - 1];
    && t.begun == t.completed + t.abandoned + |LiveOn(m, id)|
    && t.execs + |GrantedOn(m, id)| <= t.begun
    && t.completed + |LiveOn(m, id)| <= 1 + t.overlaps
    && (m.rows[id - 1].status == Started ==> t.completed == 0)
    && t.completed + |LiveOn(m, id)| <= t.execs + |GrantedOn(m, id)|
    && (t.overlaps == 0 || t.overlaps < t.begun)
  }

  predicate Risky(p: Payload) {
    p.riskTier in {Network, Destructive} || p.riskClass in {Dangerous, SecretSensitive}
  }

  predicate Blocked(s: Status) {
    s == PolicyDenied || s == NeedsApproval
  }

  /** A risky record is accounted for where it was inserted, or was blocked at once and stays blocked. */
  ghost predicate RowRiskContained(m: Machine, id: nat)
    requires |m.tally| == |m.rows| && HasRow(m.rows, id)
  {
    var r := m.rows[id - 1];
    Risky(r.payload) && r.policy != Deny ==>
      m.tally[id - 1].excused || (Blocked(r.status) && LiveOn(m, id) == {})
  }

  /** No forbidden call is ever handed to an executor; unapproved ones are read-tier. */
  predicate SafeStage(s: Stage) {
    Executing(s) ==>
      && !Forbidden(s.call) && s.call.tier != Destructive
      && (s.approval.None? ==> s.call.tier == Read)
  }

  function ExcusedCount(tally: seq<Tally>): nat {
    if tally == [] then 0
    else ExcusedCount(tally[..|tally| - 1]) + if tally[|tally| - 1].excused then 1 else 0
  }

  ghost predicate Inv(m: Machine) {
    && Aligned(m)
    && (forall id: nat :: HasRow(m.rows, id) ==> RowCountsOk(m, id) && RowRiskContained(m, id))
    && (forall a :: a in m.live ==> SafeStage(m.live[a]))
    && ExcusedCount(m.tally) <= m.excuses
  }

  /** A record is never started again, and once it left started it gets no new executing attempt. */
  ghost predicate StaysClosed(m: Machine, after: Machine, id: nat)
    requires HasRow(m.rows, id)
  {
    && HasRow(after.rows, id)
    && after.rows[id - 1].key == m.rows[id - 1].key
    && after.rows[id - 1].payload == m.rows[id - 1].payload
    && after.rows[id - 1].policy == m.rows[id - 1].policy
    && (m.rows[id - 1].status != Started ==>
          after.rows[id - 1].status != Started && LiveOn(after, id) <= LiveOn(m, id))
  }

  ghost predicate Evolves(m: Machine, after: Machine) {
    forall id: nat :: HasRow(m.rows, id) ==> StaysClosed(m, after, id)
  }

  lemma {:induction false} ExcusedCountSame(s: seq<Tally>, t: seq<Tally>)
    requires |s| == |t| && forall i :: 0 <= i < |s| ==> s[i].excused == t[i].excused
    ensures ExcusedCount(s) == ExcusedCount(t)
  {
    if s != [] {
      ExcusedCountSame(s[..|s| - 1], t[..|t| - 1]);
    }
  }

  // ------------------------------------------------ what each primitive step keeps

  lemma SameLive(m: Machine, after: Machine, k: nat)
    requires after.live == m.live
    ensures LiveOn(after, k) == LiveOn(m, k) && GrantedOn(after, k) == GrantedOn(m, k)
  {
  }

  lemma RecordedRow(m: Machine, r: Record, excused: bool, k: nat)
    requires Aligned(m) && HasRow(m.rows, k) && RowCountsOk(m, k) && RowRiskContained(m, k)
    ensures var after := Recorded(m, r, excused);
      |after.tally| == |after.rows| && HasRow(after.rows, k) && RowCountsOk(after, k) && RowRiskContained(after, k) &&
      StaysClosed(m, after, k)
  {
    SameLive(m, Recorded(m, r, excused), k);
    hide LiveOn, GrantedOn, Aligned, FindRow;
  }

  lemma RecordedNew(m: Machine, r: Record, excused: bool)
    requires Aligned(m) && FindRow(m.rows, r.key).None?
    requires Risky(r.payload) && r.policy != Deny ==> excused || Blocked(r.status)
    ensures var after, k := Recorded(m, r, excused), |m.rows| + 1;
      |after.tally| == |after.rows| && HasRow(after.rows, k) && RowCountsOk(after, k) && RowRiskContained(after, k)
  {
    var after, k := Recorded(m, r, excused), |m.rows| + 1;
    assert LiveOn(after, k) == {} && GrantedOn(after, k) == {};
    hide LiveOn, GrantedOn, Aligned, FindRow;
  }

  lemma RecordedRest(m: Machine, r: Record, excused: bool)
    requires Aligned(m) && ExcusedCount(m.tally) <= m.excuses
    ensures var after := Recorded(m, r, excused);
      && Aligned(after) && after.live == m.live && ExcusedCount(after.tally) <= after.excuses
      && |after.rows| == if FindRow(m.rows, r.key).Some? then |m.rows| else |m.rows| + 1
  {
    var after := Recorded(m, r, excused);
    if FindRow(m.rows, r.key).None? {
      assert after.tally[..|after.tally| - 1] == m.tally;
    }
  }

  lemma RecordedKeeps(m: Machine, r: Record, excused: bool)
    requires Inv(m)
    requires Risky(r.payload) && r.policy != Deny ==> excused || Blocked(r.status)
    ensures Inv(Recorded(m, r, excused)) && Evolves(m, Recorded(m, r, excused))
    ensures HasRow(Recorded(m, r, excused).rows, InsertedId(m.rows, r))
    ensures |Recorded(m, r, excused).tally| == |Recorded(m, r, excused).rows|
  {
    RecordedRest(m, r, excused);
    RecordedLive(m, r, excused);
    hide LiveOn, GrantedOn, Recorded, RowCountsOk, RowRiskContained, StaysClosed, ExcusedCount, SafeStage, Insert;
    var after := Recorded(m, r, excused);
    forall k: nat | HasRow(after.rows, k) ensures RowCountsOk(after, k) && RowRiskContained(after, k) {
      if k <= |m.rows| {
        RecordedRow(m, r, excused, k);
      } else {
        RecordedNew(m, r, excused);
      }
    }
    forall k: nat | HasRow(m.rows, k) ensures StaysClosed(m, after, k) {
      RecordedRow(m, r, excused, k);
    }
  }

  lemma SetStage(m: Machine, after: Machine, a: nat, s: Stage, k: nat)
    requires after.live == m.live[a := s]
    ensures LiveOn(after, k) == if Executing(s) && s.row == k then LiveOn(m, k) + {a} else LiveOn(m, k) - {a}
    ensures GrantedOn(after, k) == if s.Granted? && s.row == k then GrantedOn(m, k) + {a} else GrantedOn(m, k) - {a}
    ensures a in LiveOn(m, k) <==> a in m.live && Executing(m.live[a]) && m.live[a].row == k
    ensures a in GrantedOn(m, k) <==> a in m.live && m.live[a].Granted? && m.live[a].row == k
  {
    assert forall x :: x != a ==> (x in m.live <==> x in after.live);
    assert forall x :: x != a && x in m.live ==> after.live[x] == m.live[x];
    if Executing(s) && s.row == k {
      assert LiveOn(after, k) == LiveOn(m, k) + {a};
    } else {
      assert LiveOn(after, k) == LiveOn(m, k) - {a};
    }
    if s.Granted? && s.row == k {
      assert GrantedOn(after, k) == GrantedOn(m, k) + {a};
    } else {
      assert GrantedOn(after, k) == GrantedOn(m, k) - {a};
    }
  }

  lemma DropStage(m: Machine, after: Machine, a: nat, k: nat)
    requires after.live == m.live - {a} && a in m.live
    ensures LiveOn(after, k) == LiveOn(m, k) - {a} && GrantedOn(after, k) == GrantedOn(m, k) - {a}
    ensures a in LiveOn(m, k) <==> Executing(m.live[a]) && m.live[a].row == k
    ensures a in GrantedOn(m, k) <==> m.live[a].Granted? && m.live[a].row == k
  {
  }

  lemma GrantKeeps(m: Machine, a: nat, id: nat, call: ToolCall, approval: Option<nat>)
    requires Inv(m) && HasRow(m.rows, id) && a !in m.live
    requires !Forbidden(call) && (approval.None? ==> call.tier == Read)
    ensures Inv(GrantOrReplay(m, a, id, call, approval)) && Evolves(m, GrantOrReplay(m, a, id, call, approval))
  {
    DestructiveForbidden(call);
    hide LiveOn, GrantedOn, Forbidden, ExcusedCount;
    var after := GrantOrReplay(m, a, id, call, approval);
    if m.rows[id - 1].status != Started {
      EvolvesRefl(m);
    } else {
      ExcusedCountSame(m.tally, after.tally);
      forall k: nat | HasRow(m.rows, k)
        ensures RowCountsOk(after, k) && RowRiskContained(after, k) && StaysClosed(m, after, k)
      {
        assert RowCountsOk(m, k) && RowRiskContained(m, k);
        if k == id {
          GrantedRowCounts(m, a, id, call, approval);
        } else {
          OtherRowCounts(m, a, id, call, approval, k);
        }
        GrantRowRest(m, a, id, call, approval, k);
      }
    }
  }

  lemma GrantedRowCounts(m: Machine, a: nat, id: nat, call: ToolCall, approval: Option<nat>)
    requires Aligned(m) && HasRow(m.rows, id) && a !in m.live && m.rows[id - 1].status == Started
    requires RowCountsOk(m, id)
    ensures RowCountsOk(GrantOrReplay(m, a, id, call, approval), id)
  {
    var after := GrantOrReplay(m, a, id, call, approval);
    SetStage(m, after, a, Granted(id, call, approval), id);
    hide LiveOn, GrantedOn, Aligned;
    AddOne(LiveOn(m, id), a);
    AddOne(GrantedOn(m, id), a);
    var t, u := m.tally[id - 1], after.tally[id - 1];
    assert u.begun == t.begun + 1 && u.completed == t.completed && u.abandoned == t.abandoned && u.execs == t.execs;
  }

  lemma OtherRowCounts(m: Machine, a: nat, id: nat, call: ToolCall, approval: Option<nat>, k: nat)
    requires Aligned(m) && HasRow(m.rows, id) && a !in m.live && m.rows[id - 1].status == Started
    requires HasRow(m.rows, k) && RowCountsOk(m, k) && k != id
    ensures RowCountsOk(GrantOrReplay(m, a, id, call, approval), k)
  {
    hide LiveOn, GrantedOn;
    var after := GrantOrReplay(m, a, id, call, approval);
    SetStage(m, after, a, Granted(id, call, approval), k);
    hide Aligned;
    assert after.tally[k - 1] == m.tally[k - 1];
    assert LiveOn(after, k) == LiveOn(m, k);
    assert GrantedOn(after, k) == GrantedOn(m, k);
  }

  lemma AddOne(s: set<nat>, a: nat)
    requires a !in s
    ensures |s + {a}| == |s| + 1
    ensures s != {} ==> |s| >= 1
  {
  }

  lemma GrantRowRest(m: Machine, a: nat, id: nat, call: ToolCall, approval: Option<nat>, k: nat)
    requires Aligned(m) && HasRow(m.rows, id) && a !in m.live && m.rows[id - 1].status == Started
    requires HasRow(m.rows, k) && RowRiskContained(m, k)
    ensures var after := GrantOrReplay(m, a, id, call, approval);
      RowRiskContained(after, k) && StaysClosed(m, after, k)
  {
    SetStage(m, GrantOrReplay(m, a, id, call, approval), a, Granted(id, call, approval), k);
    hide LiveOn, GrantedOn, Aligned;
  }

  lemma WaitingRow(m: Machine, a: nat, s: Stage, k: nat)
    requires |m.tally| == |m.rows| && HasRow(m.rows, k) && RowCountsOk(m, k) && RowRiskContained(m, k)
    requires !Executing(s) && (a in m.live ==> !Executing(m.live[a]))
    ensures var after := Waiting(m, a, s);
      RowCountsOk(after, k) && RowRiskContained(after, k) && StaysClosed(m, after, k)
  {
    hide LiveOn, GrantedOn;
    var after := Waiting(m, a, s);
    SetStage(m, after, a, s, k);
    assert LiveOn(after, k) == LiveOn(m, k) && GrantedOn(after, k) == GrantedOn(m, k);
  }

  lemma WaitingKeeps(m: Machine, a: nat, s: Stage)
    requires Inv(m) && HasRow(m.rows, s.row) && !Executing(s) && (a in m.live ==> !Executing(m.live[a]))
    ensures Inv(Waiting(m, a, s)) && Evolves(m, Waiting(m, a, s))
  {
    hide LiveOn, GrantedOn, Forbidden, ExcusedCount, RowCountsOk, RowRiskContained, StaysClosed;
    var after := Waiting(m, a, s);
    forall k: nat | HasRow(m.rows, k)
      ensures RowCountsOk(after, k) && RowRiskContained(after, k) && StaysClosed(m, after, k)
    {
      WaitingRow(m, a, s, k);
    }
  }

  lemma RemoveOne(s: set<nat>, a: nat)
    requires a in s
    ensures |s - {a}| == |s| - 1
  {
  }

  lemma ExecutorCalledCounts(m: Machine, a: nat, execution: Execution, k: nat)
    requires Aligned(m) && a in m.live && HasRow(m.rows, k) && RowCountsOk(m, k)
    requires m.live[a].Granted?
    ensures |ExecutorCalled(m, a, execution).tally| == |m.rows| && RowCountsOk(ExecutorCalled(m, a, execution), k)
  {
    assert HasRow(m.rows, m.live[a].row);
    ExecutorCalledSets(m, a, execution, k);
    hide LiveOn, GrantedOn, Aligned;
  }

  lemma ExecutorCalledSets(m: Machine, a: nat, execution: Execution, k: nat)
    requires Aligned(m) && a in m.live && m.live[a].Granted?
    ensures var after := ExecutorCalled(m, a, execution);
      && LiveOn(after, k) == LiveOn(m, k)
      && |GrantedOn(m, k)| == |GrantedOn(after, k)| + if k == m.live[a].row then 1 else 0
  {
    var after := ExecutorCalled(m, a, execution);
    hide LiveOn, GrantedOn;
    SetStage(m, after, a, after.live[a], k);
    hide Aligned, ExecutorCalled;
    if k == m.live[a].row {
      RemoveOne(GrantedOn(m, k), a);
    }
    assert LiveOn(after, k) == LiveOn(m, k);
    assert k != m.live[a].row ==> GrantedOn(after, k) == GrantedOn(m, k);
  }

  lemma ExecutorCalledRow(m: Machine, a: nat, execution: Execution, k: nat)
    requires Aligned(m) && a in m.live && HasRow(m.rows, k) && RowRiskContained(m, k)
    requires m.live[a].Granted?
    ensures Aligned(ExecutorCalled(m, a, execution))
    ensures RowRiskContained(ExecutorCalled(m, a, execution), k) && StaysClosed(m, ExecutorCalled(m, a, execution), k)
  {
    hide LiveOn, GrantedOn;
    var after := ExecutorCalled(m, a, execution);
    SetStage(m, after, a, after.live[a], k);
  }

  lemma ExecutorCalledKeeps(m: Machine, a: nat, execution: Execution)
    requires Inv(m) && a in m.live
    requires m.live[a].Granted?
    ensures Inv(ExecutorCalled(m, a, execution)) && Evolves(m, ExecutorCalled(m, a, execution))
  {
    hide LiveOn, GrantedOn, Forbidden, ExcusedCount, RowCountsOk, RowRiskContained, StaysClosed;
    var after := ExecutorCalled(m, a, execution);
    ExcusedCountSame(m.tally, after.tally);
    forall k: nat | HasRow(m.rows, k)
      ensures RowCountsOk(after, k) && RowRiskContained(after, k) && StaysClosed(m, after, k)
    {
      ExecutorCalledCounts(m, a, execution, k);
      ExecutorCalledRow(m, a, execution, k);
    }
  }

  /** Dropping an attempt takes one from the sets it is in. */
  lemma DropCounts(m: Machine, after: Machine, a: nat, k: nat)
    requires after.live == m.live - {a} && a in m.live
    ensures |LiveOn(m, k)| == |LiveOn(after, k)| + if Executing(m.live[a]) && m.live[a].row == k then 1 else 0
    ensures |GrantedOn(m, k)| == |GrantedOn(after, k)| + if m.live[a].Granted? && m.live[a].row == k then 1 else 0
  {
    hide LiveOn, GrantedOn;
    DropStage(m, after, a, k);
    if a in LiveOn(m, k) { RemoveOne(LiveOn(m, k), a); } else { assert LiveOn(after, k) == LiveOn(m, k); }
    if a in GrantedOn(m, k) { RemoveOne(GrantedOn(m, k), a); } else { assert GrantedOn(after, k) == GrantedOn(m, k); }
  }

  lemma ClosedCounts(m: Machine, a: nat, status: ResultStatus, approval: Option<nat>, k: nat)
    requires Aligned(m) && a in m.live && HasRow(m.rows, k) && RowCountsOk(m, k)
    requires m.live[a].Executed? || (!Executing(m.live[a]) && Blocked(status))
    ensures Aligned(Closed(m, a, status, approval)) && RowCountsOk(Closed(m, a, status, approval), k)
  {
    DropCounts(m, Closed(m, a, status, approval), a, k);
    hide LiveOn, GrantedOn;
  }

  lemma ClosedRow(m: Machine, a: nat, status: ResultStatus, approval: Option<nat>, k: nat)
    requires Aligned(m) && a in m.live && HasRow(m.rows, k) && RowRiskContained(m, k)
    requires m.live[a].Executed? || (!Executing(m.live[a]) && Blocked(status))
    ensures Aligned(Closed(m, a, status, approval))
    ensures RowRiskContained(Closed(m, a, status, approval), k) && StaysClosed(m, Closed(m, a, status, approval), k)
  {
    hide LiveOn, GrantedOn;
    var after := Closed(m, a, status, approval);
    DropStage(m, after, a, k);
  }

  lemma ClosedKeeps(m: Machine, a: nat, status: ResultStatus, approval: Option<nat>)
    requires Inv(m) && a in m.live
    requires m.live[a].Executed? || (!Executing(m.live[a]) && Blocked(status))
    ensures Inv(Closed(m, a, status, approval)) && Evolves(m, Closed(m, a, status, approval))
  {
    hide LiveOn, GrantedOn, Forbidden, ExcusedCount, RowCountsOk, RowRiskContained, StaysClosed;
    var after := Closed(m, a, status, approval);
    ExcusedCountSame(m.tally, after.tally);
    forall k: nat | HasRow(m.rows, k)
      ensures RowCountsOk(after, k) && RowRiskContained(after, k) && StaysClosed(m, after, k)
    {
      ClosedCounts(m, a, status, approval, k);
      ClosedRow(m, a, status, approval, k);
    }
  }

  lemma CrashedCounts(m: Machine, a: nat, k: nat)
    requires Aligned(m) && a in m.live && HasRow(m.rows, k) && RowCountsOk(m, k)
    ensures Aligned(Crashed(m, a)) && RowCountsOk(Crashed(m, a), k)
  {
    DropCounts(m, Crashed(m, a), a, k);
    hide LiveOn, GrantedOn;
  }

  lemma CrashedRow(m: Machine, a: nat, k: nat)
    requires Aligned(m) && a in m.live && HasRow(m.rows, k) && RowRiskContained(m, k)
    ensures Aligned(Crashed(m, a))
    ensures RowRiskContained(Crashed(m, a), k) && StaysClosed(m, Crashed(m, a), k)
  {
    hide LiveOn, GrantedOn;
    var after := Crashed(m, a);
    DropStage(m, after, a, k);
  }

  lemma CrashedKeeps(m: Machine, a: nat)
    requires Inv(m) && a in m.live
    ensures Inv(Crashed(m, a)) && Evolves(m, Crashed(m, a))
  {
    hide LiveOn, GrantedOn, Forbidden, ExcusedCount, RowCountsOk, RowRiskContained, StaysClosed;
    var after := Crashed(m, a);
    ExcusedCountSame(m.tally, after.tally);
    forall k: nat | HasRow(m.rows, k)
      ensures RowCountsOk(after, k) && RowRiskContained(after, k) && StaysClosed(m, after, k)
    {
      CrashedCounts(m, a, k);
      CrashedRow(m, a, k);
    }
  }

  lemma RecoveredRow(m: Machine, id: nat, k: nat)
    requires Aligned(m) && HasRow(m.rows, id) && m.rows[id - 1].status == Started
    requires HasRow(m.rows, k) && RowCountsOk(m, k) && RowRiskContained(m, k)
    ensures var after := Recovered(m, id);
      && Aligned(after) && RowCountsOk(after, k) && RowRiskContained(after, k) && StaysClosed(m, after, k)
  {
    SameLive(m, Recovered(m, id), k);
    hide LiveOn, GrantedOn;
  }

  lemma RecoveredKeeps(m: Machine, id: nat)
    requires Inv(m) && HasRow(m.rows, id) && m.rows[id - 1].status == Started
    ensures Inv(Recovered(m, id)) && Evolves(m, Recovered(m, id))
  {
    hide LiveOn, GrantedOn, RowCountsOk, RowRiskContained, StaysClosed, ExcusedCount, SafeStage;
    var after := Recovered(m, id);
    forall k: nat | HasRow(m.rows, k)
      ensures RowCountsOk(after, k) && RowRiskContained(after, k) && StaysClosed(m, after, k)
    {
      RecoveredRow(m, id, k);
    }
  }

  lemma EvolvesRefl(m: Machine)
    ensures Evolves(m, m)
  {
  }

  lemma EvolvesJoin(a: Machine, b: Machine, c: Machine)
    requires Evolves(a, b) && Evolves(b, c)
    ensures Evolves(a, c)
  {
    forall id: nat | HasRow(a.rows, id) ensures StaysClosed(a, c, id) {
      assert StaysClosed(a, b, id) && StaysClosed(b, c, id);
    }
  }

  lemma RunBeginsKeeps(m: Machine, a: nat, call: ToolCall, policy: PolicyAction)
    requires Inv(m) && a !in m.live
    ensures Inv(RunBegins(m, a, call, policy)) && Evolves(m, RunBegins(m, a, call, policy))
  {
    hide Inv, Evolves, Recorded, GrantOrReplay, Waiting, Classify;
    var effective := EffectivePolicy(call, policy);
    var blocked := BlockedStatus(call, effective);
    var status := if blocked.Some? then blocked.value else Started;
    var r := StoredRecord(call, call.key, effective, status,
                          if blocked.Some? then StoredResult(blocked, None) else NoResult);
    var recorded, id := Recorded(m, r, false), InsertedId(m.rows, r);
    RecordedKeeps(m, r, false);
    RecordedLive(m, r, false);
    if blocked.None? {
      GrantKeeps(recorded, a, id, call, None);
      EvolvesJoin(m, recorded, GrantOrReplay(recorded, a, id, call, None));
    } else if status == NeedsApproval {
      var s := Asking(id, call, recorded.rows[id - 1].result.approvalId);
      WaitingKeeps(recorded, a, s);
      EvolvesJoin(m, recorded, Waiting(recorded, a, s));
    }
  }

  lemma RecordedLive(m: Machine, r: Record, excused: bool)
    ensures Recorded(m, r, excused).live == m.live
    ensures Recorded(m, r, excused).approvals == m.approvals
    ensures Recorded(m, r, excused).rows == Insert(m.rows, r)
    ensures |m.tally| == |m.rows| ==> |Recorded(m, r, excused).tally| == |Insert(m.rows, r)|
  {
  }

  lemma ApprovedBeginsKeeps(m: Machine, a: nat, call: ToolCall, approval: nat, policy: PolicyAction)
    requires Inv(m) && a !in m.live
    ensures Inv(ApprovedBegins(m, a, call, approval, policy))
    ensures Evolves(m, ApprovedBegins(m, a, call, approval, policy))
  {
    DestructiveForbidden(call);
    hide Inv, Evolves, Recorded, GrantOrReplay, Waiting, Classify, ApprovalKey;
    var effective, key := EffectivePolicy(call, policy), ApprovalKey(call.key, approval);
    if effective == Deny {
      var r := StoredRecord(call, key, effective, PolicyDenied, StoredResult(Some(PolicyDenied), Some(approval)));
      RecordedKeeps(m, r, false);
      RecordedLive(m, r, false);
      var s := Denying(InsertedId(m.rows, r), approval);
      WaitingKeeps(Recorded(m, r, false), a, s);
      EvolvesJoin(m, Recorded(m, r, false), Waiting(Recorded(m, r, false), a, s));
    } else {
      var r := StoredRecord(call, key, effective, Started, NoResult);
      var recorded, id := Recorded(m, r, call.tier == Network), InsertedId(m.rows, r);
      RecordedKeeps(m, r, call.tier == Network);
      RecordedLive(m, r, call.tier == Network);
      GrantKeeps(recorded, a, id, call, Some(approval));
      EvolvesJoin(m, recorded, GrantOrReplay(recorded, a, id, call, Some(approval)));
    }
  }

  lemma AuditedKeeps(m: Machine, call: ToolCall, given: ToolResult, policy: PolicyAction)
    requires Inv(m)
    ensures Inv(Audited(m, call, given, policy)) && Evolves(m, Audited(m, call, given, policy))
  {
    DestructiveForbidden(call);
    hide Inv, Evolves, Recorded, Classify;
    var effective := EffectivePolicy(call, policy);
    var audited := AuditedResult(call, given, effective);
    RecordedKeeps(m, StoredRecord(call, call.key, effective, audited.status, Stored(audited)),
                  RiskyAudit(call, given, policy));
  }

  lemma AskedElsewhereKeeps(m: Machine, approval: Approval)
    requires Inv(m)
    ensures Inv(AskedElsewhere(m, approval)) && Evolves(m, AskedElsewhere(m, approval))
  {
    var more := AskedElsewhere(m, approval);
    forall k: nat | HasRow(m.rows, k)
      ensures RowCountsOk(more, k) && RowRiskContained(more, k) && StaysClosed(m, more, k)
    {
      assert RowCountsOk(m, k) && RowRiskContained(m, k);
      assert LiveOn(more, k) == LiveOn(m, k) && GrantedOn(more, k) == GrantedOn(m, k);
    }
  }

  lemma ApprovalCreatedKeeps(m: Machine, a: nat)
    requires Inv(m) && a in m.live && m.live[a].Asking?
    ensures Inv(ApprovalCreated(m, a)) && Evolves(m, ApprovalCreated(m, a))
  {
    var s := Asking(m.live[a].row, m.live[a].call, Some(|m.approvals| + 1));
    var approval := Approval(m.live[a].call.task, m.live[a].call.iteration, FromBroker);
    var more := AskedElsewhere(m, approval);
    AskedElsewhereKeeps(m, approval);
    WaitingKeeps(more, a, s);
    EvolvesJoin(m, more, Waiting(more, a, s));
  }

  /** The steps of an attempt under way. */
  lemma AttemptKeeps(m: Machine, l: Label)
    requires Inv(m) && Enabled(m, l)
    requires l.Execute? || l.CompleteExecuted? || l.CreateApproval? || l.FinishAsk? || l.FinishDeny? || l.Crash?
    ensures Inv(Next(m, l)) && Evolves(m, Next(m, l))
  {
    assert Aligned(m);
    hide Inv, Evolves, ExecutorCalled, Closed, ApprovalCreated, Crashed, Aligned;
    match l
    case Execute(a, execution) => ExecutorCalledKeeps(m, a, execution);
    case CompleteExecuted(a) => ClosedKeeps(m, a, m.live[a].result.status, ReportedApproval(m.live[a]));
    case CreateApproval(a) => ApprovalCreatedKeeps(m, a);
    case FinishAsk(a) => ClosedKeeps(m, a, NeedsApproval, m.live[a].approval);
    case FinishDeny(a) => ClosedKeeps(m, a, PolicyDenied, Some(m.live[a].denied));
    case Crash(a) => CrashedKeeps(m, a);
  }

  /** Every step keeps the tallies, the gating and the containment of risk, and restarts nothing. */
  lemma NextKeeps(m: Machine, l: Label)
    requires Inv(m) && Enabled(m, l)
    ensures Inv(Next(m, l)) && Evolves(m, Next(m, l))
  {
    assert Aligned(m);
    hide Inv, Evolves, RunBegins, ApprovedBegins, Audited, Recovered;
    hide Aligned, ValidCall;
    match l
    case BeginRun(a, call, policy) => RunBeginsKeeps(m, a, call, policy);
    case BeginApproved(a, call, approval, policy) => ApprovedBeginsKeeps(m, a, call, approval, policy);
    case Audit(call, given, policy) => AuditedKeeps(m, call, given, policy);
    case Recover(id) => RecoveredKeeps(m, id);
    case AskElsewhere(task, iteration, command) =>
      AskedElsewhereKeeps(m, Approval(task, iteration, FromOther(command)));
    case _ => AttemptKeeps(m, l);
  }

  // ------------------------------------------------------------------- histories

  ghost predicate Fits(m: Machine, l: Label) {
    Aligned(m) && Enabled(m, l)
  }

  /** Any list of labels is a history; labels that do not fit where they come up are skipped. */
  ghost function Run(m: Machine, labels: seq<Label>): Machine {
    if labels == [] then m
    else
      var before, l := Run(m, labels[..|labels| - 1]), labels[|labels| - 1];
      if Fits(before, l) then Next(before, l) else before
  }

  lemma {:induction false} RunKeeps(m: Machine, labels: seq<Label>)
    requires Inv(m)
    ensures Inv(Run(m, labels)) && Evolves(m, Run(m, labels))
  {
    hide Inv, Evolves, Next;
    if labels == [] {
      EvolvesRefl(m);
    } else {
      var before, l := Run(m, labels[..|labels| - 1]), labels[|labels| - 1];
      RunKeeps(m, labels[..|labels| - 1]);
      if Fits(before, l) {
        NextKeeps(before, l);
        EvolvesJoin(m, before, Next(before, l));
      }
    }
  }

  lemma InitialInv()
    ensures Inv(InitialMachine)
  {
  }

  /**
   * At most once: whatever the history of runs, approved runs, crashes, recoveries and policy changes, the
   * executor calls under one record key number at most one, plus the attempts abandoned before completion,
   * plus the attempts that began while another was still under way.
   */
  lemma AtMostOnce(labels: seq<Label>, id: nat)
    requires HasRow(Run(InitialMachine, labels).rows, id)
    ensures var m := Run(InitialMachine, labels);
      |m.tally| == |m.rows| && m.tally[id - 1].execs <= 1 + m.tally[id - 1].abandoned + m.tally[id - 1].overlaps
  {
    InitialInv();
    RunKeeps(InitialMachine, labels);
    assert RowCountsOk(Run(InitialMachine, labels), id);
  }

  /** Over any further history a record that left started is never started or executed for again. */
  lemma NeverRestarted(before: seq<Label>, more: seq<Label>, id: nat)
    requires HasRow(Run(InitialMachine, before).rows, id)
    ensures StaysClosed(Run(InitialMachine, before), Run(Run(InitialMachine, before), more), id)
  {
    InitialInv();
    RunKeeps(InitialMachine, before);
    RunKeeps(Run(InitialMachine, before), more);
  }

  /** A recovery fails a started record, with no result and no lease, and nothing starts it again. */
  lemma RecoveryCloses(before: seq<Label>, more: seq<Label>, id: nat)
    requires Fits(Run(InitialMachine, before), Recover(id))
    ensures var m, after := Run(InitialMachine, before), Run(InitialMachine, before + [Recover(id)]);
      var r := m.rows[id - 1];
      && r.status == Started && HasRow(after.rows, id)
      && after.rows[id - 1] ==
         Record(r.task, r.iteration, r.key, r.actionType, Failed, r.policy, r.payload, NoResult, NoLease)
      && (forall i :: 0 <= i < |m.rows| && i != id - 1 ==> after.rows[i] == m.rows[i]) && |after.rows| == |m.rows|
      && StaysClosed(after, Run(after, more), id)
  {
    RunAppend(InitialMachine, before, Recover(id));
    NeverRestarted(before + [Recover(id)], more, id) by {
      hide StaysClosed, Run;
    }
    hide Run, StaysClosed;
  }

  /** Whatever the history, an attempt at the executor carries a call that may be executed. */
  lemma OnlySafeCallsExecute(labels: seq<Label>, a: nat)
    requires a in Run(InitialMachine, labels).live && Executing(Run(InitialMachine, labels).live[a])
    ensures SafeStage(Run(InitialMachine, labels).live[a])
  {
    InitialInv();
    RunKeeps(InitialMachine, labels);
  }

  // ------------------------------------------------------- the price of an overlap

  /** Steps in which attempts under way call their executors, and nothing else happens. */
  ghost predicate OnlyExecutes(labels: seq<Label>) {
    forall i :: 0 <= i < |labels| ==> labels[i].Execute?
  }

  lemma ExecuteKeepsTally(m: Machine, l: Label, id: nat)
    requires Fits(m, l) && l.Execute? && HasRow(m.rows, id) && |m.tally| == |m.rows|
    ensures var after := Next(m, l);
      && after.rows == m.rows && |after.tally| == |m.tally|
      && after.tally[id - 1].overlaps == m.tally[id - 1].overlaps
      && after.tally[id - 1].abandoned == m.tally[id - 1].abandoned
  {
  }

  lemma {:induction false} ExecutesKeepTally(m: Machine, labels: seq<Label>, id: nat)
    requires Inv(m) && HasRow(m.rows, id) && OnlyExecutes(labels)
    ensures var after := Run(m, labels);
      && Inv(after) && after.rows == m.rows && |after.tally| == |m.tally| == |m.rows|
      && after.tally[id - 1].overlaps == m.tally[id - 1].overlaps
      && after.tally[id - 1].abandoned == m.tally[id - 1].abandoned
  {
    hide Next;
    if labels != [] {
      var before, l := Run(m, labels[..|labels| - 1]), labels[|labels| - 1];
      ExecutesKeepTally(m, labels[..|labels| - 1], id);
      hide Inv;
      if Fits(before, l) {
        ExecuteKeepsTally(before, l, id);
        NextKeeps(before, l);
      }
    }
  }

  /** The record saw `n` more executor calls from `m` to `after`. */
  ghost predicate MoreCalls(m: Machine, after: Machine, id: nat, n: nat) {
    && HasRow(m.rows, id) && after.rows == m.rows && |m.tally| == |m.rows| == |after.tally|
    && after.tally[id - 1].execs == m.tally[id - 1].execs + n
  }

  /** Every granted attempt on the record can still call its executor. */
  lemma {:induction false} ExecuteAll(m: Machine, id: nat) returns (labels: seq<Label>)
    requires Inv(m) && HasRow(m.rows, id)
    ensures OnlyExecutes(labels) && MoreCalls(m, Run(m, labels), id, |GrantedOn(m, id)|)
    decreases |GrantedOn(m, id)|
  {
    hide *;
    if GrantedOn(m, id) == {} {
      labels := [];
      NoCallsLeft(m, id);
    } else {
      var a :| a in GrantedOn(m, id);
      ExecuteFits(m, a, id);
      var after := Next(m, Execute(a, Raised));
      ExecuteOne(m, a, id);
      StillThere(m, after, id);
      var rest := ExecuteAll(after, id);
      labels := [Execute(a, Raised)] + rest;
      RunFirst(m, Execute(a, Raised), rest);
      MoreThenMore(m, a, rest, id);
    }
  }

  lemma NoCallsLeft(m: Machine, id: nat)
    requires Inv(m) && HasRow(m.rows, id) && GrantedOn(m, id) == {}
    ensures OnlyExecutes([]) && MoreCalls(m, Run(m, []), id, |GrantedOn(m, id)|)
  {
    assert |m.tally| == |m.rows|;
    hide Inv, GrantedOn;
  }

  lemma StillThere(m: Machine, after: Machine, id: nat)
    requires MoreCalls(m, after, id, 1)
    ensures HasRow(after.rows, id)
  {
  }

  lemma MoreThenMore(m: Machine, a: nat, rest: seq<Label>, id: nat)
    requires Fits(m, Execute(a, Raised)) && OnlyExecutes(rest)
    requires var after := Next(m, Execute(a, Raised));
      MoreCalls(m, after, id, 1) && |GrantedOn(m, id)| == |GrantedOn(after, id)| + 1 &&
      MoreCalls(after, Run(after, rest), id, |GrantedOn(after, id)|)
    ensures OnlyExecutes([Execute(a, Raised)] + rest)
    ensures MoreCalls(m, Run(Next(m, Execute(a, Raised)), rest), id, |GrantedOn(m, id)|)
  {
    hide Next, Run, GrantedOn, Fits;
  }

  lemma ExecuteFits(m: Machine, a: nat, id: nat)
    requires Inv(m) && HasRow(m.rows, id) && a in GrantedOn(m, id)
    ensures Aligned(m) && Enabled(m, Execute(a, Raised)) && Fits(m, Execute(a, Raised))
    ensures Inv(Next(m, Execute(a, Raised)))
  {
    NextKeeps(m, Execute(a, Raised));
    hide Next, LiveOn, RowCountsOk, RowRiskContained;
  }

  lemma ExecuteOne(m: Machine, a: nat, id: nat)
    requires Aligned(m) && HasRow(m.rows, id) && a in GrantedOn(m, id)
    ensures var after := Next(m, Execute(a, Raised));
      MoreCalls(m, after, id, 1) && |GrantedOn(m, id)| == |GrantedOn(after, id)| + 1
  {
    ExecutorCalledSets(m, a, Raised, id);
    hide LiveOn;
  }

  lemma {:induction false} RunFirst(m: Machine, l: Label, rest: seq<Label>)
    requires Fits(m, l)
    ensures Run(m, [l] + rest) == Run(Next(m, l), rest)
  {
    hide Next, Fits;
    if rest == [] {
      assert [l] + rest == [] + [l];
      RunAppend(m, [], l);
      RunStart(m);
    } else {
      var last := |rest| - 1;
      RunFirst(m, l, rest[..last]);
      assert ([l] + rest)[..|[l] + rest| - 1] == [l] + rest[..last];
    }
  }

  /**
   * No overlap is the exact condition: of a record nobody abandoned, whatever its history, no attempt ever began
   * while another was under way exactly when the attempts under way cannot bring its executor calls above one.
   */
  lemma OnceIffNoOverlap(labels: seq<Label>, id: nat)
    requires HasRow(Run(InitialMachine, labels).rows, id)
    requires |Run(InitialMachine, labels).tally| == |Run(InitialMachine, labels).rows|
    requires Run(InitialMachine, labels).tally[id - 1].abandoned == 0
    ensures var m := Run(InitialMachine, labels);
      m.tally[id - 1].overlaps == 0 <==>
      forall more :: OnlyExecutes(more) ==> NoMoreThanOnce(Run(m, more), id)
  {
    var m := Run(InitialMachine, labels);
    InitialInv();
    RunKeeps(InitialMachine, labels);
    hide Run, OnlyExecutes;
    if m.tally[id - 1].overlaps == 0 {
      forall more | OnlyExecutes(more) ensures NoMoreThanOnce(Run(m, more), id) {
        ExecutesKeepTally(m, more, id);
        CountsBound(Run(m, more), id);
      }
    } else {
      var more := ExecuteAll(m, id);
      CountsBound(m, id);
      assert !NoMoreThanOnce(Run(m, more), id);
    }
  }

  predicate NoMoreThanOnce(m: Machine, id: nat) {
    HasRow(m.rows, id) && |m.tally| == |m.rows| && m.tally[id - 1].execs <= 1
  }

  lemma CountsBound(m: Machine, id: nat)
    requires Inv(m) && HasRow(m.rows, id)
    ensures var t := m.tally[id - 1];
      && t.execs <= 1 + t.abandoned + t.overlaps
      && (t.abandoned == 0 ==> t.begun <= t.execs + |GrantedOn(m, id)|)
      && (t.overlaps > 0 ==> t.begun >= 2)
  {
    assert RowCountsOk(m, id);
    hide LiveOn, GrantedOn;
  }

  lemma RunAppend(m: Machine, labels: seq<Label>, l: Label)
    ensures Run(m, labels + [l]) == if Fits(Run(m, labels), l) then Next(Run(m, labels), l) else Run(m, labels)
  {
    assert (labels + [l])[..|labels|] == labels;
  }

  /** The broker takes no lease: two overlapping runs of one key both reach the executor. */
  lemma OverlapRunsTwice(call: ToolCall)
    requires ValidCall(call) && call.tier == Read && !Forbidden(call)
    ensures var m := Run(InitialMachine, [BeginRun(0, call, Allow), BeginRun(1, call, Allow),
                                          Execute(0, Raised), Execute(1, Raised)]);
      |m.rows| == 1 && m.tally == [ZeroTally.(begun := 2, execs := 2, overlaps := 1)]
  {
    var r := StoredRecord(call, call.key, Allow, Started, NoResult);
    var first, second := BeginRun(0, call, Allow), BeginRun(1, call, Allow);
    var labels := [first, second, Execute(0, Raised), Execute(1, Raised)];
    OverlapBegins(call);
    OverlapExecutes(call, r);
    hide *;
    RunStart(InitialMachine);
    RunAppend(InitialMachine, [], first);
    RunAppend(InitialMachine, [first], second);
    RunAppend(InitialMachine, [first, second], Execute(0, Raised));
    RunAppend(InitialMachine, [first, second, Execute(0, Raised)], Execute(1, Raised));
    assert [] + [first] == [first] && [first] + [second] == [first, second];
    assert [first, second] + [Execute(0, Raised)] == [first, second, Execute(0, Raised)];
    assert [first, second, Execute(0, Raised)] + [Execute(1, Raised)] == labels;
  }

  /** One record, two attempts at it. */
  function TwoGranted(call: ToolCall, r: Record): Machine {
    Machine([r], [], map[0 := Granted(1, call, None), 1 := Granted(1, call, None)],
            [ZeroTally.(begun := 2, overlaps := 1)], 0)
  }

  lemma OverlapBegins(call: ToolCall)
    requires ValidCall(call) && call.tier == Read && !Forbidden(call)
    ensures var l0, l1 := BeginRun(0, call, Allow), BeginRun(1, call, Allow);
      && Fits(InitialMachine, l0) && Fits(Next(InitialMachine, l0), l1)
      && Next(Next(InitialMachine, l0), l1) ==
         TwoGranted(call, StoredRecord(call, call.key, Allow, Started, NoResult))
  {
    FirstBegins(call);
    SecondBegins(call);
    hide Next, StoredRecord, Forbidden, ValidCall;
  }

  function OneGranted(call: ToolCall): Machine {
    Machine([StoredRecord(call, call.key, Allow, Started, NoResult)], [], map[0 := Granted(1, call, None)],
            [ZeroTally.(begun := 1)], 0)
  }

  lemma FirstBegins(call: ToolCall)
    requires ValidCall(call) && call.tier == Read && !Forbidden(call)
    ensures Fits(InitialMachine, BeginRun(0, call, Allow))
    ensures Next(InitialMachine, BeginRun(0, call, Allow)) == OneGranted(call)
  {
    hide Forbidden, StoredRecord, Strip, ValidCall;
    StoredStarted(call);
  }

  lemma SecondBegins(call: ToolCall)
    requires ValidCall(call) && call.tier == Read && !Forbidden(call)
    ensures Fits(OneGranted(call), BeginRun(1, call, Allow))
    ensures Next(OneGranted(call), BeginRun(1, call, Allow)) ==
            TwoGranted(call, StoredRecord(call, call.key, Allow, Started, NoResult))
  {
    hide Forbidden, StoredRecord, Strip, ValidCall;
    StoredStarted(call);
    var m := OneGranted(call);
    assert 0 in LiveOn(m, 1);
    assert FindRow(m.rows, m.rows[0].key) == Some(1);
  }

  lemma OverlapExecutes(call: ToolCall, r: Record)
    ensures var m := TwoGranted(call, r);
      && Fits(m, Execute(0, Raised)) && Fits(Next(m, Execute(0, Raised)), Execute(1, Raised))
      && var after := Next(Next(m, Execute(0, Raised)), Execute(1, Raised));
         |after.rows| == 1 && after.tally == [ZeroTally.(begun := 2, execs := 2, overlaps := 1)]
  {
  }

  lemma RunStart(m: Machine)
    ensures Run(m, []) == m
  {
  }

  lemma StoredStarted(call: ToolCall)
    ensures var r := StoredRecord(call, call.key, Allow, Started, NoResult);
      r.status == Started && r.key == Strip(call.key)
  {
  }

  // ------------------------------------------------------------- unsafe actions

  predicate Unsafe(r: Record) {
    Risky(r.payload) && r.policy != Deny && !Blocked(r.status)
  }

  function UnsafeCount(rows: seq<Record>): nat {
    if rows == [] then 0
    else UnsafeCount(rows[..|rows| - 1]) + if Unsafe(rows[|rows| - 1]) then 1 else 0
  }

  /** The records of risky calls that the policy did not deny and that were neither denied nor held. */
  function UnsafeAmong(rows: seq<Record>): set<int> {
    set i | 0 <= i < |rows| && LetThrough(rows[i])
  }

  predicate LetThrough(r: Record) {
    && (r.payload.riskTier in {Network, Destructive} || r.payload.riskClass in {Dangerous, SecretSensitive})
    && r.policy != Deny && r.status != PolicyDenied && r.status != NeedsApproval
  }

  lemma {:induction false} UnsafeIs(rows: seq<Record>)
    ensures UnsafeCount(rows) == |UnsafeAmong(rows)|
  {
    assert forall r: Record :: LetThrough(r) <==> Unsafe(r);
    hide LetThrough, Unsafe;
    if rows != [] {
      var last := |rows| - 1;
      UnsafeIs(rows[..last]);
      var before, after := UnsafeAmong(rows[..last]), UnsafeAmong(rows);
      assert forall i :: 0 <= i < last ==> rows[..last][i] == rows[i];
      assert after == before + if last in after then {last} else {};
    }
  }

  /** `_unsafe_action_count` over the stored records. */
  method UnsafeActionCount(rows: seq<Record>) returns (count: nat)
    ensures count == UnsafeCount(rows)
    ensures count == |UnsafeAmong(rows)|
  {
    UnsafeIs(rows);
    count := 0;
    for i := 0 to |rows|
      invariant count == UnsafeCount(rows[..i])
    {
      assert rows[..i + 1][..i] == rows[..i];
      var r := rows[i];
      var risky := r.payload.riskTier in {Network, Destructive} || r.payload.riskClass in {Dangerous, SecretSensitive};
      if risky && r.policy != Deny {
        if r.status != PolicyDenied && r.status != NeedsApproval {
          count := count + 1;
        }
      }
    }
    assert rows[..|rows|] == rows;
  }

  lemma {:induction false} UnsafeIsExcused(rows: seq<Record>, tally: seq<Tally>)
    requires |rows| == |tally|
    requires forall i :: 0 <= i < |rows| && Unsafe(rows[i]) ==> tally[i].excused
    ensures UnsafeCount(rows) <= ExcusedCount(tally)
  {
    if rows != [] {
      UnsafeIsExcused(rows[..|rows| - 1], tally[..|tally| - 1]);
    }
  }

  /** An approved run of a network-tier call that the gate lets through. */
  predicate ApprovedNetworkRun(l: Label) {
    l.BeginApproved? && l.call.tier == Network && EffectivePolicy(l.call, l.policy) != Deny
  }

  /** The steps the unsafe count may count a record for. */
  predicate Excusing(l: Label) {
    ApprovedNetworkRun(l) || (l.Audit? && RiskyAudit(l.call, l.given, l.policy))
  }

  function CountExcused(labels: seq<Label>): nat {
    if labels == [] then 0
    else CountExcused(labels[..|labels| - 1]) + if Excusing(labels[|labels| - 1]) then 1 else 0
  }

  lemma NextExcuses(m: Machine, l: Label)
    requires Fits(m, l)
    ensures Next(m, l).excuses == m.excuses + if Excusing(l) then 1 else 0
  {
    hide Aligned, Classify, Complete, Insert, ApprovalKey;
  }

  lemma {:induction false} RunExcuses(labels: seq<Label>)
    ensures Run(InitialMachine, labels).excuses <= CountExcused(labels)
  {
    hide Next, Fits, EffectivePolicy;
    if labels != [] {
      var before, l := Run(InitialMachine, labels[..|labels| - 1]), labels[|labels| - 1];
      RunExcuses(labels[..|labels| - 1]);
      if Fits(before, l) {
        NextExcuses(before, l);
      }
    }
  }

  /**
   * Over any history the unsafe count is at most the number of approved network-tier runs that were not denied,
   * plus the audits of network-tier calls that were let through and went wrong.
   */
  lemma UnsafeBounded(labels: seq<Label>)
    ensures UnsafeCount(Run(InitialMachine, labels).rows) <= CountExcused(labels)
  {
    var m := Run(InitialMachine, labels);
    InitialInv();
    RunKeeps(InitialMachine, labels);
    RunExcuses(labels);
    forall i | 0 <= i < |m.rows| && Unsafe(m.rows[i]) ensures m.tally[i].excused {
      assert RowRiskContained(m, i + 1);
    }
    UnsafeIsExcused(m.rows, m.tally);
  }

  /** Plain runs, recoveries, and approved runs and audits of other than network-tier calls leave the count at zero. */
  lemma UnsafeZero(labels: seq<Label>)
    requires forall i :: 0 <= i < |labels| && labels[i].BeginApproved? ==> labels[i].call.tier != Network
    requires forall i :: 0 <= i < |labels| && labels[i].Audit? ==> labels[i].call.tier != Network
    ensures UnsafeCount(Run(InitialMachine, labels).rows) == 0
  {
    UnsafeBounded(labels);
    NothingExcused(labels);
  }

  lemma {:induction false} NothingExcused(labels: seq<Label>)
    requires forall i :: 0 <= i < |labels| ==> !Excusing(labels[i])
    ensures CountExcused(labels) == 0
  {
    hide Excusing;
    if labels != [] {
      NothingExcused(labels[..|labels| - 1]);
    }
  }
}
