/** `approvals retry` over histories of runs, asks and overlapping retries: which record it finds, and what it runs. */
module ApprovalRetry {
  import opened Prelude
  import opened Text
  import opened PolicyActions
  import opened ToolCalls
  import opened ActionJournal
  import opened BrokerMachine
  import opened ToolBroker

  // ------------------------------------------------------------ trimmed strings

  lemma {:induction false} TrimLeftTrims(s: string)
    ensures TrimLeft(s) != "" ==> !IsSpace(TrimLeft(s)[0])
  {
    if s != "" && IsSpace(s[0]) {
      TrimLeftTrims(s[1..]);
    }
  }

  lemma {:induction false} TrimRightTrims(s: string)
    ensures TrimRight(s) != "" ==> !IsSpace(TrimRight(s)[|TrimRight(s)| - 1]) && TrimRight(s)[0] == s[0]
  {
    if s != "" && IsSpace(s[|s| - 1]) {
      TrimRightTrims(s[..|s| - 1]);
    }
  }

  lemma StripTrims(s: string)
    requires !Blank(s)
    ensures Trim(Strip(s))
  {
    TrimLeftTrims(s);
    TrimRightTrims(TrimLeft(s));
  }

  lemma ApprovalKeyTrim(key: string, approval: nat)
    requires key != "" && !IsSpace(key[0])
    ensures Trim(ApprovalKey(key, approval))
  {
    var k := ApprovalKey(key, approval);
    assert k[0] == key[0] && k[|k| - 1] == Decimal(approval)[|Decimal(approval)| - 1];
  }

  lemma ApprovalKeyInjective(k: string, a: nat, l: string, b: nat)
    requires ApprovalKey(k, a) == ApprovalKey(l, b)
    ensures k == l && a == b
  {
    assert ApprovalKey(k, a) == (k + ":approval") + ":" + Decimal(a);
    assert ApprovalKey(l, b) == (l + ":approval") + ":" + Decimal(b);
    TailAfterColon(k + ":approval", l + ":approval", a, b);
    assert k == (k + ":approval")[..|k|] && l == (l + ":approval")[..|l|];
  }

  /** Not the key of an approved retry. */
  ghost predicate PlainKey(key: string) {
    forall k: string, a: nat :: key != ApprovalKey(k, a)
  }

  // ------------------------------------------------------------------ rebuilding

  /** `_tool_call_from_action`. */
  function Rebuild(r: Record): ToolCall {
    ToolCall(r.payload.name, r.payload.tier, Some(r.actionType), r.key, r.payload.args, r.task, r.iteration)
  }

  /** A call as its record gives it back: key and type trimmed. */
  function TrimCall(c: ToolCall): ToolCall {
    c.(key := Strip(c.key), actionType := Some(Strip(ResolvedActionType(c))))
  }

  /** The record of a call gives back its name, tier, arguments, task and iteration; key and type come back trimmed. */
  lemma RebuildSameCall(call: ToolCall, effective: PolicyAction, status: Status, result: StoredResult)
    ensures var c := Rebuild(StoredRecord(call, call.key, effective, status, result));
      && c == TrimCall(call)
      && (Trim(call.key) ==> c.key == call.key)
      && (Trim(ResolvedActionType(call)) ==> ResolvedActionType(c) == ResolvedActionType(call))
  {
    if Trim(call.key) { TrimIsFixed(call.key); }
    if Trim(ResolvedActionType(call)) { TrimIsFixed(ResolvedActionType(call)); }
  }

  /** The one family of calls a retry reclassifies: an ordinary call whose type or name reads as a verification. */
  predicate Reclassified(call: ToolCall) {
    && !LooksSecret(call) && call.tier != Destructive && !IsVerification(call)
    && Strip(ResolvedActionType(call)) == VERIFICATION_COMMAND
  }

  /** White space around the type, or no type and the bare name, puts a call into the family. */
  lemma ReclassifiedCalls(call: ToolCall)
    requires !LooksSecret(call) && call.tier != Destructive
    ensures call.name == VERIFICATION_COMMAND && call.actionType.None? ==> Reclassified(call)
    ensures call.actionType == Some(" " + VERIFICATION_COMMAND) && call.name == "run" ==> Reclassified(call)
  {
    hide LooksSecret;
    TrimIsFixed(VERIFICATION_COMMAND);
    assert VERIFICATION_COMMAND[12] == '_' && VERIFICATION_PREFIX[12] == '.';
    assert VERIFICATION_COMMAND[..13][12] == '_';
    var spaced := " " + VERIFICATION_COMMAND;
    assert spaced[1..] == VERIFICATION_COMMAND && spaced[0] == ' ' && VERIFICATION_COMMAND[0] == 'v';
    assert TrimLeft(spaced) == TrimLeft(VERIFICATION_COMMAND) == VERIFICATION_COMMAND;
    assert Strip(spaced) == Strip(VERIFICATION_COMMAND);
  }

  /** A retry classifies its call as the original did, except for that family. */
  lemma RebuildSameClass(call: ToolCall, effective: PolicyAction, status: Status, result: StoredResult)
    ensures var c := Rebuild(StoredRecord(call, call.key, effective, status, result));
      (Classify(c) == Classify(call) <==> !Reclassified(call)) && (Forbidden(c) <==> Forbidden(call))
  {
    RebuildSameCall(call, effective, status, result);
    var c := Rebuild(StoredRecord(call, call.key, effective, status, result));
    assert LooksSecret(c) == LooksSecret(call);
    TrimIsFixed(VERIFICATION_COMMAND);
    hide LooksSecret, Strip;
  }

  // ------------------------------------------------------------------- finding

  predicate Matches(r: Record, a: Approval) {
    r.task == a.task && (a.iteration.None? || r.iteration == a.iteration)
  }

  /** `_find_tool_broker_action_for_approval`: the first listed record whose result names the approval. */
  function FindFrom(rows: seq<Record>, a: Approval, approval: nat, from: nat): (r: Option<nat>)
    requires from <= |rows|
    ensures r.Some? ==> from < r.value <= |rows|
    ensures r.Some? ==> Matches(rows[r.value - 1], a) && rows[r.value - 1].result.approvalId == Some(approval)
    ensures r.Some? ==> forall i :: from <= i < r.value - 1 ==>
      !(Matches(rows[i], a) && rows[i].result.approvalId == Some(approval))
    ensures r.None? ==> forall i :: from <= i < |rows| ==>
      !(Matches(rows[i], a) && rows[i].result.approvalId == Some(approval))
    decreases |rows| - from
  {
    if from == |rows| then None
    else if Matches(rows[from], a) && rows[from].result.approvalId == Some(approval) then Some(from + 1)
    else FindFrom(rows, a, approval, from + 1)
  }

  method FindAction(rows: seq<Record>, a: Approval, approval: nat) returns (found: Option<nat>)
    ensures found == FindFrom(rows, a, approval, 0)
  {
    for i := 0 to |rows|
      invariant FindFrom(rows, a, approval, 0) == FindFrom(rows, a, approval, i)
    {
      if Matches(rows[i], a) && rows[i].result.approvalId == Some(approval) {
        return Some(i + 1);
      }
    }
    return None;
  }

  // ------------------------------------------------------------------- histories

  /** The step system, remembering for each approval the record whose blocked call asked for it, 0 for no record. */
  datatype RState = RState(m: Machine, origin: seq<nat>)

  const InitialRState := RState(InitialMachine, [])

  predicate HasApproval(s: RState, approval: nat) {
    1 <= approval <= |s.m.approvals| && |s.origin| == |s.m.approvals|
  }

  /** The approval was asked for by the broker, on some record. */
  predicate HasAsk(s: RState, approval: nat) {
    && HasApproval(s, approval) && s.m.approvals[approval - 1].source.FromBroker?
    && HasRow(s.m.rows, s.origin[approval - 1])
  }

  function Found(s: RState, approval: nat): Option<nat>
    requires HasApproval(s, approval)
  {
    FindFrom(s.m.rows, s.m.approvals[approval - 1], approval, 0)
  }

  /** The key of the call that retries an approval of another source. */
  function OtherKey(approval: nat, command: string): string {
    "approval:" + Decimal(approval) + ":retry:" + command
  }

  /** The process call that retries an approval of another source. */
  function OtherCall(a: Approval, approval: nat, command: string): ToolCall {
    ToolCall("process.approval_retry", Write, None, OtherKey(approval, command),
             Arguments(Some(command), None, ""), a.task, None)
  }

  /** The call `approvals retry` runs for an approval, if there is one. */
  function RetriedCall(rows: seq<Record>, a: Approval, approval: nat): Option<ToolCall> {
    match a.source
    case FromOther(command) => Some(OtherCall(a, approval, command))
    case FromBroker =>
      var found := FindFrom(rows, a, approval, 0);
      if found.None? then None else Some(Rebuild(rows[found.value - 1]))
  }

  /** No attempt is under way on the record. */
  predicate IdleRow(s: RState, row: nat) {
    forall a :: a in s.m.live ==> s.m.live[a].row != row
  }

  /** No attempt is asking on the record. */
  predicate NoAsker(s: RState, row: nat) {
    forall a :: a in s.m.live && s.m.live[a].Asking? ==> s.m.live[a].row != row
  }

  /** A plain call that will ask finds its record idle; one that will execute finds no one asking on it. */
  predicate AsksApart(s: RState, call: ToolCall, policy: PolicyAction) {
    var known := FindRow(s.m.rows, Strip(call.key));
    known.Some? ==>
      match BlockedStatus(call, EffectivePolicy(call, policy))
      case None => s.m.rows[known.value - 1].status == Started ==> NoAsker(s, known.value)
      case Some(blocked) => blocked == NeedsApproval ==> IdleRow(s, known.value)
  }

  /**
   * No ask overlaps another plain attempt on its key; runs, and retries of whatever approval, overlap as they like.
   * Plain calls and audits use plain keys, and what they report names no approval; approved runs are the ones
   * `approvals retry` makes.
   */
  ghost predicate Serial(s: RState, l: Label) {
    && Fits(s.m, l)
    && (l.BeginRun? ==> PlainKey(Strip(l.call.key)) && AsksApart(s, l.call, l.policy))
    && (l.Audit? ==> PlainKey(Strip(l.call.key)) && l.given.approvalId.None?)
    && (l.BeginApproved? ==>
          && HasApproval(s, l.approval)
          && RetriedCall(s.m.rows, s.m.approvals[l.approval - 1], l.approval) == Some(l.call))
    && (l.Execute? && s.m.live[l.a].approval.None? ==> ResultOf(l.execution).approvalId.None?)
  }

  /** The record an approval of the step belongs to. */
  function NewOrigin(m: Machine, l: Label): seq<nat>
    requires l.CreateApproval? ==> l.a in m.live
  {
    if l.CreateApproval? then [m.live[l.a].row]
    else if l.AskElsewhere? then [0]
    else []
  }

  function RNext(s: RState, l: Label): RState
    requires Aligned(s.m) && Enabled(s.m, l)
  {
    RState(Next(s.m, l), s.origin + NewOrigin(s.m, l))
  }

  ghost function RRun(s: RState, labels: seq<Label>): RState {
    if labels == [] then s
    else
      var before, l := RRun(s, labels[..|labels| - 1]), labels[|labels| - 1];
      if Serial(before, l) then RNext(before, l) else before
  }

  // ------------------------------------------------------------------ invariant

  /** The approval's own record names it and is the kind of record its lookup lists. */
  predicate Linked(s: RState, approval: nat) {
    && HasAsk(s, approval)
    && var r := s.m.rows[s.origin[approval - 1] - 1];
       r.result.approvalId == Some(approval) && Matches(r, s.m.approvals[approval - 1])
  }

  /** The retries of the approval use the key: those of a linked one, or of one of another source. */
  predicate RetryKey(s: RState, key: string, approval: nat) {
    && HasApproval(s, approval)
    && match s.m.approvals[approval - 1].source
       case FromOther(command) => key == ApprovalKey(OtherKey(approval, command), approval)
       case FromBroker =>
         Linked(s, approval) && key == ApprovalKey(s.m.rows[s.origin[approval - 1] - 1].key, approval)
  }

  /** `row` is the record of the retries of the approval. */
  predicate RetryRow(s: RState, row: nat, approval: nat) {
    && HasRow(s.m.rows, row) && RetryKey(s, s.m.rows[row - 1].key, approval)
    && s.origin[approval - 1] < row
  }

  /** The record may name the approval. */
  predicate MayName(s: RState, row: nat, approval: nat) {
    HasApproval(s, approval) && (s.origin[approval - 1] == row || RetryRow(s, row, approval))
  }

  ghost predicate RowOk(s: RState, row: nat)
    requires HasRow(s.m.rows, row)
  {
    var r := s.m.rows[row - 1];
    && Trim(r.key)
    && (forall key: string, approval: nat :: r.key == ApprovalKey(key, approval) ==> RetryRow(s, row, approval))
    && (r.result.approvalId.Some? ==> r.status != Started && MayName(s, row, r.result.approvalId.value))
  }

  ghost predicate StageOk(s: RState, g: Stage) {
    && HasRow(s.m.rows, g.row)
    && match g
       case Asking(row, call, approval) =>
         && PlainKey(s.m.rows[row - 1].key)
         && (approval.None? ==> s.m.rows[row - 1].result.approvalId.None?)
         && (approval.Some? ==>
               && HasApproval(s, approval.value) && s.origin[approval.value - 1] == row
               && s.m.rows[row - 1].result.approvalId in {None, approval})
       case Denying(row, denied) => RetryRow(s, row, denied)
       case Granted(row, call, approval) =>
         if approval.Some? then RetryRow(s, row, approval.value)
         else PlainKey(s.m.rows[row - 1].key) && s.m.rows[row - 1].result.approvalId.None?
       case Executed(row, call, approval, result) =>
         if approval.Some? then RetryRow(s, row, approval.value)
         else
           && PlainKey(s.m.rows[row - 1].key) && s.m.rows[row - 1].result.approvalId.None?
           && result.approvalId.None?
  }

  /** The broker asks on records with plain keys. */
  ghost predicate OriginOk(s: RState, approval: nat)
    requires HasApproval(s, approval)
  {
    var row := s.origin[approval - 1];
    if s.m.approvals[approval - 1].source.FromOther? then row == 0
    else HasRow(s.m.rows, row) && PlainKey(s.m.rows[row - 1].key)
  }

  /** Whoever asks on a record is alone on it. */
  ghost predicate AskersAlone(s: RState) {
    forall a, b :: a in s.m.live && b in s.m.live && s.m.live[a].Asking? && s.m.live[b].row == s.m.live[a].row ==>
      a == b
  }

  ghost predicate RInv(s: RState) {
    && |s.origin| == |s.m.approvals|
    && UniqueKeys(s.m.rows)
    && (forall row: nat :: HasRow(s.m.rows, row) ==> RowOk(s, row))
    && (forall approval: nat :: HasApproval(s, approval) ==> OriginOk(s, approval))
    && (forall a :: a in s.m.live ==> StageOk(s, s.m.live[a]))
    && AskersAlone(s)
  }

  // ------------------------------------------------------- building block lemmas

  /** Rows keep their places, keys and owners, and the approval they name. */
  ghost predicate Extends(s: RState, t: RState) {
    && |s.m.rows| <= |t.m.rows|
    && (forall i :: 0 <= i < |s.m.rows| ==>
          && t.m.rows[i].key == s.m.rows[i].key
          && t.m.rows[i].task == s.m.rows[i].task && t.m.rows[i].iteration == s.m.rows[i].iteration
          && (s.m.rows[i].result.approvalId.Some? ==> t.m.rows[i].result.approvalId == s.m.rows[i].result.approvalId))
    && s.m.approvals <= t.m.approvals && s.origin <= t.origin
    && |s.origin| == |s.m.approvals| && |t.origin| == |t.m.approvals|
  }

  lemma RetryKeyStays(s: RState, t: RState, key: string, approval: nat)
    requires Extends(s, t) && RetryKey(s, key, approval)
    ensures RetryKey(t, key, approval)
  {
    assert s.m.approvals[approval - 1].source.FromBroker? ==> Linked(t, approval);
  }

  lemma RetryRowStays(s: RState, t: RState, row: nat, approval: nat)
    requires Extends(s, t) && RetryRow(s, row, approval)
    ensures RetryRow(t, row, approval)
  {
    RetryKeyStays(s, t, s.m.rows[row - 1].key, approval);
  }

  lemma OriginStays(s: RState, t: RState, approval: nat)
    requires Extends(s, t) && HasApproval(s, approval) && OriginOk(s, approval)
    ensures HasApproval(t, approval) && OriginOk(t, approval) && t.origin[approval - 1] == s.origin[approval - 1]
  {
  }

  lemma RowStays(s: RState, t: RState, row: nat)
    requires Extends(s, t) && HasRow(s.m.rows, row) && RowOk(s, row)
    requires t.m.rows[row - 1].result == s.m.rows[row - 1].result
    requires s.m.rows[row - 1].status != Started ==> t.m.rows[row - 1].status != Started
    ensures RowOk(t, row)
  {
    var id := s.m.rows[row - 1].result.approvalId;
    if id.Some? && s.origin[id.value - 1] != row {
      RetryRowStays(s, t, row, id.value);
    }
    RetryKeysStay(s, t, row);
  }

  lemma RetryKeysStay(s: RState, t: RState, row: nat)
    requires Extends(s, t) && HasRow(s.m.rows, row) && RowOk(s, row)
    ensures forall key: string, approval: nat ::
      t.m.rows[row - 1].key == ApprovalKey(key, approval) ==> RetryRow(t, row, approval)
  {
    forall key: string, approval: nat | t.m.rows[row - 1].key == ApprovalKey(key, approval)
      ensures RetryRow(t, row, approval)
    {
      RetryRowStays(s, t, row, approval);
    }
  }

  /** An appended record has a plain key and names no approval, or is the retry record of `approval`. */
  ghost predicate Appends(s: RState, t: RState, r: Record, approval: Option<nat>) {
    && t.origin == s.origin && t.m.approvals == s.m.approvals && t.m.live == s.m.live
    && FindRow(s.m.rows, r.key).None? && t.m.rows == s.m.rows + [r] && Trim(r.key)
    && (approval.None? ==> PlainKey(r.key) && r.result.approvalId.None?)
    && (approval.Some? ==> RetryRow(t, |t.m.rows|, approval.value) && r.result.approvalId in {None, approval})
    && (r.result.approvalId.Some? ==> r.status != Started)
  }

  lemma AppendExtends(s: RState, t: RState, r: Record, approval: Option<nat>)
    requires RInv(s) && Appends(s, t, r, approval)
    ensures Extends(s, t) && UniqueKeys(t.m.rows) && AskersAlone(t)
  {
    hide RowOk, StageOk, OriginOk, RetryRow, PlainKey, Trim;
  }

  /** A retry record's key tells its approval. */
  lemma OneApproval(s: RState, row: nat, key: string, a: nat, approval: nat)
    requires RetryRow(s, row, approval) && s.m.rows[row - 1].key == ApprovalKey(key, a)
    ensures a == approval
  {
    match s.m.approvals[approval - 1].source
    case FromOther(command) => ApprovalKeyInjective(key, a, OtherKey(approval, command), approval);
    case FromBroker => ApprovalKeyInjective(key, a, s.m.rows[s.origin[approval - 1] - 1].key, approval);
  }

  lemma RetryRowIsOf(s: RState, row: nat, a: nat, b: nat)
    requires RetryRow(s, row, a) && RetryRow(s, row, b)
    ensures a == b && !PlainKey(s.m.rows[row - 1].key)
  {
    match s.m.approvals[a - 1].source
    case FromOther(command) => OneApproval(s, row, OtherKey(a, command), a, b);
    case FromBroker => OneApproval(s, row, s.m.rows[s.origin[a - 1] - 1].key, a, b);
  }

  /** The appended record is in order. */
  lemma AppendedRow(s: RState, t: RState, r: Record, approval: Option<nat>)
    requires Appends(s, t, r, approval) && Extends(s, t)
    ensures RowOk(t, |t.m.rows|)
  {
    if approval.Some? {
      forall key: string, a: nat | r.key == ApprovalKey(key, a) ensures a == approval.value {
        OneApproval(t, |t.m.rows|, key, a, approval.value);
      }
    }
    hide ApprovalKey, Trim;
  }

  lemma AppendKeeps(s: RState, t: RState, r: Record, approval: Option<nat>)
    requires RInv(s) && Appends(s, t, r, approval)
    ensures RInv(t) && Extends(s, t)
  {
    AppendExtends(s, t, r, approval);
    AppendedRow(s, t, r, approval);
    hide RowOk, StageOk, Extends, PlainKey, Trim, RetryRow, UniqueKeys, AskersAlone;
    forall row: nat | HasRow(t.m.rows, row) ensures RowOk(t, row) {
      if row <= |s.m.rows| {
        assert RowOk(s, row) && t.m.rows[row - 1] == s.m.rows[row - 1];
        RowStays(s, t, row);
      }
    }
    forall approval: nat | HasApproval(t, approval) ensures OriginOk(t, approval) {
      OriginStays(s, t, approval);
    }
    forall a | a in t.m.live ensures StageOk(t, t.m.live[a]) {
      assert StageOk(s, s.m.live[a]);
      StageRow(s, s.m.live[a]);
      StageStays(s, t, t.m.live[a]);
    }
  }

  lemma StageRow(s: RState, g: Stage)
    requires StageOk(s, g)
    ensures HasRow(s.m.rows, g.row)
  {
  }

  lemma StageStays(s: RState, t: RState, g: Stage)
    requires Extends(s, t) && StageOk(s, g)
    requires t.m.rows[g.row - 1].result == s.m.rows[g.row - 1].result
    ensures StageOk(t, g)
  {
    match g
    case Asking(row, call, approval) =>
    case Denying(row, denied) => RetryRowStays(s, t, row, denied);
    case Granted(row, call, approval) => if approval.Some? { RetryRowStays(s, t, row, approval.value); }
    case Executed(row, call, approval, _) => if approval.Some? { RetryRowStays(s, t, row, approval.value); }
  }

  /** A completed record keeps the approval it named, and names a new one only in its own right. */
  ghost predicate Completes(s: RState, t: RState, id: nat, status: ResultStatus, result: StoredResult) {
    && t.origin == s.origin && t.m.approvals == s.m.approvals
    && HasRow(s.m.rows, id) && t.m.rows == Complete(s.m.rows, id, status, result)
    && (s.m.rows[id - 1].result.approvalId.Some? ==> result.approvalId == s.m.rows[id - 1].result.approvalId)
    && (result.approvalId.Some? ==> MayName(s, id, result.approvalId.value))
    && (forall a :: a in t.m.live ==> a in s.m.live && t.m.live[a] == s.m.live[a])
    && (result.approvalId.Some? && PlainKey(s.m.rows[id - 1].key) ==> IdleRow(t, id))
  }

  lemma CompleteExtends(s: RState, t: RState, id: nat, status: ResultStatus, result: StoredResult)
    requires RInv(s) && Completes(s, t, id, status, result)
    ensures Extends(s, t)
  {
    hide RowOk, StageOk, OriginOk, RetryRow, IdleRow;
  }

  lemma CompleteRow(s: RState, t: RState, id: nat, status: ResultStatus, result: StoredResult, row: nat)
    requires RInv(s) && Completes(s, t, id, status, result) && Extends(s, t) && HasRow(t.m.rows, row)
    ensures RowOk(t, row)
  {
    assert RowOk(s, row);
    RetryKeysStay(s, t, row);
    hide RInv, ApprovalKey, Trim, IdleRow;
    if row != id {
      RowStays(s, t, row);
    } else if result.approvalId.Some? && s.origin[result.approvalId.value - 1] != id {
      hide RowOk;
      RetryRowStays(s, t, id, result.approvalId.value);
    }
  }

  lemma CompleteStage(s: RState, t: RState, id: nat, status: ResultStatus, result: StoredResult, a: nat)
    requires Completes(s, t, id, status, result) && Extends(s, t) && a in t.m.live && StageOk(s, t.m.live[a])
    ensures StageOk(t, t.m.live[a])
  {
    var g := t.m.live[a];
    hide StageOk, RetryRow, MayName, PlainKey;
    if g.row != id {
      StageStays(s, t, g);
    } else {
      ClearedStage(s, t, g);
    }
  }

  lemma CompleteKeeps(s: RState, t: RState, id: nat, status: ResultStatus, result: StoredResult)
    requires RInv(s) && Completes(s, t, id, status, result)
    ensures RInv(t) && Extends(s, t)
  {
    CompleteExtends(s, t, id, status, result);
    hide RowOk, StageOk, RetryRow, Extends;
    forall row: nat | HasRow(t.m.rows, row) ensures RowOk(t, row) {
      CompleteRow(s, t, id, status, result, row);
    }
    forall approval: nat | HasApproval(t, approval) ensures OriginOk(t, approval) {
      OriginStays(s, t, approval);
    }
    forall a | a in t.m.live ensures StageOk(t, t.m.live[a]) {
      assert a in s.m.live && StageOk(s, s.m.live[a]);
      CompleteStage(s, t, id, status, result, a);
    }
  }

  lemma ClearedStage(s: RState, t: RState, g: Stage)
    requires Extends(s, t) && StageOk(s, g)
    requires PlainKey(s.m.rows[g.row - 1].key) ==> t.m.rows[g.row - 1].result.approvalId.None?
    ensures StageOk(t, g)
  {
    match g
    case Asking(row, call, approval) =>
    case Denying(row, denied) => RetryRowStays(s, t, row, denied);
    case Granted(row, call, approval) => if approval.Some? { RetryRowStays(s, t, row, approval.value); }
    case Executed(row, call, approval, _) => if approval.Some? { RetryRowStays(s, t, row, approval.value); }
  }

  /** Only the stages change. */
  lemma LiveKeeps(s: RState, t: RState)
    requires RInv(s) && t.origin == s.origin && t.m.approvals == s.m.approvals && t.m.rows == s.m.rows
    requires forall a :: a in t.m.live ==> StageOk(s, t.m.live[a])
    requires AskersAlone(t)
    ensures RInv(t) && Extends(s, t)
  {
    forall row: nat | HasRow(t.m.rows, row) ensures RowOk(t, row) {
      RowStays(s, t, row);
    }
    forall approval: nat | HasApproval(t, approval) ensures OriginOk(t, approval) {
      OriginStays(s, t, approval);
    }
    forall a | a in t.m.live ensures StageOk(t, t.m.live[a]) {
      StageStays(s, t, t.m.live[a]);
    }
  }

  // ------------------------------------------------------------ what a step keeps

  /** Every record that names an approval is the one it was asked on or comes after it. */
  lemma FoundIsOrigin(s: RState, approval: nat)
    requires RInv(s) && HasAsk(s, approval)
    ensures Found(s, approval) in {None, Some(s.origin[approval - 1])}
    ensures Found(s, approval).Some? <==> Linked(s, approval)
  {
    var found, o := Found(s, approval), s.origin[approval - 1];
    assert OriginOk(s, approval);
    if found.Some? {
      assert RowOk(s, found.value);
    }
  }

  lemma RecordPlain(s: RState, r: Record, excused: bool)
    requires RInv(s) && |s.m.tally| == |s.m.rows| && Trim(r.key) && PlainKey(r.key) && r.result.approvalId.None?
    ensures var t, id := RState(Recorded(s.m, r, excused), s.origin), InsertedId(s.m.rows, r);
      && RInv(t) && Extends(s, t) && PlainKey(t.m.rows[id - 1].key)
      && (FindRow(s.m.rows, r.key).Some? ==> id == FindRow(s.m.rows, r.key).value && t.m.rows == s.m.rows)
      && (FindRow(s.m.rows, r.key).None? ==> IdleRow(t, id))
  {
    var t := RState(Recorded(s.m, r, excused), s.origin);
    hide PlainKey, RowOk, OriginOk, RetryRow;
    if FindRow(s.m.rows, r.key).None? {
      AppendKeeps(s, t, r, None);
    } else {
      LiveKeeps(s, t);
    }
  }

  lemma RecordRetry(s: RState, r: Record, approval: nat, excused: bool)
    requires RInv(s) && |s.m.tally| == |s.m.rows| && RetryKey(s, r.key, approval)
    requires r.result.approvalId in {None, Some(approval)} && (r.result.approvalId.Some? ==> r.status != Started)
    ensures var t := RState(Recorded(s.m, r, excused), s.origin);
      RInv(t) && Extends(s, t) && RetryRow(t, InsertedId(s.m.rows, r), approval)
  {
    var t := RState(Recorded(s.m, r, excused), s.origin);
    RetryKeyTrim(s, r.key, approval);
    if FindRow(s.m.rows, r.key).None? {
      AppendedRetry(s, t, r, approval);
      hide *;
      AppendKeeps(s, t, r, Some(approval));
    } else {
      var id := FindRow(s.m.rows, r.key).value;
      KnownRetry(s, id, approval);
      hide ApprovalKey, PlainKey, Trim, RetryKey, RowOk, OriginOk;
      LiveKeeps(s, t);
      RetryRowStays(s, t, id, approval);
    }
  }

  lemma RetryKeyTrim(s: RState, key: string, approval: nat)
    requires RInv(s) && RetryKey(s, key, approval)
    ensures Trim(key)
  {
    match s.m.approvals[approval - 1].source
    case FromOther(command) => ApprovalKeyTrim(OtherKey(approval, command), approval);
    case FromBroker =>
      assert RowOk(s, s.origin[approval - 1]);
      ApprovalKeyTrim(s.m.rows[s.origin[approval - 1] - 1].key, approval);
  }

  /** A record whose key is that of the approval's retries is theirs. */
  lemma KnownRetry(s: RState, row: nat, approval: nat)
    requires RInv(s) && HasRow(s.m.rows, row) && RetryKey(s, s.m.rows[row - 1].key, approval)
    ensures RetryRow(s, row, approval)
  {
    assert RowOk(s, row);
    match s.m.approvals[approval - 1].source
    case FromOther(command) =>
      assert s.m.rows[row - 1].key == ApprovalKey(OtherKey(approval, command), approval);
    case FromBroker =>
      assert s.m.rows[row - 1].key == ApprovalKey(s.m.rows[s.origin[approval - 1] - 1].key, approval);
  }

  lemma AppendedRetry(s: RState, t: RState, r: Record, approval: nat)
    requires RInv(s) && RetryKey(s, r.key, approval) && Trim(r.key) && FindRow(s.m.rows, r.key).None?
    requires r.result.approvalId in {None, Some(approval)} && (r.result.approvalId.Some? ==> r.status != Started)
    requires t.origin == s.origin && t.m.approvals == s.m.approvals && t.m.live == s.m.live
    requires t.m.rows == s.m.rows + [r]
    ensures Appends(s, t, r, Some(approval))
  {
    assert OriginOk(s, approval);
    hide RowOk, StageOk, AskersAlone, UniqueKeys, PlainKey, ApprovalKey, Trim;
    if s.m.approvals[approval - 1].source.FromBroker? {
      assert t.m.rows[s.origin[approval - 1] - 1] == s.m.rows[s.origin[approval - 1] - 1];
      assert Linked(t, approval);
    }
  }

  /** Granting a plain attempt where no one asks, or a retry on its own record. */
  lemma GrantKeepsRInv(s: RState, a: nat, id: nat, call: ToolCall, approval: Option<nat>)
    requires RInv(s) && |s.m.tally| == |s.m.rows| && HasRow(s.m.rows, id) && a !in s.m.live
    requires approval.Some? ==> RetryRow(s, id, approval.value)
    requires approval.None? ==>
      PlainKey(s.m.rows[id - 1].key) && (s.m.rows[id - 1].status == Started ==> NoAsker(s, id))
    ensures var t := RState(GrantOrReplay(s.m, a, id, call, approval), s.origin); RInv(t) && Extends(s, t)
  {
    var t := RState(GrantOrReplay(s.m, a, id, call, approval), s.origin);
    GrantStep(s, a, id, call, approval);
    GrantApart(s, a, id, call, approval);
    assert RowOk(s, id);
    hide PlainKey, ApprovalKey, Trim, RetryRow, OriginOk, UniqueKeys, LiveOn, Extends, GrantOrReplay, AskersAlone;
    LiveKeeps(s, t);
  }

  lemma GrantStep(s: RState, a: nat, id: nat, call: ToolCall, approval: Option<nat>)
    requires |s.m.tally| == |s.m.rows| && HasRow(s.m.rows, id)
    ensures var m := GrantOrReplay(s.m, a, id, call, approval);
      && m.rows == s.m.rows && m.approvals == s.m.approvals
      && m.live == if s.m.rows[id - 1].status == Started then s.m.live[a := Granted(id, call, approval)] else s.m.live
  {
  }

  /** No one asks on the record of a retry, so the new attempt disturbs no one who asks. */
  lemma GrantApart(s: RState, a: nat, id: nat, call: ToolCall, approval: Option<nat>)
    requires RInv(s) && |s.m.tally| == |s.m.rows| && HasRow(s.m.rows, id) && a !in s.m.live
    requires approval.Some? ==> RetryRow(s, id, approval.value)
    requires approval.None? ==> s.m.rows[id - 1].status == Started ==> NoAsker(s, id)
    ensures AskersAlone(RState(GrantOrReplay(s.m, a, id, call, approval), s.origin))
  {
    GrantStep(s, a, id, call, approval);
    if approval.Some? {
      NoAskerOnRetry(s, id, approval.value);
    }
    hide RowOk, StageOk, OriginOk, UniqueKeys, RetryRow, GrantOrReplay;
  }

  lemma NoAskerOnRetry(s: RState, id: nat, approval: nat)
    requires RInv(s) && RetryRow(s, id, approval)
    ensures NoAsker(s, id)
  {
    RetryRowIsOf(s, id, approval, approval);
    forall a | a in s.m.live && s.m.live[a].Asking? ensures s.m.live[a].row != id {
      assert StageOk(s, s.m.live[a]);
    }
  }

  lemma ExtendsJoin(r: RState, s: RState, t: RState)
    requires Extends(r, s) && Extends(s, t)
    ensures Extends(r, t)
  {
    hide Linked;
  }

  /** The record a plain run writes first. */
  function RunRecord(call: ToolCall, policy: PolicyAction): Record {
    var effective := EffectivePolicy(call, policy);
    match BlockedStatus(call, effective)
    case None => StoredRecord(call, call.key, effective, Started, NoResult)
    case Some(status) => StoredRecord(call, call.key, effective, status, StoredResult(Some(status), None))
  }

  /** The store after that write, with no ask and plain attempt side by side on the record. */
  lemma RunRecorded(s: RState, a: nat, call: ToolCall, policy: PolicyAction)
    requires RInv(s) && Serial(s, BeginRun(a, call, policy))
    ensures var r := RunRecord(call, policy);
      var mid, id := RState(Recorded(s.m, r, false), s.origin), InsertedId(s.m.rows, r);
      && RInv(mid) && Extends(s, mid) && |mid.m.tally| == |mid.m.rows| && a !in mid.m.live
      && HasRow(mid.m.rows, id) && PlainKey(mid.m.rows[id - 1].key)
      && match BlockedStatus(call, EffectivePolicy(call, policy))
         case None => mid.m.rows[id - 1].status == Started ==> NoAsker(mid, id)
         case Some(blocked) => blocked == NeedsApproval ==> IdleRow(mid, id)
  {
    hide Classify, Extends, ResolvedActionType, RInv, PlainKey, Recorded;
    StripTrims(call.key);
    var r := RunRecord(call, policy);
    RecordedLive(s.m, r, false);
    RecordPlain(s, r, false);
  }

  lemma RunStep(m: Machine, a: nat, call: ToolCall, policy: PolicyAction)
    requires Fits(m, BeginRun(a, call, policy))
    ensures Aligned(m) && Enabled(m, BeginRun(a, call, policy))
    ensures var r := RunRecord(call, policy);
      var mid, id := Recorded(m, r, false), InsertedId(m.rows, r);
      && HasRow(mid.rows, id) && |mid.tally| == |mid.rows| && mid.rows[id - 1].key == r.key
      && Next(m, BeginRun(a, call, policy)) ==
         match BlockedStatus(call, EffectivePolicy(call, policy))
         case None => GrantOrReplay(mid, a, id, call, None)
         case Some(PolicyDenied) => mid
         case Some(_) => Waiting(mid, a, Asking(id, call, mid.rows[id - 1].result.approvalId))
  {
    RecordedLive(m, RunRecord(call, policy), false);
    hide Recorded, GrantOrReplay, StoredRecord, InsertedId, EffectivePolicy, BlockedStatus, ValidCall, Insert;
  }

  lemma SameOrigin(s: RState, l: Label)
    requires Aligned(s.m) && Enabled(s.m, l) && !l.CreateApproval? && !l.AskElsewhere?
    ensures RNext(s, l).origin == s.origin
  {
    hide Next, Enabled, Aligned;
  }

  lemma RunBeginsExtends(s: RState, a: nat, call: ToolCall, policy: PolicyAction)
    requires RInv(s) && Serial(s, BeginRun(a, call, policy))
    ensures var t := RNext(s, BeginRun(a, call, policy)); RInv(t) && Extends(s, t)
  {
    hide *;
    RunRecorded(s, a, call, policy);
    SerialFits(s, BeginRun(a, call, policy));
    RunStep(s.m, a, call, policy);
    BlockedIs(call, EffectivePolicy(call, policy));
    SameOrigin(s, BeginRun(a, call, policy));
    var r := RunRecord(call, policy);
    var mid, id := RState(Recorded(s.m, r, false), s.origin), InsertedId(s.m.rows, r);
    var t, blocked := RNext(s, BeginRun(a, call, policy)), BlockedStatus(call, EffectivePolicy(call, policy));
    if blocked.None? {
      GrantKeepsRInv(mid, a, id, call, None);
      ExtendsJoin(s, mid, t);
    } else if blocked != Some(PolicyDenied) {
      AskingAlone(mid, a, id, call);
      ExtendsJoin(s, mid, t);
    }
  }

  lemma BlockedIs(call: ToolCall, effective: PolicyAction)
    ensures BlockedStatus(call, effective) in {None, Some(PolicyDenied), Some(NeedsApproval)}
  {
  }

  lemma AskingAlone(s: RState, a: nat, id: nat, call: ToolCall)
    requires RInv(s) && HasRow(s.m.rows, id) && IdleRow(s, id) && a !in s.m.live && PlainKey(s.m.rows[id - 1].key)
    ensures var t := RState(Waiting(s.m, a, Asking(id, call, s.m.rows[id - 1].result.approvalId)), s.origin);
      RInv(t) && Extends(s, t)
  {
    var t := RState(Waiting(s.m, a, Asking(id, call, s.m.rows[id - 1].result.approvalId)), s.origin);
    PlainNames(s, id);
    assert AskersAlone(t);
    hide PlainKey, RowOk, RetryRow, OriginOk, UniqueKeys, AskersAlone, Extends;
    LiveKeeps(s, t);
  }

  /** A plain record names only an approval asked for on it. */
  lemma PlainNames(s: RState, id: nat)
    requires RInv(s) && HasRow(s.m.rows, id) && PlainKey(s.m.rows[id - 1].key)
    ensures var named := s.m.rows[id - 1].result.approvalId;
      named.Some? ==> HasApproval(s, named.value) && s.origin[named.value - 1] == id
  {
    var named := s.m.rows[id - 1].result.approvalId;
    assert RowOk(s, id);
    if named.Some? && RetryRow(s, id, named.value) {
      RetryRowIsOf(s, id, named.value, named.value);
    }
  }

  /** The record a retry writes first. */
  function RetryRecord(call: ToolCall, approval: nat, policy: PolicyAction): Record {
    var effective, key := EffectivePolicy(call, policy), ApprovalKey(call.key, approval);
    if effective == Deny
    then StoredRecord(call, key, effective, PolicyDenied, StoredResult(Some(PolicyDenied), Some(approval)))
    else StoredRecord(call, key, effective, Started, NoResult)
  }

  predicate RetryIsRisky(call: ToolCall, policy: PolicyAction) {
    EffectivePolicy(call, policy) != Deny && call.tier == Network
  }

  /** The call of a retry carries the key of the retries. */
  lemma RetriedKey(s: RState, call: ToolCall, approval: nat)
    requires RInv(s) && HasApproval(s, approval)
    requires RetriedCall(s.m.rows, s.m.approvals[approval - 1], approval) == Some(call)
    ensures RetryKey(s, ApprovalKey(call.key, approval), approval)
  {
    assert OriginOk(s, approval);
    if s.m.approvals[approval - 1].source.FromBroker? {
      FoundIsOrigin(s, approval);
    }
  }

  lemma ApprovedRecorded(s: RState, a: nat, call: ToolCall, approval: nat, policy: PolicyAction)
    requires RInv(s) && Serial(s, BeginApproved(a, call, approval, policy))
    ensures var r := RetryRecord(call, approval, policy);
      var mid, id := RState(Recorded(s.m, r, RetryIsRisky(call, policy)), s.origin), InsertedId(s.m.rows, r);
      && RInv(mid) && Extends(s, mid) && |mid.m.tally| == |mid.m.rows| && a !in mid.m.live
      && HasRow(mid.m.rows, id) && RetryRow(mid, id, approval)
  {
    RetriedKey(s, call, approval);
    RetryKeyTrim(s, ApprovalKey(call.key, approval), approval);
    TrimIsFixed(ApprovalKey(call.key, approval));
    hide Classify, Extends, ResolvedActionType, RInv, RetryKey, RetryRow, Recorded, RetriedCall, ApprovalKey;
    var r := RetryRecord(call, approval, policy);
    RecordedLive(s.m, r, RetryIsRisky(call, policy));
    RecordRetry(s, r, approval, RetryIsRisky(call, policy));
  }

  lemma ApprovedStep(m: Machine, a: nat, call: ToolCall, approval: nat, policy: PolicyAction)
    requires Fits(m, BeginApproved(a, call, approval, policy))
    ensures Aligned(m) && Enabled(m, BeginApproved(a, call, approval, policy))
    ensures var r := RetryRecord(call, approval, policy);
      var mid, id := Recorded(m, r, RetryIsRisky(call, policy)), InsertedId(m.rows, r);
      && HasRow(mid.rows, id) && |mid.tally| == |mid.rows| && mid.rows[id - 1].key == r.key
      && Next(m, BeginApproved(a, call, approval, policy)) ==
         if EffectivePolicy(call, policy) == Deny then Waiting(mid, a, Denying(id, approval))
         else GrantOrReplay(mid, a, id, call, Some(approval))
  {
    RecordedLive(m, RetryRecord(call, approval, policy), RetryIsRisky(call, policy));
    hide Recorded, GrantOrReplay, StoredRecord, InsertedId, EffectivePolicy, ValidCall, ApprovalKey, Insert;
  }

  lemma ApprovedBeginsExtends(s: RState, a: nat, call: ToolCall, approval: nat, policy: PolicyAction)
    requires RInv(s) && Serial(s, BeginApproved(a, call, approval, policy))
    ensures var t := RNext(s, BeginApproved(a, call, approval, policy)); RInv(t) && Extends(s, t)
  {
    hide *;
    ApprovedRecorded(s, a, call, approval, policy);
    SerialFits(s, BeginApproved(a, call, approval, policy));
    ApprovedStep(s.m, a, call, approval, policy);
    SameOrigin(s, BeginApproved(a, call, approval, policy));
    var r := RetryRecord(call, approval, policy);
    var mid, id := RState(Recorded(s.m, r, RetryIsRisky(call, policy)), s.origin), InsertedId(s.m.rows, r);
    if EffectivePolicy(call, policy) == Deny {
      DenyingKeeps(mid, a, id, approval);
    } else {
      GrantKeepsRInv(mid, a, id, call, Some(approval));
    }
    ExtendsJoin(s, mid, RNext(s, BeginApproved(a, call, approval, policy)));
  }

  lemma DenyingKeeps(s: RState, a: nat, id: nat, approval: nat)
    requires RInv(s) && HasRow(s.m.rows, id) && a !in s.m.live && RetryRow(s, id, approval)
    ensures var t := RState(Waiting(s.m, a, Denying(id, approval)), s.origin); RInv(t) && Extends(s, t)
  {
    var t := RState(Waiting(s.m, a, Denying(id, approval)), s.origin);
    NoAskerOnRetry(s, id, approval);
    assert AskersAlone(t);
    hide PlainKey, RowOk, RetryRow, OriginOk, UniqueKeys, AskersAlone, Extends;
    LiveKeeps(s, t);
  }

  /** A new approval, the rows as they are. */
  lemma MoreApprovals(s: RState, t: RState)
    requires RInv(s) && Extends(s, t) && t.m.rows == s.m.rows && |t.origin| == |s.origin| + 1
    requires OriginOk(t, |t.origin|) && AskersAlone(t)
    requires forall b :: b in t.m.live ==> StageOk(t, t.m.live[b])
    ensures RInv(t)
  {
    hide StageOk, RowOk, RetryRow, OriginOk, Extends, AskersAlone, PlainKey;
    SizesAgree(s, t);
    forall row: nat | HasRow(t.m.rows, row) ensures RowOk(t, row) {
      RowStays(s, t, row);
    }
    forall approval: nat | HasApproval(t, approval) ensures OriginOk(t, approval) {
      if approval <= |s.origin| {
        OriginStays(s, t, approval);
      }
    }
  }

  lemma SizesAgree(s: RState, t: RState)
    requires Extends(s, t)
    ensures |s.origin| == |s.m.approvals| && |t.origin| == |t.m.approvals|
  {
  }

  lemma ApprovalCreatedExtends(s: RState, a: nat)
    requires RInv(s) && Aligned(s.m) && Enabled(s.m, CreateApproval(a))
    ensures var t := RNext(s, CreateApproval(a)); RInv(t) && Extends(s, t)
  {
    CreatedExtends(s, a);
    CreatedStages(s, a);
    AskedOrigin(s, a);
    CreatedAlone(s, a);
    hide *;
    MoreApprovals(s, RNext(s, CreateApproval(a)));
  }

  lemma AskedOrigin(s: RState, a: nat)
    requires RInv(s) && Aligned(s.m) && Enabled(s.m, CreateApproval(a))
    ensures var t := RNext(s, CreateApproval(a));
      |t.origin| == |s.origin| + 1 && HasApproval(t, |t.origin|) && OriginOk(t, |t.origin|)
  {
    assert StageOk(s, s.m.live[a]) && |s.origin| == |s.m.approvals|;
    AskerIsPlain(s, s.m.live[a]);
    hide RInv, PlainKey, StageOk, Aligned;
  }

  lemma AskerIsPlain(s: RState, g: Stage)
    requires StageOk(s, g) && g.Asking?
    ensures HasRow(s.m.rows, g.row) && PlainKey(s.m.rows[g.row - 1].key)
  {
    hide PlainKey;
  }

  lemma CreatedAlone(s: RState, a: nat)
    requires RInv(s) && Aligned(s.m) && Enabled(s.m, CreateApproval(a))
    ensures AskersAlone(RNext(s, CreateApproval(a)))
  {
    hide RowOk, StageOk, OriginOk, UniqueKeys, Aligned;
  }

  lemma AskedElsewhereExtends(s: RState, task: string, iteration: Option<nat>, command: string)
    requires RInv(s) && Aligned(s.m)
    ensures var t := RNext(s, AskElsewhere(task, iteration, command)); RInv(t) && Extends(s, t)
  {
    var t := RNext(s, AskElsewhere(task, iteration, command));
    assert Extends(s, t);
    hide Extends, RowOk, RetryRow, PlainKey, Aligned;
    forall b | b in t.m.live ensures StageOk(t, t.m.live[b]) {
      assert StageOk(s, s.m.live[b]);
      StageStays(s, t, t.m.live[b]);
    }
    MoreApprovals(s, t);
  }

  lemma CreatedExtends(s: RState, a: nat)
    requires |s.origin| == |s.m.approvals| && Aligned(s.m) && Enabled(s.m, CreateApproval(a))
    ensures var t := RNext(s, CreateApproval(a)); Extends(s, t) && t.m.rows == s.m.rows
  {
  }

  lemma CreatedStage(s: RState, a: nat)
    requires |s.origin| == |s.m.approvals| && Aligned(s.m) && Enabled(s.m, CreateApproval(a)) && StageOk(s, s.m.live[a])
    ensures var t := RNext(s, CreateApproval(a)); StageOk(t, t.m.live[a])
  {
    hide PlainKey, RetryRow, Aligned;
  }

  lemma CreatedStages(s: RState, a: nat)
    requires RInv(s) && Aligned(s.m) && Enabled(s.m, CreateApproval(a))
    ensures var t := RNext(s, CreateApproval(a)); forall b :: b in t.m.live ==> StageOk(t, t.m.live[b])
  {
    var t := RNext(s, CreateApproval(a));
    CreatedExtends(s, a);
    hide StageOk, RowOk, OriginOk, Extends;
    assert StageOk(s, s.m.live[a]);
    CreatedStage(s, a);
    forall b | b in t.m.live ensures StageOk(t, t.m.live[b]) {
      if b != a {
        assert StageOk(s, s.m.live[b]) && t.m.live[b] == s.m.live[b];
        StageStays(s, t, t.m.live[b]);
      }
    }
  }

  /** The last write of a live attempt. */
  lemma ClosedExtends(s: RState, a: nat, status: ResultStatus, approval: Option<nat>)
    requires RInv(s) && Aligned(s.m) && a in s.m.live && ClosesWith(s.m.live[a], approval)
    ensures var t := RState(Closed(s.m, a, status, approval), s.origin); RInv(t) && Extends(s, t)
  {
    var t, g := RState(Closed(s.m, a, status, approval), s.origin), s.m.live[a];
    NamesOwn(s, a, approval);
    ClosedCompletes(s, a, status, approval);
    hide *;
    CompleteKeeps(s, t, g.row, status, StoredResult(Some(status), approval));
  }

  lemma ClosedCompletes(s: RState, a: nat, status: ResultStatus, approval: Option<nat>)
    requires RInv(s) && Aligned(s.m) && a in s.m.live && ClosesWith(s.m.live[a], approval)
    requires var row := s.m.live[a].row;
      && (s.m.rows[row - 1].result.approvalId.Some? ==> approval == s.m.rows[row - 1].result.approvalId)
      && (approval.Some? ==> MayName(s, row, approval.value))
    ensures var t := RState(Closed(s.m, a, status, approval), s.origin);
      Completes(s, t, s.m.live[a].row, status, StoredResult(Some(status), approval))
  {
    ClosedApart(s, a, status, approval);
    hide RInv, MayName;
  }

  /** What completes a plain record with an approval was alone on it. */
  lemma ClosedApart(s: RState, a: nat, status: ResultStatus, approval: Option<nat>)
    requires RInv(s) && Aligned(s.m) && a in s.m.live && ClosesWith(s.m.live[a], approval)
    ensures var t, row := RState(Closed(s.m, a, status, approval), s.origin), s.m.live[a].row;
      approval.Some? && PlainKey(s.m.rows[row - 1].key) ==> IdleRow(t, row)
  {
    var g := s.m.live[a];
    assert StageOk(s, g);
    hide RowOk, StageOk, OriginOk, UniqueKeys, PlainKey;
    if g.Denying? || (g.Executed? && g.approval.Some?) {
      PlainIsNoRetry(s, g);
    } else if g.Executed? {
      UnnamedResult(s, g);
    }
  }

  lemma PlainIsNoRetry(s: RState, g: Stage)
    requires StageOk(s, g) && (g.Denying? || (g.Executed? && g.approval.Some?))
    ensures !PlainKey(s.m.rows[g.row - 1].key)
  {
    var approval := if g.Denying? then g.denied else g.approval.value;
    RetryRowIsOf(s, g.row, approval, approval);
  }

  lemma UnnamedResult(s: RState, g: Stage)
    requires StageOk(s, g) && g.Executed? && g.approval.None?
    ensures ReportedApproval(g).None?
  {
  }

  /** The approval an attempt's last write puts into its record. */
  predicate ClosesWith(g: Stage, approval: Option<nat>) {
    || (g.Asking? && approval.Some? && approval == g.approval)
    || (g.Denying? && approval == Some(g.denied))
    || (g.Executed? && approval == ReportedApproval(g))
  }

  /** It is the approval the record names already, if any, and one the record may name. */
  lemma NamesOwn(s: RState, a: nat, approval: Option<nat>)
    requires RInv(s) && a in s.m.live && ClosesWith(s.m.live[a], approval)
    ensures var row := s.m.live[a].row;
      && HasRow(s.m.rows, row)
      && (s.m.rows[row - 1].result.approvalId.Some? ==> approval == s.m.rows[row - 1].result.approvalId)
      && (approval.Some? ==> MayName(s, row, approval.value))
  {
    var g := s.m.live[a];
    LiveFacts(s, a);
    hide *;
    StageNamesOwn(s, g, approval);
  }

  lemma LiveFacts(s: RState, a: nat)
    requires RInv(s) && a in s.m.live
    ensures var g := s.m.live[a];
      StageOk(s, g) && HasRow(s.m.rows, g.row) && RowOk(s, g.row)
    ensures var named := s.m.rows[s.m.live[a].row - 1].result.approvalId;
      named.Some? ==> HasApproval(s, named.value) && OriginOk(s, named.value)
  {
    hide RetryRow, PlainKey, Trim, ApprovalKey, OriginOk;
  }

  lemma StageNamesOwn(s: RState, g: Stage, approval: Option<nat>)
    requires StageOk(s, g) && RowOk(s, g.row) && ClosesWith(g, approval)
    requires var named := s.m.rows[g.row - 1].result.approvalId;
      named.Some? ==> HasApproval(s, named.value) && OriginOk(s, named.value)
    ensures s.m.rows[g.row - 1].result.approvalId.Some? ==> approval == s.m.rows[g.row - 1].result.approvalId
    ensures approval.Some? ==> MayName(s, g.row, approval.value)
  {
    var named := s.m.rows[g.row - 1].result.approvalId;
    if g.Denying? || (g.Executed? && g.approval.Some?) {
      var mine := if g.Denying? then g.denied else g.approval.value;
      RetryRowIsOf(s, g.row, mine, mine);
      if named.Some? && RetryRow(s, g.row, named.value) {
        RetryRowIsOf(s, g.row, named.value, mine);
      }
    }
    hide ApprovalKey, PlainKey;
  }

  lemma SerialKeeps(s: RState, l: Label)
    requires RInv(s) && Serial(s, l)
    ensures RInv(RNext(s, l)) && Extends(s, RNext(s, l))
  {
    hide PlainKey, Trim, ApprovalKey, RunBegins, ApprovedBegins;
    assert s.origin + [] == s.origin;
    match l
    case BeginRun(a, call, policy) => RunBeginsExtends(s, a, call, policy);
    case BeginApproved(a, call, approval, policy) => ApprovedBeginsExtends(s, a, call, approval, policy);
    case Audit(call, given, policy) => AuditExtends(s, call, given, policy);
    case Execute(a, execution) => ExecuteExtends(s, a, execution);
    case CompleteExecuted(a) => ClosedExtends(s, a, s.m.live[a].result.status, ReportedApproval(s.m.live[a]));
    case CreateApproval(a) => ApprovalCreatedExtends(s, a);
    case FinishAsk(a) => ClosedExtends(s, a, NeedsApproval, s.m.live[a].approval);
    case FinishDeny(a) => ClosedExtends(s, a, PolicyDenied, Some(s.m.live[a].denied));
    case Crash(a) => LiveKeeps(s, RNext(s, l));
    case Recover(id) => RecoverExtends(s, id);
    case AskElsewhere(task, iteration, command) => AskedElsewhereExtends(s, task, iteration, command);
  }

  lemma AuditExtends(s: RState, call: ToolCall, given: ToolResult, policy: PolicyAction)
    requires RInv(s) && Serial(s, Audit(call, given, policy))
    ensures var t := RNext(s, Audit(call, given, policy)); RInv(t) && Extends(s, t)
  {
    StripTrims(call.key);
    var effective := EffectivePolicy(call, policy);
    var audited := AuditedResult(call, given, effective);
    hide RInv, Extends, PlainKey, Recorded, Classify;
    assert s.origin + [] == s.origin;
    RecordPlain(s, StoredRecord(call, call.key, effective, audited.status, Stored(audited)),
                RiskyAudit(call, given, policy));
  }

  lemma ExecuteExtends(s: RState, a: nat, execution: Execution)
    requires RInv(s) && Serial(s, Execute(a, execution))
    ensures var t := RNext(s, Execute(a, execution)); RInv(t) && Extends(s, t)
  {
    SerialFits(s, Execute(a, execution));
    var next := ExecuteStep(s, a, execution);
    hide *;
    StagesKeep(s, RNext(s, Execute(a, execution)), a, next);
    LiveKeeps(s, RNext(s, Execute(a, execution)));
  }

  lemma ExecuteStep(s: RState, a: nat, execution: Execution) returns (next: Stage)
    requires RInv(s) && Serial(s, Execute(a, execution))
    ensures var t := RNext(s, Execute(a, execution));
      && t.origin == s.origin && t.m.approvals == s.m.approvals && t.m.rows == s.m.rows
      && t.m.live == s.m.live[a := next]
    ensures a in s.m.live && next.Executed? && next.row == s.m.live[a].row && StageOk(s, next)
  {
    var g := s.m.live[a];
    next := Executed(g.row, g.call, g.approval, ResultOf(execution));
    assert StageOk(s, g) && s.origin + [] == s.origin;
    hide RInv, StageOk, Aligned, ResultOf;
    ExecutedStage(s, g, execution);
  }

  lemma ExecutedStage(s: RState, g: Stage, execution: Execution)
    requires StageOk(s, g) && g.Granted? && (g.approval.None? ==> ResultOf(execution).approvalId.None?)
    ensures StageOk(s, Executed(g.row, g.call, g.approval, ResultOf(execution)))
  {
    hide PlainKey, RetryRow;
  }

  lemma StagesKeep(s: RState, t: RState, a: nat, next: Stage)
    requires RInv(s) && StageOk(s, next) && t.m.live == s.m.live[a := next]
    requires a in s.m.live && next.Executed? && next.row == s.m.live[a].row
    ensures AskersAlone(t) && forall b :: b in t.m.live ==> StageOk(s, t.m.live[b])
  {
    hide RowOk, StageOk, OriginOk, UniqueKeys;
  }

  lemma RecoverExtends(s: RState, id: nat)
    requires RInv(s) && Fits(s.m, Recover(id))
    ensures var t := RNext(s, Recover(id)); RInv(t) && Extends(s, t)
  {
    assert RowOk(s, id);
    hide PlainKey, Trim, ApprovalKey;
    CompleteKeeps(s, RNext(s, Recover(id)), id, Failed, NoResult);
  }

  // -------------------------------------------------------------- the promises

  lemma {:induction false} RRunKeeps(s: RState, labels: seq<Label>)
    requires RInv(s) && Inv(s.m)
    ensures RInv(RRun(s, labels)) && Inv(RRun(s, labels).m) && Extends(s, RRun(s, labels))
  {
    hide RInv, Inv, Extends, RNext, Serial, Next, Evolves;
    if labels == [] {
      ExtendsRefl(s);
    } else {
      var before, l := RRun(s, labels[..|labels| - 1]), labels[|labels| - 1];
      RRunKeeps(s, labels[..|labels| - 1]);
      if Serial(before, l) {
        SerialFits(before, l);
        SerialKeeps(before, l);
        NextKeeps(before.m, l);
        ExtendsJoin(s, before, RNext(before, l));
      }
    }
  }

  lemma SerialFits(s: RState, l: Label)
    requires Serial(s, l)
    ensures Fits(s.m, l) && Aligned(s.m) && Enabled(s.m, l) && RNext(s, l).m == Next(s.m, l)
  {
    hide Next;
  }

  lemma ExtendsRefl(s: RState)
    requires RInv(s)
    ensures Extends(s, s)
  {
  }

  lemma InitialRInv()
    ensures RInv(InitialRState) && Inv(InitialRState.m)
  {
  }

  // ------------------------------------------------------- who wrote, who asked

  predicate Starts(l: Label) {
    l.BeginRun? || l.BeginApproved? || l.Audit?
  }

  /** The record holds the call's payload, under its own key. */
  predicate WrittenBy(r: Record, c: ToolCall) {
    Rebuild(r) == TrimCall(c).(key := r.key)
  }

  /** For each record of a history, the call that inserted it. */
  ghost function Writers(labels: seq<Label>): seq<ToolCall> {
    if labels == [] then []
    else
      var rest, l := labels[..|labels| - 1], labels[|labels| - 1];
      var before, after := RRun(InitialRState, rest), RRun(InitialRState, labels);
      Writers(rest) + if Starts(l) && |after.m.rows| > |before.m.rows| then [l.call] else []
  }

  /** The call an approval of the step stands for: the asking one, or for another source the one that retries it. */
  function NewAskers(m: Machine, l: Label): seq<ToolCall>
    requires l.CreateApproval? ==> l.a in m.live && m.live[l.a].Asking?
  {
    if l.CreateApproval? then [m.live[l.a].call]
    else if l.AskElsewhere? then
      [OtherCall(Approval(l.task, l.iteration, FromOther(l.command)), |m.approvals| + 1, l.command)]
    else []
  }

  /** For each approval of a history, the call that asked for it, or for another source the one that retries it. */
  ghost function Askers(labels: seq<Label>): seq<ToolCall> {
    if labels == [] then []
    else
      var rest, l := labels[..|labels| - 1], labels[|labels| - 1];
      var before := RRun(InitialRState, rest);
      Askers(rest) + if Serial(before, l) then NewAskers(before.m, l) else []
  }

  /** What one step writes: at most one new record, holding the step's call; old ones keep their payload. */
  ghost predicate Writes(m: Machine, after: Machine, l: Label) {
    && |m.rows| <= |after.rows|
    && (forall i :: 0 <= i < |m.rows| ==> Rebuild(after.rows[i]) == Rebuild(m.rows[i]))
    && (|after.rows| > |m.rows| ==>
          && Starts(l) && |after.rows| == |m.rows| + 1 && WrittenBy(after.rows[|m.rows|], l.call)
          && (!l.BeginApproved? ==> after.rows[|m.rows|].key == Strip(l.call.key)))
    && (l.BeginApproved? && |after.rows| > |m.rows| ==>
          after.rows[|m.rows|].key == Strip(ApprovalKey(l.call.key, l.approval)))
  }

  lemma RecordedWrites(m: Machine, r: Record, excused: bool, c: ToolCall, key: string, policy: PolicyAction,
                       status: Status, result: StoredResult)
    requires r == StoredRecord(c, key, policy, status, result)
    ensures var after := Recorded(m, r, excused);
      && |m.rows| <= |after.rows| <= |m.rows| + 1 && after.live == m.live
      && (forall i :: 0 <= i < |m.rows| ==> Rebuild(after.rows[i]) == Rebuild(m.rows[i]))
      && (|after.rows| > |m.rows| ==> WrittenBy(after.rows[|m.rows|], c) && after.rows[|m.rows|].key == Strip(key))
      && HasRow(after.rows, InsertedId(m.rows, r)) && after.rows[InsertedId(m.rows, r) - 1].key == Strip(key)
  {
    hide Strip, Classify;
  }

  lemma NextWrites(m: Machine, l: Label)
    requires Fits(m, l)
    ensures Writes(m, Next(m, l), l)
  {
    hide Strip, Classify, ApprovalKey, ValidCall, Recorded, LiveOn, ResolvedActionType;
    match l
    case BeginRun(a, call, policy) =>
      RunWrites(m, a, call, policy);
    case BeginApproved(a, call, approval, policy) =>
      ApprovedWrites(m, a, call, approval, policy);
    case Audit(call, given, policy) =>
      var effective := EffectivePolicy(call, policy);
      var audited := AuditedResult(call, given, effective);
      var record := StoredRecord(call, call.key, effective, audited.status, Stored(audited));
      RecordedWrites(m, record, RiskyAudit(call, given, policy), call, call.key, effective, audited.status,
                     Stored(audited));
    case _ =>
  }

  /** The first records of runs and retries hold their calls. */
  lemma FirstRecords(call: ToolCall, approval: nat, policy: PolicyAction)
    ensures var r := RunRecord(call, policy);
      r == StoredRecord(call, call.key, EffectivePolicy(call, policy), r.status, r.result) && r.key == Strip(call.key)
    ensures var r := RetryRecord(call, approval, policy);
      && r == StoredRecord(call, ApprovalKey(call.key, approval), EffectivePolicy(call, policy), r.status, r.result)
      && r.key == Strip(ApprovalKey(call.key, approval))
  {
    hide Strip, Classify, ApprovalKey, ResolvedActionType, EffectivePolicy;
  }

  lemma RunWrites(m: Machine, a: nat, call: ToolCall, policy: PolicyAction)
    requires Fits(m, BeginRun(a, call, policy))
    ensures Writes(m, Next(m, BeginRun(a, call, policy)), BeginRun(a, call, policy))
  {
    var r := RunRecord(call, policy);
    RunStep(m, a, call, policy);
    FirstRecords(call, 1, policy);
    RecordedWrites(m, r, false, call, call.key, EffectivePolicy(call, policy), r.status, r.result);
    hide Next, Fits, Recorded, Strip, StoredRecord, RunRecord, EffectivePolicy, WrittenBy, Rebuild, LiveOn;
  }

  lemma ApprovedWrites(m: Machine, a: nat, call: ToolCall, approval: nat, policy: PolicyAction)
    requires Fits(m, BeginApproved(a, call, approval, policy))
    ensures Writes(m, Next(m, BeginApproved(a, call, approval, policy)), BeginApproved(a, call, approval, policy))
  {
    var r, key := RetryRecord(call, approval, policy), ApprovalKey(call.key, approval);
    ApprovedStep(m, a, call, approval, policy);
    FirstRecords(call, approval, policy);
    RecordedWrites(m, r, RetryIsRisky(call, policy), call, key, EffectivePolicy(call, policy), r.status, r.result);
    hide Next, Fits, Recorded, Strip, StoredRecord, RetryRecord, EffectivePolicy, WrittenBy, Rebuild, LiveOn;
    hide ApprovalKey;
  }

  /** Every record holds its writer's call; a record with a plain key is the writer's own. */
  ghost predicate WritersOk(s: RState, writers: seq<ToolCall>) {
    && |writers| == |s.m.rows|
    && forall i :: 0 <= i < |writers| ==>
         && WrittenBy(s.m.rows[i], writers[i])
         && (PlainKey(s.m.rows[i].key) ==> s.m.rows[i].key == Strip(writers[i].key))
  }

  /** Every approval belongs to the task and iteration of its asker, and its record is the one of the asker's key. */
  ghost predicate AskersOk(s: RState, askers: seq<ToolCall>) {
    && |askers| == |s.origin| == |s.m.approvals|
    && (forall k :: 0 <= k < |askers| ==> AskedBy(s.m.rows, s.m.approvals[k], s.origin[k], askers[k]))
    && (forall a :: a in s.m.live && s.m.live[a].Asking? ==> KeyedBy(s.m.rows, s.m.live[a].row, s.m.live[a].call))
  }

  predicate AskedBy(rows: seq<Record>, approval: Approval, row: nat, asker: ToolCall) {
    approval.source.FromBroker? ==>
      approval == Approval(asker.task, asker.iteration, FromBroker) && KeyedBy(rows, row, asker)
  }

  predicate KeyedBy(rows: seq<Record>, row: nat, call: ToolCall) {
    HasRow(rows, row) && rows[row - 1].key == Strip(call.key)
  }

  lemma {:induction false} HistoryWriters(labels: seq<Label>)
    ensures WritersOk(RRun(InitialRState, labels), Writers(labels))
  {
    if labels != [] {
      var rest, l := labels[..|labels| - 1], labels[|labels| - 1];
      var before := RRun(InitialRState, rest);
      HistoryWriters(rest);
      HistoryKeeps(rest);
      hide Next, Enabled, WrittenBy, PlainKey, RInv, Inv;
      if Serial(before, l) {
        SerialFits(before, l);
        NextWrites(before.m, l);
        WriterAdded(before, RNext(before, l), l, Writers(rest));
      }
    }
  }

  lemma WriterAdded(s: RState, t: RState, l: Label, writers: seq<ToolCall>)
    requires RInv(s) && WritersOk(s, writers) && Writes(s.m, t.m, l) && Serial(s, l)
    ensures WritersOk(t, writers + if Starts(l) && |t.m.rows| > |s.m.rows| then [l.call] else [])
  {
    hide RInv, PlainKey, Serial, Strip, Writes, WrittenBy;
    NewRow(s, t, l);
    var more := writers + if Starts(l) && |t.m.rows| > |s.m.rows| then [l.call] else [];
    forall i | 0 <= i < |more|
      ensures WrittenBy(t.m.rows[i], more[i]) && (PlainKey(t.m.rows[i].key) ==> t.m.rows[i].key == Strip(more[i].key))
    {
      if i < |writers| {
        OldWriter(s.m, t.m, l, i, writers[i]);
      } else {
        NewWriter(s, t, l);
      }
    }
  }

  lemma OldWriter(m: Machine, after: Machine, l: Label, i: nat, c: ToolCall)
    requires Writes(m, after, l) && i < |m.rows| && WrittenBy(m.rows[i], c)
    ensures WrittenBy(after.rows[i], c) && after.rows[i].key == m.rows[i].key
  {
    assert after.rows[i].key == Rebuild(after.rows[i]).key;
    hide TrimCall;
  }

  lemma NewWriter(s: RState, t: RState, l: Label)
    requires RInv(s) && Serial(s, l) && Writes(s.m, t.m, l) && |t.m.rows| > |s.m.rows|
    ensures var r := t.m.rows[|s.m.rows|];
      Starts(l) && WrittenBy(r, l.call) && (PlainKey(r.key) ==> r.key == Strip(l.call.key))
  {
    hide RInv, PlainKey, Serial, Strip, WrittenBy, ApprovalKey;
    NewRow(s, t, l);
  }

  lemma NewRow(s: RState, t: RState, l: Label)
    requires RInv(s) && Serial(s, l) && Writes(s.m, t.m, l)
    ensures |t.m.rows| == |s.m.rows| || (|t.m.rows| == |s.m.rows| + 1 && Starts(l))
    ensures |t.m.rows| > |s.m.rows| && l.BeginApproved? ==> !PlainKey(t.m.rows[|s.m.rows|].key)
  {
    hide PlainKey, RInv, Serial, Strip, WrittenBy, ApprovalKey;
    if l.BeginApproved? && |t.m.rows| > |s.m.rows| {
      RetryKeyNotPlain(s, l);
    }
  }

  lemma RetryKeyNotPlain(s: RState, l: Label)
    requires RInv(s) && Serial(s, l) && l.BeginApproved?
    ensures !PlainKey(Strip(ApprovalKey(l.call.key, l.approval)))
  {
    RetriedKey(s, l.call, l.approval);
    RetryKeyTrim(s, ApprovalKey(l.call.key, l.approval), l.approval);
    TrimIsFixed(ApprovalKey(l.call.key, l.approval));
  }

  /** An asking attempt of `m` with the same record and call. */
  predicate AsksStill(m: Machine, a: nat, g: Stage) {
    a in m.live && m.live[a].Asking? && g.Asking? && m.live[a].row == g.row && m.live[a].call == g.call
  }

  /** The attempt begun by `l` asks on the record of its call's key. */
  predicate AsksNow(rows: seq<Record>, l: Label, g: Stage) {
    l.BeginRun? && g.Asking? && g.call == l.call && KeyedBy(rows, g.row, l.call)
  }

  function NewApprovals(m: Machine, l: Label): seq<Approval>
    requires l.CreateApproval? ==> l.a in m.live && m.live[l.a].Asking?
  {
    if l.CreateApproval? then [Approval(m.live[l.a].call.task, m.live[l.a].call.iteration, FromBroker)]
    else if l.AskElsewhere? then [Approval(l.task, l.iteration, FromOther(l.command))]
    else []
  }

  /** What one step does to the approvals and the attempts that ask for them. */
  ghost predicate Asks(m: Machine, after: Machine, l: Label)
    requires l.CreateApproval? ==> l.a in m.live && m.live[l.a].Asking?
  {
    && after.approvals == m.approvals + NewApprovals(m, l)
    && forall a :: a in after.live && after.live[a].Asking? ==>
         AsksStill(m, a, after.live[a]) || AsksNow(after.rows, l, after.live[a])
  }

  lemma NextAsks(m: Machine, l: Label)
    requires Fits(m, l)
    ensures Asks(m, Next(m, l), l)
  {
    match l
    case BeginRun(a, call, policy) => RunAsks(m, a, call, policy);
    case BeginApproved(a, call, approval, policy) => ApprovedAsks(m, a, call, approval, policy);
    case Audit(call, given, policy) => hide Strip, Classify, AuditedResult, RiskyAudit; RecordedOnly(m, l);
    case _ => hide Aligned, Complete;
  }

  lemma RecordedOnly(m: Machine, l: Label)
    requires Fits(m, l) && l.Audit?
    ensures Next(m, l).live == m.live && Next(m, l).approvals == m.approvals
  {
    hide Strip, Classify, AuditedResult, RiskyAudit, Aligned;
  }

  lemma RunAsks(m: Machine, a: nat, call: ToolCall, policy: PolicyAction)
    requires Fits(m, BeginRun(a, call, policy))
    ensures Asks(m, Next(m, BeginRun(a, call, policy)), BeginRun(a, call, policy))
  {
    hide Next, Fits, Recorded, Strip, StoredRecord, RunRecord, EffectivePolicy, Insert, InsertedId, LiveOn;
    var r := RunRecord(call, policy);
    RunStep(m, a, call, policy);
    FirstRecords(call, 1, policy);
    RecordedLive(m, r, false);
  }

  lemma ApprovedAsks(m: Machine, a: nat, call: ToolCall, approval: nat, policy: PolicyAction)
    requires Fits(m, BeginApproved(a, call, approval, policy))
    ensures Asks(m, Next(m, BeginApproved(a, call, approval, policy)), BeginApproved(a, call, approval, policy))
  {
    hide Next, Fits, Recorded, Strip, StoredRecord, RetryRecord, EffectivePolicy, Insert, InsertedId, LiveOn;
    hide ApprovalKey;
    ApprovedStep(m, a, call, approval, policy);
    RecordedLive(m, RetryRecord(call, approval, policy), RetryIsRisky(call, policy));
  }

  lemma {:induction false} HistoryAskers(labels: seq<Label>)
    ensures AskersOk(RRun(InitialRState, labels), Askers(labels))
  {
    if labels != [] {
      var rest, l := labels[..|labels| - 1], labels[|labels| - 1];
      var before := RRun(InitialRState, rest);
      HistoryAskers(rest);
      HistoryKeeps(rest);
      hide Next, Enabled, WrittenBy, RInv, Inv;
      if Serial(before, l) {
        SerialFits(before, l);
        NextWrites(before.m, l);
        NextAsks(before.m, l);
        AskerAdded(before, RNext(before, l), l, Askers(rest));
      }
    }
  }

  lemma AskerAdded(s: RState, t: RState, l: Label, askers: seq<ToolCall>)
    requires AskersOk(s, askers) && Fits(s.m, l) && Writes(s.m, t.m, l) && Asks(s.m, t.m, l)
    requires t.origin == s.origin + NewOrigin(s.m, l)
    ensures AskersOk(t, askers + NewAskers(s.m, l))
  {
    KeysStay(s.m, t.m, l);
    FitsAsks(s.m, l);
    hide Writes, Fits, AsksStill, AsksNow, AskedBy;
    var more := askers + NewAskers(s.m, l);
    assert forall row: nat, call :: KeyedBy(s.m.rows, row, call) ==> KeyedBy(t.m.rows, row, call);
    forall k | 0 <= k < |more| ensures AskedBy(t.m.rows, t.m.approvals[k], t.origin[k], more[k]) {
      if k < |askers| {
        StillAsked(s.m.rows, t.m.rows, s.m.approvals[k], s.origin[k], askers[k]);
      } else {
        NewlyAsked(s, t, l, askers);
      }
    }
    forall a | a in t.m.live && t.m.live[a].Asking? ensures KeyedBy(t.m.rows, t.m.live[a].row, t.m.live[a].call) {
      AskingKeyed(s.m, t.m, l, a);
    }
  }

  lemma StillAsked(rows: seq<Record>, more: seq<Record>, approval: Approval, row: nat, asker: ToolCall)
    requires AskedBy(rows, approval, row, asker) && (KeyedBy(rows, row, asker) ==> KeyedBy(more, row, asker))
    ensures AskedBy(more, approval, row, asker)
  {
  }

  lemma NewlyAsked(s: RState, t: RState, l: Label, askers: seq<ToolCall>)
    requires AskersOk(s, askers) && (l.CreateApproval? ==> l.a in s.m.live && s.m.live[l.a].Asking?)
    requires Asks(s.m, t.m, l) && t.origin == s.origin + NewOrigin(s.m, l) && NewAskers(s.m, l) != []
    requires forall row: nat, call :: KeyedBy(s.m.rows, row, call) ==> KeyedBy(t.m.rows, row, call)
    ensures |t.m.approvals| == |t.origin| == |askers| + 1
    ensures AskedBy(t.m.rows, t.m.approvals[|askers|], t.origin[|askers|], NewAskers(s.m, l)[0])
  {
    hide AsksStill, AsksNow, KeyedBy;
  }

  lemma AskingKeyed(m: Machine, after: Machine, l: Label, a: nat)
    requires a in after.live && (AsksStill(m, a, after.live[a]) || AsksNow(after.rows, l, after.live[a]))
    requires forall b :: b in m.live && m.live[b].Asking? ==> KeyedBy(m.rows, m.live[b].row, m.live[b].call)
    requires forall row: nat, call :: KeyedBy(m.rows, row, call) ==> KeyedBy(after.rows, row, call)
    ensures KeyedBy(after.rows, after.live[a].row, after.live[a].call)
  {
    hide KeyedBy;
  }

  lemma KeysStay(m: Machine, after: Machine, l: Label)
    requires Writes(m, after, l)
    ensures |m.rows| <= |after.rows| && forall i :: 0 <= i < |m.rows| ==> after.rows[i].key == m.rows[i].key
  {
    assert forall i :: 0 <= i < |m.rows| ==> after.rows[i].key == Rebuild(after.rows[i]).key;
  }

  lemma HistoryKeeps(labels: seq<Label>)
    ensures RInv(RRun(InitialRState, labels)) && Inv(RRun(InitialRState, labels).m)
  {
    InitialRInv();
    hide *;
    RRunKeeps(InitialRState, labels);
  }

  // ------------------------------------------------------------- what a retry finds

  /** The record of the approval's key names it. */
  predicate Named(s: RState, approval: nat) {
    HasAsk(s, approval) && s.m.rows[s.origin[approval - 1] - 1].result.approvalId == Some(approval)
  }

  /** A call belongs to the task, and the iteration if there is one, that the asking call belongs to. */
  predicate SameOwner(writer: ToolCall, asker: ToolCall) {
    writer.task == asker.task && (asker.iteration.None? || writer.iteration == asker.iteration)
  }

  ghost predicate FindsWriter(s: RState, approval: nat, writer: ToolCall, asker: ToolCall)
    requires HasAsk(s, approval)
  {
    var row, r := s.origin[approval - 1], s.m.rows[s.origin[approval - 1] - 1];
    && PlainKey(r.key) && r.key == Strip(asker.key) == Strip(writer.key)
    && Found(s, approval) == (if Named(s, approval) && SameOwner(writer, asker) then Some(row) else None)
    && Rebuild(r) == TrimCall(writer)
    && (Rebuild(r) == TrimCall(asker) <==> TrimCall(writer) == TrimCall(asker))
  }

  /**
   * What the lookup of an approval answers, over every `Serial` history: the record of the asking call's key, never a
   * retry's own, exactly when that record names the approval and was written by a call of the asker's task and
   * iteration; and what is rebuilt from that record is its writer's call, so it is the asking call exactly when
   * the writer's call is the same.
   */
  lemma RetryFindsIff(labels: seq<Label>, approval: nat)
    requires HasAsk(RRun(InitialRState, labels), approval)
    ensures var s := RRun(InitialRState, labels);
      && approval <= |Askers(labels)| && s.origin[approval - 1] <= |Writers(labels)|
      && FindsWriter(s, approval, Writers(labels)[s.origin[approval - 1] - 1], Askers(labels)[approval - 1])
  {
    hide *;
    HistoryKeeps(labels);
    HistoryWriters(labels);
    HistoryAskers(labels);
    FindsIff(RRun(InitialRState, labels), approval, Writers(labels), Askers(labels));
  }

  lemma FindsIff(s: RState, approval: nat, writers: seq<ToolCall>, askers: seq<ToolCall>)
    requires RInv(s) && HasAsk(s, approval) && WritersOk(s, writers) && AskersOk(s, askers)
    ensures approval <= |askers| && s.origin[approval - 1] <= |writers|
    ensures FindsWriter(s, approval, writers[s.origin[approval - 1] - 1], askers[approval - 1])
  {
    hide RInv, Found, Strip, PlainKey, ResolvedActionType, TrimCall, Rebuild, WrittenBy;
    FoundIsOrigin(s, approval);
    OriginIsPlain(s, approval);
    var row := s.origin[approval - 1];
    assert WrittenBy(s.m.rows[row - 1], writers[row - 1]);
    WriterGivesBack(s.m.rows[row - 1], writers[row - 1]);
  }

  lemma OriginIsPlain(s: RState, approval: nat)
    requires RInv(s) && HasAsk(s, approval)
    ensures PlainKey(s.m.rows[s.origin[approval - 1] - 1].key)
  {
    assert OriginOk(s, approval);
    hide PlainKey, RowOk, StageOk;
  }

  lemma WriterGivesBack(r: Record, c: ToolCall)
    requires WrittenBy(r, c) && r.key == Strip(c.key)
    ensures Rebuild(r) == TrimCall(c) && r.task == c.task && r.iteration == c.iteration
  {
    hide Strip, ResolvedActionType;
  }

  lemma {:induction false} RRunJoin(s: RState, labels: seq<Label>, more: seq<Label>)
    ensures RRun(s, labels + more) == RRun(RRun(s, labels), more)
  {
    hide Serial, RNext;
    if more == [] {
      assert labels + more == labels;
    } else {
      RRunJoin(s, labels, more[..|more| - 1]);
      assert (labels + more)[..|labels + more| - 1] == labels + more[..|more| - 1];
    }
  }

  /** Once the asking attempt finished, the record names the approval for ever. */
  lemma AskedStaysNamed(labels: seq<Label>, a: nat, approval: nat, more: seq<Label>)
    requires a in RRun(InitialRState, labels).m.live
    requires RRun(InitialRState, labels).m.live[a].Asking?
    requires RRun(InitialRState, labels).m.live[a].approval == Some(approval)
    ensures Named(RRun(InitialRState, labels + [FinishAsk(a)] + more), approval)
  {
    var s := RRun(InitialRState, labels);
    HistoryKeeps(labels);
    AskFinishes(s, a, approval);
    var finished := RRun(InitialRState, labels + [FinishAsk(a)]);
    RRunLast(labels, FinishAsk(a));
    HistoryKeeps(labels + [FinishAsk(a)]);
    RRunJoin(InitialRState, labels + [FinishAsk(a)], more);
    hide *;
    RRunKeeps(finished, more);
    NamedStays(finished, RRun(finished, more), approval);
  }

  lemma RRunLast(labels: seq<Label>, l: Label)
    ensures var s := RRun(InitialRState, labels);
      RRun(InitialRState, labels + [l]) == if Serial(s, l) then RNext(s, l) else s
  {
    assert (labels + [l])[..|labels|] == labels;
    hide Serial, RNext;
  }

  lemma AskFinishes(s: RState, a: nat, approval: nat)
    requires RInv(s) && Inv(s.m) && a in s.m.live && s.m.live[a].Asking? && s.m.live[a].approval == Some(approval)
    ensures Serial(s, FinishAsk(a)) && Named(RNext(s, FinishAsk(a)), approval)
  {
    assert Aligned(s.m) && StageOk(s, s.m.live[a]) && |s.origin| == |s.m.approvals|;
    assert OriginOk(s, approval);
    hide RInv, Inv;
    FinishNames(s, a, approval);
  }

  lemma FinishNames(s: RState, a: nat, approval: nat)
    requires Aligned(s.m) && a in s.m.live && s.m.live[a].Asking? && s.m.live[a].approval == Some(approval)
    requires StageOk(s, s.m.live[a]) && HasApproval(s, approval) && OriginOk(s, approval)
    ensures Serial(s, FinishAsk(a)) && Named(RNext(s, FinishAsk(a)), approval)
  {
    hide PlainKey, RetryRow;
  }

  lemma NamedStays(s: RState, t: RState, approval: nat)
    requires Extends(s, t) && Named(s, approval)
    ensures Named(t, approval)
  {
  }

  /**
   * So once the asking attempt finished, whatever comes after it, the approval is found exactly when the record of
   * its key was written for the asker's task and iteration.
   */
  lemma RetryFindsBlockedAction(labels: seq<Label>, a: nat, approval: nat, more: seq<Label>)
    requires a in RRun(InitialRState, labels).m.live
    requires RRun(InitialRState, labels).m.live[a].Asking?
    requires RRun(InitialRState, labels).m.live[a].approval == Some(approval)
    ensures var whole := labels + [FinishAsk(a)] + more;
      var s := RRun(InitialRState, whole);
      && HasAsk(s, approval) && approval <= |Askers(whole)| && s.origin[approval - 1] <= |Writers(whole)|
      && var writer, asker := Writers(whole)[s.origin[approval - 1] - 1], Askers(whole)[approval - 1];
         Found(s, approval) == if SameOwner(writer, asker) then Some(s.origin[approval - 1]) else None
  {
    var whole := labels + [FinishAsk(a)] + more;
    hide RRun, Askers, Writers, Found, PlainKey, Rebuild;
    AskedStaysNamed(labels, a, approval, more);
    NamedIsThere(RRun(InitialRState, whole), approval);
    RetryFindsIff(whole, approval);
  }

  // ------------------------------------------------------------ one call per key

  /** The history runs and audits one call under each key. */
  ghost predicate OneCallPerKey(labels: seq<Label>) {
    forall i, j :: 0 <= i < |labels| && 0 <= j < |labels| && Plain(labels[i]) && Plain(labels[j]) ==>
      SameKeySameCall(labels[i].call, labels[j].call)
  }

  predicate SameKeySameCall(c: ToolCall, d: ToolCall) {
    Strip(c.key) == Strip(d.key) ==> TrimCall(c) == TrimCall(d)
  }

  predicate Plain(l: Label) {
    l.BeginRun? || l.Audit?
  }

  ghost predicate CallIn(labels: seq<Label>, call: ToolCall) {
    exists i :: 0 <= i < |labels| && Plain(labels[i]) && labels[i].call == call
  }

  /** The asking calls, those that will be, and the writers of plain records were all run or audited. */
  ghost predicate AllIn(labels: seq<Label>, s: RState, writers: seq<ToolCall>, askers: seq<ToolCall>) {
    && |askers| == |s.m.approvals|
    && (forall k :: 0 <= k < |askers| && s.m.approvals[k].source.FromBroker? ==> CallIn(labels, askers[k]))
    && (forall a :: a in s.m.live && s.m.live[a].Asking? ==> CallIn(labels, s.m.live[a].call))
    && |writers| == |s.m.rows|
    && (forall i :: 0 <= i < |writers| && PlainKey(s.m.rows[i].key) ==> CallIn(labels, writers[i]))
  }

  lemma {:induction false} HistoryAllIn(labels: seq<Label>)
    ensures AllIn(labels, RRun(InitialRState, labels), Writers(labels), Askers(labels))
  {
    if labels != [] {
      var rest, l := labels[..|labels| - 1], labels[|labels| - 1];
      var before := RRun(InitialRState, rest);
      HistoryAllIn(rest);
      HistoryKeeps(rest);
      HistoryWriters(rest);
      assert labels == rest + [l];
      hide Next, Enabled, WrittenBy, PlainKey, RInv, Inv, CallIn, AllIn, WritersOk;
      if Serial(before, l) {
        SerialFits(before, l);
        NextWrites(before.m, l);
        NextAsks(before.m, l);
        hide Serial;
        AllInAdded(rest, before, RNext(before, l), l, Writers(rest), Askers(rest));
      } else {
        AllInLonger(rest, l, before, Writers(rest), Askers(rest));
        assert Writers(rest) + [] == Writers(rest) && Askers(rest) + [] == Askers(rest);
      }
    }
  }

  lemma CallInLonger(labels: seq<Label>, l: Label, call: ToolCall)
    ensures CallIn(labels, call) ==> CallIn(labels + [l], call)
    ensures Plain(l) ==> CallIn(labels + [l], l.call)
  {
    assert (labels + [l])[|labels|] == l;
    if CallIn(labels, call) {
      var i :| 0 <= i < |labels| && Plain(labels[i]) && labels[i].call == call;
      assert (labels + [l])[i] == labels[i];
    }
  }

  lemma AllInLonger(labels: seq<Label>, l: Label, s: RState, writers: seq<ToolCall>, askers: seq<ToolCall>)
    requires AllIn(labels, s, writers, askers)
    ensures AllIn(labels + [l], s, writers, askers)
  {
    hide CallIn, PlainKey;
    forall call ensures CallIn(labels, call) ==> CallIn(labels + [l], call) {
      CallInLonger(labels, l, call);
    }
  }

  lemma AllInAdded(labels: seq<Label>, s: RState, t: RState, l: Label, writers: seq<ToolCall>, askers: seq<ToolCall>)
    requires RInv(s) && AllIn(labels, s, writers, askers) && Serial(s, l)
    requires Fits(s.m, l) && Writes(s.m, t.m, l) && Asks(s.m, t.m, l)
    ensures AllIn(labels + [l], t,
                  writers + (if Starts(l) && |t.m.rows| > |s.m.rows| then [l.call] else []),
                  askers + NewAskers(s.m, l))
  {
    hide CallIn, PlainKey, RInv, Serial, Writes, AsksStill, AsksNow, Fits;
    AllInLonger(labels, l, s, writers, askers);
    CallInLonger(labels, l, if Plain(l) then l.call else AnyCall);
    FitsAsks(s.m, l);
    WritersIn(labels + [l], s, t, l, writers);
    AskingsIn(labels + [l], s, t, l);
  }

  lemma AskingsIn(labels: seq<Label>, s: RState, t: RState, l: Label)
    requires Fits(s.m, l) && Asks(s.m, t.m, l)
    requires forall b :: b in s.m.live && s.m.live[b].Asking? ==> CallIn(labels, s.m.live[b].call)
    requires Plain(l) ==> CallIn(labels, l.call)
    ensures forall a :: a in t.m.live && t.m.live[a].Asking? ==> CallIn(labels, t.m.live[a].call)
  {
    FitsAsks(s.m, l);
    hide CallIn, AsksStill, AsksNow, Fits;
    forall a | a in t.m.live && t.m.live[a].Asking? ensures CallIn(labels, t.m.live[a].call) {
      AskingIn(labels, s, t, l, a);
    }
  }

  lemma FitsAsks(m: Machine, l: Label)
    requires Fits(m, l)
    ensures l.CreateApproval? ==> l.a in m.live && m.live[l.a].Asking?
  {
  }

  lemma AskingIn(labels: seq<Label>, s: RState, t: RState, l: Label, a: nat)
    requires a in t.m.live && (AsksStill(s.m, a, t.m.live[a]) || AsksNow(t.m.rows, l, t.m.live[a]))
    requires forall b :: b in s.m.live && s.m.live[b].Asking? ==> CallIn(labels, s.m.live[b].call)
    requires Plain(l) ==> CallIn(labels, l.call)
    ensures CallIn(labels, t.m.live[a].call)
  {
    hide CallIn;
  }

  const AnyCall := ToolCall("", Read, None, "", Arguments(None, None, ""), "", None)

  lemma WritersIn(labels: seq<Label>, s: RState, t: RState, l: Label, writers: seq<ToolCall>)
    requires RInv(s) && Serial(s, l) && Writes(s.m, t.m, l) && |writers| == |s.m.rows|
    requires forall i :: 0 <= i < |writers| && PlainKey(s.m.rows[i].key) ==> CallIn(labels, writers[i])
    requires Plain(l) ==> CallIn(labels, l.call)
    ensures var more := writers + if Starts(l) && |t.m.rows| > |s.m.rows| then [l.call] else [];
      |more| == |t.m.rows| &&
      forall i :: 0 <= i < |more| && PlainKey(t.m.rows[i].key) ==> CallIn(labels, more[i])
  {
    hide CallIn, PlainKey, RInv, Serial, Writes;
    KeysStay(s.m, t.m, l);
    NewRow(s, t, l);
    var more := writers + if Starts(l) && |t.m.rows| > |s.m.rows| then [l.call] else [];
    forall i | 0 <= i < |more| && PlainKey(t.m.rows[i].key) ensures CallIn(labels, more[i]) {
      if i < |writers| {
        assert t.m.rows[i].key == s.m.rows[i].key && more[i] == writers[i];
      }
    }
  }

  /**
   * When every key is used for one call, an approval whose asking attempt finished is always found, and what a
   * retry runs is the call that asked, whatever other calls, retries, crashes and recoveries come in between.
   */
  lemma RetryRunsTheBlockedCall(labels: seq<Label>, approval: nat)
    requires Named(RRun(InitialRState, labels), approval) && OneCallPerKey(labels)
    ensures var s := RRun(InitialRState, labels);
      && Found(s, approval) == Some(s.origin[approval - 1]) && approval <= |Askers(labels)|
      && Rebuild(s.m.rows[s.origin[approval - 1] - 1]) == TrimCall(Askers(labels)[approval - 1])
  {
    hide *;
    NamedIsThere(RRun(InitialRState, labels), approval);
    RetryFindsIff(labels, approval);
    HistoryAllIn(labels);
    FindsCall(labels, RRun(InitialRState, labels), approval, Writers(labels), Askers(labels));
  }

  lemma NamedIsThere(s: RState, approval: nat)
    requires Named(s, approval)
    ensures HasAsk(s, approval)
  {
  }

  lemma FindsCall(labels: seq<Label>, s: RState, approval: nat, writers: seq<ToolCall>, askers: seq<ToolCall>)
    requires Named(s, approval) && OneCallPerKey(labels) && AllIn(labels, s, writers, askers)
    requires s.origin[approval - 1] <= |writers| && approval <= |askers|
    requires FindsWriter(s, approval, writers[s.origin[approval - 1] - 1], askers[approval - 1])
    ensures Found(s, approval) == Some(s.origin[approval - 1])
    ensures Rebuild(s.m.rows[s.origin[approval - 1] - 1]) == TrimCall(askers[approval - 1])
  {
    hide Found, Strip, PlainKey, TrimCall, Rebuild, SameKeySameCall;
    var writer, asker := writers[s.origin[approval - 1] - 1], askers[approval - 1];
    assert CallIn(labels, writer) && CallIn(labels, asker);
    assert SameKeySameCall(writer, asker);
    SameCallSameOwner(writer, asker);
  }

  lemma SameCallSameOwner(writer: ToolCall, asker: ToolCall)
    requires SameKeySameCall(writer, asker) && Strip(writer.key) == Strip(asker.key)
    ensures TrimCall(writer) == TrimCall(asker) && SameOwner(writer, asker)
  {
    hide Strip;
  }

  // --------------------------------------------------------- a key used twice

  /** One call is denied under the key, then another is held under it and its approval asked and stored. */
  function ReusedKey(first: ToolCall, second: ToolCall): seq<Label> {
    [BeginRun(0, first, Deny), BeginRun(1, second, Ask), CreateApproval(1), FinishAsk(1)]
  }

  predicate UsesKey(call: ToolCall) {
    ValidCall(call) && call.key == "k"
  }

  lemma ShortKeyIsPlain()
    ensures Strip("k") == "k" && PlainKey("k")
  {
    forall key: string, approval: nat ensures "k" != ApprovalKey(key, approval) {
      assert |ApprovalKey(key, approval)| > 1;
    }
  }

  /** Where the history stands after each of its steps. */
  function AfterDenied(first: ToolCall): RState {
    var r := StoredRecord(first, "k", Deny, PolicyDenied, StoredResult(Some(PolicyDenied), None));
    RState(Machine([r], [], map[], [ZeroTally], 0), [])
  }

  function AfterHeld(first: ToolCall, second: ToolCall, approval: Option<nat>): RState {
    var s := AfterDenied(first);
    var live := map[1 := Asking(1, second, approval)];
    if approval.None? then s.(m := s.m.(live := live))
    else RState(s.m.(live := live, approvals := [Approval(second.task, second.iteration, FromBroker)]), [1])
  }

  lemma FirstDenied(first: ToolCall)
    requires UsesKey(first)
    ensures Serial(InitialRState, BeginRun(0, first, Deny))
    ensures RNext(InitialRState, BeginRun(0, first, Deny)) == AfterDenied(first)
  {
    ShortKeyIsPlain();
    hide Strip, PlainKey, Forbidden, ValidCall;
  }

  lemma SecondHeld(first: ToolCall, second: ToolCall)
    requires UsesKey(first) && UsesKey(second) && !Forbidden(second)
    ensures Serial(AfterDenied(first), BeginRun(1, second, Ask))
    ensures RNext(AfterDenied(first), BeginRun(1, second, Ask)) == AfterHeld(first, second, None)
  {
    ShortKeyIsPlain();
    var m, l := AfterDenied(first).m, BeginRun(1, second, Ask);
    AfterDeniedIs(first);
    AsksOnKnown(m, 1, second, 1);
    hide Strip, PlainKey, Forbidden, ValidCall, Next, StoredRecord, AfterDenied;
    assert Serial(AfterDenied(first), l);
  }

  lemma AfterDeniedIs(first: ToolCall)
    ensures var s := AfterDenied(first);
      && Aligned(s.m) && |s.m.rows| == 1 && FindRow(s.m.rows, "k") == Some(1) && s.m.live == map[]
      && s.m.rows[0].result.approvalId.None? && s.m.approvals == [] && s.origin == []
  {
    ShortKeyIsPlain();
    hide Strip, PlainKey, Classify;
  }

  /** A held call whose key is known asks on the record it finds. */
  lemma AsksOnKnown(m: Machine, a: nat, call: ToolCall, row: nat)
    requires Aligned(m) && ValidCall(call) && !Forbidden(call) && a !in m.live
    requires FindRow(m.rows, Strip(call.key)) == Some(row)
    ensures Fits(m, BeginRun(a, call, Ask)) && HasRow(m.rows, row)
    ensures Next(m, BeginRun(a, call, Ask)) ==
            m.(live := m.live[a := Asking(row, call, m.rows[row - 1].result.approvalId)])
  {
    AskingFits(m, a, call);
    hide Forbidden, StoredRecord, Strip, Next, Fits, Enabled, ValidCall, Aligned;
    FirstRecords(call, 1, Ask);
    RunStep(m, a, call, Ask);
    assert InsertedId(m.rows, RunRecord(call, Ask)) == row;
    hide FindRow, InsertedId, RunRecord, Insert;
  }

  lemma AskingFits(m: Machine, a: nat, call: ToolCall)
    requires Aligned(m) && ValidCall(call) && !Forbidden(call) && a !in m.live
    ensures Fits(m, BeginRun(a, call, Ask)) && Enabled(m, BeginRun(a, call, Ask))
    ensures BlockedStatus(call, EffectivePolicy(call, Ask)) == Some(NeedsApproval)
  {
    hide Forbidden, ValidCall, Aligned;
  }

  lemma SecondAsked(first: ToolCall, second: ToolCall)
    ensures var l := CreateApproval(1);
      && Serial(AfterHeld(first, second, None), l)
      && RNext(AfterHeld(first, second, None), l) == AfterHeld(first, second, Some(1))
    ensures Serial(AfterHeld(first, second, Some(1)), FinishAsk(1))
    ensures var s := RNext(AfterHeld(first, second, Some(1)), FinishAsk(1));
      && HasApproval(s, 1) && Named(s, 1) && s.m.approvals == [Approval(second.task, second.iteration, FromBroker)]
      && |s.m.rows| == 1 && Rebuild(s.m.rows[0]) == Rebuild(AfterDenied(first).m.rows[0])
  {
    hide Strip, StoredRecord;
  }

  /** A step that is taken, and where it leads. */
  ghost predicate Leads(s: RState, l: Label, t: RState) {
    Serial(s, l) && RNext(s, l) == t
  }

  lemma FourSteps(r: RState, a: Label, s: RState, b: Label, t: RState, c: Label, u: RState, d: Label, v: RState)
    requires Leads(r, a, s) && Leads(s, b, t) && Leads(t, c, u) && Leads(u, d, v)
    ensures RRun(r, [a, b, c, d]) == v
  {
    NothingRun(r);
    hide Serial, RNext;
    RRunMore(r, [], a);
    RRunMore(r, [a], b);
    RRunMore(r, [a, b], c);
    RRunMore(r, [a, b, c], d);
    hide RRun;
    assert [] + [a] == [a] && [a] + [b] == [a, b] && [a, b] + [c] == [a, b, c] && [a, b, c] + [d] == [a, b, c, d];
  }

  lemma NothingRun(r: RState)
    ensures RRun(r, []) == r
  {
  }

  lemma RRunMore(r: RState, labels: seq<Label>, l: Label)
    ensures var s := RRun(r, labels);
      RRun(r, labels + [l]) == if Serial(s, l) then RNext(s, l) else s
  {
    assert (labels + [l])[..|labels|] == labels;
    hide Serial, RNext;
  }

  lemma FirstGivesBack(first: ToolCall)
    requires first.key == "k"
    ensures Rebuild(AfterDenied(first).m.rows[0]) == TrimCall(first)
  {
    ShortKeyIsPlain();
    hide Strip;
  }

  lemma FoundReused(s: RState, first: ToolCall, second: ToolCall)
    requires HasApproval(s, 1) && Named(s, 1) && s.m.approvals == [Approval(second.task, second.iteration, FromBroker)]
    requires |s.m.rows| == 1 && Rebuild(s.m.rows[0]) == TrimCall(first)
    ensures Found(s, 1) == if SameOwner(first, second) then Some(1) else None
    ensures first.args != second.args || first.name != second.name ==> Rebuild(s.m.rows[0]) != TrimCall(second)
  {
    hide Strip, ResolvedActionType;
  }

  /**
   * The failing inputs: whatever two calls share a key, if the first is denied and the second is held, the second
   * call's approval finds the first call's record. In another task or iteration it finds nothing, so the approval
   * can never be retried; in the same one a retry runs the first call in place of the second.
   */
  lemma ReusedKeyMisses(first: ToolCall, second: ToolCall)
    requires UsesKey(first) && UsesKey(second) && !Forbidden(second)
    ensures var s := RRun(InitialRState, ReusedKey(first, second));
      && HasApproval(s, 1) && Named(s, 1) && |s.m.rows| == 1
      && Found(s, 1) == (if SameOwner(first, second) then Some(1) else None)
      && Rebuild(s.m.rows[0]) == TrimCall(first)
      && (first.args != second.args || first.name != second.name ==> Rebuild(s.m.rows[0]) != TrimCall(second))
  {
    var labels := ReusedKey(first, second);
    FirstDenied(first);
    SecondHeld(first, second);
    SecondAsked(first, second);
    var s := RNext(AfterHeld(first, second, Some(1)), FinishAsk(1));
    FourSteps(InitialRState, BeginRun(0, first, Deny), AfterDenied(first),
              BeginRun(1, second, Ask), AfterHeld(first, second, None),
              CreateApproval(1), AfterHeld(first, second, Some(1)), FinishAsk(1), s);
    FirstGivesBack(first);
    hide *;
    FoundReused(s, first, second);
  }

  // ---------------------------------------------------------- one record a retry

  /**
   * All retries of an approval share one record. It sees the executor at most once, plus once for every retry that
   * crashed before completing, plus once for every retry that began while another was under way, and runs it to
   * completion at most once plus those.
   */
  lemma RetryCompletesOnce(labels: seq<Label>, approval: nat, row: nat)
    requires RetryRow(RRun(InitialRState, labels), row, approval)
    ensures var s := RRun(InitialRState, labels);
      && |s.m.tally| == |s.m.rows|
      && s.m.tally[row - 1].completed <= 1 + s.m.tally[row - 1].overlaps
      && s.m.tally[row - 1].execs <= 1 + s.m.tally[row - 1].abandoned + s.m.tally[row - 1].overlaps
      && (forall other :: RetryRow(s, other, approval) ==> other == row)
      && (forall a :: a in s.m.live && Executing(s.m.live[a]) && s.m.live[a].approval == Some(approval) ==>
            s.m.live[a].row == row)
  {
    var s := RRun(InitialRState, labels);
    HistoryKeeps(labels);
    hide RRun, RetryRow;
    RetryTally(s, row, approval);
    forall other | RetryRow(s, other, approval) ensures other == row {
      OneRetryRow(s, other, row, approval);
    }
    forall a | a in s.m.live && Executing(s.m.live[a]) && s.m.live[a].approval == Some(approval)
      ensures s.m.live[a].row == row
    {
      LiveRetryRow(s, a, approval);
      OneRetryRow(s, s.m.live[a].row, row, approval);
    }
  }

  lemma RetryTally(s: RState, row: nat, approval: nat)
    requires Inv(s.m) && RetryRow(s, row, approval)
    ensures |s.m.tally| == |s.m.rows| && HasRow(s.m.rows, row)
    ensures s.m.tally[row - 1].completed <= 1 + s.m.tally[row - 1].overlaps
    ensures s.m.tally[row - 1].execs <= 1 + s.m.tally[row - 1].abandoned + s.m.tally[row - 1].overlaps
  {
    assert RowCountsOk(s.m, row);
    hide PlainKey, Trim, ApprovalKey, LiveOn, GrantedOn;
  }

  lemma OneRetryRow(s: RState, row: nat, other: nat, approval: nat)
    requires UniqueKeys(s.m.rows) && RetryRow(s, row, approval) && RetryRow(s, other, approval)
    ensures row == other
  {
    assert s.m.rows[row - 1].key == s.m.rows[other - 1].key;
  }

  lemma LiveRetryRow(s: RState, a: nat, approval: nat)
    requires RInv(s) && a in s.m.live && Executing(s.m.live[a]) && s.m.live[a].approval == Some(approval)
    ensures RetryRow(s, s.m.live[a].row, approval)
  {
    assert StageOk(s, s.m.live[a]);
  }

  // ----------------------------------------------------------------- the command

  /** A rebuilt call is one a call may be, and some executor is registered for its tool. */
  predicate CanRetry(a: Approval, call: ToolCall, registered: string -> bool) {
    a.source.FromBroker? ==> ValidCall(call) && registered(call.name)
  }

  lemma OtherIsValid(a: Approval, approval: nat, command: string)
    ensures ValidCall(OtherCall(a, approval, command))
  {
    var key := OtherKey(approval, command);
    assert key[0] == 'a';
    NotBlank(key, 0);
    NotBlank("process.approval_retry", 0);
    hide Blank;
  }

  /** A command is always retried; a broker's call only from a record that names the approval and can be rebuilt. */
  ghost predicate MayRetry(rows: seq<Record>, a: Approval, approval: nat, registered: string -> bool) {
    var asked := FindFrom(rows, a, approval, 0);
    a.source.FromBroker? ==>
      && asked.Some? && registered(rows[asked.value - 1].payload.name)
      && !Blank(rows[asked.value - 1].payload.name) && !Blank(rows[asked.value - 1].key)
      && !Blank(rows[asked.value - 1].actionType)
  }

  /** The call a retry runs: the command as a process call, or what the found record's columns say. */
  ghost predicate IsRetried(rows: seq<Record>, a: Approval, approval: nat, call: ToolCall) {
    match a.source
    case FromOther(command) =>
      call == ToolCall("process.approval_retry", Write, None, "approval:" + Decimal(approval) + ":retry:" + command,
                       Arguments(Some(command), None, ""), a.task, None)
    case FromBroker =>
      var asked := FindFrom(rows, a, approval, 0);
      && asked.Some?
      && var r, p := rows[asked.value - 1], rows[asked.value - 1].payload;
         call == ToolCall(p.name, p.tier, Some(r.actionType), r.key, p.args, r.task, r.iteration)
  }

  lemma RetriedIs(rows: seq<Record>, a: Approval, approval: nat, registered: string -> bool)
    ensures var call := RetriedCall(rows, a, approval);
      && (call.Some? ==> IsRetried(rows, a, approval, call.value))
      && (call.Some? && CanRetry(a, call.value, registered) <==> MayRetry(rows, a, approval, registered))
  {
    hide FindFrom, Blank;
  }

  /**
   * `approvals retry` on one approval: a command of another source is run as a process call, the broker's own call is
   * looked up and rebuilt; either runs as approved and is noted with the approval. An approval that is not granted,
   * whose task is unknown, that has no record, or whose call cannot be rebuilt or is not registered, changes nothing.
   */
  method Retry(broker: Broker, approval: nat, approved: bool, knownTask: string -> bool, registered: string -> bool,
               policy: PolicyAction, execution: Execution)
    returns (result: Option<ToolResult>, calls: nat)
    requires 1 <= approval <= |broker.store.approvals|
    modifies broker.store`rows, broker.store`retries
    ensures var rows, a := old(broker.store.rows), broker.store.approvals[approval - 1];
      var call := RetriedCall(rows, a, approval);
      if !approved || !knownTask(a.task) || call.None? || !CanRetry(a, call.value, registered) then
        && result == None && calls == 0
        && broker.store.rows == rows && broker.store.retries == old(broker.store.retries)
      else
        && result.Some?
        && FollowsPath(rows, broker.store.approvals, BeginApproved(0, call.value, approval, policy), execution,
                       broker.store.rows, broker.store.approvals, calls)
        && Holds(broker.store.rows, Trimmed(FirstApprovedRecord(call.value, approval, policy)).key, result.value)
        && broker.store.retries == Noted(old(broker.store.retries), approval, result.value.status)
    ensures var rows, a := old(broker.store.rows), broker.store.approvals[approval - 1];
      var call := RetriedCall(rows, a, approval);
      && (result.Some? <==> approved && knownTask(a.task) && MayRetry(rows, a, approval, registered))
      && (result.Some? ==>
            && IsRetried(rows, a, approval, call.value)
            && RanApproved(rows, broker.store.rows, call.value, approval, policy, execution, result.value, calls))
  {
    var a := broker.store.approvals[approval - 1];
    RetriedIs(broker.store.rows, a, approval, registered);
    var call := CallToRetry(broker.store.rows, a, approval, approved, knownTask, registered);
    hide *;
    if call.None? {
      return None, 0;
    }
    result, calls := broker.RunApproved(call.value, approval, policy, execution);
    broker.store.RecordApprovalRetry(approval, result.value.status);
  }

  /** The checks before a retry, and the call it runs. */
  method CallToRetry(rows: seq<Record>, a: Approval, approval: nat, approved: bool, knownTask: string -> bool,
                     registered: string -> bool)
    returns (call: Option<ToolCall>)
    ensures var retried := RetriedCall(rows, a, approval);
      if !approved || !knownTask(a.task) || retried.None? || !CanRetry(a, retried.value, registered) then call == None
      else call == retried && ValidCall(call.value)
  {
    hide ValidCall, Rebuild, OtherCall;
    if !approved || !knownTask(a.task) {
      return None;
    }
    match a.source {
      case FromOther(command) =>
        OtherIsValid(a, approval, command);
        return Some(OtherCall(a, approval, command));
      case FromBroker =>
        var found := FindAction(rows, a, approval);
        if found.None? {
          return None;
        }
        var rebuilt := Rebuild(rows[found.value - 1]);
        if !ValidCall(rebuilt) || !registered(rebuilt.name) {
          return None;
        }
        return Some(rebuilt);
    }
  }
}
