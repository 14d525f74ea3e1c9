/** Whole histories of approvals: when one is named, when it is orphaned, and what overlapping retries and asks cost. */
module ApprovalHistories {
  import opened Prelude
  import opened Text
  import opened PolicyActions
  import opened ToolCalls
  import opened ActionJournal
  import opened BrokerMachine
  import opened ApprovalRetry

  // ------------------------------------------------------- when a record names it

  /** An attempt that asks carries the approval. */
  predicate Carries(s: RState, a: nat, approval: nat) {
    a in s.m.live && s.m.live[a].Asking? && s.m.live[a].approval == Some(approval)
  }

  /** What one step does to the approval a known record names. */
  ghost predicate ResultMoves(m: Machine, after: Machine, l: Label, id: nat)
    requires HasRow(m.rows, id) && HasRow(after.rows, id)
  {
    var named := after.rows[id - 1].result.approvalId;
    || named == m.rows[id - 1].result.approvalId
    || named.None?
    || (l.FinishAsk? && l.a in m.live && m.live[l.a].Asking? && m.live[l.a].approval == named)
    || (l.FinishDeny? && l.a in m.live && m.live[l.a].Denying? && m.live[l.a].row == id)
    || (l.CompleteExecuted? && l.a in m.live && m.live[l.a].Executed? && m.live[l.a].row == id
        && ReportedApproval(m.live[l.a]) == named)
  }

  lemma ResultStep(m: Machine, l: Label, id: nat)
    requires Fits(m, l) && HasRow(m.rows, id)
    ensures HasRow(Next(m, l).rows, id) && ResultMoves(m, Next(m, l), l, id)
  {
    hide Strip, Classify, ValidCall, LiveOn, StoredRecord, EffectivePolicy, BlockedStatus, AuditedResult, RiskyAudit;
    hide InsertedId, FindRow;
  }

  /** A record starts to name an approval only by the last write of an attempt that carries it. */
  lemma NamedStep(s: RState, l: Label, approval: nat)
    requires RInv(s) && Serial(s, l)
    ensures Named(RNext(s, l), approval) ==> Named(s, approval) || (l.FinishAsk? && Carries(s, l.a, approval))
  {
    var t := RNext(s, l);
    if Named(t, approval) {
      SerialFits(s, l);
      SerialKeeps(s, l);
      SizesAgree(s, t);
      if approval <= |s.origin| {
        OldAskStays(s, t, approval);
        hide RNext, Serial, Next, Extends;
        PlainResult(s, t, l, approval);
      } else {
        NewIsUnnamed(s, l, approval);
      }
    }
  }

  lemma OldAskStays(s: RState, t: RState, approval: nat)
    requires RInv(s) && Extends(s, t) && HasAsk(t, approval) && approval <= |s.origin|
    ensures HasAsk(s, approval) && t.origin[approval - 1] == s.origin[approval - 1]
    ensures PlainKey(s.m.rows[s.origin[approval - 1] - 1].key)
  {
    assert HasApproval(s, approval) && OriginOk(s, approval);
    hide PlainKey, RowOk, StageOk;
  }

  lemma PlainResult(s: RState, t: RState, l: Label, approval: nat)
    requires RInv(s) && Fits(s.m, l) && Aligned(s.m) && Enabled(s.m, l) && t.m == Next(s.m, l)
    requires HasAsk(s, approval) && Named(t, approval)
    requires t.origin[approval - 1] == s.origin[approval - 1] && PlainKey(s.m.rows[s.origin[approval - 1] - 1].key)
    ensures Named(s, approval) || (l.FinishAsk? && Carries(s, l.a, approval))
  {
    ResultStep(s.m, l, s.origin[approval - 1]);
    hide *;
    MovedByAsk(s, t, l, approval);
  }

  lemma MovedByAsk(s: RState, t: RState, l: Label, approval: nat)
    requires RInv(s) && HasAsk(s, approval) && Named(t, approval)
    requires HasRow(t.m.rows, s.origin[approval - 1]) && ResultMoves(s.m, t.m, l, s.origin[approval - 1])
    requires t.origin[approval - 1] == s.origin[approval - 1] && PlainKey(s.m.rows[s.origin[approval - 1] - 1].key)
    ensures Named(s, approval) || (l.FinishAsk? && Carries(s, l.a, approval))
  {
    hide PlainKey, RInv;
    if (l.FinishDeny? || l.CompleteExecuted?) && l.a in s.m.live && s.m.live[l.a].row == s.origin[approval - 1] {
      PlainReports(s, l.a);
    }
  }

  lemma PlainReports(s: RState, a: nat)
    requires RInv(s) && a in s.m.live && PlainKey(s.m.rows[s.m.live[a].row - 1].key)
    ensures !s.m.live[a].Denying?
    ensures s.m.live[a].Executed? ==> ReportedApproval(s.m.live[a]).None?
  {
    var g := s.m.live[a];
    assert StageOk(s, g);
    if g.Denying? || (g.Executed? && g.approval.Some?) {
      PlainIsNoRetry(s, g);
    }
    hide RetryRow, PlainKey, RowOk;
  }

  lemma NewIsUnnamed(s: RState, l: Label, approval: nat)
    requires RInv(s) && Serial(s, l) && approval > |s.origin|
    ensures !Named(RNext(s, l), approval)
  {
    SerialFits(s, l);
    assert |s.origin| == |s.m.approvals|;
    if l.CreateApproval? {
      assert StageOk(s, s.m.live[l.a]);
      hide RInv, PlainKey, RowOk, Serial;
    } else {
      hide RInv, Next, Serial, Enabled, Aligned, Fits;
    }
  }

  /** The `i`-th step is the last write of an attempt that carries the approval. */
  ghost predicate Finishes(labels: seq<Label>, i: nat, approval: nat)
    requires i < |labels|
  {
    labels[i].FinishAsk? && Carries(RRun(InitialRState, labels[..i]), labels[i].a, approval)
  }

  /** A record names an approval exactly when some attempt that carried it made its last write. */
  lemma {:induction false} NamedIffAsked(labels: seq<Label>, approval: nat)
    ensures Named(RRun(InitialRState, labels), approval) <==>
            exists i :: 0 <= i < |labels| && Finishes(labels, i, approval)
  {
    if Named(RRun(InitialRState, labels), approval) {
      NamedWasAsked(labels, approval);
    }
    if i :| 0 <= i < |labels| && Finishes(labels, i, approval) {
      AskedStaysNamed(labels[..i], labels[i].a, approval, labels[i + 1..]);
      assert labels[..i] + [labels[i]] + labels[i + 1..] == labels;
    }
  }

  lemma {:induction false} NamedWasAsked(labels: seq<Label>, approval: nat)
    requires Named(RRun(InitialRState, labels), approval)
    ensures exists i :: 0 <= i < |labels| && Finishes(labels, i, approval)
  {
    NothingNamed(approval);
    if labels != [] {
      var last := |labels| - 1;
      var rest, l := labels[..last], labels[last];
      HistoryKeeps(rest);
      assert rest + [l] == labels;
      RRunLast(rest, l);
      hide Serial, RNext, Named, Carries, RInv, Inv;
      if Serial(RRun(InitialRState, rest), l) {
        NamedStep(RRun(InitialRState, rest), l, approval);
      }
      if Named(RRun(InitialRState, rest), approval) {
        NamedWasAsked(rest, approval);
        var i :| 0 <= i < |rest| && Finishes(rest, i, approval);
        assert labels[..i] == rest[..i];
        assert Finishes(labels, i, approval);
      } else {
        assert Finishes(labels, last, approval);
      }
    }
  }

  lemma NothingNamed(approval: nat)
    ensures !Named(RRun(InitialRState, []), approval)
  {
  }

  // ------------------------------------------------------------ orphaned approvals

  /** Asked for, named by no record, carried by no one. */
  ghost predicate Orphaned(s: RState, approval: nat) {
    HasAsk(s, approval) && !Named(s, approval) && forall a :: !Carries(s, a, approval)
  }

  /** Who asks after a step asked before, or carries what its record names or a fresh approval. */
  ghost predicate AskerFrom(m: Machine, after: Machine, a: nat)
    requires a in after.live && after.live[a].Asking?
  {
    var g := after.live[a];
    || (a in m.live && m.live[a] == g)
    || g.approval == Some(|m.approvals| + 1)
    || (HasRow(after.rows, g.row) && g.approval == after.rows[g.row - 1].result.approvalId)
  }

  lemma AskerStep(m: Machine, l: Label, a: nat)
    requires Fits(m, l) && a in Next(m, l).live && Next(m, l).live[a].Asking?
    ensures AskerFrom(m, Next(m, l), a)
  {
    hide Strip, Classify, ValidCall, LiveOn, StoredRecord, EffectivePolicy, BlockedStatus, AuditedResult, RiskyAudit;
    hide FindRow;
  }

  lemma AskersStep(m: Machine, l: Label)
    requires Fits(m, l) && Aligned(m) && Enabled(m, l)
    ensures AskersFrom(m, Next(m, l))
  {
    hide Next, Fits, Aligned, Enabled, AskerFrom;
    forall a | a in Next(m, l).live && Next(m, l).live[a].Asking? ensures AskerFrom(m, Next(m, l), a) {
      AskerStep(m, l, a);
    }
  }

  ghost predicate AskersFrom(m: Machine, after: Machine) {
    forall a :: a in after.live && after.live[a].Asking? ==> AskerFrom(m, after, a)
  }

  lemma OrphanedStays(s: RState, l: Label, approval: nat)
    requires RInv(s) && Serial(s, l) && Orphaned(s, approval)
    ensures Orphaned(RNext(s, l), approval)
  {
    SerialFits(s, l);
    hide *;
    SerialKeeps(s, l);
    NamedStep(s, l, approval);
    AskersStep(s.m, l);
    NoneCarries(s, RNext(s, l), l, approval);
  }

  lemma NoneCarries(s: RState, t: RState, l: Label, approval: nat)
    requires Orphaned(s, approval) && Extends(s, t) && RInv(t) && AskersFrom(s.m, t.m)
    requires Named(t, approval) ==> Named(s, approval) || (l.FinishAsk? && Carries(s, l.a, approval))
    ensures Orphaned(t, approval)
  {
    AskStays(s, t, approval);
    hide RInv, Extends, Named, HasAsk;
    forall a ensures !Carries(t, a, approval) {
      if Carries(t, a, approval) {
        assert AskerFrom(s.m, t.m, a) && !Carries(s, a, approval);
        CarrierIsNamed(t, a, approval);
      }
    }
  }

  lemma AskStays(s: RState, t: RState, approval: nat)
    requires Extends(s, t) && HasAsk(s, approval)
    ensures HasAsk(t, approval) && approval <= |s.m.approvals|
  {
  }

  lemma CarrierIsNamed(t: RState, a: nat, approval: nat)
    requires RInv(t) && Carries(t, a, approval)
    ensures var row := t.m.live[a].row;
      HasRow(t.m.rows, row) && HasApproval(t, approval) && t.origin[approval - 1] == row &&
      (t.m.rows[row - 1].result.approvalId == Some(approval) ==> Named(t, approval))
  {
    assert StageOk(t, t.m.live[a]) && OriginOk(t, approval);
    hide RowOk, PlainKey, RetryRow;
  }

  lemma {:induction false} OrphanedForEver(s: RState, more: seq<Label>, approval: nat)
    requires RInv(s) && Inv(s.m) && Orphaned(s, approval)
    ensures Orphaned(RRun(s, more), approval)
  {
    hide RInv, Inv, Orphaned, Serial, RNext;
    if more != [] {
      var rest, l := more[..|more| - 1], more[|more| - 1];
      OrphanedForEver(s, rest, approval);
      RRunKeeps(s, rest);
      if Serial(RRun(s, rest), l) {
        OrphanedStays(RRun(s, rest), l, approval);
      }
    }
  }

  /**
   * A crash between creating the approval and the last write of the ask orphans it: whatever comes after, no record
   * names it, so no retry ever finds it.
   */
  lemma CrashOrphans(labels: seq<Label>, a: nat, approval: nat, more: seq<Label>)
    requires Carries(RRun(InitialRState, labels), a, approval)
    requires !Named(RRun(InitialRState, labels), approval)
    ensures var s := RRun(InitialRState, labels + [Crash(a)] + more);
      HasAsk(s, approval) && !Named(s, approval) && Found(s, approval) == None
  {
    var s, crashed := RRun(InitialRState, labels), RRun(InitialRState, labels + [Crash(a)]);
    HistoryKeeps(labels);
    RRunLast(labels, Crash(a));
    CrashLeaves(s, a, approval);
    HistoryKeeps(labels + [Crash(a)]);
    OrphanedForEver(crashed, more, approval);
    RRunJoin(InitialRState, labels + [Crash(a)], more);
    HistoryKeeps(labels + [Crash(a)] + more);
    hide RRun, RInv, Inv;
    var end := RRun(InitialRState, labels + [Crash(a)] + more);
    FoundIsOrigin(end, approval);
  }

  lemma CrashLeaves(s: RState, a: nat, approval: nat)
    requires RInv(s) && Inv(s.m) && Carries(s, a, approval) && !Named(s, approval)
    ensures Serial(s, Crash(a)) && Orphaned(RNext(s, Crash(a)), approval)
  {
    CarrierIsNamed(s, a, approval);
    OnlyCarrier(s, a, approval);
    assert Aligned(s.m) && OriginOk(s, approval) && |s.origin| == |s.m.approvals|;
    hide RInv, Inv, PlainKey;
    CrashKeeps(s, a, approval);
  }

  lemma CrashKeeps(s: RState, a: nat, approval: nat)
    requires Aligned(s.m) && Carries(s, a, approval) && HasAsk(s, approval) && !Named(s, approval)
    requires forall b :: Carries(s, b, approval) ==> b == a
    ensures Serial(s, Crash(a)) && Orphaned(RNext(s, Crash(a)), approval)
  {
    var t := RNext(s, Crash(a));
    assert s.origin + [] == s.origin;
    forall b ensures !Carries(t, b, approval) {
      assert Carries(t, b, approval) ==> Carries(s, b, approval);
    }
  }

  /** An approval is carried by one attempt at a time. */
  lemma OnlyCarrier(s: RState, a: nat, approval: nat)
    requires RInv(s) && Carries(s, a, approval)
    ensures forall b :: Carries(s, b, approval) ==> b == a
  {
    hide RInv;
    forall b | Carries(s, b, approval) ensures b == a {
      CarrierIsNamed(s, a, approval);
      CarrierIsNamed(s, b, approval);
      Alone(s, a, b);
    }
  }

  lemma Alone(s: RState, a: nat, b: nat)
    requires RInv(s) && a in s.m.live && b in s.m.live && s.m.live[a].Asking? && s.m.live[a].row == s.m.live[b].row
    ensures a == b
  {
    hide RowOk, StageOk, OriginOk;
  }

  // ------------------------------------------------------------ overlapping retries

  /** The steps of a history that were taken. */
  ghost function Taken(labels: seq<Label>): seq<Label> {
    if labels == [] then []
    else
      var rest, l := labels[..|labels| - 1], labels[|labels| - 1];
      Taken(rest) + if Serial(RRun(InitialRState, rest), l) then [l] else []
  }

  lemma {:induction false} TakenRuns(labels: seq<Label>)
    ensures Run(InitialMachine, Taken(labels)) == RRun(InitialRState, labels).m
  {
    hide Serial, Next;
    if labels != [] {
      var rest, l := labels[..|labels| - 1], labels[|labels| - 1];
      TakenRuns(rest);
      RunAppend(InitialMachine, Taken(rest), l);
      if Serial(RRun(InitialRState, rest), l) {
        SerialFits(RRun(InitialRState, rest), l);
      } else {
        assert Taken(rest) + [] == Taken(rest);
      }
    }
  }

  /**
   * Of retries that nobody abandoned: none began while another was under way exactly when those under way cannot
   * bring the executor calls of the approval above one.
   */
  lemma RetriesOnceIff(labels: seq<Label>, approval: nat, row: nat)
    requires RetryRow(RRun(InitialRState, labels), row, approval)
    requires |RRun(InitialRState, labels).m.tally| == |RRun(InitialRState, labels).m.rows|
    requires RRun(InitialRState, labels).m.tally[row - 1].abandoned == 0
    ensures var m := RRun(InitialRState, labels).m;
      m.tally[row - 1].overlaps == 0 <==>
      forall more :: OnlyExecutes(more) ==> NoMoreThanOnce(Run(m, more), row)
  {
    RetryRowIsRow(RRun(InitialRState, labels), row, approval);
    hide *;
    TakenRuns(labels);
    OnceIffNoOverlap(Taken(labels), row);
  }

  lemma RetryRowIsRow(s: RState, row: nat, approval: nat)
    requires RetryRow(s, row, approval)
    ensures HasRow(s.m.rows, row)
  {
  }

  /** No retry of the approval is between its first and its last write. */
  ghost predicate NoRetryUnderWay(s: RState, approval: nat) {
    forall a :: a in s.m.live && Executing(s.m.live[a]) ==> s.m.live[a].approval != Some(approval)
  }

  /** Each retry of the approval begins with no other under way. */
  ghost predicate RetriesApart(labels: seq<Label>, approval: nat) {
    forall i :: 0 <= i < |labels| && labels[i].BeginApproved? && labels[i].approval == approval ==>
      NoRetryUnderWay(RRun(InitialRState, labels[..i]), approval)
  }

  ghost predicate NoOverlaps(s: RState, approval: nat) {
    |s.m.tally| == |s.m.rows| &&
    forall row: nat :: RetryRow(s, row, approval) ==> s.m.tally[row - 1].overlaps == 0
  }

  /** One step counts an overlap on a record only where an attempt begins on its key with another under way. */
  ghost predicate OverlapFrom(m: Machine, after: Machine, l: Label, id: nat)
    requires HasRow(after.rows, id) && |m.tally| == |m.rows| && |after.tally| == |after.rows|
  {
    || after.tally[id - 1].overlaps == (if id <= |m.rows| then m.tally[id - 1].overlaps else 0)
    || (LiveOn(m, id) != {} && l.BeginRun? && after.rows[id - 1].key == Strip(l.call.key))
    || (LiveOn(m, id) != {} && l.BeginApproved? && after.rows[id - 1].key == Strip(ApprovalKey(l.call.key, l.approval)))
  }

  lemma OverlapStep(m: Machine, l: Label, id: nat)
    requires Fits(m, l) && |Next(m, l).tally| == |Next(m, l).rows| && HasRow(Next(m, l).rows, id)
    ensures OverlapFrom(m, Next(m, l), l, id)
  {
    hide Strip, Classify, ValidCall, EffectivePolicy, AuditedResult, RiskyAudit, ApprovalKey;
    hide ResolvedActionType;
    match l
    case BeginRun(a, call, policy) => RunOverlaps(m, a, call, policy, id);
    case BeginApproved(a, call, approval, policy) => ApprovedOverlaps(m, a, call, approval, policy, id);
    case _ => hide LiveOn, FindRow;
  }

  lemma GrantOverlaps(m: Machine, r: Record, excused: bool, a: nat, call: ToolCall, approval: Option<nat>, id: nat)
    requires Aligned(m) && |Recorded(m, r, excused).tally| == |Recorded(m, r, excused).rows|
    requires HasRow(Recorded(m, r, excused).rows, InsertedId(m.rows, r)) && HasRow(Recorded(m, r, excused).rows, id)
    ensures var mid, k := Recorded(m, r, excused), InsertedId(m.rows, r);
      var after := GrantOrReplay(mid, a, k, call, approval);
      && after.rows == mid.rows && |after.tally| == |after.rows|
      && (after.tally[id - 1].overlaps == (if id <= |m.rows| then m.tally[id - 1].overlaps else 0)
          || (LiveOn(m, id) != {} && mid.rows[id - 1].key == r.key))
  {
    var mid, k := Recorded(m, r, excused), InsertedId(m.rows, r);
    RecordedLive(m, r, excused);
    assert mid.rows[k - 1].key == r.key;
    assert LiveOn(mid, k) == LiveOn(m, k);
    hide LiveOn;
  }

  lemma RunOverlaps(m: Machine, a: nat, call: ToolCall, policy: PolicyAction, id: nat)
    requires var l := BeginRun(a, call, policy);
      Fits(m, l) && |Next(m, l).tally| == |Next(m, l).rows| && HasRow(Next(m, l).rows, id)
    ensures var l := BeginRun(a, call, policy); OverlapFrom(m, Next(m, l), l, id)
  {
    var r := RunRecord(call, policy);
    FirstRecords(call, 1, policy);
    RecordedLive(m, r, false);
    hide Strip, StoredRecord, EffectivePolicy, ValidCall, LiveOn, FindRow;
    if BlockedStatus(call, EffectivePolicy(call, policy)).None? {
      GrantOverlaps(m, r, false, a, call, None, id);
    }
  }

  lemma ApprovedOverlaps(m: Machine, a: nat, call: ToolCall, approval: nat, policy: PolicyAction, id: nat)
    requires var l := BeginApproved(a, call, approval, policy);
      Fits(m, l) && |Next(m, l).tally| == |Next(m, l).rows| && HasRow(Next(m, l).rows, id)
    ensures var l := BeginApproved(a, call, approval, policy); OverlapFrom(m, Next(m, l), l, id)
  {
    var r := RetryRecord(call, approval, policy);
    FirstRecords(call, approval, policy);
    RecordedLive(m, r, RetryIsRisky(call, policy));
    hide Strip, StoredRecord, EffectivePolicy, ValidCall, LiveOn, FindRow, ApprovalKey;
    if EffectivePolicy(call, policy) != Deny {
      GrantOverlaps(m, r, RetryIsRisky(call, policy), a, call, Some(approval), id);
    }
  }

  lemma ApartStep(s: RState, l: Label, approval: nat)
    requires RInv(s) && Inv(s.m) && Serial(s, l) && NoOverlaps(s, approval)
    requires l.BeginApproved? && l.approval == approval ==> NoRetryUnderWay(s, approval)
    ensures NoOverlaps(RNext(s, l), approval)
  {
    var t := RNext(s, l);
    SerialFits(s, l);
    SerialKeeps(s, l);
    NextKeeps(s.m, l);
    assert |t.m.tally| == |t.m.rows|;
    forall row: nat | RetryRow(t, row, approval) ensures t.m.tally[row - 1].overlaps == 0 {
      OverlapStep(s.m, l, row);
      hide Next, Fits, Inv;
      if row <= |s.m.rows| {
        RetryRowWas(s, t, row, approval);
        if LiveOn(s.m, row) != {} {
          OnRetryRow(s, t, l, row, approval);
        }
      } else {
        NoneOnNew(s, row);
      }
    }
  }

  lemma NoneOnNew(s: RState, row: nat)
    requires RInv(s) && row > |s.m.rows|
    ensures LiveOn(s.m, row) == {}
  {
    forall a | a in s.m.live ensures s.m.live[a].row != row {
      assert StageOk(s, s.m.live[a]);
    }
    hide RInv;
  }

  /** A known record does not turn into a retry record. */
  lemma RetryRowWas(s: RState, t: RState, row: nat, approval: nat)
    requires RInv(s) && Extends(s, t) && HasRow(s.m.rows, row) && RetryRow(t, row, approval)
    ensures RetryRow(s, row, approval)
  {
    assert RowOk(s, row) && t.m.rows[row - 1].key == s.m.rows[row - 1].key;
    match t.m.approvals[approval - 1].source
    case FromOther(command) => assert s.m.rows[row - 1].key == ApprovalKey(OtherKey(approval, command), approval);
    case FromBroker =>
      assert s.m.rows[row - 1].key == ApprovalKey(t.m.rows[t.origin[approval - 1] - 1].key, approval);
  }

  /** What begins on a retry record is a retry of its approval, and so is what is under way on it. */
  lemma OnRetryRow(s: RState, t: RState, l: Label, row: nat, approval: nat)
    requires RInv(s) && Serial(s, l) && RetryRow(s, row, approval) && LiveOn(s.m, row) != {}
    requires HasRow(t.m.rows, row) && t.m.rows[row - 1].key == s.m.rows[row - 1].key
    ensures !NoRetryUnderWay(s, approval)
    ensures l.BeginRun? ==> t.m.rows[row - 1].key != Strip(l.call.key)
    ensures l.BeginApproved? && t.m.rows[row - 1].key == Strip(ApprovalKey(l.call.key, l.approval)) ==>
      l.approval == approval
  {
    RetryRowIsOf(s, row, approval, approval);
    var a :| a in LiveOn(s.m, row);
    UnderWayOnRetry(s, a, approval);
    if l.BeginApproved? {
      RetriedKey(s, l.call, l.approval);
      RetryKeyTrim(s, ApprovalKey(l.call.key, l.approval), l.approval);
      TrimIsFixed(ApprovalKey(l.call.key, l.approval));
      if t.m.rows[row - 1].key == ApprovalKey(l.call.key, l.approval) {
        OneApproval(s, row, l.call.key, l.approval, approval);
      }
    }
    hide RInv, RetryRow, ApprovalKey, Fits, RetriedCall, Strip, AsksApart;
  }

  lemma UnderWayOnRetry(s: RState, a: nat, approval: nat)
    requires RInv(s) && a in s.m.live && Executing(s.m.live[a]) && RetryRow(s, s.m.live[a].row, approval)
    ensures s.m.live[a].approval == Some(approval)
  {
    var g := s.m.live[a];
    assert StageOk(s, g);
    RetryRowIsOf(s, g.row, approval, approval);
    if g.approval.Some? {
      RetryRowIsOf(s, g.row, approval, g.approval.value);
    }
    hide RInv, RetryRow, PlainKey;
  }

  lemma {:induction false} ApartNoOverlaps(labels: seq<Label>, approval: nat)
    requires RetriesApart(labels, approval)
    ensures NoOverlaps(RRun(InitialRState, labels), approval)
  {
    hide Serial, RNext, NoRetryUnderWay, RInv, Inv, NoOverlaps;
    if labels == [] {
      NothingOverlaps(approval);
    } else {
      var last := |labels| - 1;
      var rest, l := labels[..last], labels[last];
      assert forall i :: 0 <= i < last ==> labels[..i] == rest[..i] && labels[i] == rest[i];
      ApartNoOverlaps(rest, approval);
      HistoryKeeps(rest);
      if Serial(RRun(InitialRState, rest), l) {
        ApartStep(RRun(InitialRState, rest), l, approval);
      }
    }
  }

  lemma NothingOverlaps(approval: nat)
    ensures NoOverlaps(RRun(InitialRState, []), approval)
  {
  }

  /** So retries that keep apart complete an approval's call at most once, and call at most once plus the crashed. */
  lemma ApartRetriesCompleteOnce(labels: seq<Label>, approval: nat, row: nat)
    requires RetryRow(RRun(InitialRState, labels), row, approval) && RetriesApart(labels, approval)
    ensures var s := RRun(InitialRState, labels);
      && |s.m.tally| == |s.m.rows| && s.m.tally[row - 1].completed <= 1
      && s.m.tally[row - 1].execs <= 1 + s.m.tally[row - 1].abandoned
  {
    ApartNoOverlaps(labels, approval);
    hide RRun, RetriesApart, RetryRow;
    RetryCompletesOnce(labels, approval, row);
  }

  // ---------------------------------------------------- how far the unsafe count goes

  function ApprovedRuns(call: ToolCall, n: nat): seq<Label> {
    if n == 0 then [] else ApprovedRuns(call, n - 1) + [BeginApproved(n, call, n, Allow)]
  }

  /** The records of the approvals in turn, all still started. */
  ghost predicate ApprovedRows(m: Machine, call: ToolCall, n: nat) {
    && Aligned(m) && |m.rows| == n && (forall a :: a in m.live ==> a <= n)
    && (forall i :: 0 <= i < n ==> m.rows[i].key == ApprovalKey(call.key, i + 1))
    && UnsafeCount(m.rows) == n
  }

  lemma KeyIsNew(m: Machine, call: ToolCall, n: nat)
    requires Trim(call.key) && ApprovedRows(m, call, n)
    ensures Strip(ApprovalKey(call.key, n + 1)) == ApprovalKey(call.key, n + 1)
    ensures FindRow(m.rows, ApprovalKey(call.key, n + 1)).None?
  {
    ApprovalKeyTrim(call.key, n + 1);
    TrimIsFixed(ApprovalKey(call.key, n + 1));
    hide ApprovalKey, Aligned, UnsafeCount, Strip;
    forall i | 0 <= i < n ensures m.rows[i].key != ApprovalKey(call.key, n + 1) {
      if ApprovalKey(call.key, i + 1) == ApprovalKey(call.key, n + 1) {
        ApprovalKeyInjective(call.key, i + 1, call.key, n + 1);
      }
    }
  }

  lemma ApprovedAllowed(m: Machine, call: ToolCall, n: nat)
    requires Aligned(m) && n > 0 && n !in m.live && ValidCall(call) && !Forbidden(call)
    ensures EffectivePolicy(call, Allow) == Allow
    ensures Fits(m, BeginApproved(n, call, n, Allow))
  {
    hide Forbidden, ValidCall, Aligned;
  }

  lemma ApprovedInserts(m: Machine, call: ToolCall, n: nat)
    requires Aligned(m) && n !in m.live && n > 0 && ValidCall(call) && !Forbidden(call)
    requires FindRow(m.rows, Strip(ApprovalKey(call.key, n))).None?
    ensures var l, r := BeginApproved(n, call, n, Allow), RetryRecord(call, n, Allow);
      && Fits(m, l) && Aligned(m) && Enabled(m, l)
      && Next(m, l).rows == m.rows + [r] && |Next(m, l).tally| == |m.rows| + 1
      && Next(m, l).live == m.live[n := Granted(|m.rows| + 1, call, Some(n))]
  {
    ApprovedAllowed(m, call, n);
    hide Next, Fits, Forbidden, ValidCall, StoredRecord, ApprovalKey, Strip, LiveOn, EffectivePolicy, Enabled;
    FirstRecords(call, n, Allow);
    ApprovedStep(m, n, call, n, Allow);
    RecordedLive(m, RetryRecord(call, n, Allow), RetryIsRisky(call, Allow));
    RetryStarts(call, n);
    hide RetryRecord, Aligned;
  }

  lemma RetryStarts(call: ToolCall, n: nat)
    requires !Forbidden(call)
    ensures var r := RetryRecord(call, n, Allow);
      r.status == Started && r.policy == Allow && r.payload.riskTier == call.tier
  {
    hide Forbidden, Strip, ApprovalKey;
  }

  lemma OneMoreApproved(m: Machine, call: ToolCall, n: nat)
    requires Trim(call.key) && ValidCall(call) && call.tier == Network && !Forbidden(call) && ApprovedRows(m, call, n)
    ensures Fits(m, BeginApproved(n + 1, call, n + 1, Allow))
    ensures ApprovedRows(Next(m, BeginApproved(n + 1, call, n + 1, Allow)), call, n + 1)
  {
    hide *;
    ApprovedRowsAre(m, call, n);
    KeyIsNew(m, call, n);
    RetryStarts(call, n + 1);
    ApprovedInserts(m, call, n + 1);
    FirstRecords(call, n + 1, Allow);
    ApprovedGrow(m, Next(m, BeginApproved(n + 1, call, n + 1, Allow)), RetryRecord(call, n + 1, Allow), call, n);
  }

  lemma ApprovedRowsAre(m: Machine, call: ToolCall, n: nat)
    requires ApprovedRows(m, call, n)
    ensures Aligned(m) && n + 1 !in m.live && |m.rows| == n
  {
    hide Aligned;
  }

  lemma ApprovedGrow(m: Machine, after: Machine, r: Record, call: ToolCall, n: nat)
    requires ApprovedRows(m, call, n) && after.rows == m.rows + [r] && |after.tally| == |after.rows|
    requires after.live == m.live[n + 1 := Granted(n + 1, call, Some(n + 1))]
    requires r.key == ApprovalKey(call.key, n + 1)
    requires r.status == Started && r.policy == Allow && r.payload.riskTier == Network
    ensures ApprovedRows(after, call, n + 1)
  {
    hide ApprovalKey;
    assert after.rows[..n] == m.rows;
  }

  lemma {:induction false} ApprovedRunsCount(call: ToolCall, n: nat)
    requires Trim(call.key) && ValidCall(call) && call.tier == Network && !Forbidden(call)
    ensures ApprovedRows(Run(InitialMachine, ApprovedRuns(call, n)), call, n)
    ensures CountExcused(ApprovedRuns(call, n)) == n
  {
    hide *;
    if n == 0 {
      NothingApproved(call);
    } else {
      var rest, l := ApprovedRuns(call, n - 1), BeginApproved(n, call, n, Allow);
      ApprovedRunsAre(call, n);
      ApprovedRunsCount(call, n - 1);
      RunAppend(InitialMachine, rest, l);
      OneMoreApproved(Run(InitialMachine, rest), call, n - 1);
      ExcusedAllowed(call, n);
      CountAppend(rest, l);
    }
  }

  lemma NothingApproved(call: ToolCall)
    ensures ApprovedRows(Run(InitialMachine, ApprovedRuns(call, 0)), call, 0)
    ensures CountExcused(ApprovedRuns(call, 0)) == 0
  {
    RunStart(InitialMachine);
    hide Run;
  }

  lemma ApprovedRunsAre(call: ToolCall, n: nat)
    ensures n > 0 ==> ApprovedRuns(call, n) == ApprovedRuns(call, n - 1) + [BeginApproved(n, call, n, Allow)]
  {
  }

  lemma CountAppend(labels: seq<Label>, l: Label)
    ensures CountExcused(labels + [l]) == CountExcused(labels) + if Excusing(l) then 1 else 0
  {
    hide Excusing;
    assert (labels + [l])[..|labels|] == labels;
  }

  lemma ExcusedAllowed(call: ToolCall, n: nat)
    requires call.tier == Network && !Forbidden(call)
    ensures Excusing(BeginApproved(n, call, n, Allow))
  {
    hide Forbidden;
  }

  /** The bound on the unsafe count is reached: `n` approved runs of a network-tier call leave a count of `n`. */
  lemma UnsafeReached(call: ToolCall, n: nat)
    requires Trim(call.key) && ValidCall(call) && call.tier == Network && !Forbidden(call)
    ensures UnsafeCount(Run(InitialMachine, ApprovedRuns(call, n)).rows) == n
    ensures CountExcused(ApprovedRuns(call, n)) == n
  {
    ApprovedRunsCount(call, n);
    hide Forbidden, Run;
  }
}
