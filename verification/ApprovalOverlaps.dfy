/** Two retries of one approval at once: what a retry would run stays the same, and both run it. */
module ApprovalOverlaps {
  import opened Prelude
  import opened Text
  import opened PolicyActions
  import opened ToolCalls
  import opened ActionJournal
  import opened BrokerMachine
  import opened ApprovalRetry
  import opened AskOverlaps

  // --------------------------------------------------------- what a retry would run

  /** Once there is a call a retry would run, it stays the same, whatever the step. */
  lemma RetriedCallStays(s: RState, l: Label, approval: nat)
    requires RInv(s) && Serial(s, l) && HasApproval(s, approval)
    requires RetriedCall(s.m.rows, s.m.approvals[approval - 1], approval).Some?
    ensures var t := RNext(s, l);
      && HasApproval(t, approval)
      && RetriedCall(t.m.rows, t.m.approvals[approval - 1], approval)
      == RetriedCall(s.m.rows, s.m.approvals[approval - 1], approval)
  {
    SerialFits(s, l);
    hide *;
    SerialKeeps(s, l);
    NextWrites(s.m, l);
    SameRetriedCall(s, RNext(s, l), l, approval);
  }

  lemma SameRetriedCall(s: RState, t: RState, l: Label, approval: nat)
    requires RInv(s) && RInv(t) && Extends(s, t) && Writes(s.m, t.m, l) && HasApproval(s, approval)
    requires RetriedCall(s.m.rows, s.m.approvals[approval - 1], approval).Some?
    ensures HasApproval(t, approval)
    ensures RetriedCall(t.m.rows, t.m.approvals[approval - 1], approval)
         == RetriedCall(s.m.rows, s.m.approvals[approval - 1], approval)
  {
    if s.m.approvals[approval - 1].source.FromBroker? {
      HeldHasAsk(s, approval);
      FoundIsOrigin(s, approval);
      hide RInv, Rebuild;
      assert Linked(t, approval);
      FoundIsOrigin(t, approval);
    }
  }

  lemma HeldHasAsk(s: RState, approval: nat)
    requires RInv(s) && HasApproval(s, approval) && s.m.approvals[approval - 1].source.FromBroker?
    ensures HasAsk(s, approval)
  {
    assert OriginOk(s, approval);
    hide RowOk, StageOk, PlainKey;
  }

  // ------------------------------------------------------------- two retries at once

  /** The retries of `call` find their record still to be inserted, or still started. */
  predicate RetryOpen(rows: seq<Record>, call: ToolCall, approval: nat) {
    var known := FindRow(rows, Strip(ApprovalKey(call.key, approval)));
    known.Some? ==> rows[known.value - 1].status == Started
  }

  /** Two retries that begin one after the other, and then both call their executor. */
  function TwoRetries(a: nat, b: nat, call: ToolCall, approval: nat): seq<Label> {
    [BeginApproved(a, call, approval, Allow), BeginApproved(b, call, approval, Allow),
     Execute(a, Raised), Execute(b, Raised)]
  }

  function TallyOf(m: Machine, id: nat): Tally {
    if 1 <= id <= |m.tally| then m.tally[id - 1] else ZeroTally
  }

  /** A retry that is let through on an open record goes on to execute. */
  ghost predicate Granting(m: Machine, after: Machine, a: nat, call: ToolCall, approval: nat, id: nat) {
    && HasRow(after.rows, id) && |after.tally| == |after.rows|
    && after.live == m.live[a := Granted(id, call, Some(approval))]
    && FindRow(after.rows, Strip(ApprovalKey(call.key, approval))) == Some(id) && after.rows[id - 1].status == Started
    && TallyOf(after, id).execs == TallyOf(m, id).execs && TallyOf(after, id).abandoned == TallyOf(m, id).abandoned
    && TallyOf(after, id).overlaps == TallyOf(m, id).overlaps + if LiveOn(m, id) == {} then 0 else 1
  }

  function RetryId(m: Machine, call: ToolCall, approval: nat): nat {
    InsertedId(m.rows, RetryRecord(call, approval, Allow))
  }

  lemma GrantCounts(m: Machine, r: Record, excused: bool, a: nat, call: ToolCall, approval: nat)
    requires Aligned(m) && r.key == Strip(ApprovalKey(call.key, approval)) && r.status == Started
    requires RetryOpen(m.rows, call, approval)
    ensures var mid, id := Recorded(m, r, excused), InsertedId(m.rows, r);
      && HasRow(mid.rows, id) && |mid.tally| == |mid.rows|
      && Granting(m, GrantOrReplay(mid, a, id, call, Some(approval)), a, call, approval, id)
  {
    hide Strip, ApprovalKey;
    var mid, id := Recorded(m, r, excused), InsertedId(m.rows, r);
    InsertedIsFound(m.rows, r);
    RecordedLive(m, r, excused);
    assert LiveOn(mid, id) == LiveOn(m, id);
    hide LiveOn, InsertedId;
  }

  lemma InsertedIsFound(rows: seq<Record>, r: Record)
    ensures FindRow(Insert(rows, r), r.key) == Some(InsertedId(rows, r))
  {
  }

  lemma RetryGrants(m: Machine, a: nat, call: ToolCall, approval: nat)
    requires Aligned(m) && ValidCall(call) && !Forbidden(call) && 1 <= approval && a !in m.live
    requires RetryOpen(m.rows, call, approval)
    ensures var l := BeginApproved(a, call, approval, Allow);
      Fits(m, l) && Granting(m, Next(m, l), a, call, approval, RetryId(m, call, approval))
  {
    hide Strip, ApprovalKey, ValidCall, Forbidden, Granting, RetryOpen, Aligned, GrantOrReplay;
    var r := RetryRecord(call, approval, Allow);
    assert EffectivePolicy(call, Allow) == Allow;
    assert r.key == Strip(ApprovalKey(call.key, approval)) && r.status == Started;
    GrantCounts(m, r, RetryIsRisky(call, Allow), a, call, approval);
    hide Recorded, InsertedId;
  }

  lemma RetryBegins(s: RState, a: nat, call: ToolCall, approval: nat) returns (t: RState)
    requires RInv(s) && Inv(s.m) && a !in s.m.live && ValidCall(call) && !Forbidden(call)
    requires HasApproval(s, approval) && 1 <= approval && RetryOpen(s.m.rows, call, approval)
    requires RetriedCall(s.m.rows, s.m.approvals[approval - 1], approval) == Some(call)
    ensures Leads(s, BeginApproved(a, call, approval, Allow), t) && RInv(t) && Inv(t.m)
    ensures Granting(s.m, t.m, a, call, approval, RetryId(s.m, call, approval))
    ensures HasApproval(t, approval) && RetriedCall(t.m.rows, t.m.approvals[approval - 1], approval) == Some(call)
  {
    var l := BeginApproved(a, call, approval, Allow);
    hide *;
    InvAligned(s.m);
    RetryGrants(s.m, a, call, approval);
    RetryIsSerial(s, l);
    SerialFits(s, l);
    t := RNext(s, l);
    TakenLeads(s, l);
    SerialKeeps(s, l);
    NextKeeps(s.m, l);
    RetriedCallStays(s, l, approval);
  }

  lemma TakenLeads(s: RState, l: Label)
    requires Serial(s, l) && Aligned(s.m) && Enabled(s.m, l)
    ensures Leads(s, l, RNext(s, l))
  {
  }

  lemma RetryIsSerial(s: RState, l: Label)
    requires Fits(s.m, l) && l.BeginApproved? && HasApproval(s, l.approval)
    requires RetriedCall(s.m.rows, s.m.approvals[l.approval - 1], l.approval) == Some(l.call)
    ensures Serial(s, l)
  {
    hide Fits, RetriedCall, ApprovalKey;
  }

  lemma InvAligned(m: Machine)
    requires Inv(m)
    ensures Aligned(m)
  {
  }

  lemma ExecuteCounts(m: Machine, a: nat, call: ToolCall, approval: nat, id: nat)
    requires Aligned(m) && a in m.live && m.live[a] == Granted(id, call, Some(approval))
    ensures var l := Execute(a, Raised);
      && Fits(m, l) && Next(m, l).rows == m.rows
      && Next(m, l).live == m.live[a := Executed(id, call, Some(approval), ResultOf(Raised))]
      && TallyOf(Next(m, l), id) == TallyOf(m, id).(execs := TallyOf(m, id).execs + 1)
  {
    RunExecutes(m, a, Raised);
  }

  lemma RetryExecutes(s: RState, a: nat, call: ToolCall, approval: nat, id: nat) returns (t: RState)
    requires Inv(s.m) && a in s.m.live && s.m.live[a] == Granted(id, call, Some(approval)) && HasRow(s.m.rows, id)
    ensures Leads(s, Execute(a, Raised), t) && Inv(t.m) && t.m.rows == s.m.rows
    ensures t.m.live == s.m.live[a := Executed(id, call, Some(approval), ResultOf(Raised))]
    ensures TallyOf(t.m, id) == TallyOf(s.m, id).(execs := TallyOf(s.m, id).execs + 1)
  {
    hide *;
    var l := Execute(a, Raised);
    InvAligned(s.m);
    ExecuteCounts(s.m, a, call, approval, id);
    ExecuteIsSerial(s, a, call, approval, id);
    SerialFits(s, l);
    t := RNext(s, l);
    TakenLeads(s, l);
    NextKeeps(s.m, l);
  }

  lemma ExecuteIsSerial(s: RState, a: nat, call: ToolCall, approval: nat, id: nat)
    requires Fits(s.m, Execute(a, Raised)) && a in s.m.live && s.m.live[a] == Granted(id, call, Some(approval))
    ensures Serial(s, Execute(a, Raised))
  {
    hide Fits;
  }

  /** Two retries that overlap on an open record. */
  lemma TwoRetriesExecute(s: RState, a: nat, b: nat, call: ToolCall, approval: nat) returns (t: RState)
    requires RInv(s) && Inv(s.m) && a !in s.m.live && b !in s.m.live && a != b && ValidCall(call) && !Forbidden(call)
    requires HasApproval(s, approval) && RetryOpen(s.m.rows, call, approval)
    requires RetriedCall(s.m.rows, s.m.approvals[approval - 1], approval) == Some(call)
    ensures t == RRun(s, TwoRetries(a, b, call, approval))
    ensures var id := RetryId(s.m, call, approval);
      && FindRow(t.m.rows, Strip(ApprovalKey(call.key, approval))) == Some(id)
      && TallyOf(t.m, id).execs == TallyOf(s.m, id).execs + 2
      && TallyOf(t.m, id).abandoned == TallyOf(s.m, id).abandoned
      && TallyOf(t.m, id).overlaps > TallyOf(s.m, id).overlaps
  {
    hide RInv, Inv, Leads, ValidCall, Forbidden, Strip, ApprovalKey, RetriedCall, LiveOn, RRun, RetryId;
    var id := RetryId(s.m, call, approval);
    var first := RetryBegins(s, a, call, approval);
    SameRetryId(first.m, call, approval, id);
    UnderWay(first.m, a, id);
    var second := RetryBegins(first, b, call, approval);
    var third := RetryExecutes(second, a, call, approval, id);
    t := RetryExecutes(third, b, call, approval, id);
    FourSteps(s, BeginApproved(a, call, approval, Allow), first, BeginApproved(b, call, approval, Allow), second,
              Execute(a, Raised), third, Execute(b, Raised), t);
  }

  lemma SameRetryId(m: Machine, call: ToolCall, approval: nat, id: nat)
    requires FindRow(m.rows, Strip(ApprovalKey(call.key, approval))) == Some(id)
    ensures RetryId(m, call, approval) == id
  {
    hide Strip, ApprovalKey, EffectivePolicy;
  }

  lemma UnderWay(m: Machine, a: nat, id: nat)
    requires a in m.live && Executing(m.live[a]) && m.live[a].row == id
    ensures LiveOn(m, id) != {}
  {
    assert a in LiveOn(m, id);
  }

  /**
   * After any history: two retries of one approval that overlap on an open record call the executor twice for it,
   * though nobody abandoned an attempt.
   */
  lemma OverlappingRetriesRunTwice(labels: seq<Label>, approval: nat, a: nat, b: nat)
    requires var s := RRun(InitialRState, labels);
      && HasApproval(s, approval) && a !in s.m.live && b !in s.m.live && a != b
      && var call := RetriedCall(s.m.rows, s.m.approvals[approval - 1], approval);
         call.Some? && ValidCall(call.value) && !Forbidden(call.value) && RetryOpen(s.m.rows, call.value, approval)
    ensures var s := RRun(InitialRState, labels);
      var call := RetriedCall(s.m.rows, s.m.approvals[approval - 1], approval).value;
      var t, row := RRun(InitialRState, labels + TwoRetries(a, b, call, approval)), RetryId(s.m, call, approval);
      && RetryRow(t, row, approval)
      && TallyOf(t.m, row).execs == TallyOf(s.m, row).execs + 2
      && TallyOf(t.m, row).abandoned == TallyOf(s.m, row).abandoned
      && TallyOf(t.m, row).overlaps > TallyOf(s.m, row).overlaps
  {
    var s := RRun(InitialRState, labels);
    var call := RetriedCall(s.m.rows, s.m.approvals[approval - 1], approval).value;
    HistoryKeeps(labels);
    hide RRun, RInv, Inv, RetriedCall, ValidCall, Forbidden, RetryOpen, RetryId, RetryRow, Strip, ApprovalKey;
    var t := TwoRetriesExecute(s, a, b, call, approval);
    RRunJoin(InitialRState, labels, TwoRetries(a, b, call, approval));
    RRunKeeps(s, TwoRetries(a, b, call, approval));
    IsRetryRow(s, t, call, approval, RetryId(s.m, call, approval));
  }

  lemma IsRetryRow(s: RState, t: RState, call: ToolCall, approval: nat, row: nat)
    requires RInv(s) && RInv(t) && Extends(s, t) && HasApproval(s, approval)
    requires RetriedCall(s.m.rows, s.m.approvals[approval - 1], approval) == Some(call)
    requires FindRow(t.m.rows, Strip(ApprovalKey(call.key, approval))) == Some(row)
    ensures RetryRow(t, row, approval)
  {
    hide RInv, Strip, ApprovalKey, RetriedCall, Extends, RetryKey, RetryRow;
    RetriedKey(s, call, approval);
    RetryKeyTrim(s, ApprovalKey(call.key, approval), approval);
    TrimIsFixed(ApprovalKey(call.key, approval));
    RetryKeyStays(s, t, ApprovalKey(call.key, approval), approval);
    KnownRetry(t, row, approval);
  }

  // ------------------------------------------------------------ from any held call

  /** A call is held, and its approval asked and stored. */
  function Held(call: ToolCall): seq<Label> {
    [BeginRun(0, call, Ask), CreateApproval(0), FinishAsk(0)]
  }

  function HeldState(call: ToolCall): RState {
    RState(Machine([HeldRow(call, Some(1))], [AskOf(call)], map[], [ZeroTally], 0), [1])
  }

  lemma ThreeTaken(r: RState, a: Label, s: RState, b: Label, t: RState, c: Label, u: RState)
    requires Leads(r, a, s) && Leads(s, b, t) && Leads(t, c, u)
    ensures RRun(r, [a, b, c]) == u
  {
    NothingRun(r);
    hide Serial, RNext;
    RRunMore(r, [], a);
    RRunMore(r, [a], b);
    RRunMore(r, [a, b], c);
    hide RRun;
    assert [] + [a] == [a] && [a] + [b] == [a, b] && [a, b] + [c] == [a, b, c];
  }

  function AskingState(call: ToolCall, approval: Option<nat>): RState {
    var m := Machine([HeldRow(call, None)], if approval.None? then [] else [AskOf(call)],
                     map[0 := Asking(1, call, approval)], [ZeroTally], 0);
    RState(m, if approval.None? then [] else [1])
  }

  lemma AskTaken(call: ToolCall)
    requires Holdable(call) && PlainKey(Strip(call.key))
    ensures Leads(InitialRState, BeginRun(0, call, Ask), AskingState(call, None))
  {
    FirstAsks(call);
    hide Strip, ValidCall, Forbidden, PlainKey, Next, HeldRow;
  }

  lemma AskStored(call: ToolCall)
    ensures Leads(AskingState(call, None), CreateApproval(0), AskingState(call, Some(1)))
  {
    HeldIsHeld(call, None);
    hide Strip, HeldRow, Next, Rebuild;
    AskCreates(AskingState(call, None).m, 0);
  }

  lemma AskClosed(call: ToolCall)
    ensures Leads(AskingState(call, Some(1)), FinishAsk(0), HeldState(call))
  {
    HeldIsHeld(call, Some(1));
    HeldIsHeld(call, None);
    hide Strip, HeldRow, Next, Rebuild;
    AskCloses(AskingState(call, Some(1)).m, 0);
    assert AskingState(call, Some(1)).m.live - {0} == map[];
  }

  lemma HeldRuns(call: ToolCall)
    requires Holdable(call) && PlainKey(Strip(call.key))
    ensures RRun(InitialRState, Held(call)) == HeldState(call)
  {
    AskTaken(call);
    AskStored(call);
    AskClosed(call);
    hide Leads, RRun;
    ThreeTaken(InitialRState, BeginRun(0, call, Ask), AskingState(call, None), CreateApproval(0),
               AskingState(call, Some(1)), FinishAsk(0), HeldState(call));
  }

  lemma HeldIsOpen(call: ToolCall)
    requires KeysApart(call)
    ensures var s := HeldState(call);
      && HasApproval(s, 1) && RetriedCall(s.m.rows, s.m.approvals[0], 1) == Some(TrimCall(call))
      && FindRow(s.m.rows, Strip(ApprovalKey(TrimCall(call).key, 1))).None?
  {
    HeldIsHeld(call, Some(1));
    hide Strip, HeldRow, Rebuild, ApprovalKey;
  }

  /** Of any call that can be held: two overlapping retries of its approval call the executor twice. */
  lemma HeldCallRunsTwice(call: ToolCall)
    requires Holdable(call) && PlainKey(Strip(call.key))
    ensures var t := RRun(InitialRState, Held(call) + TwoRetries(0, 1, TrimCall(call), 1));
      RetryRow(t, 2, 1) && TallyOf(t.m, 2).execs == 2 && TallyOf(t.m, 2).abandoned == 0
  {
    HeldKeys(call);
    HeldRuns(call);
    HeldIsOpen(call);
    hide RRun, RetryRow, Strip, ApprovalKey, HeldRow, RetriedCall, TrimCall, Holdable, Held, TwoRetries, PlainKey;
    OverlappingRetriesRunTwice(Held(call), 1, 0, 1);
    assert RetryId(HeldState(call).m, TrimCall(call), 1) == 2 by {
      KeyOfRetry(TrimCall(call));
    }
  }

  lemma KeyOfRetry(call: ToolCall)
    ensures RetryRecord(call, 1, Allow).key == Strip(ApprovalKey(call.key, 1))
  {
    hide Strip, ApprovalKey, EffectivePolicy;
  }
}
