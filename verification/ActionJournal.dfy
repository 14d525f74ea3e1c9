/** The `action_records` table: the idempotent journal and the lease columns, one guarded update per call. */
module ActionJournal {
  import opened Prelude
  import opened Text
  import opened ToolCalls
  import opened PolicyActions

  datatype Status = Started | Succeeded | Failed | Skipped | PolicyDenied | NeedsApproval

  /** The statuses a tool result can have. */
  type ResultStatus = s: Status | s != Started witness Failed

  /** The stored call payload with the risk recorded in its action request. */
  datatype Payload = Payload(
    name: string, tier: Tier, args: Arguments, riskClass: ActionClass, riskTier: Tier)

  /** The stored result object; a fresh record has neither part. */
  datatype StoredResult = StoredResult(status: Option<ResultStatus>, approvalId: Option<nat>)

  datatype Lease = Lease(owner: Option<string>, expiresAt: Option<int>, heartbeatAt: Option<int>)

  /** An `action_records` row; the row at index `i` has action id `i + 1`. */
  datatype Record = Record(
    task: string, iteration: Option<nat>, key: string, actionType: string, status: Status,
    policy: PolicyAction, payload: Payload, result: StoredResult, lease: Lease)

  const NoResult := StoredResult(None, None)
  const NoLease := Lease(None, None, None)

  predicate HasRow(rows: seq<Record>, id: nat) {
    1 <= id <= |rows|
  }

  // ------------------------------------------------------------------- journal

  /** The row that holds `key`. */
  function FindRow(rows: seq<Record>, key: string): (r: Option<nat>)
    ensures r.Some? ==> HasRow(rows, r.value) && rows[r.value - 1].key == key
    ensures r.None? ==> forall i :: 0 <= i < |rows| ==> rows[i].key != key
  {
    if rows == [] then None
    else if rows[|rows| - 1].key == key then Some(|rows|)
    else FindRow(rows[..|rows| - 1], key)
  }

  /** `record_action`: insert, or leave the row that already holds the key. */
  function Insert(rows: seq<Record>, r: Record): seq<Record> {
    if FindRow(rows, r.key).Some? then rows else rows + [r]
  }

  function InsertedId(rows: seq<Record>, r: Record): (id: nat)
    ensures HasRow(Insert(rows, r), id) && Insert(rows, r)[id - 1].key == r.key
    ensures id > |rows| ==> Insert(rows, r)[id - 1] == r
  {
    if FindRow(rows, r.key).Some? then FindRow(rows, r.key).value else |rows| + 1
  }

  /** `complete_action_record`: set status and result, and drop the lease. */
  function Complete(rows: seq<Record>, id: nat, status: Status, result: StoredResult): seq<Record> {
    if !HasRow(rows, id) then rows
    else rows[id - 1 := rows[id - 1].(status := status, result := result, lease := NoLease)]
  }

  /** At most one record per key. */
  ghost predicate UniqueKeys(rows: seq<Record>) {
    forall i, j :: 0 <= i < j < |rows| ==> rows[i].key != rows[j].key
  }

  // -------------------------------------------------------------------- leases

  predicate ValidLeaseRequest(owner: string, ttl: int) {
    !Blank(owner) && ttl > 0
  }

  /** The guard of `acquire_action_lease`. */
  predicate CanAcquire(r: Record, owner: string, now: int) {
    && r.status == Started
    && (r.lease.owner.None? || r.lease.owner == Some(owner)
        || r.lease.expiresAt.None? || r.lease.expiresAt.value <= now)
  }

  function Acquire(r: Record, owner: string, ttl: int, now: int): Record {
    if CanAcquire(r, owner, now) then r.(lease := Lease(Some(owner), Some(now + ttl), Some(now))) else r
  }

  /** The guard of `heartbeat_action_lease`. */
  predicate CanHeartbeat(r: Record, owner: string, now: int) {
    && r.status == Started
    && r.lease.owner == Some(owner)
    && r.lease.expiresAt.Some? && r.lease.expiresAt.value > now
  }

  function Heartbeat(r: Record, owner: string, ttl: int, now: int): Record {
    if CanHeartbeat(r, owner, now) then
      r.(lease := r.lease.(expiresAt := Some(now + ttl), heartbeatAt := Some(now)))
    else r
  }

  function Release(r: Record, owner: string): Record {
    if r.lease.owner == Some(owner) then r.(lease := NoLease) else r
  }

  /** Listed by `list_expired_action_leases`. */
  predicate Expired(r: Record, cutoff: int) {
    r.status == Started && r.lease.owner.Some? && r.lease.expiresAt.Some? && r.lease.expiresAt.value <= cutoff
  }

  // --------------------------------------------------------------------- store

  /** Who asked: the broker, for one of its calls, or another part of the program, for a command. */
  datatype Source = FromBroker | FromOther(command: string)

  datatype Approval = Approval(task: string, iteration: Option<nat>, source: Source)

  /** How often an approval was retried, and what the last retry came to. */
  datatype RetryNote = RetryNote(count: nat, last: ResultStatus)

  function Noted(retries: map<nat, RetryNote>, approval: nat, status: ResultStatus): map<nat, RetryNote> {
    retries[approval := RetryNote(1 + if approval in retries then retries[approval].count else 0, status)]
  }

  class ActionStore {
    var rows: seq<Record>
    var approvals: seq<Approval>
    var retries: map<nat, RetryNote>   // the retry columns of the approvals retried so far

    constructor ()
      ensures rows == [] && approvals == [] && retries == map[]
    {
      rows, approvals, retries := [], [], map[];
    }

    /** Insert a record, or return the one that already holds the key; blank keys and types are refused. */
    method RecordAction(r: Record) returns (id: Option<nat>)
      modifies this`rows
      ensures id.None? <==> Blank(r.key) || Blank(r.actionType)
      ensures id.None? ==> rows == old(rows)
      ensures id.Some? ==>
        var stored := r.(key := Strip(r.key), actionType := Strip(r.actionType), lease := NoLease);
        && rows == Insert(old(rows), stored) && id.value == InsertedId(old(rows), stored)
        && HasRow(rows, id.value) && rows[id.value - 1].key == Strip(r.key)
        && rows == if exists i :: 0 <= i < |old(rows)| && old(rows)[i].key == Strip(r.key) then old(rows)
                   else old(rows) + [stored]
      ensures old(UniqueKeys(rows)) ==> UniqueKeys(rows)
    {
      if Blank(r.key) || Blank(r.actionType) { return None; }
      var stored := r.(key := Strip(r.key), actionType := Strip(r.actionType), lease := NoLease);
      var existing := FindRow(rows, stored.key);
      if existing.Some? { return existing; }
      rows := rows + [stored];
      return Some(|rows|);
    }

    method CompleteActionRecord(id: nat, status: Status, result: StoredResult) returns (found: bool)
      modifies this`rows
      ensures rows == Complete(old(rows), id, status, result)
      ensures found <==> 1 <= id <= |rows|
      ensures rows == if !found then old(rows) else
                      old(rows)[id - 1 := old(rows)[id - 1].(status := status, result := result, lease := NoLease)]
    {
      found := 1 <= id <= |rows|;
      if found {
        rows := rows[id - 1 := rows[id - 1].(status := status, result := result, lease := NoLease)];
      }
    }

    /** One guarded update; a blank owner or a time to live below one is refused outright. */
    method AcquireActionLease(id: nat, owner: string, ttl: int, now: int) returns (granted: Option<bool>)
      modifies this`rows
      ensures granted.None? <==> !ValidLeaseRequest(owner, ttl)
      ensures granted.Some? ==>
        (granted.value <==> HasRow(old(rows), id) && CanAcquire(old(rows)[id - 1], Strip(owner), now))
      ensures rows == if granted == Some(true)
                      then old(rows)[id - 1 := Acquire(old(rows)[id - 1], Strip(owner), ttl, now)] else old(rows)
      ensures granted == Some(true) <==>
        && !Blank(owner) && ttl >= 1 && 1 <= id <= |old(rows)|
        && var r := old(rows)[id - 1];
           && r.status == Started
           && (r.lease.owner in {None, Some(Strip(owner))} || r.lease.expiresAt.None? || r.lease.expiresAt.value <= now)
      ensures granted == Some(true) ==>
        rows[id - 1] == old(rows)[id - 1].(lease := Lease(Some(Strip(owner)), Some(now + ttl), Some(now)))
    {
      if Blank(owner) || ttl <= 0 { return None; }
      if id < 1 || |rows| < id || !CanAcquire(rows[id - 1], Strip(owner), now) { return Some(false); }
      rows := rows[id - 1 := rows[id - 1].(lease := Lease(Some(Strip(owner)), Some(now + ttl), Some(now)))];
      return Some(true);
    }

    method HeartbeatActionLease(id: nat, owner: string, ttl: int, now: int) returns (granted: Option<bool>)
      modifies this`rows
      ensures granted.None? <==> !ValidLeaseRequest(owner, ttl)
      ensures granted.Some? ==>
        (granted.value <==> HasRow(old(rows), id) && CanHeartbeat(old(rows)[id - 1], Strip(owner), now))
      ensures rows == if granted == Some(true)
                      then old(rows)[id - 1 := Heartbeat(old(rows)[id - 1], Strip(owner), ttl, now)] else old(rows)
      ensures granted == Some(true) <==>
        && !Blank(owner) && ttl >= 1 && 1 <= id <= |old(rows)|
        && var r := old(rows)[id - 1];
           r.status == Started && r.lease.owner == Some(Strip(owner)) &&
           r.lease.expiresAt.Some? && now < r.lease.expiresAt.value
      ensures granted == Some(true) ==>
        rows[id - 1] == old(rows)[id - 1].(lease := Lease(Some(Strip(owner)), Some(now + ttl), Some(now)))
    {
      if Blank(owner) || ttl <= 0 { return None; }
      if id < 1 || |rows| < id || !CanHeartbeat(rows[id - 1], Strip(owner), now) { return Some(false); }
      var r := rows[id - 1];
      rows := rows[id - 1 := r.(lease := r.lease.(expiresAt := Some(now + ttl), heartbeatAt := Some(now)))];
      return Some(true);
    }

    method ReleaseActionLease(id: nat, owner: string) returns (granted: Option<bool>)
      modifies this`rows
      ensures granted.None? <==> Blank(owner)
      ensures granted.Some? ==>
        (granted.value <==> HasRow(old(rows), id) && old(rows)[id - 1].lease.owner == Some(Strip(owner)))
      ensures rows == if granted == Some(true)
                      then old(rows)[id - 1 := Release(old(rows)[id - 1], Strip(owner))] else old(rows)
      ensures granted == Some(true) ==> rows[id - 1] == old(rows)[id - 1].(lease := Lease(None, None, None))
    {
      if Blank(owner) { return None; }
      if id < 1 || |rows| < id || rows[id - 1].lease.owner != Some(Strip(owner)) { return Some(false); }
      rows := rows[id - 1 := rows[id - 1].(lease := NoLease)];
      return Some(true);
    }

    method AddApprovalRequest(a: Approval) returns (id: nat)
      modifies this`approvals
      ensures approvals == old(approvals) + [a] && id == |approvals|
    {
      approvals := approvals + [a];
      id := |approvals|;
    }

    /** `record_approval_retry`: nothing for an unknown approval. */
    method RecordApprovalRetry(approval: nat, status: ResultStatus)
      modifies this`retries
      ensures retries == if 1 <= approval <= |approvals| then Noted(old(retries), approval, status) else old(retries)
      ensures forall a :: a in old(retries) && a != approval ==> a in retries && retries[a] == old(retries)[a]
      ensures 1 <= approval <= |approvals| ==>
        && approval in retries && retries[approval].last == status
        && retries[approval].count == 1 + if approval in old(retries) then old(retries)[approval].count else 0
    {
      if 1 <= approval <= |approvals| {
        var count := if approval in retries then retries[approval].count else 0;
        retries := retries[approval := RetryNote(count + 1, status)];
      }
    }
  }
}
