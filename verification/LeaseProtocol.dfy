/** Histories of lease calls on one record, under a clock that never runs backwards. */
module LeaseProtocol {
  import opened Prelude
  import opened ActionJournal

  /** One store call on the record, with the time it was made. */
  datatype LeaseOp =
    | AcquireOp(owner: string, ttl: int, now: int)
    | HeartbeatOp(owner: string, ttl: int, now: int)
    | ReleaseOp(owner: string, now: int)
    | CompleteOp(status: ResultStatus, now: int)

  function Apply(r: Record, op: LeaseOp): Record {
    match op
    case AcquireOp(owner, ttl, now) => Acquire(r, owner, ttl, now)
    case HeartbeatOp(owner, ttl, now) => Heartbeat(r, owner, ttl, now)
    case ReleaseOp(owner, _) => Release(r, owner)
    case CompleteOp(status, _) => r.(status := status, lease := NoLease)
  }

  predicate Granted(r: Record, op: LeaseOp) {
    match op
    case AcquireOp(owner, _, now) => CanAcquire(r, owner, now)
    case HeartbeatOp(owner, _, now) => CanHeartbeat(r, owner, now)
    case ReleaseOp(owner, _) => r.lease.owner == Some(owner)
    case CompleteOp(_, _) => true
  }

  /** The record after the first `k` calls. */
  function After(r: Record, ops: seq<LeaseOp>, k: nat): Record
    requires k <= |ops|
  {
    if k == 0 then r else Apply(After(r, ops, k - 1), ops[k - 1])
  }

  /** Call `k` was made and its guard held. */
  predicate GrantedAt(r: Record, ops: seq<LeaseOp>, k: nat) {
    k < |ops| && Granted(After(r, ops, k), ops[k])
  }

  predicate AcquiredAt(r: Record, ops: seq<LeaseOp>, k: nat, owner: string) {
    GrantedAt(r, ops, k) && ops[k].AcquireOp? && ops[k].owner == owner
  }

  /** Call `k` gave `owner` the lease until `ops[k].now + ops[k].ttl`. */
  predicate LeasedAt(r: Record, ops: seq<LeaseOp>, k: nat, owner: string) {
    GrantedAt(r, ops, k) && (ops[k].AcquireOp? || ops[k].HeartbeatOp?) && ops[k].owner == owner
  }

  predicate ReleasedAt(r: Record, ops: seq<LeaseOp>, k: nat, owner: string) {
    GrantedAt(r, ops, k) && ops[k].ReleaseOp? && ops[k].owner == owner
  }

  ghost predicate ClockForward(ops: seq<LeaseOp>) {
    forall i, j :: 0 <= i <= j < |ops| ==> ops[i].now <= ops[j].now
  }

  /** Owner, expiry and heartbeat are all set or all empty, and only a started record holds a lease. */
  predicate LeaseWhole(r: Record) {
    && (r.lease.owner.Some? <==> r.lease.expiresAt.Some?)
    && (r.lease.owner.Some? <==> r.lease.heartbeatAt.Some?)
    && (r.status != Started ==> r.lease == NoLease)
  }

  lemma {:induction false} LeaseStaysWhole(r: Record, ops: seq<LeaseOp>, k: nat)
    requires LeaseWhole(r) && k <= |ops|
    ensures LeaseWhole(After(r, ops, k))
  {
    if k > 0 {
      LeaseStaysWhole(r, ops, k - 1);
    }
  }

  /** A grant to `a` at `i` still stands after `k` calls, or its expiry has passed, or the record is closed. */
  lemma {:induction false} GrantStands(r: Record, ops: seq<LeaseOp>, i: nat, k: nat, a: string)
    requires ClockForward(ops) && i < k <= |ops|
    requires LeasedAt(r, ops, i, a)
    requires forall m :: i < m < k ==> !LeasedAt(r, ops, m, a) && !ReleasedAt(r, ops, m, a)
    ensures var s := After(r, ops, k);
      || (s.lease.owner == Some(a) && s.lease.expiresAt == Some(ops[i].now + ops[i].ttl))
      || ops[i].now + ops[i].ttl <= ops[k - 1].now
      || s.status != Started
  {
    if k > i + 1 {
      GrantStands(r, ops, i, k - 1, a);
      assert !LeasedAt(r, ops, k - 1, a) && !ReleasedAt(r, ops, k - 1, a);
      assert ops[k - 2].now <= ops[k - 1].now;
    }
  }

  /**
   * Mutual exclusion: when another owner acquires the lease at `j` after `a` was last granted it at `i` and
   * did not release it, the time granted to `a` is over.
   */
  lemma MutualExclusion(r: Record, ops: seq<LeaseOp>, i: nat, j: nat, a: string, b: string)
    requires ClockForward(ops) && i < j < |ops| && a != b
    requires LeasedAt(r, ops, i, a)
    requires forall m :: i < m < j ==> !LeasedAt(r, ops, m, a) && !ReleasedAt(r, ops, m, a)
    requires AcquiredAt(r, ops, j, b)
    ensures ops[i].now + ops[i].ttl <= ops[j].now
  {
    GrantStands(r, ops, i, j, a);
  }

  /** `a` owned the record from right after call `i` until the record's `k`-th state. */
  ghost predicate OwnedThrough(r: Record, ops: seq<LeaseOp>, i: nat, k: nat, a: string)
    requires k <= |ops|
  {
    forall m :: i < m <= k ==> After(r, ops, m).lease.owner == Some(a)
  }

  lemma {:induction false} OwnerSinceAcquire(r: Record, ops: seq<LeaseOp>, k: nat, a: string) returns (i: nat)
    requires r.lease == NoLease && k <= |ops|
    requires After(r, ops, k).lease.owner == Some(a)
    ensures i < k && AcquiredAt(r, ops, i, a) && OwnedThrough(r, ops, i, k, a)
    ensures forall m :: i < m < k ==> !AcquiredAt(r, ops, m, a)
  {
    if AcquiredAt(r, ops, k - 1, a) {
      i := k - 1;
    } else {
      i := OwnerSinceAcquire(r, ops, k - 1, a);
    }
  }

  /** A successful heartbeat proves unbroken ownership since the caller's own last acquire. */
  lemma HeartbeatProvesOwnership(r: Record, ops: seq<LeaseOp>, j: nat, a: string)
    requires r.lease == NoLease && j < |ops|
    requires ops[j].HeartbeatOp? && ops[j].owner == a && GrantedAt(r, ops, j)
    ensures exists i ::
      && 0 <= i < j && AcquiredAt(r, ops, i, a) && OwnedThrough(r, ops, i, j + 1, a)
      && forall m :: i < m < j ==> !AcquiredAt(r, ops, m, a)
  {
    var i := OwnerSinceAcquire(r, ops, j, a);
    assert OwnedThrough(r, ops, i, j + 1, a);
  }

  /** A record is listed as expired exactly when it is leased and every other owner could take it over. */
  lemma ExpiredIffOpenToOthers(r: Record, now: int, other: string)
    requires LeaseWhole(r) && r.lease.owner.Some? && r.lease.owner.value != other
    ensures Expired(r, now) <==> CanAcquire(r, other, now)
  {
  }
}
