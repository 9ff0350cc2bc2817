/**
 The fleet-wide slots of the one pooled provider. Slot `k + 1` is row `k`; a row
 without a holder is free. Each call is one statement.
 */
module ProxySlots {
  import opened Basics

  const LEASE_TTL: int := 60

  /** The only provider with rows in the slot table. */
  const POOLED: string := "geonode"

  datatype Holder = Holder(worker: string, lane: nat, expires: int)

  type Rows = seq<Option<Holder>>

  predicate Free(row: Option<Holder>, now: int) {
    row.None? || row.value.expires < now
  }

  /** The lowest row from `from` on that is free and not hidden, or |rows|. */
  function FirstFree(rows: Rows, now: int, hidden: set<nat>, from: nat := 0): (k: nat)
    requires from <= |rows|
    ensures from <= k <= |rows|
    ensures k < |rows| ==> Free(rows[k], now) && k !in hidden
    ensures forall m :: from <= m < k ==> !Free(rows[m], now) || m in hidden
    decreases |rows| - from
  {
    if from == |rows| || (Free(rows[from], now) && from !in hidden) then from
    else FirstFree(rows, now, hidden, from + 1)
  }

  function Granted(rows: Rows, provider: string, now: int, hidden: set<nat>): Option<nat> {
    if provider == POOLED && FirstFree(rows, now, hidden) < |rows| then Some(FirstFree(rows, now, hidden) + 1) else None
  }

  function AfterClaim(rows: Rows, provider: string, worker: string, lane: nat, now: int, hidden: set<nat>): (r: Rows)
    ensures |r| == |rows|
  {
    var slot := Granted(rows, provider, now, hidden);
    if slot.None? then rows else rows[slot.value - 1 := Some(Holder(worker, lane, now + LEASE_TTL))]
  }

  predicate HeldByWorker(rows: Rows, provider: string, slot: nat, worker: string) {
    provider == POOLED && 1 <= slot <= |rows| && rows[slot - 1].Some? && rows[slot - 1].value.worker == worker
  }

  function AfterRelease(rows: Rows, provider: string, slot: nat, worker: string): (r: Rows)
    ensures |r| == |rows|
  {
    if HeldByWorker(rows, provider, slot, worker) then rows[slot - 1 := None] else rows
  }

  function AfterRenew(rows: Rows, worker: string, held: seq<(string, nat)>, now: int): (r: Rows)
    ensures |r| == |rows|
    ensures forall k :: 0 <= k < |rows| ==>
      r[k] == if (POOLED, k + 1) in held && HeldByWorker(rows, POOLED, k + 1, worker)
              then Some(rows[k].value.(expires := now + LEASE_TTL)) else rows[k]
  {
    seq(|rows|, k requires 0 <= k < |rows| =>
      if (POOLED, k + 1) in held && HeldByWorker(rows, POOLED, k + 1, worker)
      then Some(rows[k].value.(expires := now + LEASE_TTL)) else rows[k])
  }

  /** The row is somebody's and its lease is not over, or it is hidden. */
  predicate InUseOrHidden(row: Option<Holder>, k: nat, now: int, hidden: set<nat>) {
    k in hidden || (row.Some? && now <= row.value.expires)
  }

  class PostgresProxySlots {
    var rows: Rows

    constructor (n: nat)
      ensures rows == seq(n, _ => None)
    {
      rows := seq(n, _ => None);
    }

    /** Takes the lowest free slot, if any. */
    method Claim(provider: string, worker: string, lane: nat, now: int, hidden: set<nat>) returns (slot: Option<nat>)
      modifies this
      ensures slot == Granted(old(rows), provider, now, hidden)
      ensures rows == AfterClaim(old(rows), provider, worker, lane, now, hidden)
      ensures slot.None? ==> rows == old(rows)
      ensures slot.None? && provider == "geonode" ==> forall k :: 0 <= k < |rows| ==>
        InUseOrHidden(rows[k], k, now, hidden)
      ensures slot.Some? ==>
        && provider == "geonode" && 1 <= slot.value <= |rows| == |old(rows)|
        && var taken := slot.value - 1;
        && !InUseOrHidden(old(rows)[taken], taken, now, hidden)
        && (forall k :: 0 <= k < taken ==> InUseOrHidden(rows[k], k, now, hidden))
        && (forall k :: 0 <= k < |rows| && k != taken ==> rows[k] == old(rows)[k])
        && rows[taken] == Some(Holder(worker, lane, now + 60))
    {
      if provider != POOLED {
        return None;
      }
      var k := 0;
      while k < |rows| && !(Free(rows[k], now) && k !in hidden)
        invariant k <= |rows|
        invariant FirstFree(rows, now, hidden) == FirstFree(rows, now, hidden, k)
      {
        k := k + 1;
      }
      if k == |rows| {
        return None;
      }
      rows := rows[k := Some(Holder(worker, lane, now + LEASE_TTL))];
      return Some(k + 1);
    }

    /** Frees the slot if this worker has it; otherwise does nothing. */
    method Release(provider: string, slot: nat, worker: string)
      modifies this
      ensures rows == AfterRelease(old(rows), provider, slot, worker)
      ensures |rows| == |old(rows)| && forall k :: 0 <= k < |rows| ==>
        var mine := provider == "geonode" && slot == k + 1 && old(rows)[k].Some? && old(rows)[k].value.worker == worker;
        rows[k] == if mine then None else old(rows)[k]
    {
      if HeldByWorker(rows, provider, slot, worker) {
        rows := rows[slot - 1 := None];
      }
    }

    /** Extends the named slots this worker still has. */
    method Renew(worker: string, held: seq<(string, nat)>, now: int)
      modifies this
      ensures rows == AfterRenew(old(rows), worker, held, now)
      ensures |rows| == |old(rows)| && forall k :: 0 <= k < |rows| ==>
        var mine := ("geonode", k + 1) in held && old(rows)[k].Some? && old(rows)[k].value.worker == worker;
        rows[k] == if mine then Some(Holder(worker, old(rows)[k].value.lane, now + 60)) else old(rows)[k]
    {
      if held == [] {
        assert rows == AfterRenew(rows, worker, held, now);
        return;
      }
      ghost var before := rows;
      for k := 0 to |rows|
        invariant |rows| == |before|
        invariant forall m :: 0 <= m < |rows| ==>
          rows[m] == if m < k then AfterRenew(before, worker, held, now)[m] else before[m]
      {
        if (POOLED, k + 1) in held && HeldByWorker(rows, POOLED, k + 1, worker) {
          rows := rows[k := Some(rows[k].value.(expires := now + LEASE_TTL))];
        }
      }
      assert rows == AfterRenew(before, worker, held, now);
    }
  }
}
