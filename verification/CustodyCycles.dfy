/**
  Custody that works: what a materialization may do until it expires, and what a
  whole refresh or reauthorization cycle leaves behind.
  */
module CustodyCycles {
  import opened Options
  import opened Custody
  import opened CustodySafety
  import opened CustodyRuns

  /** The fence handed out with the lease that operation `op` took. */
  function FenceOf(s: Snapshot, op: OperationId): Fence
    requires LeaseOf(op) in s.leases
  {
    var l := s.leases[LeaseOf(op)];
    Fence(l.attachment, LeaseOf(op), l.connection, l.host, l.hostEpoch, l.epoch, l.version)
  }

  /** A granted materialization is current, for exactly its mode, until it expires. */
  lemma MaterializedIsCurrent(s: Snapshot, op: OperationId, c: ConnectionId, host: HostId, mode: Mode, expires: Time,
                              now: Time, later: Time)
    requires DoMaterialize(s, op, c, host, mode, expires, now).Some?
    ensures var t := DoMaterialize(s, op, c, host, mode, expires, now).value;
            && LeaseOf(op) in t.leases && FenceOf(t, op).connection == c && FenceOf(t, op).host == host
            && (IsCurrent(t, FenceOf(t, op), later) <==> later < expires)
            && (forall m :: HasCurrentLease(t, FenceOf(t, op), later, m) <==> later < expires && m == mode)
            && c in t.connections && t.connections[c].status == (if mode.Refresh? then Refreshing else ReadyNow)
  {
    hide Reconciled;
    hide ActiveOf;
  }

  /**
    A refresh cycle: materialize, activate, checkpoint, each before expiry, always
    succeeds; it publishes the new state one version on, frees the connection and
    spends the fence.
    */
  lemma RefreshCycle(s: Snapshot, op: OperationId, c: ConnectionId, host: HostId, expires: Time, state: Ciphertext,
                     t0: Time, t1: Time, t2: Time)
    requires DoMaterialize(s, op, c, host, Refresh, expires, t0).Some? && t1 < expires && t2 < expires
    ensures var held := DoMaterialize(s, op, c, host, Refresh, expires, t0).value;
            var fence := FenceOf(held, op);
            var active := DoActivate(held, fence, t1);
            && active.Some?
            && DoCheckpoint(held, fence, state, t2).None?
            && var done := DoCheckpoint(active.value, fence, state, t2);
               && done.Some? && Stale(done.value, fence)
               && done.value.connections[c]
                  == held.connections[c].(status := ReadyNow, version := held.connections[c].version + 1,
                                          state := Some(state), digest := Some(DigestOf(state)))
               && (forall d :: d in held.connections && d != c ==> done.value.connections[d] == held.connections[d])
               && (forall i :: i in held.leases && i != LeaseOf(op) ==> done.value.leases[i] == held.leases[i])
  {
    MaterializedIsCurrent(s, op, c, host, Refresh, expires, t0, t1);
    MaterializedIsCurrent(s, op, c, host, Refresh, expires, t0, t2);
    hide DoMaterialize;
    var held := DoMaterialize(s, op, c, host, Refresh, expires, t0).value;
    MaterializedFits(s, op, c, host, Refresh, expires, t0);
    assert held.leases[LeaseOf(op)].activated == false;
  }

  lemma MaterializedFits(s: Snapshot, op: OperationId, c: ConnectionId, host: HostId, mode: Mode, expires: Time,
                         now: Time)
    requires DoMaterialize(s, op, c, host, mode, expires, now).Some?
    ensures var t := DoMaterialize(s, op, c, host, mode, expires, now).value;
            && LeaseOf(op) in t.leases && c in t.connections
            && t.leases[LeaseOf(op)].epoch == t.connections[c].epoch
            && t.leases[LeaseOf(op)].version == t.connections[c].version
            && !t.leases[LeaseOf(op)].activated && t.leases[LeaseOf(op)].expires == expires
  {
    hide Reconciled;
    hide ActiveOf;
  }

  /** A renewal moves the deadline to `ttl` from now and changes nothing else. */
  lemma RenewMoves(s: Snapshot, f: Fence, mode: Mode, ttl: Time, now: Time, later: Time)
    requires Inv(s) && DoRenew(s, f, mode, ttl, now).Some?
    ensures var t := DoRenew(s, f, mode, ttl, now).value;
            && (IsCurrent(t, f, later) <==> later < now + ttl)
            && t == s.(leases := t.leases) && t.leases.Keys == s.leases.Keys
            && (forall i :: i in s.leases && i != f.lease ==> t.leases[i] == s.leases[i])
            && t.leases[f.lease] == s.leases[f.lease].(expires := t.leases[f.lease].expires)
  {
    CurrentMeans(s, f, now);
  }

  /**
    Erasure: revoke, prepare, finish.  Each succeeds after the one before, the
    provider state is gone at the end and every fence taken before is stale.
    */
  lemma ErasureCycle(s: Snapshot, c: ConnectionId, f: Fence)
    requires Inv(s) && DoRevoke(s, c).Some? && f.connection == c && f.lease in s.leases
             && s.leases[f.lease].connection == c
    ensures var revoked := DoRevoke(s, c).value;
            var pending := DoPrepare(revoked, c);
            && Stale(revoked, f) && pending.Some?
            && var erased := DoErase(pending.value, c);
               && erased.Some? && Stale(erased.value, f)
               && erased.value.connections[c].state.None? && erased.value.connections[c].digest.None?
               && erased.value.connections[c].status.ReauthorizationRequired?
               && erased.value.connections[c].account == s.connections[c].account
               && erased.value.connections[c].epoch > s.connections[c].epoch
  {
  }
}
