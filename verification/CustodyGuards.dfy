/**
  Exactly when custody grants what it is asked, and what each grant makes of its
  connection: one guard and one effect per operation, read off the stored snapshot.
  */
module CustodyGuards {
  import opened Options
  import opened Custody
  import opened CustodySafety
  import opened CustodyRuns
  import opened CustodyEndings

  // ---- Guards -------------------------------------------------------------

  /** The fence is the one handed out with a lease of `mode`. */
  predicate Names(s: Snapshot, f: Fence, mode: Mode) {
    && f.lease in s.leases && s.leases[f.lease].mode == mode
    && var l := s.leases[f.lease];
       f == Fence(l.attachment, f.lease, l.connection, l.host, l.hostEpoch, l.epoch, l.version)
  }

  /** And the lease is held. */
  predicate Holds(s: Snapshot, f: Fence, mode: Mode, now: Time) {
    Names(s, f, mode) && !s.leases[f.lease].released && now < s.leases[f.lease].expires
  }

  /** Nothing about the connection has changed since `seen` was read. */
  predicate Unchanged(s: Snapshot, c: ConnectionId, seen: Option<Connection>) {
    if c in s.connections then
      && seen.Some? && seen.value.status == s.connections[c].status && seen.value.epoch == s.connections[c].epoch
      && seen.value.version == s.connections[c].version && seen.value.digest == s.connections[c].digest
    else seen.None?
  }

  /** Ready, or held by a refresh that expired before it was activated. */
  ghost predicate ReadyAt(s: Snapshot, c: ConnectionId, now: Time) {
    && c in s.connections && s.connections[c].state.Some?
    && (|| s.connections[c].status.ReadyNow?
        || exists i :: && Live(s, i) && s.leases[i].connection == c && s.leases[i].mode.Refresh?
                       && s.leases[i].expires <= now && !s.leases[i].activated)
  }

  ghost predicate Grants(s: Snapshot, request: Request, now: Time) {
    match request
    case EnrollHost(_) => true
    case RemoveHost(host) => host in s.hosts && s.hosts[host].active
    case Authorize(c, _, seen, _) => Unchanged(s, c, seen)
    case Materialize(c, host, mode, _) =>
      && host in s.hosts && s.hosts[host].active && ReadyAt(s, c, now)
      && (mode.Refresh? ==> forall i :: Live(s, i) && s.leases[i].connection == c ==> s.leases[i].expires <= now)
    case Activate(f) => Holds(s, f, Refresh, now)
    case Renew(f, mode, _) => Holds(s, f, mode, now)
    case Checkpoint(f, _) => Holds(s, f, Refresh, now) && s.leases[f.lease].activated
    case Release(f, mode) => Names(s, f, mode)
    case Rotate(c, current, _) => c in s.connections && Unchanged(s, c, Some(current))
    case Revoke(c) =>
      c in s.connections && !s.connections[c].status.Revoked? && !s.connections[c].status.ErasurePending?
    case PrepareErasure(c) => c in s.connections && s.connections[c].status.Revoked?
    case FinishErasure(c) => c in s.connections && s.connections[c].status.ErasurePending?
    case Admit(f, _) => exists mode :: Holds(s, f, mode, now)
    case Recover => true
    case Reconcile => true
    case AbortMaterialization(_) => true
  }

  lemma HoldsMeans(s: Snapshot, f: Fence, mode: Mode, now: Time)
    requires Body(s)
    ensures HasCurrentLease(s, f, now, mode) <==> Holds(s, f, mode, now)
    ensures Holds(s, f, mode, now) ==>
              && f.connection in s.connections && s.connections[f.connection].epoch == f.epoch
              && s.connections[f.connection].version == f.version
              && s.connections[f.connection].status == (if mode.Refresh? then Refreshing else ReadyNow)
  {
    if f.lease in s.leases {
      assert ValidLease(s, f.lease);
      assert !s.leases[f.lease].released ==> Live(s, f.lease);
    }
  }

  lemma AdmitsWhen(s: Snapshot, f: Fence, now: Time)
    requires Body(s)
    ensures IsCurrent(s, f, now) <==> exists mode :: Holds(s, f, mode, now)
  {
    HoldsMeans(s, f, Read, now);
    HoldsMeans(s, f, Refresh, now);
    hide Body;
    hide HasCurrentLease;
    if IsCurrent(s, f, now) {
      assert Holds(s, f, s.leases[f.lease].mode, now);
    }
  }

  lemma ReleasesWhen(s: Snapshot, f: Fence, mode: Mode, now: Time)
    requires Body(s)
    ensures DoRelease(s, f, mode, now).Some? <==> Names(s, f, mode)
  {
    EndShape(s, Expired(s, now), "expired");
    ReconciledKeeps(s, now);
    HoldsMeans(Reconciled(s, now), f, mode, now);
    hide Body;
    hide End;
    hide HasCurrentLease;
    hide HeldRefresh;
    hide Ambiguous;
    hide SettleOne;
  }

  lemma MaterializesWhen(s: Snapshot, op: OperationId, c: ConnectionId, host: HostId, mode: Mode, expires: Time,
                         now: Time)
    requires Body(s)
    ensures DoMaterialize(s, op, c, host, mode, expires, now).Some?
            <==> Grants(s, Materialize(c, host, mode, expires), now)
  {
    hide Body;
    hide End;
    hide ReadyAt;
    hide ActiveOf;
    var r := Reconciled(s, now);
    ReadyAgrees(s, c, now);
    EndsThose(s, Expired(s, now), "expired");
    OnlyExpired(s, r, c, now);
  }

  /** Expiry makes the connection ready exactly when `ReadyAt` says. */
  lemma ReadyAgrees(s: Snapshot, c: ConnectionId, now: Time)
    requires Body(s)
    ensures var r := Reconciled(s, now);
            c in r.connections && r.connections[c].status.ReadyNow? && r.connections[c].state.Some?
            <==> ReadyAt(s, c, now)
  {
    ReconciledKeeps(s, now);
    if c in s.connections {
      EndLeaves(s, Expired(s, now), "expired", c);
      ReadyAfterExpiry(s, c, now);
    }
    hide Body;
    hide End;
  }

  lemma OnlyExpired(s: Snapshot, r: Snapshot, c: ConnectionId, now: Time)
    requires r.leases.Keys == s.leases.Keys
    requires forall i :: Live(r, i) <==> Live(s, i) && i !in Expired(s, now)
    requires forall i :: i in s.leases && i !in Expired(s, now) ==> r.leases[i] == s.leases[i]
    ensures ActiveOf(r, now, c) == {} <==>
            forall i :: Live(s, i) && s.leases[i].connection == c ==> s.leases[i].expires <= now
  {
    if i :| Live(s, i) && s.leases[i].connection == c && s.leases[i].expires > now {
      assert i in ActiveOf(r, now, c);
    }
    if i :| i in ActiveOf(r, now, c) {
      assert Live(r, i);
    }
  }

  lemma ReadyAfterExpiry(s: Snapshot, c: ConnectionId, now: Time)
    requires Body(s) && c in s.connections && c in Reconciled(s, now).connections
    requires Leaves(s, Expired(s, now), c, Reconciled(s, now).connections[c])
    ensures var k := Reconciled(s, now).connections[c]; k.status.ReadyNow? && k.state.Some? <==> ReadyAt(s, c, now)
  {
    hide End;
    var k, k' := s.connections[c], Reconciled(s, now).connections[c];
    RefreshIsAlone(s, Expired(s, now), c);
    assert ValidConnection(k);
    if i :| Refreshes(s, Expired(s, now), c, i) {
      assert k.status.Refreshing?;
      assert Interrupts(s.leases[i].activated, k, k');
    } else {
      forall i | Live(s, i) && s.leases[i].connection == c && s.leases[i].mode.Refresh?
        ensures s.leases[i].expires > now
      {
        assert !Refreshes(s, Expired(s, now), c, i);
      }
    }
  }

  predicate Fenced(request: Request) {
    request.Activate? || request.Renew? || request.Checkpoint? || request.Release? || request.Admit?
  }

  lemma FencedWhen(s: Snapshot, op: OperationId, request: Request, now: Time)
    requires Body(s) && Fenced(request)
    ensures Transform(s, op, request, now).Some? <==> Grants(s, request, now)
  {
    hide Body, HasCurrentLease, DoRelease, IsCurrent, Holds, Names;
    match request {
      case Activate(f) => HoldsMeans(s, f, Refresh, now);
      case Renew(f, mode, _) => HoldsMeans(s, f, mode, now);
      case Checkpoint(f, _) => HoldsMeans(s, f, Refresh, now);
      case Release(f, mode) => ReleasesWhen(s, f, mode, now);
      case Admit(f, _) => AdmitsWhen(s, f, now);
    }
  }

  lemma HostWhen(s: Snapshot, op: OperationId, request: Request, now: Time)
    requires request.EnrollHost? || request.RemoveHost?
    ensures Transform(s, op, request, now).Some? <==> Grants(s, request, now)
  {
    hide End;
    EndsThose(s, Expired(s, now), "expired");
  }

  lemma AuthorityWhen(s: Snapshot, op: OperationId, request: Request, now: Time)
    requires !Fenced(request) && !request.EnrollHost? && !request.RemoveHost? && !request.Materialize?
    ensures Transform(s, op, request, now).Some? <==> Grants(s, request, now)
  {
    hide End, Supersede, Reconciled;
  }

  /** An operation goes through if and only if its guard grants it. */
  lemma TransformsWhen(s: Snapshot, op: OperationId, request: Request, now: Time)
    requires Inv(s)
    ensures Transform(s, op, request, now).Some? <==> Grants(s, request, now)
  {
    hide Inv, Body, DoMaterialize;
    BodyOf(s);
    if request.Materialize? {
      MaterializesWhen(s, op, request.connection, request.host, request.mode, request.expires, now);
      hide Grants;
    } else {
      hide Transform, Grants;
      if Fenced(request) {
        FencedWhen(s, op, request, now);
      } else if request.EnrollHost? || request.RemoveHost? {
        HostWhen(s, op, request, now);
      } else {
        AuthorityWhen(s, op, request, now);
      }
    }
  }

  lemma BodyOf(s: Snapshot)
    requires Inv(s)
    ensures Body(s)
  {
  }

  // ---- Effects on the connection that a request decides on ----------------

  /** What a deciding request makes of `k`: status, and by how much epoch and version move, and its new state. */
  ghost predicate Decided(request: Request, k: Connection, k': Connection) {
    && k'.account == k.account
    && match request
       case Rotate(_, _, state) =>
         k'.status.ReadyNow? && k'.epoch == k.epoch + 1 && k'.version == k.version + 1 && k'.state == Some(state)
       case Authorize(_, _, _, state) =>
         k'.status.ReadyNow? && k'.epoch == k.epoch + 1 && k'.version == k.version + 1 && k'.state == Some(state)
       case Checkpoint(_, state) =>
         k'.status.ReadyNow? && k'.epoch == k.epoch && k'.version == k.version + 1 && k'.state == Some(state)
       case Revoke(_) => k'.status.Revoked? && k'.epoch == k.epoch + 1 && k'.version == k.version && k'.state == k.state
       case PrepareErasure(_) => k' == k.(status := ErasurePending)
       case FinishErasure(_) =>
         k'.status.ReauthorizationRequired? && k'.epoch == k.epoch && k'.version == k.version + 1 && k'.state.None?
       case _ => k' == k
  }

  /** The connection that a request decides on. */
  function DecidesOn(request: Request): Option<ConnectionId> {
    match request
    case Authorize(c, _, _, _) => Some(c)
    case Rotate(c, _, _) => Some(c)
    case Checkpoint(f, _) => Some(f.connection)
    case Revoke(c) => Some(c)
    case PrepareErasure(c) => Some(c)
    case FinishErasure(c) => Some(c)
    case _ => None
  }

  /**
    A request that decides on a connection moves exactly that connection, by exactly
    its own amounts, so a new state always comes with a new version; a request that
    is neither this nor ends any custody moves none.
    */
  lemma TransformDecides(s: Snapshot, op: OperationId, request: Request, now: Time, c: ConnectionId)
    requires Inv(s) && Transform(s, op, request, now).Some? && !Settling(request) && c in s.connections
    requires request.Authorize? && c == request.connection ==> request.account == s.connections[c].account
    ensures var t := Transform(s, op, request, now).value;
            && c in t.connections
            && if DecidesOn(request) == Some(c) then Decided(request, s.connections[c], t.connections[c])
               else t.connections[c] == s.connections[c]
  {
    hide End;
    hide IsCurrent;
    hide Inv;
    hide Body;
    hide HasCurrentLease;
    hide ReleaseLeases;
    BodyOf(s);
    if request.Checkpoint? {
      HoldsMeans(s, request.fence, Refresh, now);
    }
    forall u: Snapshot, which, reason ensures ReleaseLeases(u, which, reason).connections == u.connections {
      ReleasesNoConnection(u, which, reason);
    }
  }
}
