/**
  What every custody operation keeps: each published snapshot is one its
  validator accepts, and a usable ciphertext was sealed under exactly the
  connection's current authority epoch and state version.
  */
module CustodySafety {
  import opened Options
  import opened Custody

  // ---- The invariant ------------------------------------------------------

  predicate Usable(c: Connection) { c.status.ReadyNow? || c.status.Refreshing? }

  ghost predicate SealedAs(id: ConnectionId, c: Connection) {
    Usable(c) && c.state.Some? ==> c.state.value.context == KeyContext(id, c.epoch, c.version)
  }

  /** What `materialize` opens was sealed under the very context it opens with. */
  ghost predicate SealedRight(s: Snapshot) {
    forall c :: c in s.connections ==> SealedAs(c, s.connections[c])
  }

  ghost predicate Attached(s: Snapshot) {
    forall i :: i in s.leases ==> s.leases[i].attachment == AttachmentOf(i.operation)
  }

  ghost predicate LeasesFit(s: Snapshot) {
    forall i :: i in s.leases ==> ValidLease(s, i)
  }

  /** Everything but the audit trail. */
  ghost predicate Body(s: Snapshot) {
    && ValidHosts(s) && ValidConnections(s) && LeasesFit(s) && ValidActiveSets(s) && Attached(s) && SealedRight(s)
  }

  /** Every lease id comes from an audited operation. */
  ghost predicate Traceable(s: Snapshot) {
    forall i :: i in s.leases ==> Published(s, i.operation)
  }

  ghost predicate Inv(s: Snapshot) {
    Body(s) && Traceable(s) && s.revision == |s.audit| && ValidAudit(s.audit)
  }

  /** The invariant is what the storage validator checks, and more. */
  lemma InvIsValid(s: Snapshot)
    requires Inv(s)
    ensures ValidSnapshot(s)
  {
  }

  // ---- Ending leases ------------------------------------------------------

  lemma EndShape(s: Snapshot, which: set<LeaseId>, reason: string)
    ensures var t := End(s, which, reason);
            && t == s.(leases := t.leases, connections := t.connections)
            && t.leases.Keys == s.leases.Keys && t.connections.Keys == s.connections.Keys
            && (forall i :: i in s.leases && i !in which ==> t.leases[i] == s.leases[i])
            && (forall i :: i in s.leases && i in which ==>
                  t.leases[i] == s.leases[i].(released := true, reason := Some(reason)))
            && (forall c :: c in s.connections ==>
                  t.connections[c] == if HeldRefresh(s, which, c) && s.connections[c].status.Refreshing?
                                      then SettleOne(s.connections[c], Ambiguous(s, which, c)) else s.connections[c])
  {
    var r := ReleaseLeases(s, which, reason);
    forall c ensures HeldRefresh(r, which, c) == HeldRefresh(s, which, c)
             ensures Ambiguous(r, which, c) == Ambiguous(s, which, c)
    {
      if HeldRefresh(s, which, c) {
        var i :| i in which && i in s.leases && s.leases[i].connection == c && s.leases[i].mode.Refresh?;
        assert i in r.leases && r.leases[i].mode.Refresh?;
      }
      if Ambiguous(s, which, c) {
        var i :| i in which && i in s.leases && s.leases[i].connection == c && s.leases[i].activated;
        assert i in r.leases && r.leases[i].activated;
      }
    }
  }

  /** Custody that ended held the connection alone. */
  lemma SettledIsFree(s: Snapshot, which: set<LeaseId>, c: ConnectionId)
    requires Body(s) && (forall i :: i in which ==> Live(s, i)) && HeldRefresh(s, which, c)
    ensures forall j :: Live(s, j) && s.leases[j].connection == c ==> j in which
  {
    var i :| i in which && i in s.leases && s.leases[i].connection == c && s.leases[i].mode.Refresh?;
    assert Live(s, i);
  }

  lemma EndLease(s: Snapshot, which: set<LeaseId>, reason: string, i: LeaseId)
    requires Body(s) && (forall j :: j in which ==> Live(s, j)) && i in s.leases
    ensures i in End(s, which, reason).leases && ValidLease(End(s, which, reason), i)
  {
    EndShape(s, which, reason);
    hide End;
    assert ValidLease(s, i);
    if HeldRefresh(s, which, s.leases[i].connection) {
      SettledIsFree(s, which, s.leases[i].connection);
    }
    hide Body;
    hide HeldRefresh;
    hide Ambiguous;
  }

  lemma EndAttached(s: Snapshot, which: set<LeaseId>, reason: string)
    requires Body(s)
    ensures Attached(End(s, which, reason))
  {
    EndShape(s, which, reason);
    hide End;
    assert Attached(s);
    hide Body;
    hide HeldRefresh;
    hide Ambiguous;
  }

  lemma EndLeases(s: Snapshot, which: set<LeaseId>, reason: string)
    requires Body(s) && (forall i :: i in which ==> Live(s, i))
    ensures LeasesFit(End(s, which, reason)) && Attached(End(s, which, reason))
  {
    EndAttached(s, which, reason);
    var t := End(s, which, reason);
    assert t.leases.Keys == s.leases.Keys by {
      EndShape(s, which, reason);
    }
    hide End;
    forall i | i in t.leases ensures ValidLease(t, i) {
      EndLease(s, which, reason, i);
    }
    hide Body;
    hide ValidLease;
  }

  lemma EndConnections(s: Snapshot, which: set<LeaseId>, reason: string)
    requires Body(s)
    ensures ValidConnections(End(s, which, reason)) && SealedRight(End(s, which, reason))
  {
    var t := End(s, which, reason);
    EndShape(s, which, reason);
    hide End;
    forall c | c in t.connections ensures ValidConnection(t.connections[c]) && SealedAs(c, t.connections[c]) {
      assert ValidConnection(s.connections[c]) && SealedAs(c, s.connections[c]);
    }
  }

  lemma EndLive(s: Snapshot, which: set<LeaseId>, reason: string)
    ensures forall i :: Live(End(s, which, reason), i) <==> Live(s, i) && i !in which
  {
    EndShape(s, which, reason);
    hide End;
  }

  lemma EndLiveStatus(s: Snapshot, which: set<LeaseId>, reason: string, i: LeaseId)
    requires Body(s) && (forall j :: j in which ==> Live(s, j))
    requires var t := End(s, which, reason); Live(t, i) && t.leases[i].connection in t.connections
    ensures var t := End(s, which, reason);
            t.connections[t.leases[i].connection].status == (if t.leases[i].mode.Refresh? then Refreshing else ReadyNow)
  {
    EndShape(s, which, reason);
    EndLive(s, which, reason);
    hide End;
    var c := s.leases[i].connection;
    assert Live(s, i);
    if HeldRefresh(s, which, c) {
      SettledIsFree(s, which, c);
    }
    hide HeldRefresh;
    hide Ambiguous;
  }

  lemma EndRefreshing(s: Snapshot, which: set<LeaseId>, reason: string, c: ConnectionId)
    requires Body(s) && c in s.connections
    requires var t := End(s, which, reason); c in t.connections && t.connections[c].status.Refreshing?
    ensures var t := End(s, which, reason);
            exists i :: Live(t, i) && t.leases[i].connection == c && t.leases[i].mode.Refresh?
  {
    EndShape(s, which, reason);
    EndLive(s, which, reason);
    hide End;
    var i :| Live(s, i) && s.leases[i].connection == c && s.leases[i].mode.Refresh?;
    assert i !in which;
    assert Live(End(s, which, reason), i);
  }

  lemma EndActive(s: Snapshot, which: set<LeaseId>, reason: string)
    requires Body(s) && (forall i :: i in which ==> Live(s, i))
    ensures ValidActiveSets(End(s, which, reason))
  {
    var t := End(s, which, reason);
    EndShape(s, which, reason);
    EndLive(s, which, reason);
    hide End;
    forall i | Live(t, i) && t.leases[i].connection in t.connections
      ensures t.connections[t.leases[i].connection].status
              == (if t.leases[i].mode.Refresh? then Refreshing else ReadyNow)
    {
      EndLiveStatus(s, which, reason, i);
    }
    forall c | c in t.connections && t.connections[c].status.Refreshing?
      ensures exists i :: Live(t, i) && t.leases[i].connection == c && t.leases[i].mode.Refresh?
    {
      EndRefreshing(s, which, reason, c);
    }
    hide HeldRefresh;
    hide Ambiguous;
  }

  lemma EndKeeps(s: Snapshot, which: set<LeaseId>, reason: string)
    requires Body(s) && (forall i :: i in which ==> Live(s, i))
    ensures Body(End(s, which, reason))
  {
    EndShape(s, which, reason);
    EndLeases(s, which, reason);
    EndConnections(s, which, reason);
    EndActive(s, which, reason);
  }

  lemma ReconciledKeeps(s: Snapshot, now: Time)
    requires Body(s)
    ensures var r := Reconciled(s, now);
            && Body(r) && r == s.(leases := r.leases, connections := r.connections) && r.leases.Keys == s.leases.Keys
            && r.connections.Keys == s.connections.Keys
            && forall i :: Live(r, i) ==> Live(s, i) && r.leases[i] == s.leases[i] && r.leases[i].expires > now
  {
    EndKeeps(s, Expired(s, now), "expired");
    EndShape(s, Expired(s, now), "expired");
  }

  // ---- Hosts --------------------------------------------------------------

  /** Moving a host's epoch on is safe once none of its leases is live. */
  lemma HostMoves(s: Snapshot, host: HostId, h: Host)
    requires Body(s) && h.epoch > 0 && (forall i :: Live(s, i) ==> s.leases[i].host != host)
    ensures Body(s.(hosts := s.hosts[host := h]))
  {
    var t := s.(hosts := s.hosts[host := h]);
    forall i | i in t.leases ensures ValidLease(t, i) {
      assert ValidLease(s, i);
      assert !s.leases[i].released ==> Live(s, i);
    }
    assert forall i :: Live(t, i) == Live(s, i);
    assert ValidActiveSets(t) by {
      forall c | c in t.connections && t.connections[c].status.Refreshing?
        ensures exists i :: Live(t, i) && t.leases[i].connection == c && t.leases[i].mode.Refresh?
      {
        var i :| Live(s, i) && s.leases[i].connection == c && s.leases[i].mode.Refresh?;
        assert Live(t, i);
      }
    }
  }

  lemma HostChangeKeeps(s: Snapshot, host: HostId, h: Host, now: Time, reason: string)
    requires Body(s) && h.epoch > 0 && (forall i :: Live(s, i) ==> s.leases[i].expires > now)
    ensures Body(End(s.(hosts := s.hosts[host := h]), ActiveOn(s, now, host), reason))
  {
    var which := ActiveOn(s, now, host);
    var t, u := End(s, which, reason), End(s.(hosts := s.hosts[host := h]), which, reason);
    EndKeeps(s, which, reason);
    EndShape(s, which, reason);
    HostMoves(t, host, h);
    HostsDoNotMatter(s, s.hosts[host := h], which, reason);
  }

  lemma HostsDoNotMatter(s: Snapshot, hosts: map<HostId, Host>, which: set<LeaseId>, reason: string)
    ensures End(s.(hosts := hosts), which, reason) == End(s, which, reason).(hosts := hosts)
  {
    var u := s.(hosts := hosts);
    EndShape(s, which, reason);
    EndShape(u, which, reason);
    hide End;
    forall c
      ensures HeldRefresh(u, which, c) == HeldRefresh(s, which, c) && Ambiguous(u, which, c) == Ambiguous(s, which, c)
    {
    }
    var a, b := End(u, which, reason), End(s, which, reason).(hosts := hosts);
    assert a.leases == b.leases;
    assert a.connections == b.connections;
  }

  // ---- Superseding a connection -------------------------------------------

  lemma SupersedeShape(s: Snapshot, c: ConnectionId, connection: Connection, reason: string)
    ensures var t := Supersede(s, c, connection, reason);
            && t == s.(leases := t.leases, connections := s.connections[c := connection])
            && t.leases.Keys == s.leases.Keys
            && (forall i :: i in s.leases && i !in Unsettled(s, c) ==> t.leases[i] == s.leases[i])
            && (forall i :: i in s.leases && i in Unsettled(s, c) ==>
                  t.leases[i] == s.leases[i].(released := true, reason := Some(reason)))
            && (forall i :: Live(t, i) <==> Live(s, i) && s.leases[i].connection != c)
  {
  }

  lemma SupersedeLeases(s: Snapshot, c: ConnectionId, connection: Connection, reason: string)
    requires LeasesFit(s) && Attached(s)
    ensures LeasesFit(Supersede(s, c, connection, reason)) && Attached(Supersede(s, c, connection, reason))
  {
    var t := Supersede(s, c, connection, reason);
    SupersedeShape(s, c, connection, reason);
    hide Supersede;
    forall i | i in t.leases ensures ValidLease(t, i) {
      assert ValidLease(s, i);
    }
  }

  lemma SupersedeActive(s: Snapshot, c: ConnectionId, connection: Connection, reason: string)
    requires ValidActiveSets(s) && !connection.status.Refreshing?
    ensures ValidActiveSets(Supersede(s, c, connection, reason))
  {
    var t := Supersede(s, c, connection, reason);
    SupersedeShape(s, c, connection, reason);
    hide Supersede;
    forall d | d in t.connections && t.connections[d].status.Refreshing?
      ensures exists i :: Live(t, i) && t.leases[i].connection == d && t.leases[i].mode.Refresh?
    {
      var i :| Live(s, i) && s.leases[i].connection == d && s.leases[i].mode.Refresh?;
      assert Live(t, i);
    }
  }

  /** A connection that stops refreshing takes all its live leases with it. */
  lemma SupersedeKeeps(s: Snapshot, c: ConnectionId, connection: Connection, reason: string)
    requires Body(s) && ValidConnection(connection) && SealedAs(c, connection) && !connection.status.Refreshing?
    ensures Body(Supersede(s, c, connection, reason))
  {
    SupersedeLeases(s, c, connection, reason);
    SupersedeActive(s, c, connection, reason);
    hide LeasesFit;
    hide ValidActiveSets;
    hide Attached;
  }

  /** Without live leases, superseding is just replacing. */
  lemma SupersedeIdle(s: Snapshot, c: ConnectionId, connection: Connection)
    requires forall i :: Live(s, i) ==> s.leases[i].connection != c
    ensures Supersede(s, c, connection, "") == WithConnection(s, c, connection)
  {
    assert forall i :: i in s.leases && i in Unsettled(s, c) ==> Live(s, i);
    assert ReleaseLeases(s, Unsettled(s, c), "").leases == s.leases;
  }

  /** A connection nobody can use has no live lease. */
  lemma IdleConnection(s: Snapshot, c: ConnectionId)
    requires Body(s) && (c in s.connections ==> !Usable(s.connections[c]))
    ensures forall i :: Live(s, i) ==> s.leases[i].connection != c
  {
    forall i | Live(s, i) ensures s.leases[i].connection != c {
      assert ValidLease(s, i);
    }
  }

  lemma ReplaceIdle(s: Snapshot, c: ConnectionId, connection: Connection)
    requires Body(s) && (c in s.connections ==> !Usable(s.connections[c]))
    requires ValidConnection(connection) && SealedAs(c, connection) && !connection.status.Refreshing?
    ensures Body(WithConnection(s, c, connection))
  {
    IdleConnection(s, c);
    SupersedeIdle(s, c, connection);
    SupersedeKeeps(s, c, connection, "");
  }

  // ---- One lease ----------------------------------------------------------

  /** Touching a live lease's expiry or activation keeps everything. */
  lemma TouchKeeps(s: Snapshot, i: LeaseId, l: Lease)
    requires Body(s) && Live(s, i) && l == s.leases[i].(expires := l.expires, activated := l.activated)
    requires l.activated ==> l.mode.Refresh?
    ensures Body(WithLease(s, i, l))
  {
    var t := WithLease(s, i, l);
    forall j | j in t.leases ensures ValidLease(t, j) {
      assert ValidLease(s, j);
    }
    TouchActive(s, i, l);
    hide ValidActiveSets;
  }

  lemma TouchActive(s: Snapshot, i: LeaseId, l: Lease)
    requires ValidActiveSets(s) && Live(s, i) && l == s.leases[i].(expires := l.expires, activated := l.activated)
    ensures ValidActiveSets(WithLease(s, i, l))
  {
    var t := WithLease(s, i, l);
    assert forall j :: Live(t, j) <==> Live(s, j);
    forall c | c in t.connections && t.connections[c].status.Refreshing?
      ensures exists j :: Live(t, j) && t.leases[j].connection == c && t.leases[j].mode.Refresh?
    {
      var j :| Live(s, j) && s.leases[j].connection == c && s.leases[j].mode.Refresh?;
      assert Live(t, j);
    }
  }

  /** A refreshing lease is its connection's only live one. */
  lemma RefreshesAlone(s: Snapshot, i: LeaseId, c: ConnectionId)
    requires ValidActiveSets(s) && Live(s, i) && s.leases[i].mode.Refresh? && s.leases[i].connection == c
    ensures Unsettled(s, c) == {i}
  {
    forall j | j in Unsettled(s, c) ensures j == i {
      assert Live(s, j);
    }
  }

  /** What a checkpoint makes of its connection. */
  function Checkpointed(c: Connection, f: Fence, state: Ciphertext): Connection {
    c.(status := ReadyNow, version := f.version + 1, state := Some(state), digest := Some(DigestOf(state)))
  }

  lemma CheckpointSupersedes(s: Snapshot, f: Fence, state: Ciphertext, now: Time)
    requires DoCheckpoint(s, f, state, now).Some? && Unsettled(s, f.connection) == {f.lease}
    ensures DoCheckpoint(s, f, state, now).value
            == Supersede(s, f.connection, Checkpointed(s.connections[f.connection], f, state), "checkpointed")
  {
    hide Unsettled;
    assert ReleaseLeases(s, {f.lease}, "checkpointed").leases
        == s.leases[f.lease := s.leases[f.lease].(released := true, reason := Some("checkpointed"))];
  }

  lemma CheckpointKeeps(s: Snapshot, f: Fence, state: Ciphertext, now: Time)
    requires Body(s) && DoCheckpoint(s, f, state, now).Some?
    requires state.context == KeyContext(f.connection, f.epoch, f.version + 1)
    ensures Body(DoCheckpoint(s, f, state, now).value)
  {
    hide Supersede;
    hide ReleaseLeases;
    hide Unsettled;
    var c := f.connection;
    assert Live(s, f.lease) && ValidConnection(s.connections[c]);
    RefreshesAlone(s, f.lease, c);
    CheckpointSupersedes(s, f, state, now);
    SupersedeKeeps(s, c, Checkpointed(s.connections[c], f, state), "checkpointed");
  }

  lemma MaterializeKeeps(s: Snapshot, op: OperationId, c: ConnectionId, host: HostId, mode: Mode, expires: Time,
                         now: Time)
    requires Body(s) && LeaseOf(op) !in s.leases && DoMaterialize(s, op, c, host, mode, expires, now).Some?
    ensures Body(DoMaterialize(s, op, c, host, mode, expires, now).value)
  {
    var r := Reconciled(s, now);
    ReconciledKeeps(s, now);
    assert mode.Refresh? ==> forall j :: Live(r, j) ==> r.leases[j].connection != c by {
      assert forall j :: Live(r, j) && r.leases[j].connection == c ==> j in ActiveOf(r, now, c);
    }
    hide Reconciled;
    hide Body;
    GrantKeeps(r, op, c, host, mode, expires);
  }

  /** The lease `materialize` writes, and the connection it leaves. */
  function Grant(r: Snapshot, op: OperationId, c: ConnectionId, host: HostId, mode: Mode, expires: Time): Snapshot
    requires host in r.hosts && c in r.connections
  {
    var connection := r.connections[c];
    var held := WithLease(r, LeaseOf(op), Lease(AttachmentOf(op), c, host, r.hosts[host].epoch, mode, connection.epoch,
                                                connection.version, expires, false, false, None));
    if mode.Refresh? then WithConnection(held, c, connection.(status := Refreshing)) else held
  }

  lemma GrantKeeps(r: Snapshot, op: OperationId, c: ConnectionId, host: HostId, mode: Mode, expires: Time)
    requires Body(r) && LeaseOf(op) !in r.leases && host in r.hosts && r.hosts[host].active && c in r.connections
    requires r.connections[c].status.ReadyNow? && r.connections[c].state.Some?
    requires mode.Refresh? ==> forall j :: Live(r, j) ==> r.leases[j].connection != c
    ensures Body(Grant(r, op, c, host, mode, expires))
  {
    hide ValidActiveSets;
    hide LeasesFit;
    assert ValidConnection(r.connections[c]) && SealedAs(c, r.connections[c]);
    GrantActive(r, op, c, host, mode, expires);
    GrantFits(r, op, c, host, mode, expires);
  }

  lemma GrantActive(r: Snapshot, op: OperationId, c: ConnectionId, host: HostId, mode: Mode, expires: Time)
    requires ValidActiveSets(r) && LeaseOf(op) !in r.leases && host in r.hosts && c in r.connections
    requires r.connections[c].status.ReadyNow?
    requires mode.Refresh? ==> forall j :: Live(r, j) ==> r.leases[j].connection != c
    ensures ValidActiveSets(Grant(r, op, c, host, mode, expires))
  {
    hide ValidActiveSets;
    MaterializeActive(r, Grant(r, op, c, host, mode, expires), LeaseOf(op), c, mode);
  }

  lemma GrantFits(r: Snapshot, op: OperationId, c: ConnectionId, host: HostId, mode: Mode, expires: Time)
    requires Body(r) && LeaseOf(op) !in r.leases && host in r.hosts && r.hosts[host].active && c in r.connections
    requires r.connections[c].status.ReadyNow? && r.connections[c].state.Some?
    ensures LeasesFit(Grant(r, op, c, host, mode, expires))
  {
    hide ValidActiveSets;
    hide Attached;
    hide SealedRight;
    var t, i := Grant(r, op, c, host, mode, expires), LeaseOf(op);
    assert ValidConnection(r.connections[c]);
    forall j | j in t.leases ensures ValidLease(t, j) {
      if j != i { assert ValidLease(r, j); }
    }
  }

  lemma MaterializeActive(r: Snapshot, t: Snapshot, i: LeaseId, c: ConnectionId, mode: Mode)
    requires ValidActiveSets(r) && i !in r.leases && c in r.connections && r.connections[c].status.ReadyNow?
    requires t.leases.Keys == r.leases.Keys + {i} && Live(t, i)
    requires forall j :: j in r.leases ==> t.leases[j] == r.leases[j]
    requires t.leases[i].connection == c && t.leases[i].mode == mode
    requires mode.Refresh? ==> forall j :: Live(r, j) ==> r.leases[j].connection != c
    requires t.connections == if mode.Refresh? then r.connections[c := r.connections[c].(status := Refreshing)]
                              else r.connections
    ensures ValidActiveSets(t)
  {
    assert forall j :: Live(t, j) <==> j == i || Live(r, j);
    forall d | d in t.connections && t.connections[d].status.Refreshing?
      ensures exists j :: Live(t, j) && t.leases[j].connection == d && t.leases[j].mode.Refresh?
    {
      if d == c {
        assert Live(t, i);
      } else {
        var j :| Live(r, j) && r.leases[j].connection == d && r.leases[j].mode.Refresh?;
        assert Live(t, j);
      }
    }
  }

  // ---- Every request ------------------------------------------------------

  /** What a request may carry: state sealed for the generation it will publish, over a generation it may replace. */
  ghost predicate Lawful(request: Request) {
    match request
    case Authorize(c, account, seen, state) =>
      var (epoch, version) := NextGeneration(seen);
      && state.context == KeyContext(c, epoch, version)
      && (seen.Some? ==> seen.value.status.ReauthorizationRequired? && seen.value.account == account)
    case Rotate(c, current, state) =>
      state.context == KeyContext(c, current.epoch + 1, current.version + 1) && Usable(current)
    case Checkpoint(f, state) => state.context == KeyContext(f.connection, f.epoch, f.version + 1)
    case _ => true
  }

  lemma AuthorizeKeeps(s: Snapshot, c: ConnectionId, account: string, seen: Option<Connection>, state: Ciphertext)
    requires Body(s) && Lawful(Authorize(c, account, seen, state)) && DoAuthorize(s, c, account, seen, state).Some?
    ensures Body(DoAuthorize(s, c, account, seen, state).value)
  {
    if c in s.connections {
      assert ValidConnection(s.connections[c]);
    }
    var (epoch, version) := NextGeneration(seen);
    ReplaceIdle(s, c, Connection(account, ReadyNow, epoch, version, Some(state), Some(DigestOf(state))));
    hide Body;
  }

  lemma RotateKeeps(s: Snapshot, c: ConnectionId, current: Connection, state: Ciphertext)
    requires Body(s) && Lawful(Rotate(c, current, state)) && DoRotate(s, c, current, state).Some?
    ensures Body(DoRotate(s, c, current, state).value)
  {
    assert ValidConnection(s.connections[c]);
    SupersedeKeeps(s, c, s.connections[c].(status := ReadyNow, epoch := current.epoch + 1,
                                           version := current.version + 1,
                                           state := Some(state), digest := Some(DigestOf(state))), "authority_rotated");
    hide Body;
    hide Supersede;
  }

  lemma RevokeKeeps(s: Snapshot, c: ConnectionId)
    requires Body(s) && DoRevoke(s, c).Some?
    ensures Body(DoRevoke(s, c).value)
  {
    assert ValidConnection(s.connections[c]);
    SupersedeKeeps(s, c, s.connections[c].(status := Revoked, epoch := s.connections[c].epoch + 1),
                   "connection_revoked");
    hide Body;
    hide Supersede;
  }

  lemma PrepareKeeps(s: Snapshot, c: ConnectionId)
    requires Body(s) && DoPrepare(s, c).Some?
    ensures Body(DoPrepare(s, c).value)
  {
    assert ValidConnection(s.connections[c]);
    ReplaceIdle(s, c, s.connections[c].(status := ErasurePending));
    hide Body;
  }

  lemma EraseKeeps(s: Snapshot, c: ConnectionId)
    requires Body(s) && DoErase(s, c).Some?
    ensures Body(DoErase(s, c).value)
  {
    assert ValidConnection(s.connections[c]);
    SupersedeKeeps(s, c, s.connections[c].(status := ReauthorizationRequired, version := s.connections[c].version + 1,
                                           state := None, digest := None), "connection_erased");
    hide Body;
    hide Supersede;
  }

  lemma AuthorityKeeps(s: Snapshot, op: OperationId, request: Request, now: Time)
    requires Body(s) && Lawful(request) && Transform(s, op, request, now).Some?
    requires request.Authorize? || request.Rotate? || request.Revoke? || request.PrepareErasure?
             || request.FinishErasure?
    ensures Body(Transform(s, op, request, now).value)
  {
    hide Body;
    hide Lawful;
    hide DoAuthorize;
    hide DoRotate;
    hide DoRevoke;
    hide DoPrepare;
    hide DoErase;
    match request
    case Authorize(c, account, seen, state) => AuthorizeKeeps(s, c, account, seen, state);
    case Rotate(c, current, state) => RotateKeeps(s, c, current, state);
    case Revoke(c) => RevokeKeeps(s, c);
    case PrepareErasure(c) => PrepareKeeps(s, c);
    case FinishErasure(c) => EraseKeeps(s, c);
  }

  lemma EnrollKeeps(s: Snapshot, host: HostId, now: Time)
    requires Body(s)
    ensures Body(DoEnroll(s, host, now))
  {
    var r := Reconciled(s, now);
    ReconciledKeeps(s, now);
    hide Reconciled;
    var epoch := if host in r.hosts then r.hosts[host].epoch + 1 else 1;
    hide Body;
    hide End;
    HostChangeKeeps(r, host, Host(epoch, true), now, "host_reenrolled");
  }

  lemma RemoveKeeps(s: Snapshot, host: HostId, now: Time)
    requires Body(s) && DoRemove(s, host, now).Some?
    ensures Body(DoRemove(s, host, now).value)
  {
    var r := Reconciled(s, now);
    ReconciledKeeps(s, now);
    hide Reconciled;
    hide Body;
    hide End;
    HostChangeKeeps(r, host, Host(r.hosts[host].epoch + 1, false), now, "host_removed");
  }

  lemma ReleaseKeeps(s: Snapshot, f: Fence, mode: Mode, now: Time)
    requires Body(s) && DoRelease(s, f, mode, now).Some?
    ensures Body(DoRelease(s, f, mode, now).value)
  {
    hide Body;
    hide End;
    var r := Reconciled(s, now);
    assert Body(r) by { ReconciledKeeps(s, now); }
    if Live(r, f.lease) {
      assert Body(End(r, {f.lease}, "released")) by { EndKeeps(r, {f.lease}, "released"); }
    }
  }

  lemma ActivateKeeps(s: Snapshot, f: Fence, now: Time)
    requires Body(s) && DoActivate(s, f, now).Some?
    ensures Body(DoActivate(s, f, now).value)
  {
    hide Body;
    TouchKeeps(s, f.lease, s.leases[f.lease].(activated := true));
  }

  lemma RenewKeeps(s: Snapshot, f: Fence, mode: Mode, ttl: Time, now: Time)
    requires Body(s) && DoRenew(s, f, mode, ttl, now).Some?
    ensures Body(DoRenew(s, f, mode, ttl, now).value)
  {
    assert ValidLease(s, f.lease);
    hide Body;
    TouchKeeps(s, f.lease, s.leases[f.lease].(expires := now + ttl));
  }

  lemma AbortKeeps(s: Snapshot, i: LeaseId)
    requires Body(s)
    ensures Body(DoAbort(s, i))
  {
    hide Body;
    hide End;
    if Live(s, i) {
      EndKeeps(s, {i}, "materialization_failed");
    }
  }

  lemma TransformKeeps(s: Snapshot, op: OperationId, request: Request, now: Time)
    requires Body(s) && Lawful(request) && LeaseOf(op) !in s.leases && Transform(s, op, request, now).Some?
    ensures Body(Transform(s, op, request, now).value)
  {
    hide Body;
    match request
    case EnrollHost(host) => EnrollKeeps(s, host, now);
    case RemoveHost(host) => RemoveKeeps(s, host, now);
    case Release(f, mode) => ReleaseKeeps(s, f, mode, now);
    case Authorize(_, _, _, _) => AuthorityKeeps(s, op, request, now);
    case Rotate(_, _, _) => AuthorityKeeps(s, op, request, now);
    case Revoke(_) => AuthorityKeeps(s, op, request, now);
    case PrepareErasure(_) => AuthorityKeeps(s, op, request, now);
    case FinishErasure(_) => AuthorityKeeps(s, op, request, now);
    case Materialize(c, host, mode, expires) => MaterializeKeeps(s, op, c, host, mode, expires, now);
    case Checkpoint(f, state) => CheckpointKeeps(s, f, state, now);
    case Activate(f) => ActivateKeeps(s, f, now);
    case Renew(f, mode, ttl) => RenewKeeps(s, f, mode, ttl, now);
    case AbortMaterialization(i) => AbortKeeps(s, i);
    case Admit(_, _) =>
    case Recover => ReconciledKeeps(s, now);
    case Reconcile => ReconciledKeeps(s, now);
  }
}
