/**
  Concurrent custody: any number of actors load, transform and compare-and-swap
  the one stored snapshot.  The swap compares revisions only; that this makes
  every publication an atomic step on the current snapshot, that each keeps the
  invariant, and that staleness is forever, is proved over every interleaving.
  */
module CustodyRuns {
  import opened Options
  import opened Custody
  import opened CustodySafety

  // ---- One publication ----------------------------------------------------

  ghost predicate SameLease(l: Lease, m: Lease) {
    && m.attachment == l.attachment && m.connection == l.connection && m.host == l.host && m.hostEpoch == l.hostEpoch
    && m.mode == l.mode && m.epoch == l.epoch && m.version == l.version
    && (l.released ==> m.released)
  }

  ghost predicate LeasesAdvance(s: Snapshot, t: Snapshot) {
    forall i :: i in s.leases ==> i in t.leases && SameLease(s.leases[i], t.leases[i])
  }

  ghost predicate HostsAdvance(s: Snapshot, t: Snapshot) {
    forall h :: h in s.hosts ==> h in t.hosts && s.hosts[h].epoch <= t.hosts[h].epoch
  }

  ghost predicate ConnectionsAdvance(s: Snapshot, t: Snapshot) {
    forall c :: c in s.connections ==>
      && c in t.connections
      && s.connections[c].epoch <= t.connections[c].epoch && s.connections[c].version <= t.connections[c].version
  }

  /** Nothing is forgotten: leases stay and stay released, epochs and versions only grow. */
  ghost predicate Advances(s: Snapshot, t: Snapshot) {
    LeasesAdvance(s, t) && HostsAdvance(s, t) && ConnectionsAdvance(s, t)
  }

  lemma AdvancesTransitive(s: Snapshot, t: Snapshot, u: Snapshot)
    requires Advances(s, t) && Advances(t, u)
    ensures Advances(s, u)
  {
  }

  /** The trail is the operation's own business; new leases carry its id. */
  ghost predicate Framed(s: Snapshot, op: OperationId, t: Snapshot) {
    && t.revision == s.revision && t.audit == s.audit
    && forall i :: i in t.leases ==> i in s.leases || i == LeaseOf(op)
  }

  lemma EndAdvances(s: Snapshot, which: set<LeaseId>, reason: string, op: OperationId)
    ensures Advances(s, End(s, which, reason)) && Framed(s, op, End(s, which, reason))
  {
    EndShape(s, which, reason);
    hide End;
  }

  lemma SupersedeAdvances(s: Snapshot, c: ConnectionId, connection: Connection, reason: string, op: OperationId)
    requires c in s.connections ==>
      s.connections[c].epoch <= connection.epoch && s.connections[c].version <= connection.version
    ensures var t := Supersede(s, c, connection, reason); Advances(s, t) && Framed(s, op, t)
  {
    SupersedeShape(s, c, connection, reason);
    hide Supersede;
  }

  lemma HostAdvances(s: Snapshot, host: HostId, h: Host, which: set<LeaseId>, reason: string, op: OperationId)
    requires host in s.hosts ==> s.hosts[host].epoch <= h.epoch
    ensures var t := End(s.(hosts := s.hosts[host := h]), which, reason); Advances(s, t) && Framed(s, op, t)
  {
    var u := s.(hosts := s.hosts[host := h]);
    EndAdvances(u, which, reason, op);
    hide End;
  }

  lemma FramedTransitive(s: Snapshot, op: OperationId, t: Snapshot, u: Snapshot)
    requires Framed(s, op, t) && Framed(t, op, u)
    ensures Framed(s, op, u)
  {
  }

  /** Expire, then change one host and end what it holds. */
  lemma HostAdvancesAfterExpiry(s: Snapshot, now: Time, host: HostId, h: Host, reason: string, op: OperationId)
    requires var r := Reconciled(s, now); host in r.hosts ==> r.hosts[host].epoch <= h.epoch
    ensures var r := Reconciled(s, now); var t := End(r.(hosts := r.hosts[host := h]), ActiveOn(r, now, host), reason);
            Advances(s, t) && Framed(s, op, t)
  {
    var r := Reconciled(s, now);
    EndAdvances(s, Expired(s, now), "expired", op);
    HostAdvances(r, host, h, ActiveOn(r, now, host), reason, op);
    hide End;
    hide Advances;
    hide Framed;
    hide ActiveOn;
    var t := End(r.(hosts := r.hosts[host := h]), ActiveOn(r, now, host), reason);
    AdvancesTransitive(s, r, t);
    FramedTransitive(s, op, r, t);
  }

  lemma EnrollAdvances(s: Snapshot, op: OperationId, request: Request, now: Time)
    requires request.EnrollHost? || request.RemoveHost?
    requires Transform(s, op, request, now).Some?
    ensures var t := Transform(s, op, request, now).value; Advances(s, t) && Framed(s, op, t)
  {
    hide End;
    hide Advances;
    hide Framed;
    hide ActiveOn;
    hide Reconciled;
    var r, host := Reconciled(s, now), request.host;
    var epoch := if host in r.hosts then r.hosts[host].epoch + 1 else 1;
    if request.EnrollHost? {
      HostAdvancesAfterExpiry(s, now, host, Host(epoch, true), "host_reenrolled", op);
    } else {
      HostAdvancesAfterExpiry(s, now, host, Host(epoch, false), "host_removed", op);
    }
  }

  lemma MaterializeAdvances(s: Snapshot, op: OperationId, request: Request, now: Time)
    requires request.Materialize? && LeaseOf(op) !in s.leases && Transform(s, op, request, now).Some?
    ensures var t := Transform(s, op, request, now).value; Advances(s, t) && Framed(s, op, t)
  {
    var r := Reconciled(s, now);
    EndAdvances(s, Expired(s, now), "expired", op);
    EndShape(s, Expired(s, now), "expired");
    hide End;
    var t := Grant(r, op, request.connection, request.host, request.mode, request.expires);
    assert Transform(s, op, request, now) == Some(t);
    GrantAdvances(r, op, request.connection, request.host, request.mode, request.expires);
    hide Transform;
    hide Reconciled;
    hide Grant;
    AdvancesTransitive(s, r, t);
  }

  lemma GrantAdvances(r: Snapshot, op: OperationId, c: ConnectionId, host: HostId, mode: Mode, expires: Time)
    requires LeaseOf(op) !in r.leases && host in r.hosts && c in r.connections
    ensures var t := Grant(r, op, c, host, mode, expires); Advances(r, t) && Framed(r, op, t)
  {
  }

  lemma AuthorityAdvances(s: Snapshot, op: OperationId, request: Request, now: Time)
    requires request.Authorize? || request.Rotate? || request.Revoke? || request.PrepareErasure?
             || request.FinishErasure?
    requires Transform(s, op, request, now).Some?
    ensures var t := Transform(s, op, request, now).value; Advances(s, t) && Framed(s, op, t)
  {
    var c := request.connection;
    match request
    case Authorize(_, _, _, _) =>
    case PrepareErasure(_) =>
    case Rotate(_, current, state) =>
      SupersedeAdvances(s, c, s.connections[c].(status := ReadyNow, epoch := current.epoch + 1,
                                                version := current.version + 1, state := Some(state),
                                                digest := Some(DigestOf(state))), "authority_rotated", op);
    case Revoke(_) =>
      SupersedeAdvances(s, c, s.connections[c].(status := Revoked, epoch := s.connections[c].epoch + 1),
                        "connection_revoked", op);
    case FinishErasure(_) =>
      SupersedeAdvances(s, c, s.connections[c].(status := ReauthorizationRequired,
                                                version := s.connections[c].version + 1,
                                                state := None, digest := None), "connection_erased", op);
  }

  lemma LeaseAdvances(s: Snapshot, op: OperationId, request: Request, now: Time)
    requires request.Activate? || request.Renew? || request.Checkpoint? || request.Admit?
             || request.AbortMaterialization?
    requires Transform(s, op, request, now).Some?
    ensures var t := Transform(s, op, request, now).value; Advances(s, t) && Framed(s, op, t)
  {
    match request {
      case AbortMaterialization(i) =>
        EndAdvances(s, {i}, "materialization_failed", op);
        hide End;
      case Checkpoint(f, state) => CheckpointAdvances(s, op, f, state, now);
      case Activate(f) => hide DoRenew;
      case Renew(f, _, _) => hide DoActivate;
      case Admit(_, _) =>
    }
    hide DoCheckpoint;
  }

  lemma CheckpointAdvances(s: Snapshot, op: OperationId, f: Fence, state: Ciphertext, now: Time)
    requires DoCheckpoint(s, f, state, now).Some?
    ensures var t := DoCheckpoint(s, f, state, now).value; Advances(s, t) && Framed(s, op, t)
  {
  }

  lemma ReleaseAdvances(s: Snapshot, op: OperationId, request: Request, now: Time)
    requires request.Release? || request.Recover? || request.Reconcile?
    requires Transform(s, op, request, now).Some?
    ensures var t := Transform(s, op, request, now).value; Advances(s, t) && Framed(s, op, t)
  {
    var r := Reconciled(s, now);
    EndAdvances(s, Expired(s, now), "expired", op);
    hide End;
    if request.Release? {
      EndAdvances(r, {request.fence.lease}, "released", op);
      var t := Transform(s, op, request, now).value;
      hide Transform;
      AdvancesTransitive(s, r, t);
    }
  }

  lemma TransformAdvances(s: Snapshot, op: OperationId, request: Request, now: Time)
    requires LeaseOf(op) !in s.leases && Transform(s, op, request, now).Some?
    ensures var t := Transform(s, op, request, now).value; Advances(s, t) && Framed(s, op, t)
  {
    hide Transform;
    hide Advances;
    hide Framed;
    match request
    case EnrollHost(_) => EnrollAdvances(s, op, request, now);
    case RemoveHost(_) => EnrollAdvances(s, op, request, now);
    case Materialize(_, _, _, _) => MaterializeAdvances(s, op, request, now);
    case Authorize(_, _, _, _) => AuthorityAdvances(s, op, request, now);
    case Rotate(_, _, _) => AuthorityAdvances(s, op, request, now);
    case Revoke(_) => AuthorityAdvances(s, op, request, now);
    case PrepareErasure(_) => AuthorityAdvances(s, op, request, now);
    case FinishErasure(_) => AuthorityAdvances(s, op, request, now);
    case Release(_, _) => ReleaseAdvances(s, op, request, now);
    case Recover => ReleaseAdvances(s, op, request, now);
    case Reconcile => ReleaseAdvances(s, op, request, now);
    case _ => LeaseAdvances(s, op, request, now);
  }

  /** Every publication on a valid snapshot yields a valid snapshot that has moved on by exactly one record. */
  lemma PublishKeeps(s: Snapshot, op: OperationId, request: Request, now: Time)
    requires Inv(s) && Lawful(request) && Publish(s, op, request, now).Some?
    ensures var t := Publish(s, op, request, now).value;
            && Inv(t) && Advances(s, t) && t.revision == s.revision + 1
            && t.audit == s.audit + [Audit(t.revision, op, request)]
  {
    hide Publish;
    hide Transform;
    hide Body;
    hide Advances;
    PublishShape(s, op, request, now);
    var u, t := Transform(s, op, request, now).value, Publish(s, op, request, now).value;
    assert LeaseOf(op) !in s.leases;
    TransformKeeps(s, op, request, now);
    TransformAdvances(s, op, request, now);
    assert Body(t) by { BodyIgnoresAudit(u, t); }
    assert Advances(s, t) by { AdvancesIgnoresAudit(s, u, t); }
    assert t.audit[..|s.audit|] == s.audit;
    AuditGrows(s, t, op);
    assert Traceable(t) by { TraceGrows(s, t, op); }
  }

  lemma AdvancesIgnoresAudit(s: Snapshot, u: Snapshot, t: Snapshot)
    requires Advances(s, u) && t == u.(revision := t.revision, audit := t.audit)
    ensures Advances(s, t)
  {
  }

  lemma TraceGrows(s: Snapshot, t: Snapshot, op: OperationId)
    requires Traceable(s) && (forall i :: i in t.leases ==> i in s.leases || i == LeaseOf(op))
    requires |t.audit| == |s.audit| + 1 && t.audit[..|s.audit|] == s.audit && t.audit[|s.audit|].operation == op
    ensures Traceable(t)
  {
    forall i | i in t.leases ensures Published(t, i.operation) {
      StillPublished(s, t, i.operation);
    }
  }

  lemma PublishShape(s: Snapshot, op: OperationId, request: Request, now: Time)
    requires Publish(s, op, request, now).Some?
    ensures !Published(s, op) && Transform(s, op, request, now).Some?
    ensures var u := Transform(s, op, request, now).value;
            Publish(s, op, request, now).value
            == u.(revision := s.revision + 1, audit := u.audit + [Audit(|s.audit| + 1, op, request)])
  {
    hide Transform;
    hide Published;
  }

  lemma BodyIgnoresAudit(u: Snapshot, t: Snapshot)
    requires Body(u) && t == u.(revision := t.revision, audit := t.audit)
    ensures Body(t)
  {
    assert forall i :: Live(t, i) <==> Live(u, i);
    forall i | i in t.leases ensures ValidLease(t, i) {
      assert ValidLease(u, i);
    }
    assert ValidActiveSets(t) by {
      forall c | c in t.connections && t.connections[c].status.Refreshing?
        ensures exists i :: Live(t, i) && t.leases[i].connection == c && t.leases[i].mode.Refresh?
      {
        var i :| Live(u, i) && u.leases[i].connection == c && u.leases[i].mode.Refresh?;
        assert Live(t, i);
      }
    }
  }

  lemma AuditGrows(s: Snapshot, t: Snapshot, op: OperationId)
    requires ValidAudit(s.audit) && !Published(s, op)
    requires |t.audit| == |s.audit| + 1 && t.audit[..|s.audit|] == s.audit
    requires t.audit[|s.audit|].operation == op && t.audit[|s.audit|].sequence == |s.audit| + 1
    ensures ValidAudit(t.audit) && Published(t, op)
  {
    assert forall i :: 0 <= i < |s.audit| ==> t.audit[i] == s.audit[i];
    assert t.audit[|s.audit|].operation == op;
  }

  lemma StillPublished(s: Snapshot, t: Snapshot, op: OperationId)
    requires |t.audit| == |s.audit| + 1 && t.audit[..|s.audit|] == s.audit
    ensures Published(s, op) ==> Published(t, op)
    ensures t.audit[|s.audit|].operation == op ==> Published(t, op)
  {
    if Published(s, op) {
      var i :| 0 <= i < |s.audit| && s.audit[i].operation == op;
      assert t.audit[i] == s.audit[i];
    }
  }

  // ---- Fences -------------------------------------------------------------

  /** A fence the world has moved past. */
  predicate Stale(s: Snapshot, f: Fence) {
    || (f.lease in s.leases && s.leases[f.lease].released)
    || (f.host in s.hosts && s.hosts[f.host].epoch > f.hostEpoch)
    || (f.connection in s.connections &&
          (s.connections[f.connection].epoch > f.epoch || s.connections[f.connection].version > f.version))
  }

  lemma StaleForever(s: Snapshot, t: Snapshot, f: Fence)
    requires Advances(s, t) && Stale(s, f)
    ensures Stale(t, f)
  {
  }

  /** No clock reading and no mode brings a stale fence back: admit, activate, renew and checkpoint all refuse it. */
  lemma StaleRefused(s: Snapshot, f: Fence, now: Time, op: OperationId)
    requires Inv(s) && Stale(s, f)
    ensures forall purpose :: Transform(s, op, Admit(f, purpose), now).None?
    ensures Transform(s, op, Activate(f), now).None?
    ensures forall mode, ttl :: Transform(s, op, Renew(f, mode, ttl), now).None?
    ensures forall state :: Transform(s, op, Checkpoint(f, state), now).None?
  {
    if f.lease in s.leases {
      assert ValidLease(s, f.lease);
    }
    assert forall mode :: !HasCurrentLease(s, f, now, mode);
    assert !IsCurrent(s, f, now);
    hide Inv;
    hide Stale;
    hide HasCurrentLease;
    hide IsCurrent;
  }

  /**
    On valid snapshots the full currency check is just: the lease is
    there, unreleased, unexpired and the fence's own.
    */
  lemma CurrentMeans(s: Snapshot, f: Fence, now: Time)
    requires Inv(s)
    ensures IsCurrent(s, f, now) <==>
            && f.lease in s.leases && !s.leases[f.lease].released && s.leases[f.lease].expires > now
            && var l := s.leases[f.lease];
               f == Fence(l.attachment, f.lease, l.connection, l.host, l.hostEpoch, l.epoch, l.version)
  {
    if f.lease in s.leases && !s.leases[f.lease].released {
      assert Live(s, f.lease) && ValidLease(s, f.lease);
    }
  }

  /** What `materialize` is about to open was sealed under the context it opens with. */
  lemma MaterializeOpens(s: Snapshot, op: OperationId, c: ConnectionId, host: HostId, mode: Mode, expires: Time,
                         now: Time)
    requires Inv(s) && DoMaterialize(s, op, c, host, mode, expires, now).Some?
    ensures var r := Reconciled(s, now);
            && c in r.connections && r.connections[c].state.Some?
            && r.connections[c].state.value.context == KeyContext(c, r.connections[c].epoch, r.connections[c].version)
  {
    ReconciledKeeps(s, now);
    assert SealedAs(c, Reconciled(s, now).connections[c]);
  }

  /** A checkpoint passes the base version it publishes over. */
  lemma CheckpointPasses(s: Snapshot, op: OperationId, f: Fence, state: Ciphertext, now: Time)
    requires Inv(s) && Publish(s, op, Checkpoint(f, state), now).Some?
    ensures var t := Publish(s, op, Checkpoint(f, state), now).value;
            && f.connection in s.connections && s.connections[f.connection].version == f.version
            && f.connection in t.connections && t.connections[f.connection].version == f.version + 1
            && Stale(t, f)
  {
  }

  lemma EndKeepsAccounts(s: Snapshot, which: set<LeaseId>, reason: string)
    ensures SameAccounts(s, End(s, which, reason))
  {
    EndShape(s, which, reason);
    hide End;
  }

  lemma AccountsTransitive(s: Snapshot, t: Snapshot, u: Snapshot)
    requires SameAccounts(s, t) && SameAccounts(t, u)
    ensures SameAccounts(s, u)
  {
  }

  lemma HostKeepsAccounts(s: Snapshot, host: HostId, h: Host, which: set<LeaseId>, reason: string)
    ensures SameAccounts(s, End(s.(hosts := s.hosts[host := h]), which, reason))
  {
    EndKeepsAccounts(s.(hosts := s.hosts[host := h]), which, reason);
    hide End;
  }

  lemma ReconciledKeepsAccounts(s: Snapshot, op: OperationId, request: Request, now: Time)
    requires request.EnrollHost? || request.RemoveHost? || request.Release?
    requires Transform(s, op, request, now).Some?
    ensures SameAccounts(s, Transform(s, op, request, now).value)
  {
    EndKeepsAccounts(s, Expired(s, now), "expired");
    hide End;
    var r, t := Reconciled(s, now), Transform(s, op, request, now).value;
    if request.Release? {
      EndKeepsAccounts(r, {request.fence.lease}, "released");
    } else {
      var host := request.host;
      var epoch := if host in r.hosts then r.hosts[host].epoch + 1 else 1;
      HostKeepsAccounts(r, host, Host(epoch, true), ActiveOn(r, now, host), "host_reenrolled");
      HostKeepsAccounts(r, host, Host(epoch, false), ActiveOn(r, now, host), "host_removed");
    }
    assert SameAccounts(r, t) || t == r;
    hide Transform;
    if t != r {
      AccountsTransitive(s, r, t);
    }
  }

  lemma LifecycleKeepsAccounts(s: Snapshot, op: OperationId, request: Request, now: Time)
    requires request.Authorize? || request.Rotate? || request.Revoke? || request.PrepareErasure?
             || request.FinishErasure?
    requires Transform(s, op, request, now).Some?
    requires request.Authorize? && request.connection in s.connections ==>
      request.account == s.connections[request.connection].account
    ensures SameAccounts(s, Transform(s, op, request, now).value)
  {
  }

  lemma TransformKeepsAccounts(s: Snapshot, op: OperationId, request: Request, now: Time)
    requires Transform(s, op, request, now).Some?
    requires request.Authorize? && request.connection in s.connections ==>
      request.account == s.connections[request.connection].account
    ensures SameAccounts(s, Transform(s, op, request, now).value)
  {
    if request.EnrollHost? || request.RemoveHost? || request.Release? {
      ReconciledKeepsAccounts(s, op, request, now);
    } else if request.Authorize? || request.Rotate? || request.Revoke? || request.PrepareErasure?
        || request.FinishErasure? {
      LifecycleKeepsAccounts(s, op, request, now);
    } else {
      CustodyKeepsAccounts(s, op, request, now);
    }
    hide Transform;
  }

  lemma CustodyKeepsAccounts(s: Snapshot, op: OperationId, request: Request, now: Time)
    requires request.Materialize? || request.Activate? || request.Renew? || request.Checkpoint? || request.Admit?
             || request.Recover? || request.Reconcile? || request.AbortMaterialization?
    requires Transform(s, op, request, now).Some?
    ensures SameAccounts(s, Transform(s, op, request, now).value)
  {
    hide End;
    hide DoMaterialize;
    hide HasCurrentLease;
    hide IsCurrent;
    match request {
      case Materialize(c, host, mode, expires) => MaterializeKeepsAccounts(s, op, c, host, mode, expires, now);
      case AbortMaterialization(i) => EndKeepsAccounts(s, {i}, "materialization_failed");
      case Recover => EndKeepsAccounts(s, Expired(s, now), "expired");
      case Reconcile => EndKeepsAccounts(s, Expired(s, now), "expired");
      case _ =>
    }
  }

  lemma MaterializeKeepsAccounts(s: Snapshot, op: OperationId, c: ConnectionId, host: HostId, mode: Mode, expires: Time,
                                 now: Time)
    requires DoMaterialize(s, op, c, host, mode, expires, now).Some?
    ensures SameAccounts(s, DoMaterialize(s, op, c, host, mode, expires, now).value)
  {
    EndKeepsAccounts(s, Expired(s, now), "expired");
    hide End;
    hide Expired;
    hide ActiveOf;
  }

  /** Only an authorization states an account, and then the one the connection already has. */
  lemma PublishKeepsAccounts(s: Snapshot, op: OperationId, request: Request, now: Time)
    requires Publish(s, op, request, now).Some?
    requires request.Authorize? && request.connection in s.connections ==>
      request.account == s.connections[request.connection].account
    ensures SameAccounts(s, Publish(s, op, request, now).value)
  {
    PublishShape(s, op, request, now);
    hide Publish;
    TransformKeepsAccounts(s, op, request, now);
    hide Transform;
  }

  /** A publication is its own record's. */
  lemma PublicationItself(s: Snapshot, op: OperationId, request: Request, now: Time)
    requires Lawful(request) && Publish(s, op, request, now).Some?
    requires var t := Publish(s, op, request, now).value; t.audit == s.audit + [Audit(t.revision, op, request)]
    ensures IsPublication(s, Publish(s, op, request, now).value)
  {
    hide Publish;
    var t := Publish(s, op, request, now).value;
    assert t.audit[|t.audit| - 1] == Audit(t.revision, op, request);
  }

  // ---- Interleavings ------------------------------------------------------

  const CAS_ATTEMPTS := 8

  /** A commit in progress: what it wants to publish, what it last loaded, and how often it lost. */
  datatype Actor =
    | Idle
    | Committing(operation: OperationId, request: Request, begun: nat, losses: nat, loaded: Option<Snapshot>)
    | Contended(operation: OperationId, begun: nat)

  /** `log` is every snapshot ever stored, the last one being current. */
  datatype System = System(log: seq<Snapshot>, actors: map<nat, Actor>)

  function Current(y: System): Snapshot
    requires y.log != []
  {
    y.log[|y.log| - 1]
  }

  datatype Move =
    | Begin(actor: nat, operation: OperationId, request: Request)
    | Load(actor: nat)
    | Swap(actor: nat, now: Time)

  const Fresh := Snapshot(0, map[], map[], map[], [])

  function Start(): System { System([Fresh], map[]) }

  function ActorOf(y: System, a: nat): Actor { if a in y.actors then y.actors[a] else Idle }

  function WithActor(y: System, a: nat, actor: Actor): System { y.(actors := y.actors[a := actor]) }

  /** One atomic step; a step that is not enabled changes nothing. */
  function Next(y: System, move: Move): System
    requires y.log != []
  {
    match move
    case Begin(a, op, request) =>
      if ActorOf(y, a).Committing? then y else WithActor(y, a, Committing(op, request, |y.log|, 0, None))
    case Load(a) =>
      var actor := ActorOf(y, a);
      if actor.Committing? && actor.loaded.None? then WithActor(y, a, actor.(loaded := Some(Current(y)))) else y
    case Swap(a, now) =>
      var actor := ActorOf(y, a);
      if !actor.Committing? || actor.loaded.None? then y
      else
        var seen := actor.loaded.value;
        match Publish(seen, actor.operation, actor.request, now)
        case None => WithActor(y, a, Idle)
        case Some(t) =>
          if seen.revision == Current(y).revision then System(y.log + [t], y.actors[a := Idle])
          else if actor.losses + 1 == CAS_ATTEMPTS then WithActor(y, a, Contended(actor.operation, actor.begun))
          else WithActor(y, a, actor.(losses := actor.losses + 1, loaded := None))
  }

  function Run(y: System, moves: seq<Move>): System
    requires y.log != []
    decreases moves
  {
    if moves == [] then y
    else
      NextKeepsLog(y, moves[0]);
      Run(Next(y, moves[0]), moves[1..])
  }

  lemma NextKeepsLog(y: System, move: Move)
    requires y.log != []
    ensures Next(y, move).log != []
  {
  }

  /** A request reads its earlier generation from a snapshot that was really stored. */
  ghost predicate Captured(log: seq<Snapshot>, request: Request) {
    request.Authorize? && request.seen.Some? ==>
      exists i :: 0 <= i < |log| && request.connection in log[i].connections
                  && log[i].connections[request.connection] == request.seen.value
  }

  ghost predicate Proper(y: System, moves: seq<Move>)
    requires y.log != []
    decreases moves
  {
    moves == [] ||
    (&& (moves[0].Begin? ==> Lawful(moves[0].request) && Captured(y.log, moves[0].request))
     && (NextKeepsLog(y, moves[0]); Proper(Next(y, moves[0]), moves[1..])))
  }

  ghost predicate LinkedLog(log: seq<Snapshot>) {
    && (forall i :: 0 <= i < |log| ==> Inv(log[i]) && log[i].revision == i)
    && (forall i, j :: 0 <= i <= j < |log| ==> Advances(log[i], log[j]))
    && (forall i, j :: 0 <= i <= j < |log| ==> log[i].audit <= log[j].audit && SameAccounts(log[i], log[j]))
    && (forall i, j :: 0 <= i && j == i + 1 && j < |log| ==> IsPublication(log[i], log[j]))
  }

  /** A connection never changes hands. */
  ghost predicate SameAccounts(s: Snapshot, t: Snapshot) {
    forall c :: c in s.connections ==> c in t.connections && t.connections[c].account == s.connections[c].account
  }

  /** `t` is what its own last record, published on `s` at some clock reading, makes of `s`. */
  ghost predicate IsPublication(s: Snapshot, t: Snapshot) {
    && t.audit != []
    && var record := t.audit[|t.audit| - 1];
       && Lawful(record.request)
       && exists now :: Publish(s, record.operation, record.request, now) == Some(t)
  }

  ghost predicate ActorFits(log: seq<Snapshot>, actor: Actor) {
    match actor
    case Idle => true
    case Committing(op, request, begun, losses, loaded) =>
      && Lawful(request) && Captured(log, request) && losses < CAS_ATTEMPTS
      && (loaded.None? ==> begun + losses <= |log|)
      && (loaded.Some? ==>
            && loaded.value.revision < |log| && log[loaded.value.revision] == loaded.value
            && begun + losses <= loaded.value.revision + 1)
    case Contended(op, begun) => begun + CAS_ATTEMPTS <= |log|
  }

  ghost predicate SystemInv(y: System) {
    && y.log != [] && LinkedLog(y.log)
    && forall a :: a in y.actors ==> ActorFits(y.log, y.actors[a])
  }

  lemma StartInv()
    ensures SystemInv(Start())
  {
    assert Inv(Fresh);
  }

  lemma CapturedGrows(log: seq<Snapshot>, t: Snapshot, request: Request)
    requires Captured(log, request)
    ensures Captured(log + [t], request)
  {
    if request.Authorize? && request.seen.Some? {
      var i :| 0 <= i < |log| && request.connection in log[i].connections
               && log[i].connections[request.connection] == request.seen.value;
      assert (log + [t])[i] == log[i];
    }
  }

  lemma FitsGrows(log: seq<Snapshot>, t: Snapshot, actor: Actor)
    requires ActorFits(log, actor)
    ensures ActorFits(log + [t], actor)
  {
    if actor.Committing? {
      CapturedGrows(log, t, actor.request);
    }
  }

  lemma LogGrows(log: seq<Snapshot>, t: Snapshot)
    requires log != [] && LinkedLog(log) && Inv(t) && t.revision == |log|
    requires Advances(log[|log| - 1], t) && log[|log| - 1].audit <= t.audit
    requires SameAccounts(log[|log| - 1], t) && IsPublication(log[|log| - 1], t)
    ensures LinkedLog(log + [t])
  {
    var log' := log + [t];
    hide Inv;
    hide IsPublication;
    forall i, j | 0 <= i <= j < |log'|
      ensures Advances(log'[i], log'[j]) && log'[i].audit <= log'[j].audit && SameAccounts(log'[i], log'[j])
    {
      if j == |log| {
        if i < j {
          AdvancesTransitive(log[i], log[|log| - 1], t);
        }
      }
    }
  }

  /** The swap compares revisions only, yet succeeds only on the very snapshot that was loaded. */
  lemma SwapIsAtomic(y: System, a: nat)
    requires SystemInv(y) && ActorOf(y, a).Committing? && ActorOf(y, a).loaded.Some?
    requires ActorOf(y, a).loaded.value.revision == Current(y).revision
    ensures ActorOf(y, a).loaded.value == Current(y)
  {
    hide Inv;
    hide Advances;
    hide SameAccounts;
    hide IsPublication;
    hide Lawful;
    hide Captured;
    assert ActorFits(y.log, y.actors[a]);
    assert y.log[|y.log| - 1].revision == |y.log| - 1;
  }

  /** What an authorization captured has the account the connection still has. */
  lemma AuthorizesItsOwn(log: seq<Snapshot>, op: OperationId, request: Request, now: Time)
    requires log != [] && LinkedLog(log) && Lawful(request) && Captured(log, request)
    requires Publish(log[|log| - 1], op, request, now).Some?
    ensures var s := log[|log| - 1];
            request.Authorize? && request.connection in s.connections ==>
              request.account == s.connections[request.connection].account
  {
    if request.Authorize? && request.seen.Some? {
      var i :| 0 <= i < |log| && request.connection in log[i].connections
               && log[i].connections[request.connection] == request.seen.value;
      assert SameAccounts(log[i], log[|log| - 1]);
    }
  }

  lemma NextKeeps(y: System, move: Move)
    requires SystemInv(y) && (move.Begin? ==> Lawful(move.request) && Captured(y.log, move.request))
    ensures SystemInv(Next(y, move))
    ensures y.log <= Next(y, move).log
  {
    var a, n := move.actor, |y.log|;
    var actor := ActorOf(y, a);
    assert y.log[n - 1].revision == n - 1;
    hide Inv;
    hide LinkedLog;
    if move.Swap? && actor.Committing? && actor.loaded.Some? {
      SwapKeeps(y, a, move.now);
    }
  }

  lemma CurrentRevision(y: System)
    requires y.log != [] && LinkedLog(y.log)
    ensures Current(y).revision == |y.log| - 1
  {
  }

  lemma SwapKeeps(y: System, a: nat, now: Time)
    requires SystemInv(y) && ActorOf(y, a).Committing? && ActorOf(y, a).loaded.Some?
    ensures SystemInv(Next(y, Swap(a, now))) && y.log <= Next(y, Swap(a, now)).log
  {
    hide LinkedLog;
    hide Publish;
    hide Captured;
    hide Lawful;
    var actor := ActorOf(y, a);
    CurrentRevision(y);
    assert ActorFits(y.log, y.actors[a]);
    if actor.loaded.value.revision == |y.log| - 1
       && Publish(actor.loaded.value, actor.operation, actor.request, now).Some? {
      SwapPublishes(y, a, now);
    }
  }

  lemma LogEnd(log: seq<Snapshot>)
    requires log != [] && LinkedLog(log)
    ensures Inv(log[|log| - 1]) && log[|log| - 1].revision == |log| - 1
  {
  }

  /** A publication on the last snapshot keeps the log linked. */
  lemma PublicationLinks(log: seq<Snapshot>, op: OperationId, request: Request, now: Time)
    requires log != [] && LinkedLog(log) && Lawful(request) && Captured(log, request)
    requires Publish(log[|log| - 1], op, request, now).Some?
    ensures LinkedLog(log + [Publish(log[|log| - 1], op, request, now).value])
  {
    hide Inv;
    hide Publish;
    hide IsPublication;
    hide LinkedLog;
    hide Advances;
    hide Lawful;
    hide Captured;
    var seen := log[|log| - 1];
    LogEnd(log);
    PublishKeeps(seen, op, request, now);
    PublicationItself(seen, op, request, now);
    AuthorizesItsOwn(log, op, request, now);
    PublishKeepsAccounts(seen, op, request, now);
    LogGrows(log, Publish(seen, op, request, now).value);
  }

  /** A longer log keeps every actor fitting. */
  lemma ActorsFitLonger(log: seq<Snapshot>, t: Snapshot, actors: map<nat, Actor>)
    requires forall b :: b in actors ==> ActorFits(log, actors[b])
    ensures forall b :: b in actors ==> ActorFits(log + [t], actors[b])
  {
    hide ActorFits;
    forall b | b in actors ensures ActorFits(log + [t], actors[b]) {
      FitsGrows(log, t, actors[b]);
    }
  }

  lemma SwapPublishes(y: System, a: nat, now: Time)
    requires SystemInv(y) && ActorOf(y, a).Committing? && ActorOf(y, a).loaded.Some?
    requires var actor := ActorOf(y, a);
             && actor.loaded.value.revision == |y.log| - 1
             && Publish(actor.loaded.value, actor.operation, actor.request, now).Some?
    ensures SystemInv(Next(y, Swap(a, now))) && y.log <= Next(y, Swap(a, now)).log
  {
    hide LinkedLog;
    hide Publish;
    hide Captured;
    hide Lawful;
    var actor := ActorOf(y, a);
    assert ActorFits(y.log, actor);
    CurrentRevision(y);
    PublicationLinks(y.log, actor.operation, actor.request, now);
    ActorsFitLonger(y.log, Publish(actor.loaded.value, actor.operation, actor.request, now).value, y.actors);
    hide ActorFits;
    assert ActorFits(y.log + [Publish(actor.loaded.value, actor.operation, actor.request, now).value], Idle) by {
      IdleFits(y.log + [Publish(actor.loaded.value, actor.operation, actor.request, now).value]);
    }
  }

  lemma IdleFits(log: seq<Snapshot>)
    ensures ActorFits(log, Idle)
  {
  }

  /** Safety of every run: every snapshot ever stored is valid, traceable and rightly sealed; nothing is ever lost. */
  lemma {:induction false} RunKeeps(y: System, moves: seq<Move>)
    requires SystemInv(y) && Proper(y, moves)
    ensures SystemInv(Run(y, moves)) && y.log <= Run(y, moves).log
    decreases moves
  {
    if moves == [] {
    } else {
      NextKeeps(y, moves[0]);
      RunKeeps(Next(y, moves[0]), moves[1..]);
    }
  }

  /** From the empty store: a fence that is stale in some stored snapshot is refused in every later one. */
  lemma StaleRefusedForever(moves: seq<Move>, i: nat, j: nat, f: Fence, now: Time, op: OperationId)
    requires Proper(Start(), moves) && i <= j < |Run(Start(), moves).log| && Stale(Run(Start(), moves).log[i], f)
    ensures var s := Run(Start(), moves).log[j];
            && Stale(s, f) && !IsCurrent(s, f, now)
            && Publish(s, op, Activate(f), now).None?
            && (forall mode, ttl :: Publish(s, op, Renew(f, mode, ttl), now).None?)
            && (forall state :: Publish(s, op, Checkpoint(f, state), now).None?)
            && (forall purpose :: Publish(s, op, Admit(f, purpose), now).None?)
  {
    StartInv();
    RunKeeps(Start(), moves);
    var log := Run(Start(), moves).log;
    hide Run;
    assert Inv(log[j]) && Advances(log[i], log[j]);
    StaleForever(log[i], log[j], f);
    StaleRefused(log[j], f, now, op);
    StaleNotCurrent(log[j], f, now);
    hide Transform;
    hide Inv;
    hide Advances;
  }

  lemma StaleNotCurrent(s: Snapshot, f: Fence, now: Time)
    requires Inv(s) && Stale(s, f)
    ensures !IsCurrent(s, f, now)
  {
    if f.lease in s.leases {
      assert ValidLease(s, f.lease);
    }
  }

  /** Each operation id is published at most once, in the record whose sequence its snapshot's revision is. */
  lemma PublishedOnce(moves: seq<Move>, i: nat, j: nat)
    requires Proper(Start(), moves) && 0 < i < j < |Run(Start(), moves).log|
    ensures var log := Run(Start(), moves).log;
            && |log[i].audit| == i && |log[j].audit| == j
            && log[i].audit[i - 1].operation != log[j].audit[j - 1].operation
            && log[j].audit[i - 1] == log[i].audit[i - 1]
            && log[i].audit[i - 1].sequence == i
  {
    StartInv();
    RunKeeps(Start(), moves);
    var log := Run(Start(), moves).log;
    hide Run;
    assert Inv(log[i]) && Inv(log[j]) && log[i].audit <= log[j].audit;
  }

  /** A commit that gave up lost to at least eight publications of others since it began. */
  lemma ContentionIsReal(moves: seq<Move>, a: nat)
    requires Proper(Start(), moves) && ActorOf(Run(Start(), moves), a).Contended?
    ensures ActorOf(Run(Start(), moves), a).begun + CAS_ATTEMPTS <= |Run(Start(), moves).log|
  {
    StartInv();
    RunKeeps(Start(), moves);
    assert ActorFits(Run(Start(), moves).log, Run(Start(), moves).actors[a]);
  }

  /** No two checkpoints of a connection publish over the same base version: the later base is strictly newer. */
  lemma CheckpointsNeverCollide(moves: seq<Move>, i: nat, j: nat)
    requires Proper(Start(), moves) && 0 < i < j < |Run(Start(), moves).log|
    requires var log := Run(Start(), moves).log;
             && |log[i].audit| == i && |log[j].audit| == j
             && log[i].audit[i - 1].request.Checkpoint? && log[j].audit[j - 1].request.Checkpoint?
             && log[i].audit[i - 1].request.fence.connection == log[j].audit[j - 1].request.fence.connection
    ensures var log := Run(Start(), moves).log;
            log[i].audit[i - 1].request.fence.version < log[j].audit[j - 1].request.fence.version
  {
    StartInv();
    RunKeeps(Start(), moves);
    var log := Run(Start(), moves).log;
    hide Run;
    var early, late := log[i].audit[i - 1], log[j].audit[j - 1];
    assert IsPublication(log[i - 1], log[i]) && IsPublication(log[j - 1], log[j]);
    assert Inv(log[i - 1]) && Inv(log[j - 1]) && Advances(log[i], log[j - 1]);
    var now :| Publish(log[i - 1], early.operation, early.request, now) == Some(log[i]);
    var then_ :| Publish(log[j - 1], late.operation, late.request, then_) == Some(log[j]);
    CheckpointPasses(log[i - 1], early.operation, early.request.fence, early.request.state, now);
    CheckpointPasses(log[j - 1], late.operation, late.request.fence, late.request.state, then_);
  }

  // ---- The store ----------------------------------------------------------

  /** `SqliteConnectionStorage`: one row, replaced only at the expected revision. */
  class ConnectionStorage {
    var snapshot: Snapshot

    ghost predicate Valid()
      reads this
    {
      ValidSnapshot(snapshot)
    }

    constructor ()
      ensures Valid() && snapshot == Fresh
    {
      snapshot := Fresh;
    }

    /** The caller's replacement must advance the expected revision once and pass the validator. */
    method CompareAndSwap(expected: nat, replacement: Snapshot) returns (swapped: bool)
      requires Valid() && replacement.revision == expected + 1 && ValidSnapshot(replacement)
      modifies this
      ensures Valid() && swapped == (old(snapshot).revision == expected)
      ensures snapshot == if swapped then replacement else old(snapshot)
    {
      swapped := snapshot.revision == expected;
      if swapped {
        snapshot := replacement;
      }
    }
  }

  /** Another actor's publication that lands between one attempt's load and its swap. */
  datatype Rival = Rival(operation: OperationId, request: Request, now: Time)

  datatype Outcome = Committed | Refused | Contention

  /** Others publish one after another; each that may advances the revision. */
  method Contend(storage: ConnectionStorage, rivals: seq<Rival>)
    requires Inv(storage.snapshot) && forall j :: 0 <= j < |rivals| ==> Lawful(rivals[j].request)
    modifies storage
    ensures Inv(storage.snapshot) && Advances(old(storage.snapshot), storage.snapshot)
    ensures storage.snapshot == old(storage.snapshot) || old(storage.snapshot).revision < storage.snapshot.revision
  {
    hide Inv;
    hide Advances;
    hide Publish;
    hide Lawful;
    SelfAdvances(storage.snapshot);
    for j := 0 to |rivals|
      invariant Inv(storage.snapshot) && Advances(old(storage.snapshot), storage.snapshot)
      invariant storage.snapshot == old(storage.snapshot) || old(storage.snapshot).revision < storage.snapshot.revision
    {
      var r, seen := rivals[j], storage.snapshot;
      var theirs := Publish(seen, r.operation, r.request, r.now);
      if theirs.Some? {
        PublishKeeps(seen, r.operation, r.request, r.now);
        storage.snapshot := theirs.value;
        AdvancesTransitive(old(storage.snapshot), seen, storage.snapshot);
      }
    }
  }

  /**
    `_commit`: load, transform, swap, and try again when the swap is lost, eight
    times at most.  Attempt `k` reads the clock as `clock(k)`, and all of `rivals[k]`
    try to publish during it.
    */
  method Commit(storage: ConnectionStorage, op: OperationId, request: Request, rivals: seq<seq<Rival>>,
                clock: nat -> Time)
    returns (outcome: Outcome, ghost beaten: Snapshot, ghost attempt: nat)
    requires Inv(storage.snapshot) && Lawful(request)
    requires forall k, j :: 0 <= k < |rivals| && 0 <= j < |rivals[k]| ==> Lawful(rivals[k][j].request)
    modifies storage
    ensures Inv(storage.snapshot) && Advances(old(storage.snapshot), storage.snapshot)
    ensures attempt < CAS_ATTEMPTS && Inv(beaten)
    ensures outcome.Committed? ==> Publish(beaten, op, request, clock(attempt)) == Some(storage.snapshot)
    ensures outcome.Contention? ==> old(storage.snapshot).revision + CAS_ATTEMPTS <= storage.snapshot.revision
    ensures outcome.Refused? ==> Publish(beaten, op, request, clock(attempt)).None?
  {
    hide Inv;
    hide Advances;
    hide Publish;
    hide Lawful;
    SelfAdvances(storage.snapshot);
    beaten, attempt := storage.snapshot, 0;
    for k := 0 to CAS_ATTEMPTS
      invariant Inv(storage.snapshot) && Advances(old(storage.snapshot), storage.snapshot) && Inv(beaten)
      invariant attempt < CAS_ATTEMPTS
      invariant old(storage.snapshot).revision + k <= storage.snapshot.revision
    {
      var loaded := storage.snapshot;
      beaten, attempt := loaded, k;
      var replacement := Publish(loaded, op, request, clock(k));
      if replacement.None? {
        return Refused, beaten, attempt;
      }
      PublishKeeps(loaded, op, request, clock(k));
      if k < |rivals| {
        Contend(storage, rivals[k]);
        AdvancesTransitive(old(storage.snapshot), loaded, storage.snapshot);
      }
      InvIsValid(storage.snapshot);
      InvIsValid(replacement.value);
      var swapped := storage.CompareAndSwap(loaded.revision, replacement.value);
      if swapped {
        AdvancesTransitive(old(storage.snapshot), loaded, replacement.value);
        return Committed, beaten, attempt;
      }
    }
    return Contention, beaten, attempt;
  }

  lemma SelfAdvances(s: Snapshot)
    ensures Advances(s, s)
  {
  }
}
