/**
  Agent Connection custody (`src/petrus/agenticus/connection/custody.py` and
  `storage.py`) on values: the stored snapshot, what its validator demands, and
  every transform an operation publishes.  A tuple that the source keeps sorted
  and unique by identity is a map.  Encryption is ideal: a ciphertext carries the
  key context it was sealed under.  Identities the source derives by hashing an
  operation id are injective constructors.
  */
module Custody {
  import opened Options

  type HostId = string
  type ConnectionId = string
  type Time = real

  datatype OperationId = Client(name: string) | Derived(role: string, parent: OperationId)
  datatype LeaseId = LeaseOf(operation: OperationId)
  datatype AttachmentId = AttachmentOf(operation: OperationId)

  datatype Mode = Read | Refresh
  datatype Status = ReadyNow | Refreshing | Revoked | ErasurePending | ReauthorizationRequired

  datatype KeyContext = KeyContext(connection: ConnectionId, epoch: nat, version: nat)
  /** `key` says which of the connection's successive keys sealed it. */
  datatype Ciphertext = Sealed(context: KeyContext, key: nat, body: string)
  datatype Digest = DigestOf(state: Ciphertext)

  datatype Host = Host(epoch: nat, active: bool)
  datatype Connection = Connection(account: string, status: Status, epoch: nat, version: nat,
                                   state: Option<Ciphertext>, digest: Option<Digest>)
  datatype Lease = Lease(attachment: AttachmentId, connection: ConnectionId, host: HostId, hostEpoch: nat, mode: Mode,
                         epoch: nat, version: nat, expires: Time, activated: bool, released: bool,
                         reason: Option<string>)
  datatype Audit = Audit(sequence: nat, operation: OperationId, request: Request)

  datatype Snapshot = Snapshot(revision: nat, hosts: map<HostId, Host>, connections: map<ConnectionId, Connection>,
                               leases: map<LeaseId, Lease>, audit: seq<Audit>)

  datatype Fence = Fence(attachment: AttachmentId, lease: LeaseId, connection: ConnectionId, host: HostId,
                         hostEpoch: nat, epoch: nat, version: nat)

  /** One publishable change.  What an operation read or sealed before publishing is part of the request. */
  datatype Request =
    | EnrollHost(host: HostId)
    | RemoveHost(host: HostId)
    | Authorize(connection: ConnectionId, account: string, seen: Option<Connection>, state: Ciphertext)
    | Materialize(connection: ConnectionId, host: HostId, mode: Mode, expires: Time)
    | Activate(fence: Fence)
    | Renew(fence: Fence, mode: Mode, ttl: Time)
    | Checkpoint(fence: Fence, state: Ciphertext)
    | Release(fence: Fence, mode: Mode)
    | Rotate(connection: ConnectionId, current: Connection, state: Ciphertext)
    | Revoke(connection: ConnectionId)
    | PrepareErasure(connection: ConnectionId)
    | FinishErasure(connection: ConnectionId)
    | Admit(fence: Fence, purpose: string)
    | Recover
    | Reconcile
    | AbortMaterialization(lease: LeaseId)

  // ---- The validator ------------------------------------------------------

  predicate Live(s: Snapshot, id: LeaseId) { id in s.leases && !s.leases[id].released }

  ghost predicate ValidHosts(s: Snapshot) {
    forall h :: h in s.hosts ==> s.hosts[h].epoch > 0
  }

  ghost predicate ValidConnection(c: Connection) {
    && c.epoch > 0 && c.version > 0
    && (c.state.None? <==> c.digest.None?)
    && (c.state.None? ==> c.status.ReauthorizationRequired? || c.status.Revoked? || c.status.ErasurePending?)
    && (c.state.Some? ==> c.digest == Some(DigestOf(c.state.value)))
  }

  ghost predicate ValidConnections(s: Snapshot) {
    forall c :: c in s.connections ==> ValidConnection(s.connections[c])
  }

  ghost predicate ValidLease(s: Snapshot, id: LeaseId)
    requires id in s.leases
  {
    var l := s.leases[id];
    && l.hostEpoch > 0 && l.epoch > 0 && l.version > 0
    && (l.activated ==> l.mode.Refresh?)
    && (l.released <==> l.reason.Some?)
    && l.host in s.hosts && l.connection in s.connections
    && (!l.released ==>
          && s.hosts[l.host].active && s.hosts[l.host].epoch == l.hostEpoch
          && s.connections[l.connection].epoch == l.epoch && s.connections[l.connection].version == l.version)
  }

  ghost predicate ValidLeases(s: Snapshot) {
    && (forall i :: i in s.leases ==> ValidLease(s, i))
    && (forall i, j :: i in s.leases && j in s.leases && s.leases[i].attachment == s.leases[j].attachment ==> i == j)
  }

  /** Refresh custody is exclusive, and a connection is refreshing exactly while it is held. */
  ghost predicate ValidActiveSets(s: Snapshot) {
    && (forall i, j ::
          Live(s, i) && Live(s, j) && s.leases[i].connection == s.leases[j].connection && s.leases[i].mode.Refresh? ==>
            i == j)
    && (forall i :: Live(s, i) && s.leases[i].connection in s.connections ==>
          s.connections[s.leases[i].connection].status
          == (if s.leases[i].mode.Refresh? then Refreshing else ReadyNow))
    && (forall c :: c in s.connections && s.connections[c].status.Refreshing? ==>
          exists i :: Live(s, i) && s.leases[i].connection == c && s.leases[i].mode.Refresh?)
  }

  ghost predicate ValidAudit(audit: seq<Audit>) {
    && (forall i :: 0 <= i < |audit| ==> audit[i].sequence == i + 1)
    && (forall i, j :: 0 <= i < j < |audit| ==> audit[i].operation != audit[j].operation)
  }

  /** `validate_snapshot`. */
  ghost predicate ValidSnapshot(s: Snapshot) {
    && s.revision == |s.audit|
    && ValidHosts(s) && ValidConnections(s) && ValidLeases(s) && ValidActiveSets(s) && ValidAudit(s.audit)
  }

  // ---- Transforms ---------------------------------------------------------

  /** `_release_leases`. */
  function ReleaseLeases(s: Snapshot, which: set<LeaseId>, reason: string): Snapshot {
    s.(leases := map i | i in s.leases ::
         if i in which then s.leases[i].(released := true, reason := Some(reason)) else s.leases[i])
  }

  predicate HeldRefresh(s: Snapshot, which: set<LeaseId>, c: ConnectionId) {
    exists i :: i in which && i in s.leases && s.leases[i].connection == c && s.leases[i].mode.Refresh?
  }

  predicate Ambiguous(s: Snapshot, which: set<LeaseId>, c: ConnectionId) {
    exists i :: i in which && i in s.leases && s.leases[i].connection == c && s.leases[i].activated
  }

  function SettleOne(c: Connection, ambiguous: bool): Connection {
    if ambiguous then c.(status := ReauthorizationRequired, epoch := c.epoch + 1, state := None, digest := None)
    else c.(status := ReadyNow)
  }

  /** `_settle_released_refreshes`: a connection whose refresh custody ended is ready again, or ambiguous. */
  function Settle(s: Snapshot, which: set<LeaseId>): Snapshot {
    s.(connections := map c | c in s.connections ::
         if HeldRefresh(s, which, c) && s.connections[c].status.Refreshing?
         then SettleOne(s.connections[c], Ambiguous(s, which, c))
         else s.connections[c])
  }

  function End(s: Snapshot, which: set<LeaseId>, reason: string): Snapshot {
    Settle(ReleaseLeases(s, which, reason), which)
  }

  function Expired(s: Snapshot, now: Time): set<LeaseId> {
    set i | i in s.leases && !s.leases[i].released && s.leases[i].expires <= now
  }

  /** `_reconcile_expired`. */
  function Reconciled(s: Snapshot, now: Time): Snapshot { End(s, Expired(s, now), "expired") }

  /** `_active_leases`. */
  function ActiveOn(s: Snapshot, now: Time, host: HostId): set<LeaseId> {
    set i | i in s.leases && !s.leases[i].released && s.leases[i].expires > now && s.leases[i].host == host
  }

  function ActiveOf(s: Snapshot, now: Time, connection: ConnectionId): set<LeaseId> {
    set i | i in s.leases && !s.leases[i].released && s.leases[i].expires > now && s.leases[i].connection == connection
  }

  function Unsettled(s: Snapshot, connection: ConnectionId): set<LeaseId> {
    set i | i in s.leases && !s.leases[i].released && s.leases[i].connection == connection
  }

  predicate Matches(l: Lease, f: Fence) {
    && l.attachment == f.attachment && l.connection == f.connection && l.host == f.host
    && l.hostEpoch == f.hostEpoch && l.epoch == f.epoch && l.version == f.version
  }

  /** `_require_current_lease` does not raise. */
  predicate HasCurrentLease(s: Snapshot, f: Fence, now: Time, mode: Mode) {
    && f.lease in s.leases && f.host in s.hosts
    && s.hosts[f.host].active && s.hosts[f.host].epoch == f.hostEpoch
    && var l := s.leases[f.lease];
       !l.released && l.expires > now && l.mode == mode && Matches(l, f)
  }

  /** `_attachment_is_current`. */
  predicate IsCurrent(s: Snapshot, f: Fence, now: Time) {
    && f.lease in s.leases
    && HasCurrentLease(s, f, now, s.leases[f.lease].mode)
    && f.connection in s.connections
    && var c := s.connections[f.connection];
       (c.status.ReadyNow? || c.status.Refreshing?) && c.epoch == f.epoch && c.version == f.version
  }

  /** `_same_connection_generation`. */
  predicate SameGeneration(a: Option<Connection>, b: Option<Connection>) {
    if a.None? || b.None? then a.None? && b.None?
    else
      && a.value.status == b.value.status && a.value.epoch == b.value.epoch && a.value.version == b.value.version
      && a.value.digest == b.value.digest
  }

  function Lookup(s: Snapshot, c: ConnectionId): Option<Connection> {
    if c in s.connections then Some(s.connections[c]) else None
  }

  function WithConnection(s: Snapshot, c: ConnectionId, connection: Connection): Snapshot {
    s.(connections := s.connections[c := connection])
  }

  function WithLease(s: Snapshot, i: LeaseId, lease: Lease): Snapshot { s.(leases := s.leases[i := lease]) }

  /** (authority epoch, state version) an authorization seals under. */
  function NextGeneration(seen: Option<Connection>): (nat, nat) {
    match seen case None => (1, 1) case Some(c) => (c.epoch + 1, c.version + 1)
  }

  function DoEnroll(s: Snapshot, host: HostId, now: Time): Snapshot {
    var r := Reconciled(s, now);
    var epoch := if host in r.hosts then r.hosts[host].epoch + 1 else 1;
    End(r.(hosts := r.hosts[host := Host(epoch, true)]), ActiveOn(r, now, host), "host_reenrolled")
  }

  function DoRemove(s: Snapshot, host: HostId, now: Time): Option<Snapshot> {
    var r := Reconciled(s, now);
    if host !in r.hosts || !r.hosts[host].active then None
    else Some(End(r.(hosts := r.hosts[host := Host(r.hosts[host].epoch + 1, false)]), ActiveOn(r, now, host),
                  "host_removed"))
  }

  function DoAuthorize(s: Snapshot, c: ConnectionId, account: string, seen: Option<Connection>, state: Ciphertext)
    : Option<Snapshot>
  {
    if !SameGeneration(Lookup(s, c), seen) then None
    else
      var (epoch, version) := NextGeneration(seen);
      Some(WithConnection(s, c, Connection(account, ReadyNow, epoch, version, Some(state), Some(DigestOf(state)))))
  }

  function DoMaterialize(s: Snapshot, op: OperationId, c: ConnectionId, host: HostId, mode: Mode, expires: Time,
                         now: Time)
    : Option<Snapshot>
  {
    var r := Reconciled(s, now);
    if host !in r.hosts || !r.hosts[host].active || c !in r.connections then None
    else if !r.connections[c].status.ReadyNow? || r.connections[c].state.None? then None
    else if mode.Refresh? && ActiveOf(r, now, c) != {} then None
    else
      var connection := r.connections[c];
      var lease := Lease(AttachmentOf(op), c, host, r.hosts[host].epoch, mode, connection.epoch, connection.version,
                         expires, false, false, None);
      var held := WithLease(r, LeaseOf(op), lease);
      Some(if mode.Refresh? then WithConnection(held, c, connection.(status := Refreshing)) else held)
  }

  function DoActivate(s: Snapshot, f: Fence, now: Time): Option<Snapshot> {
    if !HasCurrentLease(s, f, now, Refresh) then None
    else Some(WithLease(s, f.lease, s.leases[f.lease].(activated := true)))
  }

  function DoRenew(s: Snapshot, f: Fence, mode: Mode, ttl: Time, now: Time): Option<Snapshot> {
    if !HasCurrentLease(s, f, now, mode) then None
    else Some(WithLease(s, f.lease, s.leases[f.lease].(expires := now + ttl)))
  }

  function DoCheckpoint(s: Snapshot, f: Fence, state: Ciphertext, now: Time): Option<Snapshot> {
    if !HasCurrentLease(s, f, now, Refresh) || f.connection !in s.connections then None
    else
      var lease, current := s.leases[f.lease], s.connections[f.connection];
      if !lease.activated || current.epoch != f.epoch || current.version != f.version
          || !current.status.Refreshing? then
        None
      else
        Some(WithConnection(
          WithLease(s, f.lease, lease.(released := true, reason := Some("checkpointed"))), f.connection,
          current.(status := ReadyNow, version := f.version + 1, state := Some(state),
                   digest := Some(DigestOf(state)))))
  }

  function DoRelease(s: Snapshot, f: Fence, mode: Mode, now: Time): Option<Snapshot> {
    var r := Reconciled(s, now);
    if f.lease !in r.leases || !Matches(r.leases[f.lease], f) || r.leases[f.lease].mode != mode then None
    else if r.leases[f.lease].released then Some(r)
    else if !HasCurrentLease(r, f, now, mode) then None
    else Some(End(r, {f.lease}, "released"))
  }

  /** Replace a connection's authority and cancel everything it still had out. */
  function Supersede(s: Snapshot, c: ConnectionId, connection: Connection, reason: string): Snapshot {
    WithConnection(ReleaseLeases(s, Unsettled(s, c), reason), c, connection)
  }

  function DoRotate(s: Snapshot, c: ConnectionId, current: Connection, state: Ciphertext): Option<Snapshot> {
    if c !in s.connections || !SameGeneration(Some(s.connections[c]), Some(current)) then None
    else Some(Supersede(s, c, s.connections[c].(status := ReadyNow, epoch := current.epoch + 1,
                                                version := current.version + 1, state := Some(state),
                                                digest := Some(DigestOf(state))), "authority_rotated"))
  }

  function DoRevoke(s: Snapshot, c: ConnectionId): Option<Snapshot> {
    if c !in s.connections || s.connections[c].status.Revoked? || s.connections[c].status.ErasurePending? then None
    else Some(Supersede(s, c, s.connections[c].(status := Revoked, epoch := s.connections[c].epoch + 1),
                        "connection_revoked"))
  }

  function DoPrepare(s: Snapshot, c: ConnectionId): Option<Snapshot> {
    if c !in s.connections || !s.connections[c].status.Revoked? then None
    else Some(WithConnection(s, c, s.connections[c].(status := ErasurePending)))
  }

  function DoErase(s: Snapshot, c: ConnectionId): Option<Snapshot> {
    if c !in s.connections || !s.connections[c].status.ErasurePending? then None
    else Some(Supersede(s, c, s.connections[c].(status := ReauthorizationRequired,
                                                version := s.connections[c].version + 1, state := None, digest := None),
                        "connection_erased"))
  }

  function DoAbort(s: Snapshot, i: LeaseId): Snapshot {
    if i !in s.leases || s.leases[i].released then s else End(s, {i}, "materialization_failed")
  }

  function Transform(s: Snapshot, op: OperationId, request: Request, now: Time): Option<Snapshot> {
    match request
    case EnrollHost(host) => Some(DoEnroll(s, host, now))
    case RemoveHost(host) => DoRemove(s, host, now)
    case Authorize(c, account, seen, state) => DoAuthorize(s, c, account, seen, state)
    case Materialize(c, host, mode, expires) => DoMaterialize(s, op, c, host, mode, expires, now)
    case Activate(f) => DoActivate(s, f, now)
    case Renew(f, mode, ttl) => DoRenew(s, f, mode, ttl, now)
    case Checkpoint(f, state) => DoCheckpoint(s, f, state, now)
    case Release(f, mode) => DoRelease(s, f, mode, now)
    case Rotate(c, current, state) => DoRotate(s, c, current, state)
    case Revoke(c) => DoRevoke(s, c)
    case PrepareErasure(c) => DoPrepare(s, c)
    case FinishErasure(c) => DoErase(s, c)
    case Admit(f, _) => if IsCurrent(s, f, now) then Some(s) else None
    case Recover => Some(Reconciled(s, now))
    case Reconcile => Some(Reconciled(s, now))
    case AbortMaterialization(i) => Some(DoAbort(s, i))
  }

  predicate Published(s: Snapshot, op: OperationId) {
    exists i :: 0 <= i < |s.audit| && s.audit[i].operation == op
  }

  /** One attempt of `_commit`: the replacement snapshot it would swap in, or a refusal. */
  function Publish(s: Snapshot, op: OperationId, request: Request, now: Time): Option<Snapshot> {
    if Published(s, op) then None
    else match Transform(s, op, request, now)
      case None => None
      case Some(t) => Some(t.(revision := s.revision + 1, audit := t.audit + [Audit(|s.audit| + 1, op, request)]))
  }
}
