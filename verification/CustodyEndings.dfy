/**
  How custody ends: which leases every operation ends, and what that leaves of their
  connections.  A refresh that was activated and never checkpointed is ambiguous, so
  its connection loses its state and stays locked until it is authorized anew.
  */
module CustodyEndings {
  import opened Options
  import opened Custody
  import opened CustodySafety
  import opened CustodyRuns

  // ---- Which leases end ---------------------------------------------------

  /** A published operation ends the live lease `l`, held under `i`. */
  predicate Ends(request: Request, now: Time, i: LeaseId, l: Lease) {
    match request
    case EnrollHost(host) => l.expires <= now || l.host == host
    case RemoveHost(host) => l.expires <= now || l.host == host
    case Materialize(_, _, _, _) => l.expires <= now
    case Release(f, _) => l.expires <= now || i == f.lease
    case Recover => l.expires <= now
    case Reconcile => l.expires <= now
    case AbortMaterialization(j) => i == j
    case Checkpoint(f, _) => i == f.lease
    case Rotate(c, _, _) => l.connection == c
    case Revoke(c) => l.connection == c
    case FinishErasure(c) => l.connection == c
    case Authorize(_, _, _, _) => false
    case Activate(_) => false
    case Renew(_, _, _) => false
    case PrepareErasure(_) => false
    case Admit(_, _) => false
  }

  /** The reason that an ended lease carries. */
  function WhyEnded(request: Request, now: Time, l: Lease): string {
    match request
    case EnrollHost(_) => if l.expires <= now then "expired" else "host_reenrolled"
    case RemoveHost(_) => if l.expires <= now then "expired" else "host_removed"
    case Release(_, _) => if l.expires <= now then "expired" else "released"
    case AbortMaterialization(_) => "materialization_failed"
    case Checkpoint(_, _) => "checkpointed"
    case Rotate(_, _, _) => "authority_rotated"
    case Revoke(_) => "connection_revoked"
    case FinishErasure(_) => "connection_erased"
    case _ => "expired"
  }

  /** What a lease that stays becomes: activation and renewal change their own, nothing changes another. */
  function Afterwards(request: Request, now: Time, i: LeaseId, l: Lease): Lease {
    match request
    case Activate(f) => if i == f.lease then l.(activated := true) else l
    case Renew(f, _, ttl) => if i == f.lease then l.(expires := now + ttl) else l
    case _ => l
  }

  /**
    Exactly the leases that the request ends are live no more, each with its reason,
    and every other is what it was; only a materialization adds one, the request's.
    */
  ghost predicate Ended(s: Snapshot, op: OperationId, request: Request, now: Time, t: Snapshot) {
    && (forall i :: i in s.leases ==>
          && i in t.leases
          && t.leases[i] == if Live(s, i) && Ends(request, now, i, s.leases[i])
                            then s.leases[i].(released := true, reason := Some(WhyEnded(request, now, s.leases[i])))
                            else Afterwards(request, now, i, s.leases[i]))
    && (forall i :: i in t.leases && i !in s.leases ==> request.Materialize? && i == LeaseOf(op))
  }

  /** Ending some leases leaves every lease but those as it was. */
  lemma EndsThose(s: Snapshot, which: set<LeaseId>, reason: string)
    ensures var t := End(s, which, reason);
            && t.leases.Keys == s.leases.Keys && t.hosts == s.hosts
            && (forall i :: Live(t, i) <==> Live(s, i) && i !in which)
            && (forall i :: i in s.leases && i !in which ==> t.leases[i] == s.leases[i])
            && (forall i :: i in s.leases && i in which ==>
                  t.leases[i] == s.leases[i].(released := true, reason := Some(reason)))
  {
    EndShape(s, which, reason);
    hide End;
    hide SettleOne;
    hide HeldRefresh;
    hide Ambiguous;
  }

  /** Two endings one after the other, of different leases. */
  lemma EndsBoth(s: Snapshot, first: set<LeaseId>, then_: set<LeaseId>, a: string, b: string, i: LeaseId)
    requires i in s.leases && !(i in first && i in then_)
    ensures var t := End(End(s, first, a), then_, b);
            && i in t.leases
            && t.leases[i] == if i in first then s.leases[i].(released := true, reason := Some(a))
                              else if i in then_ then s.leases[i].(released := true, reason := Some(b))
                              else s.leases[i]
  {
    hide End;
    EndsThose(s, first, a);
    EndsThose(End(s, first, a), then_, b);
  }

  function HostReason(request: Request): string {
    if request.EnrollHost? then "host_reenrolled" else "host_removed"
  }

  /** Enrolling and removing first end what expired, then what the host still holds. */
  lemma HostLeases(s: Snapshot, op: OperationId, request: Request, now: Time)
    requires request.EnrollHost? || request.RemoveHost?
    requires Transform(s, op, request, now).Some?
    ensures var r := Reconciled(s, now);
            Transform(s, op, request, now).value.leases
            == End(r, ActiveOn(r, now, request.host), HostReason(request)).leases
  {
    hide End;
    var r, host := Reconciled(s, now), request.host;
    var epoch := if host in r.hosts then r.hosts[host].epoch + 1 else 1;
    HostsDoNotMatter(r, r.hosts[host := Host(epoch, request.EnrollHost?)], ActiveOn(r, now, host),
                     HostReason(request));
  }

  lemma HostEndsOne(s: Snapshot, request: Request, now: Time, i: LeaseId)
    requires (request.EnrollHost? || request.RemoveHost?) && i in s.leases
    ensures var r := Reconciled(s, now);
            var t := End(r, ActiveOn(r, now, request.host), HostReason(request));
            && i in t.leases
            && t.leases[i] == if Live(s, i) && Ends(request, now, i, s.leases[i])
                              then s.leases[i].(released := true, reason := Some(WhyEnded(request, now, s.leases[i])))
                              else s.leases[i]
  {
    hide End;
    var r := Reconciled(s, now);
    EndsThose(s, Expired(s, now), "expired");
    EndsBoth(s, Expired(s, now), ActiveOn(r, now, request.host), "expired", HostReason(request), i);
  }

  lemma HostEnds(s: Snapshot, op: OperationId, request: Request, now: Time)
    requires request.EnrollHost? || request.RemoveHost?
    requires Transform(s, op, request, now).Some?
    ensures Ended(s, op, request, now, Transform(s, op, request, now).value)
  {
    hide Transform;
    hide End;
    hide ActiveOn;
    HostLeases(s, op, request, now);
    var r := Reconciled(s, now);
    EndsThose(s, Expired(s, now), "expired");
    EndsThose(r, ActiveOn(r, now, request.host), HostReason(request));
    hide Expired;
    forall i | i in s.leases
      ensures var t := End(r, ActiveOn(r, now, request.host), HostReason(request));
              && i in t.leases
              && t.leases[i] == if Live(s, i) && Ends(request, now, i, s.leases[i])
                                then s.leases[i].(released := true,
                                                  reason := Some(WhyEnded(request, now, s.leases[i])))
                                else s.leases[i]
    {
      HostEndsOne(s, request, now, i);
    }
  }

  /** What a request that ends `which`, and nothing else, makes of every lease. */
  lemma EndsAlone(s: Snapshot, op: OperationId, request: Request, now: Time, which: set<LeaseId>, reason: string)
    requires !request.Activate? && !request.Renew? && !request.Materialize?
    requires forall i :: i in s.leases ==> (i in which <==> Live(s, i) && Ends(request, now, i, s.leases[i]))
    requires forall i :: i in which && i in s.leases ==> WhyEnded(request, now, s.leases[i]) == reason
    ensures Ended(s, op, request, now, End(s, which, reason))
  {
    hide End, Ends, WhyEnded;
    EndsThose(s, which, reason);
  }

  lemma ReleaseEndsOne(s: Snapshot, request: Request, now: Time, i: LeaseId)
    requires request.Release? && i in s.leases
    ensures var t := End(Reconciled(s, now), {request.fence.lease}, "released");
            Live(Reconciled(s, now), request.fence.lease) ==>
              && i in t.leases
              && t.leases[i] == if Live(s, i) && Ends(request, now, i, s.leases[i])
                                then s.leases[i].(released := true,
                                                  reason := Some(WhyEnded(request, now, s.leases[i])))
                                else s.leases[i]
  {
    hide End;
    EndsThose(s, Expired(s, now), "expired");
    if Live(Reconciled(s, now), request.fence.lease) {
      EndsBoth(s, Expired(s, now), {request.fence.lease}, "expired", "released", i);
    }
  }

  lemma ReleaseEnds(s: Snapshot, op: OperationId, request: Request, now: Time)
    requires request.Release? && Transform(s, op, request, now).Some?
    ensures Ended(s, op, request, now, Transform(s, op, request, now).value)
  {
    hide End, HasCurrentLease, Matches;
    var r, f := Reconciled(s, now), request.fence.lease;
    EndsThose(s, Expired(s, now), "expired");
    if Live(r, f) {
      var t := End(r, {f}, "released");
      assert Transform(s, op, request, now) == Some(t);
      EndsThose(r, {f}, "released");
      hide Transform, Ends, WhyEnded, Expired;
      forall i | i in s.leases
        ensures && i in t.leases
                && t.leases[i] == if Live(s, i) && Ends(request, now, i, s.leases[i])
                                  then s.leases[i].(released := true,
                                                    reason := Some(WhyEnded(request, now, s.leases[i])))
                                  else s.leases[i]
      {
        ReleaseEndsOne(s, request, now, i);
      }
    } else {
      assert Transform(s, op, request, now) == Some(r);
      hide Transform;
      EndsAlone(s, op, request, now, Expired(s, now), "expired");
    }
  }

  lemma ReconcilingEnds(s: Snapshot, op: OperationId, request: Request, now: Time)
    requires request.Recover? || request.Reconcile? || request.AbortMaterialization?
    requires Transform(s, op, request, now).Some?
    ensures Ended(s, op, request, now, Transform(s, op, request, now).value)
  {
    hide End, Ended;
    if !request.AbortMaterialization? {
      EndsAlone(s, op, request, now, Expired(s, now), "expired");
    } else if Live(s, request.lease) {
      EndsAlone(s, op, request, now, {request.lease}, "materialization_failed");
    } else {
      assert Ended(s, op, request, now, s) by { NothingEnds(s, op, request, now); }
    }
  }

  lemma NothingEnds(s: Snapshot, op: OperationId, request: Request, now: Time)
    requires request.AbortMaterialization? && !Live(s, request.lease)
    ensures Ended(s, op, request, now, s)
  {
  }

  lemma MaterializeEnds(s: Snapshot, op: OperationId, request: Request, now: Time)
    requires request.Materialize? && Transform(s, op, request, now).Some? && LeaseOf(op) !in s.leases
    ensures Ended(s, op, request, now, Transform(s, op, request, now).value)
  {
    hide End;
    EndsThose(s, Expired(s, now), "expired");
  }

  /** Superseding a connection ends its live leases and no other. */
  lemma SupersedeEnds(s: Snapshot, op: OperationId, request: Request, now: Time)
    requires request.Rotate? || request.Revoke? || request.FinishErasure?
    requires Transform(s, op, request, now).Some?
    ensures Ended(s, op, request, now, Transform(s, op, request, now).value)
  {
    hide Supersede, SameGeneration;
    var t, c := Transform(s, op, request, now).value, request.connection;
    match request {
      case Rotate(_, current, state) =>
        SupersedeShape(s, c, s.connections[c].(status := ReadyNow, epoch := current.epoch + 1,
                                               version := current.version + 1, state := Some(state),
                                               digest := Some(DigestOf(state))), "authority_rotated");
      case Revoke(_) =>
        SupersedeShape(s, c, s.connections[c].(status := Revoked, epoch := s.connections[c].epoch + 1),
                       "connection_revoked");
      case FinishErasure(_) =>
        SupersedeShape(s, c, s.connections[c].(status := ReauthorizationRequired,
                                               version := s.connections[c].version + 1,
                                               state := None, digest := None), "connection_erased");
    }
  }

  lemma OtherEnds(s: Snapshot, op: OperationId, request: Request, now: Time)
    requires request.Authorize? || request.Activate? || request.Renew? || request.Checkpoint?
             || request.PrepareErasure? || request.Admit?
    requires Transform(s, op, request, now).Some?
    ensures Ended(s, op, request, now, Transform(s, op, request, now).value)
  {
    hide IsCurrent, SameGeneration, Matches;
  }

  /** Every operation ends exactly the leases that its kind says. */
  lemma TransformEnds(s: Snapshot, op: OperationId, request: Request, now: Time)
    requires Transform(s, op, request, now).Some? && LeaseOf(op) !in s.leases
    ensures Ended(s, op, request, now, Transform(s, op, request, now).value)
  {
    hide Transform;
    hide Ended;
    match request {
      case EnrollHost(_) => HostEnds(s, op, request, now);
      case RemoveHost(_) => HostEnds(s, op, request, now);
      case Release(_, _) => ReleaseEnds(s, op, request, now);
      case Recover => ReconcilingEnds(s, op, request, now);
      case Reconcile => ReconcilingEnds(s, op, request, now);
      case AbortMaterialization(_) => ReconcilingEnds(s, op, request, now);
      case Materialize(_, _, _, _) => MaterializeEnds(s, op, request, now);
      case Rotate(_, _, _) => SupersedeEnds(s, op, request, now);
      case Revoke(_) => SupersedeEnds(s, op, request, now);
      case FinishErasure(_) => SupersedeEnds(s, op, request, now);
      case _ => OtherEnds(s, op, request, now);
    }
  }

  // ---- What that leaves of a connection -----------------------------------

  /** `k'` is what an ended refresh leaves of `k`. */
  ghost predicate Interrupts(activated: bool, k: Connection, k': Connection) {
    if activated then
      && k'.status.ReauthorizationRequired? && k'.epoch == k.epoch + 1 && k'.state.None? && k'.digest.None?
      && k'.version == k.version && k'.account == k.account
    else
      k' == k.(status := ReadyNow)
  }

  /** The live refresh leases of `c` among `which`. */
  predicate Refreshes(s: Snapshot, which: set<LeaseId>, c: ConnectionId, i: LeaseId) {
    i in which && Live(s, i) && s.leases[i].connection == c && s.leases[i].mode.Refresh?
  }

  /** What ending `which` makes of `c`. */
  ghost predicate Leaves(s: Snapshot, which: set<LeaseId>, c: ConnectionId, k': Connection)
    requires c in s.connections
  {
    && (forall i :: Refreshes(s, which, c, i) ==> Interrupts(s.leases[i].activated, s.connections[c], k'))
    && ((forall i :: !Refreshes(s, which, c, i)) ==> k' == s.connections[c])
  }

  /** A live refresh is the only custody of its connection, and the connection is refreshing. */
  lemma RefreshHolds(s: Snapshot, which: set<LeaseId>, c: ConnectionId, i: LeaseId)
    requires Body(s) && (forall j :: j in which ==> Live(s, j)) && c in s.connections && Refreshes(s, which, c, i)
    ensures HeldRefresh(s, which, c) && s.connections[c].status.Refreshing?
    ensures Ambiguous(s, which, c) <==> s.leases[i].activated
    ensures forall j :: Refreshes(s, which, c, j) ==> j == i
  {
    assert forall j :: Live(s, j) && s.leases[j].connection == c ==> j == i;
  }

  lemma NoRefreshHeld(s: Snapshot, which: set<LeaseId>, c: ConnectionId)
    requires (forall j :: j in which ==> Live(s, j)) && forall i :: !Refreshes(s, which, c, i)
    ensures !HeldRefresh(s, which, c)
  {
    forall i | i in which && i in s.leases && s.leases[i].connection == c ensures !s.leases[i].mode.Refresh? {
      assert !Refreshes(s, which, c, i);
    }
  }

  lemma EndLeaves(s: Snapshot, which: set<LeaseId>, reason: string, c: ConnectionId)
    requires Body(s) && (forall i :: i in which ==> Live(s, i)) && c in s.connections
    ensures c in End(s, which, reason).connections
    ensures Leaves(s, which, c, End(s, which, reason).connections[c])
  {
    EndShape(s, which, reason);
    hide End, Body, HeldRefresh, Ambiguous, Refreshes;
    if i :| Refreshes(s, which, c, i) {
      RefreshHolds(s, which, c, i);
    } else {
      NoRefreshHeld(s, which, c);
    }
  }

  lemma RefreshIsAlone(s: Snapshot, which: set<LeaseId>, c: ConnectionId)
    requires Body(s)
    ensures forall i, j :: Refreshes(s, which, c, i) && Live(s, j) && s.leases[j].connection == c ==> j == i
  {
  }

  /** Ending first some leases and then others leaves what ending them together would. */
  lemma EndTwiceLeaves(s: Snapshot, first: set<LeaseId>, then_: set<LeaseId>, a: string, b: string, c: ConnectionId)
    requires Body(s) && c in s.connections && (forall i :: i in first ==> Live(s, i))
    requires forall i :: i in then_ ==> Live(End(s, first, a), i)
    ensures var t := End(End(s, first, a), then_, b);
            c in t.connections && Leaves(s, first + then_, c, t.connections[c])
  {
    hide End, Body, Interrupts;
    var r := End(s, first, a);
    EndKeeps(s, first, a);
    EndLeaves(s, first, a, c);
    EndLeaves(r, then_, b, c);
    RefreshesTwice(s, first, then_, a, c);
    hide Refreshes;
    if i :| Refreshes(s, first, c, i) {
      assert forall j :: !Refreshes(r, then_, c, j);
    }
  }

  /** A refresh ends at most once, and one that ends later is as it was. */
  lemma RefreshesTwice(s: Snapshot, first: set<LeaseId>, then_: set<LeaseId>, a: string, c: ConnectionId)
    requires Body(s) && (forall i :: i in first ==> Live(s, i))
    requires forall i :: i in then_ ==> Live(End(s, first, a), i)
    ensures var r := End(s, first, a);
            && (forall i :: Refreshes(s, first + then_, c, i)
                            <==> Refreshes(s, first, c, i) || Refreshes(r, then_, c, i))
            && (forall i :: Refreshes(r, then_, c, i) ==> i in s.leases && r.leases[i] == s.leases[i])
            && (forall i, j :: Refreshes(s, first, c, i) ==> !Refreshes(r, then_, c, j))
  {
    hide End;
    EndsThose(s, first, a);
    RefreshIsAlone(s, first, c);
    hide Body;
  }

  /** The operations that end custody without deciding on a connection themselves. */
  predicate Settling(request: Request) {
    || request.EnrollHost? || request.RemoveHost? || request.Release? || request.Recover? || request.Reconcile?
    || request.AbortMaterialization? || request.Materialize?
  }

  function EndedBy(s: Snapshot, request: Request, now: Time): set<LeaseId> {
    set i | i in s.leases && !s.leases[i].released && Ends(request, now, i, s.leases[i])
  }

  /** What a settling operation leaves of `c`, the connection that it materializes aside. */
  ghost predicate Settled(s: Snapshot, request: Request, now: Time, c: ConnectionId, t: Snapshot)
    requires c in s.connections
  {
    && c in t.connections
    && (request.Materialize? && request.connection == c ==>
          && t.connections[c].status == (if request.mode.Refresh? then Refreshing else ReadyNow)
          && Leaves(s, EndedBy(s, request, now), c, t.connections[c].(status := ReadyNow)))
    && (!(request.Materialize? && request.connection == c) ==>
          Leaves(s, EndedBy(s, request, now), c, t.connections[c]))
  }

  lemma HostSettles(s: Snapshot, op: OperationId, request: Request, now: Time, c: ConnectionId)
    requires Body(s) && c in s.connections && (request.EnrollHost? || request.RemoveHost?)
    requires Transform(s, op, request, now).Some?
    ensures Settled(s, request, now, c, Transform(s, op, request, now).value)
  {
    hide End;
    hide Body;
    hide Leaves;
    var r, host := Reconciled(s, now), request.host;
    var first, then_ := Expired(s, now), ActiveOn(r, now, host);
    EndsThose(s, first, "expired");
    var epoch := if host in r.hosts then r.hosts[host].epoch + 1 else 1;
    var reason := if request.EnrollHost? then "host_reenrolled" else "host_removed";
    EndTwiceLeaves(s, first, then_, "expired", reason, c);
    HostsDoNotMatter(r, r.hosts[host := Host(epoch, request.EnrollHost?)], then_, reason);
    assert EndedBy(s, request, now) == first + then_;
  }

  lemma ReleaseSettles(s: Snapshot, op: OperationId, request: Request, now: Time, c: ConnectionId)
    requires Body(s) && c in s.connections && request.Release? && Transform(s, op, request, now).Some?
    ensures Settled(s, request, now, c, Transform(s, op, request, now).value)
  {
    hide End;
    hide Body;
    hide Leaves;
    hide Matches;
    var r, i := Reconciled(s, now), request.fence.lease;
    var first := Expired(s, now);
    EndsThose(s, first, "expired");
    EndLeaves(s, first, "expired", c);
    if Live(r, i) {
      EndTwiceLeaves(s, first, {i}, "expired", "released", c);
      assert EndedBy(s, request, now) == first + {i};
    } else {
      assert EndedBy(s, request, now) == first;
    }
  }

  lemma ExpirySettles(s: Snapshot, op: OperationId, request: Request, now: Time, c: ConnectionId)
    requires Body(s) && c in s.connections && (request.Recover? || request.Reconcile? || request.Materialize?)
    requires Transform(s, op, request, now).Some?
    ensures Settled(s, request, now, c, Transform(s, op, request, now).value)
  {
    hide End;
    hide Body;
    hide ActiveOf;
    var first := Expired(s, now);
    EndLeaves(s, first, "expired", c);
    assert EndedBy(s, request, now) == first;
    hide Leaves;
    var r, t := Reconciled(s, now), Transform(s, op, request, now).value;
    if request.Materialize? && request.connection == c {
      assert t.connections[c].(status := ReadyNow) == r.connections[c];
    }
  }

  lemma AbortSettles(s: Snapshot, op: OperationId, request: Request, now: Time, c: ConnectionId)
    requires Body(s) && c in s.connections && request.AbortMaterialization?
    requires Transform(s, op, request, now).Some?
    ensures Settled(s, request, now, c, Transform(s, op, request, now).value)
  {
    hide End;
    hide Body;
    var i := request.lease;
    if Live(s, i) {
      EndLeaves(s, {i}, "materialization_failed", c);
      assert EndedBy(s, request, now) == {i};
    } else {
      assert EndedBy(s, request, now) == {};
    }
  }

  /**
    Every operation that ends a refresh without checkpointing it, by release, expiry,
    host or failed materialization: an activated one leaves its connection without
    state and to be authorized anew, any other leaves it ready and unchanged.
    */
  lemma TransformSettles(s: Snapshot, op: OperationId, request: Request, now: Time, c: ConnectionId)
    requires Body(s) && c in s.connections && Settling(request) && Transform(s, op, request, now).Some?
    ensures Settled(s, request, now, c, Transform(s, op, request, now).value)
  {
    hide Transform;
    hide Settled;
    hide Body;
    match request {
      case EnrollHost(_) => HostSettles(s, op, request, now, c);
      case RemoveHost(_) => HostSettles(s, op, request, now, c);
      case Release(_, _) => ReleaseSettles(s, op, request, now, c);
      case AbortMaterialization(_) => AbortSettles(s, op, request, now, c);
      case _ => ExpirySettles(s, op, request, now, c);
    }
  }

  // ---- Hosts --------------------------------------------------------------

  /** Enrolling and removing move a host's epoch on by one and nothing else touches any host. */
  ghost predicate HostsMoved(s: Snapshot, request: Request, t: Snapshot) {
    && (forall h :: h in s.hosts && request != EnrollHost(h) && request != RemoveHost(h) ==>
          h in t.hosts && t.hosts[h] == s.hosts[h])
    && (forall h :: h in t.hosts && h !in s.hosts ==> request == EnrollHost(h) && t.hosts[h] == Host(1, true))
    && (request.EnrollHost? && request.host in s.hosts ==>
          request.host in t.hosts && t.hosts[request.host] == Host(s.hosts[request.host].epoch + 1, true))
    && (request.RemoveHost? ==>
          && request.host in s.hosts && s.hosts[request.host].active && request.host in t.hosts
          && t.hosts[request.host] == Host(s.hosts[request.host].epoch + 1, false))
  }

  lemma OthersKeepHosts(s: Snapshot, op: OperationId, request: Request, now: Time)
    requires !request.EnrollHost? && !request.RemoveHost? && Transform(s, op, request, now).Some?
    ensures Transform(s, op, request, now).value.hosts == s.hosts
  {
    hide HasCurrentLease;
    hide IsCurrent;
    hide ActiveOf;
    hide Unsettled;
    hide Settle;
    hide Matches;
    forall u: Snapshot, which ensures Settle(u, which).hosts == u.hosts {
      SettleKeepsHosts(u, which);
    }
  }

  lemma SettleKeepsHosts(s: Snapshot, which: set<LeaseId>)
    ensures Settle(s, which).hosts == s.hosts
  {
  }

  lemma TransformMovesHosts(s: Snapshot, op: OperationId, request: Request, now: Time)
    requires Transform(s, op, request, now).Some?
    ensures HostsMoved(s, request, Transform(s, op, request, now).value)
  {
    if request.EnrollHost? || request.RemoveHost? {
      hide End;
      var r, host := Reconciled(s, now), request.host;
      EndsThose(s, Expired(s, now), "expired");
      var epoch := if host in r.hosts then r.hosts[host].epoch + 1 else 1;
      var u := r.(hosts := r.hosts[host := Host(epoch, request.EnrollHost?)]);
      var reason := if request.EnrollHost? then "host_reenrolled" else "host_removed";
      EndsThose(u, ActiveOn(r, now, host), reason);
    } else {
      OthersKeepHosts(s, op, request, now);
      hide Transform;
    }
  }

  /** A removed host is granted nothing, until it is enrolled again. */
  lemma RemovedIsRefused(s: Snapshot, op: OperationId, c: ConnectionId, host: HostId, mode: Mode, expires: Time,
                         now: Time)
    requires host in s.hosts ==> !s.hosts[host].active
    ensures Transform(s, op, Materialize(c, host, mode, expires), now).None?
  {
    EndsThose(s, Expired(s, now), "expired");
    hide End;
  }

  // ---- Locked until authorized --------------------------------------------

  /** Nothing but an authorization makes a connection usable that is not. */
  lemma StaysLocked(s: Snapshot, op: OperationId, request: Request, now: Time, c: ConnectionId)
    requires Body(s) && Lawful(request) && Transform(s, op, request, now).Some?
    requires c in s.connections && !Usable(s.connections[c]) && !(request.Authorize? && request.connection == c)
    ensures var t := Transform(s, op, request, now).value; c in t.connections && !Usable(t.connections[c])
  {
    if Settling(request) {
      hide Transform, Body;
      TransformSettles(s, op, request, now, c);
      NoCustody(s, EndedBy(s, request, now), c);
      hide Refreshes, EndedBy;
    } else {
      hide End, Body, IsCurrent, HasCurrentLease, ReleaseLeases;
      forall u: Snapshot, which, reason ensures ReleaseLeases(u, which, reason).connections == u.connections {
        ReleasesNoConnection(u, which, reason);
      }
    }
  }

  lemma ReleasesNoConnection(s: Snapshot, which: set<LeaseId>, reason: string)
    ensures ReleaseLeases(s, which, reason).connections == s.connections
  {
  }

  /** A connection that is not usable is not held. */
  lemma NoCustody(s: Snapshot, which: set<LeaseId>, c: ConnectionId)
    requires Body(s) && c in s.connections && !Usable(s.connections[c])
    ensures forall i :: !Refreshes(s, which, c, i)
  {
    assert forall i :: Live(s, i) && s.leases[i].connection == c ==> Usable(s.connections[c]);
  }

  /** A locked connection is not materialized, for any host, mode or clock. */
  lemma LockedIsRefused(s: Snapshot, op: OperationId, c: ConnectionId, host: HostId, mode: Mode, expires: Time,
                        now: Time)
    requires Body(s) && (c in s.connections ==> !Usable(s.connections[c]))
    ensures Transform(s, op, Materialize(c, host, mode, expires), now).None?
  {
    hide End, Body, ActiveOf;
    EndsNoConnection(s, Expired(s, now), "expired");
    if c in s.connections {
      EndLeaves(s, Expired(s, now), "expired", c);
      NoCustody(s, Expired(s, now), c);
    }
    hide Refreshes, Expired;
  }

  lemma EndsNoConnection(s: Snapshot, which: set<LeaseId>, reason: string)
    ensures End(s, which, reason).connections.Keys == s.connections.Keys
  {
    EndShape(s, which, reason);
    hide End;
  }

  /** A publication that does not authorize it leaves a locked connection locked. */
  lemma PublicationLocks(s: Snapshot, t: Snapshot, c: ConnectionId)
    requires Inv(s) && IsPublication(s, t) && c in s.connections && !Usable(s.connections[c])
    requires var request := t.audit[|t.audit| - 1].request; !(request.Authorize? && request.connection == c)
    ensures c in t.connections && !Usable(t.connections[c])
  {
    hide Publish;
    hide Lawful;
    hide Body;
    var record := t.audit[|t.audit| - 1];
    var now :| Publish(s, record.operation, record.request, now) == Some(t);
    PublishShape(s, record.operation, record.request, now);
    StaysLocked(s, record.operation, record.request, now, c);
    hide Transform;
  }

  /** Some authorization of `c` is among the publications after `i` up to `j`. */
  ghost predicate Authorized(log: seq<Snapshot>, i: nat, j: nat, c: ConnectionId)
    requires i <= j < |log|
  {
    exists k :: i < k <= j && log[k].audit != []
                && log[k].audit[|log[k].audit| - 1].request.Authorize?
                && log[k].audit[|log[k].audit| - 1].request.connection == c
  }

  lemma {:induction false} LogLocks(log: seq<Snapshot>, i: nat, j: nat, c: ConnectionId)
    requires LinkedLog(log) && i <= j < |log| && c in log[i].connections && !Usable(log[i].connections[c])
    requires !Authorized(log, i, j, c)
    ensures c in log[j].connections && !Usable(log[j].connections[c])
    decreases j
  {
    hide Inv;
    hide LinkedLog;
    hide IsPublication;
    if i < j {
      LogLocks(log, i, j - 1, c);
      LinkedAt(log, j);
      PublicationLocks(log[j - 1], log[j], c);
    }
  }

  lemma LinkedAt(log: seq<Snapshot>, j: nat)
    requires LinkedLog(log) && 0 < j < |log|
    ensures Inv(log[j - 1]) && IsPublication(log[j - 1], log[j]) && log[j].audit != []
  {
    hide Inv;
    hide Publish;
    hide Advances;
    hide SameAccounts;
    assert IsPublication(log[j - 1], log[j]);
  }

  /**
    Over every run: a connection that is not usable in a stored snapshot, an ambiguous
    refresh among them, is usable and materialized again only after an authorization
    of it was published.
    */
  lemma LockedUntilAuthorized(moves: seq<Move>, i: nat, j: nat, c: ConnectionId)
    requires Proper(Start(), moves) && i <= j < |Run(Start(), moves).log|
    requires var s := Run(Start(), moves).log[i]; c in s.connections && !Usable(s.connections[c])
    ensures var log := Run(Start(), moves).log; var s := log[j];
            !Authorized(log, i, j, c) ==>
              && c in s.connections && !Usable(s.connections[c])
              && forall op, host, mode, expires, now :: Publish(s, op, Materialize(c, host, mode, expires), now).None?
  {
    StartInv();
    RunKeeps(Start(), moves);
    var log := Run(Start(), moves).log;
    hide Run;
    assert Inv(log[j]);
    hide LinkedLog;
    if !Authorized(log, i, j, c) {
      LogLocks(log, i, j, c);
      hide Transform;
      forall op, host, mode, expires, now
        ensures Publish(log[j], op, Materialize(c, host, mode, expires), now).None?
      {
        LockedIsRefused(log[j], op, c, host, mode, expires, now);
      }
    }
  }
}
