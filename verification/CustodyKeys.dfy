/**
  Connection keys beside custody.  `erase` erases the connection's key between its
  two commits, outside every fence: whatever was sealed for the connection before
  can then not be opened any more.  This says exactly when what `materialize` opens
  can still be opened.
  */
module CustodyKeys {
  import opened Options
  import opened Custody
  import opened CustodySafety
  import opened CustodyRuns

  type Keys = map<ConnectionId, nat>

  /** How often the connection's key was erased: the key that now seals and opens. */
  function KeyOf(keys: Keys, c: ConnectionId): nat { if c in keys then keys[c] else 0 }

  /** `erasers` are the erasures that have seen their connection pending and not yet erased its key. */
  datatype Vault = Vault(system: System, keys: Keys, erasers: map<nat, ConnectionId>)

  datatype Step =
    | Commits(move: Move)
    | StartsErasing(eraser: nat, connection: ConnectionId)
    | ErasesKey(eraser: nat)

  function After(v: Vault, step: Step): Vault
    requires v.system.log != []
  {
    match step
    case Commits(move) => v.(system := Next(v.system, move))
    case StartsErasing(e, c) =>
      var now := Current(v.system);
      if c in now.connections && now.connections[c].status.ErasurePending? then v.(erasers := v.erasers[e := c]) else v
    case ErasesKey(e) =>
      if e !in v.erasers then v
      else v.(keys := v.keys[v.erasers[e] := KeyOf(v.keys, v.erasers[e]) + 1], erasers := v.erasers - {e})
  }

  /** The newly sealed state that a request publishes. */
  datatype Parcel = Parcel(connection: ConnectionId, state: Ciphertext)

  function Carries(request: Request): Option<Parcel> {
    match request
    case Authorize(c, _, _, state) => Some(Parcel(c, state))
    case Rotate(c, _, state) => Some(Parcel(c, state))
    case Checkpoint(f, state) => Some(Parcel(f.connection, state))
    case _ => None
  }

  /** What an operation does when it begins: it seals with the key of the moment. */
  ghost predicate Seals(v: Vault, step: Step)
    requires v.system.log != []
  {
    step.Commits? && step.move.Begin? ==>
      && Lawful(step.move.request) && Captured(v.system.log, step.move.request)
      && (Carries(step.move.request).Some? ==>
            var p := Carries(step.move.request).value; p.state.key == KeyOf(v.keys, p.connection))
  }

  /** An erasure comes to hold a key only by finding its connection awaiting erasure, and a key changes only by it. */
  lemma ErasesOnlyPending(v: Vault, step: Step, e: nat)
    requires v.system.log != []
    ensures var v' := After(v, step);
            && (e in v'.erasers && (e !in v.erasers || v'.erasers[e] != v.erasers[e]) ==>
                  && step == StartsErasing(e, v'.erasers[e]) && v'.erasers[e] in Current(v.system).connections
                  && Current(v.system).connections[v'.erasers[e]].status.ErasurePending?)
            && (forall c :: KeyOf(v'.keys, c) != KeyOf(v.keys, c) ==>
                  && step.ErasesKey? && step.eraser in v.erasers && v.erasers[step.eraser] == c
                  && step.eraser !in v'.erasers)
  {
    hide Next;
  }

  // ---- Where a usable connection's state comes from -----------------------

  ghost predicate Inherits(s: Snapshot, t: Snapshot, c: ConnectionId)
    requires c in t.connections
  {
    c in s.connections && Usable(s.connections[c]) && t.connections[c].state == s.connections[c].state
  }

  ghost predicate Descends(s: Snapshot, t: Snapshot) {
    forall c :: c in t.connections && Usable(t.connections[c]) ==> Inherits(s, t, c)
  }

  lemma EndDescends(s: Snapshot, which: set<LeaseId>, reason: string)
    ensures Descends(s, End(s, which, reason))
  {
    EndShape(s, which, reason);
    hide End;
  }

  lemma DescendsTwice(s: Snapshot, r: Snapshot, t: Snapshot)
    requires Descends(s, r) && Descends(r, t)
    ensures Descends(s, t)
  {
    forall c | c in t.connections && Usable(t.connections[c]) ensures Inherits(s, t, c) {
      assert Inherits(r, t, c) && Inherits(s, r, c);
    }
  }

  ghost predicate Origin(s: Snapshot, request: Request, t: Snapshot, c: ConnectionId)
    requires c in t.connections
  {
    Inherits(s, t, c)
    || (t.connections[c].state.Some? && Carries(request) == Some(Parcel(c, t.connections[c].state.value)))
  }

  ghost predicate Origins(s: Snapshot, request: Request, t: Snapshot) {
    forall c :: c in t.connections && Usable(t.connections[c]) ==> Origin(s, request, t, c)
  }

  lemma DescendsIsOrigin(s: Snapshot, request: Request, t: Snapshot)
    requires Descends(s, t)
    ensures Origins(s, request, t)
  {
  }

  lemma HostOrigins(s: Snapshot, op: OperationId, request: Request, now: Time)
    requires request.EnrollHost? || request.RemoveHost?
    requires Transform(s, op, request, now).Some?
    ensures Origins(s, request, Transform(s, op, request, now).value)
  {
    hide End;
    hide Descends;
    hide Origins;
    var r, host := Reconciled(s, now), request.host;
    EndDescends(s, Expired(s, now), "expired");
    var epoch := if host in r.hosts then r.hosts[host].epoch + 1 else 1;
    var u := r.(hosts := r.hosts[host := Host(epoch, request.EnrollHost?)]);
    var reason := if request.EnrollHost? then "host_reenrolled" else "host_removed";
    EndDescends(u, ActiveOn(r, now, host), reason);
    SameConnections(r, u);
    DescendsTwice(r, u, End(u, ActiveOn(r, now, host), reason));
    DescendsTwice(s, r, End(u, ActiveOn(r, now, host), reason));
    DescendsIsOrigin(s, request, End(u, ActiveOn(r, now, host), reason));
  }

  lemma SameConnections(s: Snapshot, t: Snapshot)
    requires t.connections == s.connections
    ensures Descends(s, t)
  {
  }

  lemma EndingOrigins(s: Snapshot, op: OperationId, request: Request, now: Time)
    requires request.Release? || request.Recover? || request.Reconcile? || request.AbortMaterialization?
    requires Transform(s, op, request, now).Some?
    ensures Origins(s, request, Transform(s, op, request, now).value)
  {
    hide End;
    hide Descends;
    hide Origins;
    var r, t := Reconciled(s, now), Transform(s, op, request, now).value;
    EndDescends(s, Expired(s, now), "expired");
    SameConnections(s, s);
    match request {
      case Release(f, _) =>
        EndDescends(r, {f.lease}, "released");
        SameConnections(r, r);
        DescendsTwice(s, r, t);
      case AbortMaterialization(i) => EndDescends(s, {i}, "materialization_failed");
      case _ =>
    }
    DescendsIsOrigin(s, request, t);
  }

  lemma MaterializeOrigins(s: Snapshot, op: OperationId, request: Request, now: Time)
    requires request.Materialize? && Transform(s, op, request, now).Some?
    ensures Origins(s, request, Transform(s, op, request, now).value)
  {
    hide End;
    var r, t := Reconciled(s, now), Transform(s, op, request, now).value;
    EndDescends(s, Expired(s, now), "expired");
    assert Descends(r, t);
    DescendsTwice(s, r, t);
    DescendsIsOrigin(s, request, t);
  }

  lemma OtherOrigins(s: Snapshot, op: OperationId, request: Request, now: Time)
    requires request.Authorize? || request.Rotate? || request.Revoke? || request.PrepareErasure?
             || request.FinishErasure?
             || request.Activate? || request.Renew? || request.Checkpoint? || request.Admit?
    requires Transform(s, op, request, now).Some?
    ensures Origins(s, request, Transform(s, op, request, now).value)
  {
    hide HasCurrentLease;
    hide IsCurrent;
  }

  /** Whatever a usable connection holds after an operation it held before, usable, or the operation carried it. */
  lemma TransformOrigins(s: Snapshot, op: OperationId, request: Request, now: Time)
    requires Transform(s, op, request, now).Some?
    ensures Origins(s, request, Transform(s, op, request, now).value)
  {
    hide Transform;
    hide Origins;
    match request {
      case EnrollHost(_) => HostOrigins(s, op, request, now);
      case RemoveHost(_) => HostOrigins(s, op, request, now);
      case Release(_, _) => EndingOrigins(s, op, request, now);
      case Recover => EndingOrigins(s, op, request, now);
      case Reconcile => EndingOrigins(s, op, request, now);
      case AbortMaterialization(_) => EndingOrigins(s, op, request, now);
      case Materialize(_, _, _, _) => MaterializeOrigins(s, op, request, now);
      case _ => OtherOrigins(s, op, request, now);
    }
  }

  lemma PublishOrigins(s: Snapshot, op: OperationId, request: Request, now: Time)
    requires Publish(s, op, request, now).Some?
    ensures Origins(s, request, Publish(s, op, request, now).value)
  {
    hide Transform;
    hide Publish;
    PublishShape(s, op, request, now);
    TransformOrigins(s, op, request, now);
    var u, t := Transform(s, op, request, now).value, Publish(s, op, request, now).value;
    forall c | c in t.connections && Usable(t.connections[c]) ensures Origin(s, request, t, c) {
      assert Origin(s, request, u, c);
    }
  }

  // ---- What can be opened -------------------------------------------------

  /** Every usable connection's state is sealed with the connection's present key. */
  ghost predicate Openable(s: Snapshot, keys: Keys) {
    forall c :: c in s.connections && Usable(s.connections[c]) ==>
      s.connections[c].state.Some? && s.connections[c].state.value.key == KeyOf(keys, c)
  }

  /** So is everything that commits in progress are about to publish. */
  ghost predicate ParcelFresh(keys: Keys, actor: Actor) {
    actor.Committing? && Carries(actor.request).Some? ==>
      var p := Carries(actor.request).value; p.state.key == KeyOf(keys, p.connection)
  }

  ghost predicate Fresh(y: System, keys: Keys) { forall a :: a in y.actors ==> ParcelFresh(keys, y.actors[a]) }

  ghost predicate Safe(v: Vault) {
    SystemInv(v.system) && Openable(Current(v.system), v.keys) && Fresh(v.system, v.keys)
  }

  /** Nothing usable, and nothing about to be published, is sealed for the connection. */
  ghost predicate Unused(v: Vault, c: ConnectionId)
    requires v.system.log != []
  {
    && !(c in Current(v.system).connections && Usable(Current(v.system).connections[c]))
    && forall a :: && a in v.system.actors && v.system.actors[a].Committing?
                   && Carries(v.system.actors[a].request).Some? ==>
         Carries(v.system.actors[a].request).value.connection != c
  }

  lemma PublicationOpens(s: Snapshot, op: OperationId, request: Request, now: Time, keys: Keys)
    requires Openable(s, keys) && Publish(s, op, request, now).Some?
    requires Carries(request).Some? ==> var p := Carries(request).value; p.state.key == KeyOf(keys, p.connection)
    ensures Openable(Publish(s, op, request, now).value, keys)
  {
    hide Publish;
    PublishOrigins(s, op, request, now);
    var t := Publish(s, op, request, now).value;
    forall c | c in t.connections && Usable(t.connections[c])
      ensures t.connections[c].state.Some? && t.connections[c].state.value.key == KeyOf(keys, c)
    {
      assert Origin(s, request, t, c);
    }
  }

  /** What the custody system changes of itself: one actor, and at most one more snapshot. */
  lemma MoveTouches(y: System, move: Move)
    requires y.log != []
    ensures var y' := Next(y, move); var a := move.actor;
            && (forall b :: b in y'.actors && b != a ==> b in y.actors && y'.actors[b] == y.actors[b])
            && (a in y'.actors && y'.actors[a].Committing? && !move.Begin? ==>
                  ActorOf(y, a).Committing? && y'.actors[a].request == ActorOf(y, a).request)
            && (a in y'.actors && y'.actors[a].Committing? && move.Begin? ==>
                  y'.actors[a] == ActorOf(y, a) || y'.actors[a].request == move.request)
            && (y'.log == y.log
                || (move.Swap? && ActorOf(y, a).Committing? && ActorOf(y, a).loaded.Some?
                    && var actor := ActorOf(y, a);
                       && actor.loaded.value.revision == Current(y).revision
                       && Publish(actor.loaded.value, actor.operation, actor.request, move.now).Some?
                       && y'.log == y.log
                                    + [Publish(actor.loaded.value, actor.operation, actor.request, move.now).value]))
  {
    hide Publish;
  }

  lemma MoveKeepsFresh(v: Vault, move: Move)
    requires v.system.log != [] && Fresh(v.system, v.keys) && Seals(v, Commits(move))
    ensures Fresh(Next(v.system, move), v.keys)
  {
    hide Lawful;
    hide Captured;
    var y, y', a := v.system, Next(v.system, move), move.actor;
    MoveTouches(y, move);
    hide Next;
    hide Carries;
    hide KeyOf;
    forall b | b in y'.actors ensures ParcelFresh(v.keys, y'.actors[b]) {
      if b != a {
        assert ParcelFresh(v.keys, y.actors[b]);
      } else if a in y.actors {
        assert ParcelFresh(v.keys, y.actors[a]);
      }
    }
  }

  lemma MoveKeepsOpenable(v: Vault, move: Move)
    requires Safe(v)
    ensures Next(v.system, move).log != [] && Openable(Current(Next(v.system, move)), v.keys)
  {
    hide Openable;
    hide Publish;
    var y, y', a := v.system, Next(v.system, move), move.actor;
    MoveTouches(y, move);
    hide Next;
    if y'.log != y.log {
      var actor := ActorOf(y, a);
      SwapIsAtomic(y, a);
      assert ParcelFresh(v.keys, y.actors[a]);
      PublicationOpens(Current(y), actor.operation, actor.request, move.now, v.keys);
    }
  }

  lemma CommitStaysSafe(v: Vault, move: Move)
    requires Safe(v) && Seals(v, Commits(move))
    ensures Safe(After(v, Commits(move)))
  {
    NextKeeps(v.system, move);
    MoveKeepsFresh(v, move);
    MoveKeepsOpenable(v, move);
    hide SystemInv;
    hide Openable;
    hide Fresh;
    hide Next;
  }

  lemma ErasureStaysSafe(v: Vault, e: nat)
    requires Safe(v) && e in v.erasers
    ensures Safe(After(v, ErasesKey(e))) <==> Unused(v, v.erasers[e])
  {
    var c, v' := v.erasers[e], After(v, ErasesKey(e));
    hide SystemInv;
    assert forall d :: KeyOf(v'.keys, d) == if d == c then KeyOf(v.keys, c) + 1 else KeyOf(v.keys, d);
    hide KeyOf;
    if Unused(v, c) {
      forall a | a in v.system.actors ensures ParcelFresh(v'.keys, v.system.actors[a]) {
        assert ParcelFresh(v.keys, v.system.actors[a]);
      }
    }
    if Safe(v') {
      forall a | a in v.system.actors && v.system.actors[a].Committing? && Carries(v.system.actors[a].request).Some?
        ensures Carries(v.system.actors[a].request).value.connection != c
      {
        assert ParcelFresh(v.keys, v.system.actors[a]) && ParcelFresh(v'.keys, v.system.actors[a]);
      }
    }
  }

  /** Only erasing a key can do harm, and it does none exactly when the connection is unused at that moment. */
  lemma StaysSafe(v: Vault, step: Step)
    requires Safe(v) && Seals(v, step)
    ensures Safe(After(v, step)) <==>
              (step.ErasesKey? && step.eraser in v.erasers ==> Unused(v, v.erasers[step.eraser]))
  {
    match step {
      case Commits(move) => CommitStaysSafe(v, move);
      case StartsErasing(_, _) =>
      case ErasesKey(e) =>
        if e in v.erasers {
          ErasureStaysSafe(v, e);
        }
    }
    hide Safe;
    hide Unused;
  }

  // ---- Whole runs ---------------------------------------------------------

  function RunVault(v: Vault, steps: seq<Step>): Vault
    requires v.system.log != []
    decreases steps
  {
    if steps == [] then v
    else
      AfterKeepsLog(v, steps[0]);
      RunVault(After(v, steps[0]), steps[1..])
  }

  lemma AfterKeepsLog(v: Vault, step: Step)
    requires v.system.log != []
    ensures After(v, step).system.log != []
  {
    if step.Commits? {
      NextKeepsLog(v.system, step.move);
    }
    hide Next;
  }

  ghost predicate AllSeal(v: Vault, steps: seq<Step>)
    requires v.system.log != []
    decreases steps
  {
    steps == [] || (Seals(v, steps[0]) && (AfterKeepsLog(v, steps[0]); AllSeal(After(v, steps[0]), steps[1..])))
  }

  /** Every key is erased at a moment when its connection is unused. */
  ghost predicate ErasesUnused(v: Vault, steps: seq<Step>)
    requires v.system.log != []
    decreases steps
  {
    steps == []
    || (&& (steps[0].ErasesKey? && steps[0].eraser in v.erasers ==> Unused(v, v.erasers[steps[0].eraser]))
        && (AfterKeepsLog(v, steps[0]); ErasesUnused(After(v, steps[0]), steps[1..])))
  }

  ghost predicate AlwaysSafe(v: Vault, steps: seq<Step>)
    requires v.system.log != []
    decreases steps
  {
    Safe(v) && (steps == [] || (AfterKeepsLog(v, steps[0]); AlwaysSafe(After(v, steps[0]), steps[1..])))
  }

  /**
    Over every run: everything usable or under way can be opened
    throughout if and only if keys are erased only unused.
    */
  lemma {:induction false} SafeThroughout(v: Vault, steps: seq<Step>)
    requires Safe(v) && AllSeal(v, steps)
    ensures AlwaysSafe(v, steps) <==> ErasesUnused(v, steps)
    decreases steps
  {
    hide Safe;
    hide Seals;
    hide Unused;
    SafeHasLog(v);
    if steps == [] {
    } else {
      StaysSafe(v, steps[0]);
      AfterKeepsLog(v, steps[0]);
      var v1 := After(v, steps[0]);
      hide After;
      if Safe(v1) {
        SafeThroughout(v1, steps[1..]);
      }
    }
  }

  lemma SafeHasLog(v: Vault)
    requires Safe(v)
    ensures v.system.log != []
  {
  }

  lemma StartIsSafe()
    ensures Safe(Vault(Start(), map[], map[]))
  {
    StartInv();
    hide SystemInv;
  }

  /** What `materialize` opens in a safe state is sealed under its own context and with the key that is still there. */
  lemma MaterializeStillOpens(v: Vault, op: OperationId, c: ConnectionId, host: HostId, mode: Mode, expires: Time,
                              now: Time)
    requires Safe(v) && DoMaterialize(Current(v.system), op, c, host, mode, expires, now).Some?
    ensures var r := Reconciled(Current(v.system), now);
            && c in r.connections && r.connections[c].state.Some?
            && r.connections[c].state.value.context == KeyContext(c, r.connections[c].epoch, r.connections[c].version)
            && r.connections[c].state.value.key == KeyOf(v.keys, c)
  {
    var s := Current(v.system);
    LogEnd(v.system.log);
    hide SystemInv;
    MaterializeOpens(s, op, c, host, mode, expires, now);
    EndDescends(s, Expired(s, now), "expired");
    hide End;
    assert Inherits(s, Reconciled(s, now), c);
  }

  // ---- An erasure that comes too late -------------------------------------

  /** Nothing else takes an erasure's turn away: it may erase the key whatever happened to the connection since. */
  lemma EraserStaysArmed(v: Vault, step: Step, e: nat)
    requires v.system.log != [] && e in v.erasers
    requires step != ErasesKey(e) && (step.StartsErasing? ==> step.eraser != e)
    ensures e in After(v, step).erasers && After(v, step).erasers[e] == v.erasers[e]
  {
    hide Next;
  }

  /** A usable connection whose key a late erasure takes keeps being granted, and cannot be opened. */
  lemma LateErasureBreaks(v: Vault, e: nat)
    requires Safe(v) && e in v.erasers
    requires var s := Current(v.system); v.erasers[e] in s.connections && Usable(s.connections[v.erasers[e]])
    ensures var c, v' := v.erasers[e], After(v, ErasesKey(e));
            && v'.system == v.system && !Safe(v')
            && Current(v'.system).connections[c].state.Some?
            && Current(v'.system).connections[c].state.value.key != KeyOf(v'.keys, c)
  {
    ErasureStaysSafe(v, e);
  }

  /** One commit that nobody disturbs. */
  function Alone(a: nat, op: OperationId, request: Request, now: Time): seq<Step> {
    [Commits(Begin(a, op, request)), Commits(Load(a)), Commits(Swap(a, now))]
  }

  lemma CommitsAlone(v: Vault, a: nat, op: OperationId, request: Request, now: Time)
    requires v.system.log != [] && !ActorOf(v.system, a).Committing?
    requires Publish(Current(v.system), op, request, now).Some?
    ensures var y := v.system;
            RunVault(v, Alone(a, op, request, now))
            == v.(system := System(y.log + [Publish(Current(y), op, request, now).value], y.actors[a := Idle]))
  {
    hide Publish;
    var y := v.system;
    var steps := Alone(a, op, request, now);
    assert steps[1..] == [Commits(Load(a)), Commits(Swap(a, now))];
    assert steps[1..][1..] == [Commits(Swap(a, now))];
    assert steps[1..][1..][1..] == [];
    var y1 := Next(y, Begin(a, op, request));
    assert y1 == System(y.log, y.actors[a := Committing(op, request, |y.log|, 0, None)]);
    var y2 := Next(y1, Load(a));
    assert y2 == System(y.log, y.actors[a := Committing(op, request, |y.log|, 0, Some(Current(y)))]);
    var y3 := Next(y2, Swap(a, now));
    assert y3 == System(y.log + [Publish(Current(y), op, request, now).value], y.actors[a := Idle]);
    hide Next;
    assert RunVault(v, steps) == RunVault(v.(system := y1), steps[1..]);
    assert RunVault(v.(system := y1), steps[1..]) == RunVault(v.(system := y2), steps[1..][1..]);
    assert RunVault(v.(system := y2), steps[1..][1..]) == RunVault(v.(system := y3), []);
  }

  lemma {:induction false} RunVaultSplits(v: Vault, left: seq<Step>, right: seq<Step>)
    requires v.system.log != []
    ensures RunVault(v, left).system.log != [] && RunVault(v, left + right) == RunVault(RunVault(v, left), right)
    decreases left
  {
    hide After;
    if left == [] {
      assert left + right == right;
    } else {
      AfterKeepsLog(v, left[0]);
      assert (left + right)[0] == left[0] && (left + right)[1..] == left[1..] + right;
      RunVaultSplits(After(v, left[0]), left[1..], right);
    }
  }

  lemma FinishesErasure(s: Snapshot, op: OperationId, c: ConnectionId, now: Time)
    requires !Published(s, op) && c in s.connections && s.connections[c].status.ErasurePending?
    ensures Publish(s, op, FinishErasure(c), now).Some?
    ensures var t := Publish(s, op, FinishErasure(c), now).value;
            && c in t.connections && t.connections[c].status.ReauthorizationRequired?
            && t.connections[c].account == s.connections[c].account
            && t.audit == s.audit + [Audit(|s.audit| + 1, op, FinishErasure(c))]
  {
  }

  lemma Reauthorizes(s: Snapshot, op: OperationId, c: ConnectionId, state: Ciphertext, now: Time)
    requires !Published(s, op) && c in s.connections && s.connections[c].status.ReauthorizationRequired?
    ensures var request := Authorize(c, s.connections[c].account, Some(s.connections[c]), state);
            && Publish(s, op, request, now).Some?
            && var t := Publish(s, op, request, now).value;
               c in t.connections && Usable(t.connections[c]) && t.connections[c].state == Some(state)
  {
  }

  /**
    Two erasures of one connection: the other finishes, the connection is authorized
    anew with a fresh key, and only then does this one erase the key.  The
    connection is ready, and what it holds cannot be opened.
    */
  lemma SecondErasure(v: Vault, e: nat, a: nat, op1: OperationId, op2: OperationId, state: Ciphertext, now: Time)
    requires v.system.log != [] && !ActorOf(v.system, a).Committing? && e in v.erasers && op1 != op2
    requires var s, c := Current(v.system), v.erasers[e];
             && c in s.connections && s.connections[c].status.ErasurePending? && !Published(s, op1)
             && !Published(s, op2)
             && state.key == KeyOf(v.keys, c)
    ensures var s, c := Current(v.system), v.erasers[e];
            var erased := Publish(s, op1, FinishErasure(c), now);
            && erased.Some? && c in erased.value.connections
            && var known := erased.value.connections[c];
               var steps := Alone(a, op1, FinishErasure(c), now)
                            + Alone(a, op2, Authorize(c, known.account, Some(known), state), now) + [ErasesKey(e)];
               var v' := RunVault(v, steps);
               && v'.system.log != [] && c in Current(v'.system).connections
               && Usable(Current(v'.system).connections[c])
               && Current(v'.system).connections[c].state == Some(state) && state.key != KeyOf(v'.keys, c)
  {
    hide Publish;
    hide Published;
    var s, c := Current(v.system), v.erasers[e];
    FinishesErasure(s, op1, c, now);
    var t1 := Publish(s, op1, FinishErasure(c), now).value;
    StillUnpublished(s, t1, op1, op2, FinishErasure(c));
    Reauthorizes(t1, op2, c, state, now);
    var request := Authorize(c, t1.connections[c].account, Some(t1.connections[c]), state);
    var first, second := Alone(a, op1, FinishErasure(c), now), Alone(a, op2, request, now);
    CommitsAlone(v, a, op1, FinishErasure(c), now);
    var v1 := RunVault(v, first);
    CommitsAlone(v1, a, op2, request, now);
    var v2 := RunVault(v1, second);
    RunVaultSplits(v, first, second);
    RunVaultSplits(v, first + second, [ErasesKey(e)]);
    hide Alone;
    assert [ErasesKey(e)][1..] == [];
    assert RunVault(v2, [ErasesKey(e)]) == After(v2, ErasesKey(e));
  }

  lemma StillUnpublished(s: Snapshot, t: Snapshot, op1: OperationId, op2: OperationId, request: Request)
    requires !Published(s, op2) && op1 != op2 && t.audit == s.audit + [Audit(|s.audit| + 1, op1, request)]
    ensures !Published(t, op2)
  {
  }
}
