/**
  `Coordinator` as the object it is: buffers, dispatch custody and the previous
  action change in place, and each method is proved against the functions that
  the run theorems are about.
  */
module CoordinatorObject {
  import opened Options
  import opened Coordination

  class Coordinator {
    const policy: Policy
    var inFlight: seq<Occurrence>
    var nextId: OccurrenceId
    var arrived: seq<Arrival>
    var deliveries: seq<Delivery>
    var known: set<OccurrenceId>
    var previous: Option<Action>
    var reconciled: bool
    ghost var sent: set<OccurrenceId>
    ghost var sensed: seq<Delivery>
    ghost var taken: seq<Delivery>
    ghost var accepted: seq<Delivery>

    ghost function Value(): State
      reads this
    {
      State(inFlight, nextId, arrived, deliveries, known, previous, reconciled, sent, sensed, taken, accepted)
    }

    constructor (policy: Policy, inFlight: seq<Occurrence>, nextId: OccurrenceId, known: set<OccurrenceId>)
      ensures Value() == Start(inFlight, nextId, known) && this.policy == policy
    {
      this.policy := policy;
      this.inFlight, this.nextId, this.known := inFlight, nextId, known;
      arrived, deliveries, previous, reconciled := [], [], None, false;
      sent, sensed, taken, accepted := {}, [], [], [];
    }

    /** Redispatch the outbox in order until one raises; then complete resumed work, of which whatever raises stays. */
    method ReconcileFirst(t: Turn) returns (raised: bool)
      modifies this
      ensures Value() == Reconcile(old(Value()), t) && raised == ReconcileRaises(old(Value()), t)
    {
      hide Ids, OutboxOf, Resumed, Outbox;
      reconciled := true;
      var ids := Pending(inFlight);
      var n := 0;
      ghost var before := Value();
      IdsNone(ids);
      while n < |ids|
        invariant 0 <= n <= |ids| && n <= t.republished
        invariant Value() == before.(sent := before.sent + Ids(ids[..n]), known := before.known + Ids(ids[..n]))
      {
        IdsSnoc(ids, n);
        known := known + {ids[n]};
        if n == t.republished {
          return true;
        }
        sent := sent + {ids[n]};
        n := n + 1;
      }
      assert ids[..n] == ids;
      inFlight, raised := Resume(inFlight, t.stuck);
    }

    /** Sift arrivals; an arrival that nobody answers for raises with everything still buffered. */
    method Sift(collected: seq<Arrival>, acknowledged: bool) returns (raised: bool)
      modifies this`arrived
      ensures raised == Foreign(old(Value()), old(arrived) + collected, acknowledged)
      ensures arrived == if raised then old(arrived) + collected else Live(old(arrived) + collected, inFlight)
    {
      arrived := arrived + collected;
      var remaining: seq<Arrival>, n := [], 0;
      while n < |arrived|
        invariant 0 <= n <= |arrived| && arrived == old(arrived) + collected
        invariant remaining + Live(arrived[n..], inFlight) == Live(arrived, inFlight)
        invariant forall i :: 0 <= i < n ==>
                    Flying(inFlight, arrived[i].occurrence) || (arrived[i].occurrence in known && acknowledged)
      {
        var a := arrived[n];
        assert arrived[n..][1..] == arrived[n + 1..];
        if Flying(inFlight, a.occurrence) {
          remaining := remaining + [a];
        } else if a.occurrence !in known || !acknowledged {
          assert a in arrived;
          return true;
        }
        n := n + 1;
      }
      assert arrived[n..] == [];
      arrived := remaining;
      raised := false;
    }

    /** Consult the sensor when the buffer is empty, then list the available actions in order. */
    method Offer(t: Turn) returns (snapshot: Snapshot)
      modifies this`deliveries, this`sensed
      ensures Value() == Sense(old(Value()), t) && snapshot == SnapshotOf(Value(), t)
    {
      hide Results, Acceptable, AnyOutstanding;
      if deliveries == [] && t.armed != {} {
        deliveries := t.batch;
        sensed := sensed + t.batch;
      }
      var begin := if t.candidate.Some? then [BeginCandidate(t.candidate.value)] else [];
      var time := if t.maturation.Some? then [AdvanceTime(t.maturation.value)] else [];
      var ingress := Ingresses(deliveries, t.armed);
      var wait := if AnyOutstanding(arrived, inFlight) then [Wait] else [];
      snapshot := Snapshot(Results(arrived) + begin + time + ingress + wait + [Stop], inFlight, previous);
    }

    /** Choose until the choice is something that can be applied now. */
    method Settle(offered: Snapshot, due: bool) returns (action: Option<Action>)
      ensures action == Chosen(policy, offered, due)
    {
      var snapshot := offered;
      action := Choose(policy, snapshot);
      while action.Some? && action.value in snapshot.actions && action.value.AdvanceTime? && !due
        invariant action == Choose(policy, snapshot) && Chosen(policy, snapshot, due) == Chosen(policy, offered, due)
        decreases |snapshot.actions|
      {
        snapshot := snapshot.(actions := Drop(snapshot.actions, action.value));
        action := Choose(policy, snapshot);
      }
      if action.Some? && action.value !in snapshot.actions {
        action := None;
      }
    }

    method Unbuffer(id: OccurrenceId)
      modifies this`arrived
      ensures arrived == Unbuffered(old(arrived), id)
    {
      var n := 0;
      while n < |arrived| && arrived[n].occurrence != id
        invariant 0 <= n <= |arrived| && arrived == old(arrived)
        invariant Unbuffered(arrived, id) == arrived[..n] + Unbuffered(arrived[n..], id)
      {
        assert arrived[..n + 1] == arrived[..n] + [arrived[n]];
        n := n + 1;
      }
      if n < |arrived| {
        assert arrived[n..][1..] == arrived[n + 1..];
        arrived := arrived[..n] + arrived[n + 1..];
      }
    }

    /** Apply one chosen action against the instance. */
    method ApplyOne(a: Action, t: Turn) returns (applied: bool)
      requires !a.Wait? && !a.Stop? && (a.AcceptDelivery? ==> a.position < |deliveries|)
      modifies this
      ensures (Value(), applied) == Apply(old(Value()), a, t)
    {
      match a {
        case AcceptResult(arrival) =>
          var id := arrival.occurrence;
          Unbuffer(id);
          if arrival.outcome.Failure? && !t.projectsFailure {
            inFlight := Without(inFlight, id);
            return false;
          }
          inFlight := if t.completes then Without(inFlight, id) else Frozen(inFlight, id);
          return t.completes;
        case BeginCandidate(c) =>
          var id := nextId;
          nextId := nextId + 1;
          if !t.impure {
            return t.completes;
          }
          inFlight := inFlight + [Occurrence(id, c.consumed, true, false)];
          known := known + {id};
          if !t.dispatched {
            assert sent + {} == sent;
            return false;
          }
          sent := sent + {id};
          return true;
        case AdvanceTime(_) => return true;
        case AcceptDelivery(d, position) =>
          deliveries := deliveries[..position] + deliveries[position + 1..];
          taken := taken + [d];
          if !t.admits {
            return false;
          }
          accepted := accepted + [d];
          nextId := nextId + 1;
          return t.completes;
      }
    }

    /** `drive`: reconcile once, then observe, choose and apply at most one action. */
    method Drive(t: Turn) returns (posture: Posture)
      modifies this
      ensures (Value(), posture) == Coordination.Drive(policy, old(Value()), t)
    {
      if !reconciled {
        var raised := ReconcileFirst(t);
        if raised {
          return Raised;
        }
      }
      hide Reconcile, ReconcileRaises, Live, ActionsOf, Chosen, Choose, Foreign;
      posture := Turned(t);
    }

    method Turned(t: Turn) returns (posture: Posture)
      modifies this
      ensures (Value(), posture) == Act(policy, old(Value()), t)
    {
      hide Live, ActionsOf, Chosen, Choose, Foreign, Apply;
      var foreign := Sift(t.collected, t.acknowledged);
      if foreign {
        return Raised;
      }
      var snapshot := Offer(t);
      var action := Settle(snapshot, t.due);
      if action.None? || (action.value.AcceptDelivery? && action.value.position >= |deliveries|) {
        return Raised;
      }
      if action.value.Wait? {
        return WaitingFor;
      }
      if action.value.Stop? {
        return AtRest;
      }
      var applied := ApplyOne(action.value, t);
      if !applied {
        return Raised;
      }
      previous := action;
      return Ready;
    }
  }

  /** The outbox, in begin order. */
  method Pending(inFlight: seq<Occurrence>) returns (ids: seq<OccurrenceId>)
    ensures ids == OutboxOf(inFlight)
  {
    ids := [];
    var n := |inFlight|;
    while n > 0
      invariant 0 <= n <= |inFlight| && ids == OutboxOf(inFlight[n..])
    {
      n := n - 1;
      assert inFlight[n..][1..] == inFlight[n + 1..];
      if Outbox(inFlight[n]) {
        ids := [inFlight[n].id] + ids;
      }
    }
    assert inFlight[0..] == inFlight;
  }

  lemma IdsNone(ids: seq<OccurrenceId>)
    ensures Ids(ids[..0]) == {}
  {
  }

  lemma IdsSnoc(ids: seq<OccurrenceId>, n: nat)
    requires n < |ids|
    ensures Ids(ids[..n + 1]) == Ids(ids[..n]) + {ids[n]}
  {
    assert ids[..n + 1] == ids[..n] + [ids[n]];
    forall i | i in Ids(ids[..n + 1]) ensures i in Ids(ids[..n]) + {ids[n]} {
      var k :| 0 <= k < n + 1 && ids[..n + 1][k] == i;
      assert k < n ==> ids[..n][k] == i;
    }
    forall i | i in Ids(ids[..n]) + {ids[n]} ensures i in Ids(ids[..n + 1]) {
      if i == ids[n] {
        assert ids[..n + 1][n] == i;
      } else {
        var k :| 0 <= k < n && ids[..n][k] == i;
        assert ids[..n + 1][k] == i;
      }
    }
  }

  /** The completing legs of reconciliation over the resumed work. */
  method Resume(inFlight: seq<Occurrence>, stuck: set<OccurrenceId>) returns (kept: seq<Occurrence>, raised: bool)
    ensures kept == Resumed(inFlight, stuck)
    ensures raised <==> exists o :: o in inFlight && !Outbox(o) && o.id in stuck
  {
    kept, raised := [], false;
    var n := 0;
    hide Outbox;
    while n < |inFlight|
      invariant 0 <= n <= |inFlight|
      invariant kept + Resumed(inFlight[n..], stuck) == Resumed(inFlight, stuck)
      invariant raised <==> exists o :: o in inFlight[..n] && !Outbox(o) && o.id in stuck
    {
      var o := inFlight[n];
      ResumeOne(kept, inFlight[n..], stuck);
      assert inFlight[n..][1..] == inFlight[n + 1..];
      assert inFlight[..n + 1] == inFlight[..n] + [o];
      if Outbox(o) {
        kept := kept + [o];
      } else if o.id in stuck {
        raised := true;
        kept := kept + [o];
      }
      n := n + 1;
    }
    assert inFlight[..n] == inFlight && inFlight[n..] == [];
  }

  lemma ResumeOne(kept: seq<Occurrence>, rest: seq<Occurrence>, stuck: set<OccurrenceId>)
    requires rest != []
    ensures kept + Resumed(rest, stuck)
            == (if Outbox(rest[0]) || rest[0].id in stuck then kept + [rest[0]] else kept) + Resumed(rest[1..], stuck)
  {
  }

  /** Deliveries offered in order up to the first closed source. */
  method Ingresses(deliveries: seq<Delivery>, armed: set<string>) returns (ingress: seq<Action>)
    ensures ingress == Acceptable(deliveries, armed, 0)
  {
    ingress := [];
    var n := 0;
    while n < |deliveries| && deliveries[n].source in armed
      invariant 0 <= n <= |deliveries|
      invariant ingress + Acceptable(deliveries, armed, n) == Acceptable(deliveries, armed, 0)
    {
      ingress := ingress + [AcceptDelivery(deliveries[n], n)];
      n := n + 1;
    }
  }
}
