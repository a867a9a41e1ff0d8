/**
  What one drive does, action by action: what reconciliation hands over and keeps,
  what an observation drops or refuses, what becomes of an accepted result, of a
  begun transition, and what a cancellation leaves.
  */
module CoordinationEffects {
  import opened Options
  import opened Sifting
  import opened Coordination

  // ---- Sifted sequences ---------------------------------------------------

  lemma {:induction false} WithoutSifts(inFlight: seq<Occurrence>, id: OccurrenceId)
    ensures Sifts(inFlight, Without(inFlight, id), (o: Occurrence) => o.id != id)
  {
    hide Sifts;
    var wanted := (o: Occurrence) => o.id != id;
    if inFlight == [] {
      NothingSifts(wanted);
    } else {
      WithoutSifts(inFlight[1..], id);
      OneInFront(inFlight[0], inFlight[1..], Without(inFlight[1..], id), wanted);
      assert [inFlight[0]] + inFlight[1..] == inFlight;
    }
  }

  lemma {:induction false} LiveSifts(arrived: seq<Arrival>, inFlight: seq<Occurrence>)
    ensures Sifts(arrived, Live(arrived, inFlight), (a: Arrival) => Flying(inFlight, a.occurrence))
  {
    hide Sifts;
    hide Flying;
    var wanted := (a: Arrival) => Flying(inFlight, a.occurrence);
    if arrived == [] {
      NothingSifts(wanted);
    } else {
      LiveSifts(arrived[1..], inFlight);
      OneInFront(arrived[0], arrived[1..], Live(arrived[1..], inFlight), wanted);
      assert [arrived[0]] + arrived[1..] == arrived;
    }
  }

  lemma {:induction false} ResumedSifts(inFlight: seq<Occurrence>, stuck: set<OccurrenceId>)
    ensures Sifts(inFlight, Resumed(inFlight, stuck), (o: Occurrence) => (o.impure && !o.frozen) || o.id in stuck)
  {
    hide Sifts;
    var wanted := (o: Occurrence) => (o.impure && !o.frozen) || o.id in stuck;
    if inFlight == [] {
      NothingSifts(wanted);
    } else {
      ResumedSifts(inFlight[1..], stuck);
      OneInFront(inFlight[0], inFlight[1..], Resumed(inFlight[1..], stuck), wanted);
      assert [inFlight[0]] + inFlight[1..] == inFlight;
    }
  }

  /** The buffer without its first arrival of the occurrence, which was at `k` if anywhere. */
  ghost predicate TakenAt(arrived: seq<Arrival>, rest: seq<Arrival>, id: OccurrenceId, k: nat) {
    && k <= |arrived| && (forall j :: 0 <= j < k ==> arrived[j].occurrence != id)
    && if k < |arrived| then arrived[k].occurrence == id && rest == arrived[..k] + arrived[k + 1..]
       else rest == arrived
  }

  ghost predicate FirstTaken(arrived: seq<Arrival>, rest: seq<Arrival>, id: OccurrenceId) {
    exists k :: TakenAt(arrived, rest, id, k)
  }

  lemma TakenLater(arrived: seq<Arrival>, rest: seq<Arrival>, id: OccurrenceId, k: nat, first: Arrival)
    requires TakenAt(arrived, rest, id, k) && first.occurrence != id
    ensures TakenAt([first] + arrived, [first] + rest, id, k + 1)
  {
    var all := [first] + arrived;
    forall j | 0 <= j < k + 1 ensures all[j].occurrence != id {
      assert j > 0 ==> all[j] == arrived[j - 1];
    }
    if k < |arrived| {
      assert all[..k + 1] == [first] + arrived[..k] && all[k + 2..] == arrived[k + 1..];
    }
  }

  lemma {:induction false} UnbufferedTakes(arrived: seq<Arrival>, id: OccurrenceId)
    ensures FirstTaken(arrived, Unbuffered(arrived, id), id)
  {
    if arrived == [] {
      assert TakenAt(arrived, [], id, 0);
    } else if arrived[0].occurrence == id {
      assert arrived[..0] + arrived[1..] == arrived[1..];
      assert TakenAt(arrived, arrived[1..], id, 0);
    } else {
      UnbufferedTakes(arrived[1..], id);
      var k :| TakenAt(arrived[1..], Unbuffered(arrived[1..], id), id, k);
      hide TakenAt;
      TakenLater(arrived[1..], Unbuffered(arrived[1..], id), id, k, arrived[0]);
      assert [arrived[0]] + arrived[1..] == arrived;
    }
  }

  // ---- Applying one action ------------------------------------------------

  /** The occurrence is over, or kept with its result and never waited for again. */
  ghost predicate ResultApplied(s: State, a: Arrival, t: Turn, s': State, applied: bool) {
    var over := t.completes || (a.outcome.Failure? && !t.projectsFailure);
    && s' == s.(inFlight := s'.inFlight, arrived := s'.arrived)
    && FirstTaken(s.arrived, s'.arrived, a.occurrence)
    && (over ==> Sifts(s.inFlight, s'.inFlight, (o: Occurrence) => o.id != a.occurrence))
    && (!over ==>
          && |s'.inFlight| == |s.inFlight|
          && forall i :: 0 <= i < |s.inFlight| ==>
               s'.inFlight[i] == if s.inFlight[i].id == a.occurrence then s.inFlight[i].(frozen := true)
                                 else s.inFlight[i])
    && (applied <==> t.completes && (a.outcome.Success? || t.projectsFailure))
  }

  /** A begun transition takes the next id; with an activity it is in flight with the tokens it consumed. */
  ghost predicate BeginApplied(s: State, c: Candidate, t: Turn, s': State, applied: bool) {
    if t.impure then
      && s'.inFlight == s.inFlight + [Occurrence(s.nextId, c.consumed, true, false)]
      && s'.known == s.known + {s.nextId} && s'.sent == (if t.dispatched then s.sent + {s.nextId} else s.sent)
      && s' == s.(inFlight := s'.inFlight, known := s'.known, sent := s'.sent, nextId := s.nextId + 1)
      && applied == t.dispatched
    else
      s' == s.(nextId := s.nextId + 1) && applied == t.completes
  }

  ghost predicate DeliveryApplied(s: State, d: Delivery, position: nat, t: Turn, s': State, applied: bool)
    requires position < |s.deliveries|
  {
    && s'.deliveries == s.deliveries[..position] + s.deliveries[position + 1..] && s'.taken == s.taken + [d]
    && s' == s.(deliveries := s'.deliveries, taken := s'.taken, accepted := s'.accepted, nextId := s'.nextId)
    && (t.admits ==> s'.accepted == s.accepted + [d] && s'.nextId == s.nextId + 1 && applied == t.completes)
    && (!t.admits ==> s'.accepted == s.accepted && s'.nextId == s.nextId && !applied)
  }

  ghost predicate Applied(s: State, a: Action, t: Turn, s': State, applied: bool)
    requires a.AcceptDelivery? ==> a.position < |s.deliveries|
  {
    match a
    case AcceptResult(arrival) => ResultApplied(s, arrival, t, s', applied)
    case BeginCandidate(c) => BeginApplied(s, c, t, s', applied)
    case AdvanceTime(_) => s' == s && applied
    case AcceptDelivery(d, position) => DeliveryApplied(s, d, position, t, s', applied)
    case Wait => s' == s
    case Stop => s' == s
  }

  lemma ApplyApplies(s: State, a: Action, t: Turn)
    requires !a.Wait? && !a.Stop? && (a.AcceptDelivery? ==> a.position < |s.deliveries|)
    ensures Applied(s, a, t, Apply(s, a, t).0, Apply(s, a, t).1)
  {
    if a.AcceptResult? {
      UnbufferedTakes(s.arrived, a.arrival.occurrence);
      WithoutSifts(s.inFlight, a.arrival.occurrence);
      hide Sifts;
      hide FirstTaken;
      hide Without;
      hide Unbuffered;
    }
  }

  // ---- Observing ----------------------------------------------------------

  /** An arrival is refused that is not in flight and not known, or not acknowledged as agreeing with the record. */
  ghost predicate Refuses(s: State, t: Turn) {
    exists i :: && 0 <= i < |s.arrived| + |t.collected|
                && var a := (s.arrived + t.collected)[i];
                   (forall o :: o in s.inFlight ==> o.id != a.occurrence)
                       && !(a.occurrence in s.known && t.acknowledged)
  }

  lemma RefusesWhen(s: State, t: Turn)
    ensures Foreign(s, s.arrived + t.collected, t.acknowledged) <==> Refuses(s, t)
  {
    var all := s.arrived + t.collected;
    if Foreign(s, all, t.acknowledged) {
      var a :| a in all && !Flying(s.inFlight, a.occurrence) && (a.occurrence !in s.known || !t.acknowledged);
      var i :| 0 <= i < |all| && all[i] == a;
      forall o | o in s.inFlight ensures o.id != a.occurrence {
        var k :| 0 <= k < |s.inFlight| && s.inFlight[k] == o;
      }
    }
    if Refuses(s, t) {
      var i :| && 0 <= i < |all|
               && (forall o :: o in s.inFlight ==> o.id != all[i].occurrence)
               && !(all[i].occurrence in s.known && t.acknowledged);
      assert all[i] in all;
    }
  }

  /** What an observation leaves: the arrivals in flight, in order, and the sensed batch if the buffer was empty. */
  ghost predicate Looked(s: State, t: Turn, o: State) {
    && Sifts(s.arrived + t.collected, o.arrived, (a: Arrival) => Flying(s.inFlight, a.occurrence))
    && (if s.deliveries == [] && t.armed != {} then o.deliveries == t.batch && o.sensed == s.sensed + t.batch
        else o.deliveries == s.deliveries && o.sensed == s.sensed)
    && o == s.(arrived := o.arrived, deliveries := o.deliveries, sensed := o.sensed)
  }

  lemma ObservedLooks(s: State, t: Turn)
    ensures Looked(s, t, Observed(s, t))
  {
    LiveSifts(s.arrived + t.collected, s.inFlight);
    hide Sifts;
    hide Live;
  }

  // ---- Reconciling --------------------------------------------------------

  predicate Pending(o: Occurrence) { o.impure && !o.frozen }

  /** The requests handed over again, in order, until one raises: which are attempted, which are taken. */
  ghost predicate Redispatched(s: State, t: Turn, s': State) {
    var n := Rank(s.inFlight, Pending, |s.inFlight|);
    && s'.reconciled
    && (forall id :: id in s'.sent <==>
          id in s.sent
          || exists k :: 0 <= k < |s.inFlight| && s.inFlight[k].id == id && Pending(s.inFlight[k])
                         && Rank(s.inFlight, Pending, k) < t.republished)
    && (forall id :: id in s'.known <==>
          id in s.known
          || exists k :: 0 <= k < |s.inFlight| && s.inFlight[k].id == id && Pending(s.inFlight[k])
                         && Rank(s.inFlight, Pending, k) <= t.republished)
    && (t.republished < n ==> s'.inFlight == s.inFlight)
    && (t.republished >= n ==>
          Sifts(s.inFlight, s'.inFlight, (o: Occurrence) => (o.impure && !o.frozen) || o.id in t.stuck))
    && s' == s.(reconciled := true, inFlight := s'.inFlight, sent := s'.sent, known := s'.known)
  }

  /** The outbox lists the pending requests in the order they are in flight. */
  lemma {:induction false} OutboxHolds(inFlight: seq<Occurrence>, k: nat)
    requires k < |inFlight| && Pending(inFlight[k])
    ensures Rank(inFlight, Pending, k) < |OutboxOf(inFlight)|
            && OutboxOf(inFlight)[Rank(inFlight, Pending, k)] == inFlight[k].id
    decreases k
  {
    if k > 0 {
      var rest := inFlight[1..];
      assert inFlight == [inFlight[0]] + rest;
      OutboxHolds(rest, k - 1);
      RankLater(inFlight[0], rest, Pending, k - 1);
    }
  }

  lemma {:induction false} OutboxOnly(inFlight: seq<Occurrence>, j: nat) returns (k: nat)
    requires j < |OutboxOf(inFlight)|
    ensures k < |inFlight| && Pending(inFlight[k]) && Rank(inFlight, Pending, k) == j
            && inFlight[k].id == OutboxOf(inFlight)[j]
  {
    var rest := inFlight[1..];
    assert inFlight == [inFlight[0]] + rest;
    if Pending(inFlight[0]) && j == 0 {
      k := 0;
    } else {
      var before := if Pending(inFlight[0]) then 1 else 0;
      var i := OutboxOnly(rest, j - before);
      RankLater(inFlight[0], rest, Pending, i);
      k := i + 1;
    }
  }

  lemma {:induction false} OutboxLength(inFlight: seq<Occurrence>)
    ensures |OutboxOf(inFlight)| == Rank(inFlight, Pending, |inFlight|)
  {
    if inFlight == [] {
    } else {
      OutboxLength(inFlight[1..]);
      assert inFlight == [inFlight[0]] + inFlight[1..];
      RankLater(inFlight[0], inFlight[1..], Pending, |inFlight| - 1);
    }
  }

  /** The first `n` of the outbox are the pending requests with fewer than `n` before them. */
  lemma FirstOfOutbox(inFlight: seq<Occurrence>, n: nat, id: OccurrenceId)
    requires n <= |OutboxOf(inFlight)|
    ensures id in Ids(OutboxOf(inFlight)[..n])
            <==> exists k ::
                  0 <= k < |inFlight| && inFlight[k].id == id && Pending(inFlight[k]) && Rank(inFlight, Pending, k) < n
  {
    var ids := OutboxOf(inFlight);
    if id in Ids(ids[..n]) {
      var j :| 0 <= j < n && ids[..n][j] == id;
      var k := OutboxOnly(inFlight, j);
    }
    forall k | 0 <= k < |inFlight| && inFlight[k].id == id && Pending(inFlight[k]) && Rank(inFlight, Pending, k) < n
      ensures id in Ids(ids[..n])
    {
      OutboxHolds(inFlight, k);
      assert ids[..n][Rank(inFlight, Pending, k)] == id;
    }
  }

  lemma ReconcileRedispatches(s: State, t: Turn)
    ensures Redispatched(s, t, Reconcile(s, t))
  {
    hide Rank;
    hide OutboxOf;
    hide Resumed;
    hide Sifts;
    hide Ids;
    var ids, n := OutboxOf(s.inFlight), |s.inFlight|;
    OutboxLength(s.inFlight);
    ResumedSifts(s.inFlight, t.stuck);
    var sent := if t.republished < |ids| then t.republished else |ids|;
    var tried := if t.republished < |ids| then t.republished + 1 else |ids|;
    assert ids[..|ids|] == ids;
    forall k | 0 <= k < n && Pending(s.inFlight[k]) ensures Rank(s.inFlight, Pending, k) < |ids| {
      RankRises(s.inFlight, Pending, k, n);
    }
    forall id ensures id in Ids(ids[..sent]) <==>
                      exists k :: 0 <= k < n && s.inFlight[k].id == id && Pending(s.inFlight[k])
                                  && Rank(s.inFlight, Pending, k) < sent
    {
      FirstOfOutbox(s.inFlight, sent, id);
    }
    forall id ensures id in Ids(ids[..tried]) <==>
                      exists k :: 0 <= k < n && s.inFlight[k].id == id && Pending(s.inFlight[k])
                                  && Rank(s.inFlight, Pending, k) < tried
    {
      FirstOfOutbox(s.inFlight, tried, id);
    }
  }

  /** Reconciliation raises when a redispatch does, or when completing resumed work that is not pending does. */
  lemma ReconcileRaisesWhen(s: State, t: Turn)
    ensures ReconcileRaises(s, t)
            <==> t.republished < Rank(s.inFlight, Pending, |s.inFlight|)
                 || exists k :: 0 <= k < |s.inFlight| && !Pending(s.inFlight[k]) && s.inFlight[k].id in t.stuck
  {
    OutboxLength(s.inFlight);
    hide Rank;
    hide OutboxOf;
    if o :| o in s.inFlight && !Outbox(o) && o.id in t.stuck {
      var k :| 0 <= k < |s.inFlight| && s.inFlight[k] == o;
    }
    if k :| 0 <= k < |s.inFlight| && !Pending(s.inFlight[k]) && s.inFlight[k].id in t.stuck {
      assert s.inFlight[k] in s.inFlight;
    }
  }

  // ---- A whole drive ------------------------------------------------------

  /** From a reconciled coordinator: refuse, or observe, and apply the chosen action or come to rest. */
  ghost predicate Acted(p: Policy, s: State, t: Turn, s': State, posture: Posture) {
    if Refuses(s, t) then s' == s.(arrived := s.arrived + t.collected) && posture.Raised?
    else
      exists o ::
        && Looked(s, t, o)
        && var a := Chosen(p, SnapshotOf(o, t), t.due);
           if a.None? || (a.value.AcceptDelivery? && a.value.position >= |o.deliveries|) then s' == o && posture.Raised?
           else if a.value.Wait? then s' == o && posture.WaitingFor?
           else if a.value.Stop? then s' == o && posture.AtRest?
           else
             && (posture.Ready? || posture.Raised?)
             && Applied(o, a.value, t, s'.(previous := o.previous), posture.Ready?)
             && s'.previous == (if posture.Ready? then a else o.previous)
  }

  lemma ActActs(p: Policy, s: State, t: Turn)
    ensures Acted(p, s, t, Act(p, s, t).0, Act(p, s, t).1)
  {
    hide Foreign, Refuses, Observed, Looked, Chosen, SnapshotOf, Apply, Applied;
    RefusesWhen(s, t);
    if !Refuses(s, t) {
      var o := Observed(s, t);
      ObservedLooks(s, t);
      var a := Chosen(p, SnapshotOf(o, t), t.due);
      if a.Some? && !a.value.Wait? && !a.value.Stop?
          && (a.value.AcceptDelivery? ==> a.value.position < |o.deliveries|) {
        ApplyApplies(o, a.value, t);
        ApplyKeepsPrevious(o, a.value, t);
        var s' := Apply(o, a.value, t).0;
        assert s'.(previous := a).(previous := o.previous) == s';
      }
    }
  }

  lemma ApplyKeepsPrevious(s: State, a: Action, t: Turn)
    requires !a.Wait? && !a.Stop? && (a.AcceptDelivery? ==> a.position < |s.deliveries|)
    ensures Apply(s, a, t).0.previous == s.previous
  {
  }

  /**
    One drive, from any state and whatever the world answers: reconcile first if that
    was not done, which may raise; then act on what was observed.
    */
  lemma DriveDoes(p: Policy, s: State, t: Turn)
    ensures var (s', posture) := Drive(p, s, t);
            if s.reconciled then Acted(p, s, t, s', posture)
            else
              exists r ::
                && Redispatched(s, t, r)
                && if ReconcileRaises(s, t) then s' == r && posture.Raised? else Acted(p, r, t, s', posture)
  {
    hide Acted;
    hide Redispatched;
    ReconcileRedispatches(s, t);
    ActActs(p, s, t);
    ActActs(p, Reconcile(s, t), t);
    hide Act;
    hide ReconcileRaises;
    hide Reconcile;
  }

  /** A cancellation takes the occurrence out of flight, and remembers it. */
  lemma CancelDoes(p: Policy, s: State, id: OccurrenceId)
    ensures var s' := Next(p, s, Cancels(id));
            && Sifts(s.inFlight, s'.inFlight, (o: Occurrence) => o.id != id)
            && s' == s.(inFlight := s'.inFlight, known := s.known + {id})
  {
    WithoutSifts(s.inFlight, id);
    hide Sifts;
    hide Without;
  }
}
