/**
  Runs of the coordinator: any number of drives under either policy, with
  lifecycle cancellations between them.
  */
module CoordinationRuns {
  import opened Options
  import opened Coordination
  import opened CoordinationSafety

  // ---- Membership ---------------------------------------------------------

  lemma {:induction false} WithoutMembers(inFlight: seq<Occurrence>, id: OccurrenceId, o: Occurrence)
    ensures o in Without(inFlight, id) <==> o in inFlight && o.id != id
  {
    if inFlight == [] {
    } else {
      WithoutMembers(inFlight[1..], id, o);
    }
  }

  lemma {:induction false} ResumedMembers(inFlight: seq<Occurrence>, stuck: set<OccurrenceId>, o: Occurrence)
    ensures o in Resumed(inFlight, stuck) <==> o in inFlight && (Outbox(o) || o.id in stuck)
  {
    if inFlight == [] {
    } else {
      ResumedMembers(inFlight[1..], stuck, o);
    }
  }

  lemma FrozenMember(inFlight: seq<Occurrence>, id: OccurrenceId, o: Occurrence)
    requires o in Frozen(inFlight, id)
    ensures exists q :: q in inFlight && (o == q || (o == q.(frozen := true) && q.id == id))
  {
    var i :| 0 <= i < |inFlight| && Frozen(inFlight, id)[i] == o;
    assert inFlight[i] in inFlight;
  }

  // ---- Work in flight -----------------------------------------------------

  /** An occurrence of `later` is one of `now`, perhaps frozen since. */
  ghost predicate Thinned(now: seq<Occurrence>, later: seq<Occurrence>) {
    forall o :: o in later ==> exists q :: q in now && q.id == o.id && q.consumed == o.consumed && q.impure == o.impure
                                           && (o.frozen || q == o)
  }

  lemma ThinnedWithout(inFlight: seq<Occurrence>, id: OccurrenceId)
    ensures Thinned(inFlight, Without(inFlight, id))
  {
    forall o | o in Without(inFlight, id)
      ensures exists q ::
                && q in inFlight && q.id == o.id && q.consumed == o.consumed && q.impure == o.impure
                && (o.frozen || q == o)
    {
      WithoutMembers(inFlight, id, o);
    }
  }

  lemma ThinnedResumed(inFlight: seq<Occurrence>, stuck: set<OccurrenceId>)
    ensures Thinned(inFlight, Resumed(inFlight, stuck))
  {
    forall o | o in Resumed(inFlight, stuck)
      ensures exists q ::
                && q in inFlight && q.id == o.id && q.consumed == o.consumed && q.impure == o.impure
                && (o.frozen || q == o)
    {
      ResumedMembers(inFlight, stuck, o);
    }
  }

  lemma ThinnedFrozen(inFlight: seq<Occurrence>, id: OccurrenceId)
    ensures Thinned(inFlight, Frozen(inFlight, id))
  {
    forall o | o in Frozen(inFlight, id)
      ensures exists q ::
                && q in inFlight && q.id == o.id && q.consumed == o.consumed && q.impure == o.impure
                && (o.frozen || q == o)
    {
      FrozenMember(inFlight, id, o);
    }
  }

  ghost predicate Shares(o: Occurrence, q: Occurrence) { exists x :: x in o.consumed && x in q.consumed }

  /** What each policy promises of the work in flight. */
  ghost predicate Kept(p: Policy, o: Occurrence, q: Occurrence) {
    o.id == q.id || match p
                    case Conservative => !(Outbox(o) && Outbox(q))
                    case Throughput => !Shares(o, q)
  }

  ghost predicate Discipline(p: Policy, inFlight: seq<Occurrence>) {
    forall o, q :: o in inFlight && q in inFlight ==> Kept(p, o, q)
  }

  lemma ThinnedKeeps(p: Policy, now: seq<Occurrence>, later: seq<Occurrence>)
    requires Thinned(now, later) && Discipline(p, now)
    ensures Discipline(p, later)
  {
    forall o, q | o in later && q in later ensures Kept(p, o, q) {
      var o0 :| o0 in now && o0.id == o.id && o0.consumed == o.consumed && o0.impure == o.impure
          && (o.frozen || o0 == o);
      var q0 :| q0 in now && q0.id == q.id && q0.consumed == q.consumed && q0.impure == q.impure
          && (q.frozen || q0 == q);
      assert Kept(p, o0, q0);
    }
  }

  // ---- The coordinator's invariant ----------------------------------------

  ghost predicate Numbered(s: State) { forall o :: o in s.inFlight ==> o.id < s.nextId }

  /** Whatever was sensed is still buffered or was handed to the writer, in order. */
  ghost predicate Ordered(s: State) { s.taken + s.deliveries == s.sensed }

  ghost predicate Inv(s: State) { Numbered(s) && Ordered(s) }

  lemma ThinnedInv(s: State, inFlight: seq<Occurrence>)
    requires Inv(s) && Thinned(s.inFlight, inFlight)
    ensures Inv(s.(inFlight := inFlight))
  {
  }

  lemma ReconcileKeeps(p: Policy, s: State, t: Turn)
    requires Inv(s)
    ensures Inv(Reconcile(s, t)) && (Discipline(p, s.inFlight) ==> Discipline(p, Reconcile(s, t).inFlight))
  {
    ThinnedResumed(s.inFlight, t.stuck);
    if Discipline(p, s.inFlight) {
      ThinnedKeeps(p, s.inFlight, Resumed(s.inFlight, t.stuck));
    }
    hide Resumed, Discipline, OutboxOf, Ids, RedispatchRaises;
  }

  lemma ObservedKeeps(s: State, t: Turn)
    requires Inv(s)
    ensures Inv(Observed(s, t)) && Observed(s, t).inFlight == s.inFlight
  {
    hide Live;
    assert s.deliveries == [] ==> s.taken + [] == s.taken;
  }

  lemma ResultKeeps(p: Policy, s: State, a: Arrival, t: Turn)
    requires Inv(s)
    ensures Inv(ApplyResult(s, a, t).0)
    ensures Discipline(p, s.inFlight) ==> Discipline(p, ApplyResult(s, a, t).0.inFlight)
  {
    ThinnedWithout(s.inFlight, a.occurrence);
    ThinnedFrozen(s.inFlight, a.occurrence);
    ThinnedInv(s.(arrived := Unbuffered(s.arrived, a.occurrence)), Without(s.inFlight, a.occurrence));
    ThinnedInv(s.(arrived := Unbuffered(s.arrived, a.occurrence)), Frozen(s.inFlight, a.occurrence));
    if Discipline(p, s.inFlight) {
      ThinnedKeeps(p, s.inFlight, Without(s.inFlight, a.occurrence));
      ThinnedKeeps(p, s.inFlight, Frozen(s.inFlight, a.occurrence));
    }
    hide Inv, Discipline, Without, Frozen, Thinned;
  }

  /** What the policy has checked before it begins a candidate. */
  ghost predicate MayBegin(p: Policy, inFlight: seq<Occurrence>, c: Candidate) {
    match p
    case Conservative => forall o :: o in inFlight ==> !Outbox(o)
    case Throughput => Independent(inFlight, c)
  }

  lemma BeginKeeps(p: Policy, s: State, c: Candidate, t: Turn)
    requires Inv(s)
    ensures Inv(ApplyBegin(s, c, t).0)
    ensures Discipline(p, s.inFlight) && MayBegin(p, s.inFlight, c) ==> Discipline(p, ApplyBegin(s, c, t).0.inFlight)
  {
    var s' := ApplyBegin(s, c, t).0;
    if Discipline(p, s.inFlight) && MayBegin(p, s.inFlight, c) && t.impure {
      var begun := Occurrence(s.nextId, c.consumed, true, false);
      forall o, q | o in s'.inFlight && q in s'.inFlight ensures Kept(p, o, q) {
        if o in s.inFlight && q in s.inFlight {
          assert Kept(p, o, q);
        } else {
          BegunIsKept(p, s.inFlight, c, begun, if o in s.inFlight then o else q);
        }
      }
    }
  }

  lemma BegunIsKept(p: Policy, inFlight: seq<Occurrence>, c: Candidate, begun: Occurrence, o: Occurrence)
    requires MayBegin(p, inFlight, c) && begun.consumed == c.consumed
    ensures o in inFlight ==> Kept(p, begun, o) && Kept(p, o, begun)
  {
    if o in inFlight {
      var i :| 0 <= i < |inFlight| && inFlight[i] == o;
      forall x | x in c.consumed && x in o.consumed ensures InUse(inFlight, x) {
        assert x in inFlight[i].consumed;
      }
    }
  }

  lemma DeliveryKeeps(s: State, t: Turn)
    requires Inv(s) && s.deliveries != []
    ensures Inv(ApplyDelivery(s, s.deliveries[0], 0, t).0)
    ensures ApplyDelivery(s, s.deliveries[0], 0, t).0.inFlight == s.inFlight
  {
    var s' := ApplyDelivery(s, s.deliveries[0], 0, t).0;
    assert s'.deliveries == s.deliveries[1..];
    HeadMoves(s.taken, s.deliveries);
  }

  lemma HeadMoves<T>(taken: seq<T>, buffer: seq<T>)
    requires buffer != []
    ensures (taken + [buffer[0]]) + buffer[1..] == taken + buffer
  {
  }

  // ---- What is chosen -----------------------------------------------------

  lemma StopIsLast(s: State, t: Turn)
    ensures Stop in ActionsOf(s, t)
  {
    var actions := ActionsOf(s, t);
    assert actions[|actions| - 1] == Stop;
  }

  /** The snapshot the choice is effectively made from. */
  function Effective(s: State, t: Turn): Snapshot {
    var snapshot := SnapshotOf(s, t);
    if t.due then snapshot else snapshot.(actions := Untimed(snapshot.actions))
  }

  lemma {:induction false} UntimedMembers(actions: seq<Action>, a: Action)
    ensures a in Untimed(actions) <==> a in actions && !a.AdvanceTime?
  {
    if actions == [] {
    } else {
      UntimedMembers(actions[1..], a);
    }
  }

  lemma ChosenIs(p: Policy, s: State, t: Turn)
    ensures var a := Chosen(p, SnapshotOf(s, t), t.due);
            && a == Choose(p, Effective(s, t)) && a.Some? && a.value in ActionsOf(s, t)
            && Stop in Effective(s, t).actions
            && (a.value.AcceptDelivery? ==> s.deliveries != [] && a.value == AcceptDelivery(s.deliveries[0], 0))
            && (a.value.Wait? ==> AnyOutstanding(s.arrived, s.inFlight))
  {
    StopIsLast(s, t);
    RechooseIgnoresUndue(p, SnapshotOf(s, t), t.due);
    FirstOffered(s, t);
    UntimedMembers(ActionsOf(s, t), Stop);
    UntimedKeeps(ActionsOf(s, t), Ingress);
    UntimedKeeps(ActionsOf(s, t), Waiting);
    DeliversWhen(p, Effective(s, t));
    FirstOfMeans(ActionsOf(s, t), Waiting);
    var a := Chosen(p, SnapshotOf(s, t), t.due);
    if a.value.Wait? {
      var i :| 0 <= i < |ActionsOf(s, t)| && ActionsOf(s, t)[i] == a.value;
      assert KindOf(ActionsOf(s, t)[i]) == Waiting;
      assert Offers(ActionsOf(s, t), Waiting);
    }
    hide ActionsOf, FirstOf, Choose, Chosen, Untimed, Offers, OwesProgress, AnyOutstanding;
  }

  lemma ChosenBegins(p: Policy, s: State, t: Turn)
    requires var a := Chosen(p, SnapshotOf(s, t), t.due); a.Some? && a.value.BeginCandidate?
    ensures MayBegin(p, s.inFlight, Chosen(p, SnapshotOf(s, t), t.due).value.candidate)
  {
    ChosenIs(p, s, t);
    var e := Effective(s, t);
    if p.Throughput? {
      ThroughputBegins(e);
    } else {
      ConservativeBegins(e);
      NothingOutstanding(s, t);
    }
  }

  lemma ArrivedIsOffered(s: State, t: Turn)
    ensures s.arrived != [] ==> Offers(ActionsOf(s, t), Result)
  {
    if s.arrived != [] {
      assert KindOf(ActionsOf(s, t)[0]) == Result;
    }
  }

  /** With neither a wait nor a result on offer, nothing in flight is waiting for a result. */
  lemma NothingOutstanding(s: State, t: Turn)
    requires !Offers(Effective(s, t).actions, Waiting) && !Offers(Effective(s, t).actions, Result)
    ensures forall o :: o in s.inFlight ==> !Outbox(o)
  {
    var actions := ActionsOf(s, t);
    FirstOfMeans(actions, Waiting);
    FirstOfMeans(actions, Result);
    FirstOfMeans(Effective(s, t).actions, Waiting);
    FirstOfMeans(Effective(s, t).actions, Result);
    UntimedKeeps(actions, Waiting);
    UntimedKeeps(actions, Result);
    FirstOffered(s, t);
    assert !AnyOutstanding(s.arrived, s.inFlight);
    ArrivedIsOffered(s, t);
    hide ActionsOf, FirstOf, Untimed, Offers;
    forall o | o in s.inFlight ensures !Outbox(o) {
      var i :| 0 <= i < |s.inFlight| && s.inFlight[i] == o;
      assert !Outstanding(s.arrived, s.inFlight[i]);
    }
  }

  // ---- One drive ----------------------------------------------------------

  /** What the policy's choice guarantees of the action about to be applied. */
  ghost predicate Sanctioned(p: Policy, s: State, a: Action) {
    && !a.Wait? && !a.Stop?
    && (a.AcceptDelivery? ==> s.deliveries != [] && a == AcceptDelivery(s.deliveries[0], 0))
    && (a.BeginCandidate? ==> MayBegin(p, s.inFlight, a.candidate))
  }

  lemma ApplyKeeps(p: Policy, s: State, a: Action, t: Turn)
    requires Inv(s) && Sanctioned(p, s, a)
    ensures Inv(Apply(s, a, t).0)
    ensures Discipline(p, s.inFlight) ==> Discipline(p, Apply(s, a, t).0.inFlight)
  {
    hide Inv, Discipline, MayBegin;
    match a {
      case AcceptResult(arrival) => ResultKeeps(p, s, arrival, t);
      case BeginCandidate(c) => BeginKeeps(p, s, c, t);
      case AcceptDelivery(_, _) => DeliveryKeeps(s, t);
      case AdvanceTime(_) =>
    }
    hide ApplyResult, ApplyBegin, ApplyDelivery;
  }

  lemma RelabelKeeps(s: State, previous: Option<Action>, arrived: seq<Arrival>)
    requires Inv(s)
    ensures Inv(s.(previous := previous)) && Inv(s.(arrived := arrived))
  {
  }

  lemma ActKeeps(p: Policy, s: State, t: Turn)
    requires Inv(s)
    ensures Inv(Act(p, s, t).0)
    ensures Discipline(p, s.inFlight) ==> Discipline(p, Act(p, s, t).0.inFlight)
  {
    hide Inv, Discipline, Observed, Chosen, Choose, SnapshotOf, ActionsOf, Effective, MayBegin, AnyOutstanding;
    hide Apply, Foreign;
    RelabelKeeps(s, None, s.arrived + t.collected);
    var o := Observed(s, t);
    ObservedKeeps(s, t);
    ChosenIs(p, o, t);
    var a := Chosen(p, SnapshotOf(o, t), t.due).value;
    if !a.Wait? && !a.Stop? {
      if a.BeginCandidate? {
        ChosenBegins(p, o, t);
      }
      ApplyKeeps(p, o, a, t);
      RelabelKeeps(Apply(o, a, t).0, Some(a), []);
    }
  }

  lemma NextKeeps(p: Policy, s: State, e: Event)
    requires Inv(s)
    ensures Inv(Next(p, s, e)) && (Discipline(p, s.inFlight) ==> Discipline(p, Next(p, s, e).inFlight))
  {
    hide Discipline, Act;
    match e {
      case Drives(t) =>
        ReconcileKeeps(p, s, t);
        ActKeeps(p, s, t);
        ActKeeps(p, if s.reconciled then s else Reconcile(s, t), t);
        hide Inv, Reconcile;
      case Cancels(id) =>
        ThinnedWithout(s.inFlight, id);
        ThinnedInv(s, Without(s.inFlight, id));
        if Discipline(p, s.inFlight) {
          ThinnedKeeps(p, s.inFlight, Without(s.inFlight, id));
        }
    }
  }

  lemma {:induction false} RunKeeps(p: Policy, s: State, events: seq<Event>)
    requires Inv(s)
    ensures Inv(Run(p, s, events)) && (Discipline(p, s.inFlight) ==> Discipline(p, Run(p, s, events).inFlight))
    decreases events
  {
    hide Inv, Next, Discipline;
    if events == [] {
    } else {
      NextKeeps(p, s, events[0]);
      RunKeeps(p, Next(p, s, events[0]), events[1..]);
    }
  }

  // ---- Main results -------------------------------------------------------

  /** Under the throughput policy no two occurrences in flight ever share a token value at a place. */
  lemma ThroughputNeverShares(nextId: OccurrenceId, known: set<OccurrenceId>, events: seq<Event>)
    ensures var s := Run(Throughput, Start([], nextId, known), events);
            forall o, q, x :: o in s.inFlight && q in s.inFlight && o.id != q.id && x in o.consumed ==> x !in q.consumed
  {
    RunKeeps(Throughput, Start([], nextId, known), events);
    var s := Run(Throughput, Start([], nextId, known), events);
    hide Run;
    forall o, q, x | o in s.inFlight && q in s.inFlight && o.id != q.id && x in o.consumed ensures x !in q.consumed {
      assert Kept(Throughput, o, q);
    }
  }

  /** Under the conservative policy at most one occurrence in flight ever waits for a result. */
  lemma ConservativeIsSerial(nextId: OccurrenceId, known: set<OccurrenceId>, events: seq<Event>)
    ensures var s := Run(Conservative, Start([], nextId, known), events);
            forall o, q :: o in s.inFlight && q in s.inFlight && Outbox(o) && Outbox(q) ==> o.id == q.id
  {
    RunKeeps(Conservative, Start([], nextId, known), events);
    var s := Run(Conservative, Start([], nextId, known), events);
    hide Run;
    forall o, q | o in s.inFlight && q in s.inFlight && Outbox(o) && Outbox(q) ensures o.id == q.id {
      assert Kept(Conservative, o, q);
    }
  }

  lemma WaitingAct(p: Policy, s: State, t: Turn)
    requires Act(p, s, t).1 == WaitingFor
    ensures Act(p, s, t).0 == Observed(s, t) && AnyOutstanding(Observed(s, t).arrived, Observed(s, t).inFlight)
  {
    ChosenIs(p, Observed(s, t), t);
    hide Observed, Chosen, Choose, SnapshotOf, ActionsOf, Effective, AnyOutstanding, Foreign, Apply;
  }

  /** Two deliveries in a row are applied only when the progress the policy owes was unavailable. */
  lemma DeliveriesAlternate(p: Policy, s: State, t: Turn)
    requires s.previous.Some? && s.previous.value.AcceptDelivery?
    ensures var o := Observed(s, t);
            var a := Chosen(p, SnapshotOf(o, t), t.due);
            a.Some? && (a.value.AcceptDelivery? ==>
                          && o.deliveries != [] && a.value == AcceptDelivery(o.deliveries[0], 0)
                          && !OwesProgress(p, Effective(o, t)))
  {
    var o := Observed(s, t);
    ChosenIs(p, o, t);
    assert o.previous == s.previous;
    DeliversWhen(p, Effective(o, t));
    hide Chosen, Choose, ActionsOf, OwesProgress, Offers;
  }

  lemma NoResults(s: State, t: Turn)
    requires s.arrived == []
    ensures FirstOf(ActionsOf(s, t), Result).None?
  {
    AcceptableAre(s.deliveries, t.armed, 0);
    FirstOfNone(ActionsOf(s, t), Result);
  }

  /** What a choice says about everything that came before it in the policy's order. */
  lemma ChoiceOrder(p: Policy, s: Snapshot)
    requires Stop in s.actions
    ensures Choose(p, s).Some?
    ensures var a := Choose(p, s).value;
            && (a.Stop? ==> forall k: Kind :: k != Stopping && k != Begin ==> !Offers(s.actions, k))
            && (a.Stop? && p.Conservative? ==> !Offers(s.actions, Begin))
            && (a.Wait? ==> !Offers(s.actions, Result) && !Offers(s.actions, Ingress))
            && (a.AdvanceTime? ==> (if p.Conservative? then !Offers(s.actions, Begin) else !Offers(s.actions, Result)))
            && (p.Throughput? && (a.Stop? || a.Wait? || a.AdvanceTime? || a.AcceptResult?) ==>
                  forall b :: b in s.actions && b.BeginCandidate? ==> !Independent(s.inFlight, b.candidate))
            && (p.Conservative? && Offers(s.actions, Result) ==> Some(a) == FirstOf(s.actions, Result))
  {
    ChoiceIsOffered(p, s);
    AllKinds(s);
    hide FirstOf, FirstIndependent, Independent, Offers;
  }
}
