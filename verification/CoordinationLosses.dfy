/**
  What the coordinator's runs do when the outside world refuses: a Dispatch that
  raises instead of taking an invocation, and a writer that refuses a delivery.
  Both leave something behind, and both conditions are guards on the turn.
  */
module CoordinationLosses {
  import opened Options
  import opened Coordination
  import opened CoordinationSafety
  import opened CoordinationRuns

  // ---- Hand-overs to the Dispatch -----------------------------------------

  /** The state in which this drive observes, when reconciliation does not raise. */
  function Reconciled(s: State, t: Turn): State { if s.reconciled then s else Reconcile(s, t) }

  predicate Acts(s: State, t: Turn) {
    (s.reconciled || !ReconcileRaises(s, t)) && !Foreign(Reconciled(s, t), s.arrived + t.collected, t.acknowledged)
  }

  /** This drive begins a transition with an activity. */
  predicate BeginsImpure(p: Policy, s: State, t: Turn) {
    && t.impure && Acts(s, t)
    && var o := Observed(Reconciled(s, t), t);
       var a := Chosen(p, SnapshotOf(o, t), t.due);
       a.Some? && a.value.BeginCandidate?
  }

  /** Every hand-over this drive makes, of resumed and of begun work, returns. */
  predicate HandsOver(p: Policy, s: State, e: Event) {
    e.Drives? ==> (s.reconciled || !RedispatchRaises(s, e.turn)) && (BeginsImpure(p, s, e.turn) ==> e.turn.dispatched)
  }

  /** The invocations this event leaves in flight without the Dispatch having taken them. */
  function LeftBehind(p: Policy, s: State, e: Event): set<OccurrenceId> {
    if e.Cancels? then {}
    else
      var t := e.turn;
      (if s.reconciled then {}
       else Ids(OutboxOf(s.inFlight)) - Ids(OutboxOf(s.inFlight)[..Least(t.republished, |OutboxOf(s.inFlight)|)]))
      + (if BeginsImpure(p, s, t) && !t.dispatched then {s.nextId} else {})
  }

  function Least(a: nat, b: nat): nat { if a < b then a else b }

  function AllLeftBehind(p: Policy, s: State, events: seq<Event>): set<OccurrenceId>
    decreases events
  {
    if events == [] then {} else LeftBehind(p, s, events[0]) + AllLeftBehind(p, Next(p, s, events[0]), events[1..])
  }

  ghost predicate AllHandOver(p: Policy, s: State, events: seq<Event>)
    decreases events
  {
    events == [] || (HandsOver(p, s, events[0]) && AllHandOver(p, Next(p, s, events[0]), events[1..]))
  }

  /** Of the work waiting for a result, exactly what was not left behind was taken. */
  ghost predicate Handed(s: State, left: set<OccurrenceId>) {
    && (forall i :: i in s.sent ==> i < s.nextId) && (forall i :: i in left ==> i < s.nextId)
    && (if s.reconciled then forall o :: o in s.inFlight && Outbox(o) ==> (o.id in s.sent <==> o.id !in left)
        else s.sent == {} && left == {})
  }

  lemma {:induction false} OutboxMember(inFlight: seq<Occurrence>, o: Occurrence)
    requires o in inFlight && Outbox(o)
    ensures o.id in Ids(OutboxOf(inFlight))
  {
    var ids := OutboxOf(inFlight);
    if inFlight[0] == o {
      assert ids[0] == o.id;
    } else {
      OutboxMember(inFlight[1..], o);
      var rest := OutboxOf(inFlight[1..]);
      var i :| 0 <= i < |rest| && rest[i] == o.id;
      assert ids[i + |ids| - |rest|] == o.id;
    }
  }

  lemma {:induction false} OutboxFlies(inFlight: seq<Occurrence>, id: OccurrenceId)
    requires id in Ids(OutboxOf(inFlight))
    ensures exists o :: o in inFlight && o.id == id
  {
    if Outbox(inFlight[0]) && inFlight[0].id == id {
      assert inFlight[0] in inFlight;
    } else {
      var ids, rest := OutboxOf(inFlight), OutboxOf(inFlight[1..]);
      var i :| 0 <= i < |ids| && ids[i] == id;
      assert rest[i - (|ids| - |rest|)] == id;
      OutboxFlies(inFlight[1..], id);
      var o :| o in inFlight[1..] && o.id == id;
      assert o in inFlight;
    }
  }

  lemma ReconcileHands(s: State, t: Turn)
    requires Inv(s) && Handed(s, {}) && !s.reconciled
    ensures var ids := OutboxOf(s.inFlight);
            Handed(Reconcile(s, t), Ids(ids) - Ids(ids[..Least(t.republished, |ids|)]))
  {
    var r, ids := Reconcile(s, t), OutboxOf(s.inFlight);
    var given := Ids(ids[..Least(t.republished, |ids|)]);
    assert ids[..|ids|] == ids;
    assert r.sent == given;
    assert given <= Ids(ids) by {
      forall i | i in given ensures i in Ids(ids) {
        var k :| 0 <= k < Least(t.republished, |ids|) && ids[k] == i;
      }
    }
    forall i | i in Ids(ids) ensures i < s.nextId {
      OutboxFlies(s.inFlight, i);
    }
    forall o | o in r.inFlight && Outbox(o) ensures o.id in Ids(ids) {
      ResumedMembers(s.inFlight, t.stuck, o);
      OutboxMember(s.inFlight, o);
    }
    hide Resumed, OutboxOf, Ids;
  }

  lemma ThinnedHands(s: State, inFlight: seq<Occurrence>, left: set<OccurrenceId>)
    requires Handed(s, left) && Thinned(s.inFlight, inFlight)
    ensures Handed(s.(inFlight := inFlight), left)
  {
    forall o | o in inFlight && Outbox(o) ensures o in s.inFlight {
      var q :| q in s.inFlight && q.id == o.id && (o.frozen || q == o);
    }
  }

  lemma RelabelHands(s: State, s': State, left: set<OccurrenceId>)
    requires Handed(s, left) && s'.inFlight == s.inFlight && s'.nextId >= s.nextId && s'.sent == s.sent
             && s'.reconciled == s.reconciled
    ensures Handed(s', left)
  {
  }

  lemma BeginHands(s: State, c: Candidate, t: Turn, left: set<OccurrenceId>)
    requires Numbered(s) && Handed(s, left) && s.reconciled
    ensures Handed(ApplyBegin(s, c, t).0, left + if t.impure && !t.dispatched then {s.nextId} else {})
  {
  }

  lemma ResultHands(s: State, a: Arrival, t: Turn, left: set<OccurrenceId>)
    requires Handed(s, left)
    ensures Handed(ApplyResult(s, a, t).0, left)
  {
    ThinnedWithout(s.inFlight, a.occurrence);
    ThinnedFrozen(s.inFlight, a.occurrence);
    ThinnedHands(s, Without(s.inFlight, a.occurrence), left);
    ThinnedHands(s, Frozen(s.inFlight, a.occurrence), left);
    var s' := ApplyResult(s, a, t).0;
    hide Without, Frozen, Thinned, Handed;
    RelabelHands(s.(inFlight := s'.inFlight), s', left);
  }

  lemma ApplyHands(p: Policy, s: State, a: Action, t: Turn, left: set<OccurrenceId>)
    requires Inv(s) && Handed(s, left) && s.reconciled && Sanctioned(p, s, a)
    ensures Handed(Apply(s, a, t).0, left + if a.BeginCandidate? && t.impure && !t.dispatched then {s.nextId} else {})
  {
    assert left + {} == left;
    match a {
      case AcceptResult(arrival) => ResultHands(s, arrival, t, left);
      case BeginCandidate(c) => BeginHands(s, c, t, left);
      case AcceptDelivery(_, _) => RelabelHands(s, Apply(s, a, t).0, left);
      case AdvanceTime(_) =>
    }
    hide Handed, ApplyResult, ApplyBegin, ApplyDelivery, Sanctioned;
  }

  /** One drive past reconciliation: begun work counts as left behind exactly when its hand-over was refused. */
  lemma ActHands(p: Policy, s: State, t: Turn, left: set<OccurrenceId>)
    requires Inv(s) && Handed(s, left) && s.reconciled
    ensures Handed(Act(p, s, t).0, left + if BeginsImpure(p, s, t) && !t.dispatched then {s.nextId} else {})
  {
    hide Inv, Handed, Observed, Chosen, SnapshotOf, Foreign, Effective, ActionsOf, AnyOutstanding, MayBegin, Apply,
         Choose;
    assert left + {} == left;
    RelabelHands(s, s.(arrived := s.arrived + t.collected), left);
    var o := Observed(s, t);
    ObservedKeeps(s, t);
    ObservedSame(s, t);
    RelabelHands(s, o, left);
    ChosenIs(p, o, t);
    var a := Chosen(p, SnapshotOf(o, t), t.due).value;
    if !a.Wait? && !a.Stop? {
      if a.BeginCandidate? {
        ChosenBegins(p, o, t);
      }
      ApplyHands(p, o, a, t, left);
      var s' := Apply(o, a, t).0;
      RelabelHands(s', s'.(previous := Some(a)),
                   if a.BeginCandidate? && t.impure && !t.dispatched then left + {s.nextId} else left);
    }
  }

  lemma ObservedSame(s: State, t: Turn)
    ensures var o := Observed(s, t);
            && o.inFlight == s.inFlight && o.nextId == s.nextId && o.sent == s.sent && o.reconciled == s.reconciled
            && o.taken == s.taken && o.accepted == s.accepted && o.previous == s.previous
  {
    hide Live;
  }

  lemma NextHands(p: Policy, s: State, e: Event, left: set<OccurrenceId>)
    requires Inv(s) && Handed(s, left)
    ensures Handed(Next(p, s, e), left + LeftBehind(p, s, e))
  {
    match e {
      case Cancels(id) =>
        ThinnedWithout(s.inFlight, id);
        ThinnedHands(s, Without(s.inFlight, id), left);
        assert left + {} == left;
        RelabelHands(s.(inFlight := Without(s.inFlight, id)), Next(p, s, e), left);
      case Drives(t) =>
        if s.reconciled {
          ActHands(p, s, t, left);
          hide Act, Handed, BeginsImpure;
          assert LeftBehind(p, s, e) == if BeginsImpure(p, s, t) && !t.dispatched then {s.nextId} else {};
        } else {
          DriveFirstHands(p, s, t);
          assert left == {};
          assert left + LeftBehind(p, s, e) == LeftBehind(p, s, e);
          hide Handed, LeftBehind, Drive;
        }
    }
  }

  lemma DriveFirstHands(p: Policy, s: State, t: Turn)
    requires Inv(s) && Handed(s, {}) && !s.reconciled
    ensures Handed(Drive(p, s, t).0, LeftBehind(p, s, Drives(t)))
  {
    ReconcileHands(s, t);
    ReconcileKeeps(p, s, t);
    var r, ids := Reconcile(s, t), OutboxOf(s.inFlight);
    var left := Ids(ids) - Ids(ids[..Least(t.republished, |ids|)]);
    assert r.nextId == s.nextId && r.reconciled && r.arrived == s.arrived;
    hide Inv, Handed, Reconcile, Ids, OutboxOf, Act, Observed, Chosen, SnapshotOf, Foreign;
    if ReconcileRaises(s, t) {
      assert left + {} == left;
    } else {
      ActHands(p, r, t, left);
    }
  }

  lemma {:induction false} RunHands(p: Policy, s: State, events: seq<Event>, left: set<OccurrenceId>)
    requires Inv(s) && Handed(s, left)
    ensures Handed(Run(p, s, events), left + AllLeftBehind(p, s, events))
    decreases events
  {
    hide Inv, Handed, Next, LeftBehind;
    if events == [] {
      assert left + {} == left;
    } else {
      var s1, now := Next(p, s, events[0]), LeftBehind(p, s, events[0]);
      NextKeeps(p, s, events[0]);
      NextHands(p, s, events[0], left);
      RunHands(p, s1, events[1..], left + now);
      assert left + now + AllLeftBehind(p, s1, events[1..]) == left + AllLeftBehind(p, s, events);
    }
  }

  // ---- Waiting ------------------------------------------------------------

  ghost predicate WaitsFor(s: State, o: Occurrence) { o in s.inFlight && Outstanding(s.arrived, o) }

  /**
    A drive reports waiting only while something in flight has neither arrived nor
    been frozen.  In every run, some of that was taken by this Dispatch if and only
    if not all of it was left behind by a hand-over that raised.
    */
  lemma WaitingIsReal(p: Policy, inFlight: seq<Occurrence>, nextId: OccurrenceId, known: set<OccurrenceId>,
                      events: seq<Event>, t: Turn)
    requires Numbered(Start(inFlight, nextId, known))
    requires Drive(p, Run(p, Start(inFlight, nextId, known), events), t).1 == WaitingFor
    ensures var start := Start(inFlight, nextId, known);
            var s := Drive(p, Run(p, start, events), t).0;
            var left := AllLeftBehind(p, start, events) + LeftBehind(p, Run(p, start, events), Drives(t));
            && (exists o :: WaitsFor(s, o))
            && (forall o :: WaitsFor(s, o) ==> (o.id in s.sent <==> o.id !in left))
            && ((exists o :: WaitsFor(s, o) && o.id in s.sent) <==> (exists o :: WaitsFor(s, o) && o.id !in left))
  {
    var start := Start(inFlight, nextId, known);
    var before := Run(p, start, events);
    RunKeeps(p, start, events);
    RunHands(p, start, events, {});
    assert {} + AllLeftBehind(p, start, events) == AllLeftBehind(p, start, events);
    NextHands(p, before, Drives(t), AllLeftBehind(p, start, events));
    WaitingDrive(p, before, t);
    hide Run, Drive, LeftBehind, AllLeftBehind, Start;
  }

  lemma WaitingDrive(p: Policy, s: State, t: Turn)
    requires Drive(p, s, t).1 == WaitingFor
    ensures Drive(p, s, t).0.reconciled && exists o :: WaitsFor(Drive(p, s, t).0, o)
  {
    hide Act, Outstanding;
    var r := Reconciled(s, t);
    assert r.reconciled && Drive(p, s, t) == Act(p, r, t);
    WaitingAct(p, r, t);
    ObservedSame(r, t);
    var o := Observed(r, t);
    hide Reconcile, Drive, Observed;
    var i :| 0 <= i < |o.inFlight| && Outstanding(o.arrived, o.inFlight[i]);
    assert WaitsFor(o, o.inFlight[i]);
  }

  /** A run leaves nothing behind exactly when every hand-over it makes returns. */
  lemma {:induction false} NothingLeftBehind(p: Policy, s: State, events: seq<Event>)
    requires Inv(s) && (s.reconciled || OutboxDistinct(s.inFlight))
    ensures AllHandOver(p, s, events) <==> AllLeftBehind(p, s, events) == {}
    decreases events
  {
    if events == [] {
    } else {
      var s1, now := Next(p, s, events[0]), LeftBehind(p, s, events[0]);
      NextKeeps(p, s, events[0]);
      LeavesNothing(p, s, events[0]);
      NextDistinct(p, s, events[0]);
      hide Inv, Next, LeftBehind, HandsOver, OutboxDistinct;
      NothingLeftBehind(p, s1, events[1..]);
      assert AllLeftBehind(p, s, events) == now + AllLeftBehind(p, s1, events[1..]);
    }
  }

  ghost predicate OutboxDistinct(inFlight: seq<Occurrence>) {
    forall i, j :: 0 <= i < j < |OutboxOf(inFlight)| ==> OutboxOf(inFlight)[i] != OutboxOf(inFlight)[j]
  }

  lemma LeavesNothing(p: Policy, s: State, e: Event)
    requires s.reconciled || OutboxDistinct(s.inFlight)
    ensures LeftBehind(p, s, e) == {} <==> HandsOver(p, s, e)
  {
    if e.Drives? && !s.reconciled {
      var ids := OutboxOf(s.inFlight);
      var given := Ids(ids[..Least(e.turn.republished, |ids|)]);
      if RedispatchRaises(s, e.turn) {
        var next := ids[e.turn.republished];
        assert next in Ids(ids);
        assert next !in given;
        assert next in LeftBehind(p, s, e);
      } else {
        assert ids[..|ids|] == ids;
        assert Ids(ids) - given == {};
      }
    }
  }

  lemma {:induction false} WithoutDistinct(inFlight: seq<Occurrence>, id: OccurrenceId)
    requires OutboxDistinct(inFlight)
    ensures OutboxDistinct(Without(inFlight, id))
    ensures forall x :: x in OutboxOf(Without(inFlight, id)) ==> x in OutboxOf(inFlight)
  {
    if inFlight == [] {
    } else {
      var rest := inFlight[1..];
      var head := if Outbox(inFlight[0]) then [inFlight[0].id] else [];
      assert OutboxOf(inFlight) == head + OutboxOf(rest);
      TailDistinct(head, OutboxOf(rest));
      WithoutDistinct(rest, id);
      if inFlight[0].id == id {
        assert Without(inFlight, id) == Without(rest, id);
      } else {
        assert Without(inFlight, id) == [inFlight[0]] + Without(rest, id);
        assert Without(inFlight, id)[1..] == Without(rest, id);
        assert OutboxOf(Without(inFlight, id)) == head + OutboxOf(Without(rest, id));
        HeadDistinct(head, OutboxOf(rest), OutboxOf(Without(rest, id)));
      }
    }
  }

  ghost predicate Distinct(ids: seq<OccurrenceId>) { forall i, j :: 0 <= i < j < |ids| ==> ids[i] != ids[j] }

  lemma TailDistinct(head: seq<OccurrenceId>, rest: seq<OccurrenceId>)
    requires Distinct(head + rest)
    ensures Distinct(rest)
  {
    forall i, j | 0 <= i < j < |rest| ensures rest[i] != rest[j] {
      assert (head + rest)[|head| + i] == rest[i] && (head + rest)[|head| + j] == rest[j];
    }
  }

  lemma HeadDistinct(head: seq<OccurrenceId>, rest: seq<OccurrenceId>, fewer: seq<OccurrenceId>)
    requires Distinct(head + rest) && Distinct(fewer) && |head| <= 1 && forall x :: x in fewer ==> x in rest
    ensures Distinct(head + fewer)
  {
    if head != [] {
      forall x | x in rest ensures x != head[0] {
        var i :| 0 <= i < |rest| && rest[i] == x;
        assert (head + rest)[0] == head[0] && (head + rest)[1 + i] == x;
      }
      forall i, j | 0 <= i < j < |head + fewer| ensures (head + fewer)[i] != (head + fewer)[j] {
        assert fewer[j - 1] in fewer;
      }
    }
  }

  lemma NextDistinct(p: Policy, s: State, e: Event)
    requires s.reconciled || OutboxDistinct(s.inFlight)
    ensures Next(p, s, e).reconciled || OutboxDistinct(Next(p, s, e).inFlight)
  {
    match e {
      case Cancels(id) =>
        if !s.reconciled {
          WithoutDistinct(s.inFlight, id);
        }
      case Drives(t) => DriveReconciles(p, s, t);
    }
  }

  lemma DriveReconciles(p: Policy, s: State, t: Turn)
    ensures Drive(p, s, t).0.reconciled
  {
    var r := Reconciled(s, t);
    ObservedSame(r, t);
    hide Observed, Chosen, SnapshotOf, Foreign, OutboxOf, Ids, Resumed;
  }

  /** When every hand-over returned, everything a drive waits for was taken by this Dispatch. */
  lemma WaitsOnTaken(p: Policy, inFlight: seq<Occurrence>, nextId: OccurrenceId, known: set<OccurrenceId>,
                     events: seq<Event>, t: Turn)
    requires Numbered(Start(inFlight, nextId, known)) && OutboxDistinct(inFlight)
    requires var start := Start(inFlight, nextId, known);
             AllHandOver(p, start, events) && HandsOver(p, Run(p, start, events), Drives(t))
    requires Drive(p, Run(p, Start(inFlight, nextId, known), events), t).1 == WaitingFor
    ensures var s := Drive(p, Run(p, Start(inFlight, nextId, known), events), t).0;
            (exists o :: WaitsFor(s, o)) && forall o :: WaitsFor(s, o) ==> o.id in s.sent
  {
    var start := Start(inFlight, nextId, known);
    NothingLeftBehind(p, start, events);
    RunDistinct(p, start, events);
    LeavesNothing(p, Run(p, start, events), Drives(t));
    WaitingIsReal(p, inFlight, nextId, known, events, t);
  }

  lemma {:induction false} RunDistinct(p: Policy, s: State, events: seq<Event>)
    requires s.reconciled || OutboxDistinct(s.inFlight)
    ensures Run(p, s, events).reconciled || OutboxDistinct(Run(p, s, events).inFlight)
    decreases events
  {
    hide OutboxDistinct, Next;
    if events == [] {
    } else {
      NextDistinct(p, s, events[0]);
      RunDistinct(p, Next(p, s, events[0]), events[1..]);
    }
  }

  // ---- A wait for what was never taken ------------------------------------

  const QUIET := Turn([], true, None, None, false, {}, [], false, true, true, false, true, {}, 0)

  /** With neither result nor delivery at hand the conservative policy waits if it can, and otherwise begins. */
  lemma PlainChoice(s: State, t: Turn)
    requires s.arrived == [] && s.deliveries == [] && t.maturation.None?
    ensures Chosen(Conservative, SnapshotOf(s, t), t.due)
            == Some(if AnyOutstanding(s.arrived, s.inFlight) then Wait
                    else if t.candidate.Some? then BeginCandidate(t.candidate.value) else Stop)
  {
    ChosenIs(Conservative, s, t);
    FirstOffered(s, t);
    NoResults(s, t);
    var actions := ActionsOf(s, t);
    UntimedKeeps(actions, Result);
    UntimedKeeps(actions, Begin);
    UntimedKeeps(actions, Time);
    UntimedKeeps(actions, Ingress);
    UntimedKeeps(actions, Waiting);
    UntimedKeeps(actions, Stopping);
    hide ActionsOf, FirstOf, Untimed, Chosen, AnyOutstanding;
  }

  /** The Dispatch refuses the first invocation; the next drive waits for it all the same. */
  lemma WaitsForNothing()
    ensures var refused := QUIET.(candidate := Some(Candidate("work", [])), impure := true, dispatched := false);
            var s1 := Drive(Conservative, Start([], 0, {}), refused);
            var s2 := Drive(Conservative, s1.0, QUIET);
            && s1.1 == Raised && s2.1 == WaitingFor
            && s2.0.inFlight == [Occurrence(0, [], true, false)] && s2.0.sent == {}
  {
    var t := QUIET.(candidate := Some(Candidate("work", [])), impure := true, dispatched := false);
    var s0 := Reconcile(Start([], 0, {}), t);
    assert s0 == Start([], 0, {}).(reconciled := true);
    PlainDrive(s0, t);
    var s1 := Drive(Conservative, s0, t).0;
    assert Drive(Conservative, Start([], 0, {}), t) == Drive(Conservative, s0, t);
    assert s1.inFlight == [Occurrence(0, [], true, false)];
    assert Outstanding(s1.arrived, s1.inFlight[0]);
    assert AnyOutstanding(s1.arrived, s1.inFlight);
    PlainDrive(s1, QUIET);
  }

  lemma PlainDrive(s: State, t: Turn)
    requires s.reconciled && s.arrived == [] && s.deliveries == [] && t.collected == [] && t.armed == {}
             && t.maturation.None?
    ensures Drive(Conservative, s, t)
            == if AnyOutstanding(s.arrived, s.inFlight) then (s, WaitingFor)
               else if t.candidate.None? then (s, AtRest)
               else
                 var (s', applied) := ApplyBegin(s, t.candidate.value, t);
                 if applied then (s'.(previous := Some(BeginCandidate(t.candidate.value))), Ready) else (s', Raised)
  {
    assert s.arrived + t.collected == [];
    assert Observed(s, t) == s;
    PlainChoice(s, t);
    hide Chosen, SnapshotOf, AnyOutstanding, ApplyBegin, Observed;
  }

  // ---- Deliveries ---------------------------------------------------------

  /** This drive hands a delivery to the writer. */
  ghost predicate TakesDelivery(p: Policy, s: State, t: Turn) {
    && Acts(s, t)
    && var e := Effective(Observed(Reconciled(s, t), t), t);
       && Offers(e.actions, Ingress)
       && (if AfterDelivery(e) then !OwesProgress(p, e) else p.Throughput? || !Offers(e.actions, Result))
  }

  /** It does, and the writer refuses. */
  ghost predicate LosesDelivery(p: Policy, s: State, e: Event) {
    e.Drives? && TakesDelivery(p, s, e.turn) && !e.turn.admits
  }

  ghost predicate LosesNone(p: Policy, s: State, events: seq<Event>)
    decreases events
  {
    events == [] || (!LosesDelivery(p, s, events[0]) && LosesNone(p, Next(p, s, events[0]), events[1..]))
  }

  /** The guard is exactly when the choice falls on a delivery, and then on the head of the buffer. */
  lemma TakesWhenChosen(p: Policy, s: State, t: Turn)
    requires s.reconciled
    ensures var o := Observed(s, t);
            var a := Chosen(p, SnapshotOf(o, t), t.due);
            && a.Some?
            && (TakesDelivery(p, s, t) <==>
                  !Foreign(s, s.arrived + t.collected, t.acknowledged) && a.value.AcceptDelivery?)
            && (a.value.AcceptDelivery? ==> o.deliveries != [] && a.value == AcceptDelivery(o.deliveries[0], 0))
  {
    var o := Observed(s, t);
    ChosenIs(p, o, t);
    DeliversWhen(p, Effective(o, t));
    hide Observed, Chosen, Choose, ActionsOf, OwesProgress, Offers, Effective, SnapshotOf, AnyOutstanding, Foreign;
  }

  lemma ApplyDelivers(s: State, a: Action, t: Turn)
    requires !a.Wait? && !a.Stop?
             && (a.AcceptDelivery? ==> s.deliveries != [] && a == AcceptDelivery(s.deliveries[0], 0))
    ensures var s' := Apply(s, a, t).0;
            && s'.taken == (if a.AcceptDelivery? then s.taken + [s.deliveries[0]] else s.taken)
            && s'.accepted == (if a.AcceptDelivery? && t.admits then s.accepted + [s.deliveries[0]] else s.accepted)
  {
    hide Without, Frozen, Unbuffered;
  }

  lemma ActDelivers(p: Policy, s: State, t: Turn)
    requires s.reconciled
    ensures var s', o := Act(p, s, t).0, Observed(s, t);
            if TakesDelivery(p, s, t) then
              && o.deliveries != [] && s'.taken == s.taken + [o.deliveries[0]]
              && s'.accepted == s.accepted + if t.admits then [o.deliveries[0]] else []
            else s'.taken == s.taken && s'.accepted == s.accepted
  {
    var o := Observed(s, t);
    ObservedSame(s, t);
    TakesWhenChosen(p, s, t);
    hide Observed, Chosen, SnapshotOf, TakesDelivery, Foreign, Apply;
    var a := Chosen(p, SnapshotOf(o, t), t.due).value;
    var s' := Act(p, s, t).0;
    if Foreign(s, s.arrived + t.collected, t.acknowledged) {
      assert s'.taken == s.taken && s'.accepted == s.accepted;
    } else if a.Wait? || a.Stop? {
      assert s' == o;
    } else {
      ApplyDelivers(o, a, t);
      var r := Apply(o, a, t).0;
      assert s' == r || s' == r.(previous := Some(a));
      hide Act;
    }
  }

  lemma NextDelivers(p: Policy, s: State, e: Event)
    ensures var s' := Next(p, s, e);
            exists ds :: && s'.taken == s.taken + ds
                         && s'.accepted == s.accepted + (if LosesDelivery(p, s, e) then [] else ds)
                         && (LosesDelivery(p, s, e) ==> ds != [])
  {
    var s' := Next(p, s, e);
    var none: seq<Delivery> := [];
    assert s.taken + none == s.taken && s.accepted + none == s.accepted;
    if e.Drives? && (s.reconciled || !ReconcileRaises(s, e.turn)) {
      var r := Reconciled(s, e.turn);
      assert r.reconciled && r.taken == s.taken && r.accepted == s.accepted && r.arrived == s.arrived;
      assert s' == Act(p, r, e.turn).0;
      ActDelivers(p, r, e.turn);
      assert TakesDelivery(p, r, e.turn) == TakesDelivery(p, s, e.turn);
      hide Act, Reconcile, TakesDelivery, Next, Observed;
      if TakesDelivery(p, s, e.turn) {
        var ds := [Observed(r, e.turn).deliveries[0]];
        assert s'.taken == s.taken + ds;
      } else {
        assert s'.taken == s.taken + none;
      }
    } else {
      assert s'.taken == s.taken + none;
    }
  }

  /** Accepted is what was taken, or strictly less of it. */
  ghost predicate Accounted(s: State, lossless: bool) {
    if lossless then s.accepted == s.taken else |s.accepted| < |s.taken|
  }

  lemma {:induction false} RunDelivers(p: Policy, s: State, events: seq<Event>, lossless: bool)
    requires Accounted(s, lossless)
    ensures Accounted(Run(p, s, events), lossless && LosesNone(p, s, events))
    decreases events
  {
    if events == [] {
    } else {
      var s1 := Next(p, s, events[0]);
      NextDelivers(p, s, events[0]);
      hide Next, LosesDelivery;
      RunDelivers(p, s1, events[1..], lossless && !LosesDelivery(p, s, events[0]));
    }
  }

  /**
    Deliveries reach the writer in the order they were sensed.  What was accepted
    followed by the buffer is the sensed sequence if and only if no drive handed a
    delivery to a writer that refused it.
    */
  lemma DeliveryOrder(p: Policy, inFlight: seq<Occurrence>, nextId: OccurrenceId, known: set<OccurrenceId>,
                      events: seq<Event>)
    requires Numbered(Start(inFlight, nextId, known))
    ensures var start := Start(inFlight, nextId, known); var s := Run(p, start, events);
            && s.taken + s.deliveries == s.sensed
            && (s.accepted + s.deliveries == s.sensed <==> LosesNone(p, start, events))
  {
    var start := Start(inFlight, nextId, known);
    RunKeeps(p, start, events);
    RunDelivers(p, start, events, true);
    var s := Run(p, start, events);
    hide Run, LosesNone;
    assert |s.taken| + |s.deliveries| == |s.sensed|;
    if s.accepted + s.deliveries == s.sensed {
      assert |s.accepted| + |s.deliveries| == |s.sensed|;
    }
  }

  /** A drive that loses a delivery: one is armed, nothing else is at hand, and the writer refuses. */
  lemma RefusedDeliveryIsLost()
    ensures var d := Delivery("source", "one");
            var t := QUIET.(armed := {"source"}, batch := [d], admits := false);
            var s := Drive(Conservative, Start([], 0, {}), t).0;
            s.sensed == [d] && s.accepted == [] && s.deliveries == []
  {
    var d := Delivery("source", "one");
    var t := QUIET.(armed := {"source"}, batch := [d], admits := false);
    var start := Start([], 0, {});
    var r := Reconcile(start, t);
    assert r == start.(reconciled := true);
    var o := Observed(r, t);
    assert r.arrived + t.collected == [];
    assert o.deliveries == [d] && o.sensed == [d] && o.arrived == [];
    OffersDelivery(o, t);
    ActDelivers(Conservative, r, t);
    RunKeeps(Conservative, start, [Drives(t)]);
    var s := Drive(Conservative, start, t).0;
    SensedStays(Conservative, r, t);
    hide Act;
    assert Run(Conservative, start, [Drives(t)]) == s by {
      assert [Drives(t)][1..] == [];
    }
    assert s.taken == [d] && s.taken + s.deliveries == [d];
  }

  lemma OffersDelivery(s: State, t: Turn)
    requires s.arrived == [] && s.deliveries != [] && s.deliveries[0].source in t.armed
    ensures Offers(Effective(s, t).actions, Ingress) && !Offers(Effective(s, t).actions, Result)
  {
    FirstOffered(s, t);
    NoResults(s, t);
    UntimedKeeps(ActionsOf(s, t), Ingress);
    UntimedKeeps(ActionsOf(s, t), Result);
    FirstOfMeans(Effective(s, t).actions, Ingress);
    FirstOfMeans(Effective(s, t).actions, Result);
  }

  lemma SensedStays(p: Policy, s: State, t: Turn)
    requires !Foreign(s, s.arrived + t.collected, t.acknowledged)
    ensures Act(p, s, t).0.sensed == Observed(s, t).sensed
  {
    hide Observed, Chosen, SnapshotOf, Foreign;
  }
}
