/**
  What the driving policies and the coordinator keep over every run: offered
  choices, delivery order, alternation, independent work in flight, and a wait
  that is never idle.
  */
module CoordinationSafety {
  import opened Options
  import opened Coordination

  // ---- What is offered ----------------------------------------------------

  lemma {:induction false} FirstOfMeans(actions: seq<Action>, k: Kind)
    ensures FirstOf(actions, k).Some? <==> Offers(actions, k)
    ensures FirstOf(actions, k).Some? ==> FirstOf(actions, k).value in actions && KindOf(FirstOf(actions, k).value) == k
  {
    if actions == [] {
    } else {
      FirstOfMeans(actions[1..], k);
      if Offers(actions[1..], k) {
        var i :| 0 <= i < |actions[1..]| && KindOf(actions[1..][i]) == k;
        assert KindOf(actions[i + 1]) == k;
      }
      if Offers(actions, k) && KindOf(actions[0]) != k {
        var i :| 0 <= i < |actions| && KindOf(actions[i]) == k;
        assert KindOf(actions[1..][i - 1]) == k;
      }
    }
  }

  lemma {:induction false} FirstIndependentMeans(actions: seq<Action>, inFlight: seq<Occurrence>)
    ensures var r := FirstIndependent(actions, inFlight);
            && (r.Some? ==> r.value in actions && r.value.BeginCandidate? && Independent(inFlight, r.value.candidate))
            && (r.None? ==> forall a :: a in actions && a.BeginCandidate? ==> !Independent(inFlight, a.candidate))
  {
    if actions == [] {
    } else {
      hide Independent;
      FirstIndependentMeans(actions[1..], inFlight);
    }
  }

  lemma {:induction false} FirstOfSplit(a: seq<Action>, b: seq<Action>, k: Kind)
    ensures FirstOf(a + b, k) == OrFirst(FirstOf(a, k), b, k)
  {
    if a == [] {
      assert a + b == b;
    } else {
      assert (a + b)[1..] == a[1..] + b;
      FirstOfSplit(a[1..], b, k);
    }
  }

  lemma {:induction false} FirstOfNone(actions: seq<Action>, k: Kind)
    requires forall a :: a in actions ==> KindOf(a) != k
    ensures FirstOf(actions, k).None?
  {
    if actions == [] {
    } else {
      FirstOfNone(actions[1..], k);
    }
  }

  lemma {:induction false} AcceptableAre(deliveries: seq<Delivery>, armed: set<string>, from: nat)
    requires from <= |deliveries|
    ensures forall a :: a in Acceptable(deliveries, armed, from) ==> a.AcceptDelivery?
    decreases |deliveries| - from
  {
    if from < |deliveries| {
      AcceptableAre(deliveries, armed, from + 1);
    }
  }

  /** The first action of each kind, read off the state. */
  ghost predicate OfferedFirst(s: State, t: Turn) {
    var actions := ActionsOf(s, t);
    && FirstOf(actions, Begin) == (if t.candidate.Some? then Some(BeginCandidate(t.candidate.value)) else None)
    && FirstOf(actions, Time) == (if t.maturation.Some? then Some(AdvanceTime(t.maturation.value)) else None)
    && FirstOf(actions, Ingress)
       == (if s.deliveries != [] && s.deliveries[0].source in t.armed then Some(AcceptDelivery(s.deliveries[0], 0))
           else None)
    && FirstOf(actions, Waiting) == (if AnyOutstanding(s.arrived, s.inFlight) then Some(Wait) else None)
    && FirstOf(actions, Stopping) == Some(Stop)
  }

  lemma FirstOfParts(r: seq<Action>, b: seq<Action>, m: seq<Action>, d: seq<Action>, w: seq<Action>, k: Kind)
    ensures FirstOf(r + b + m + d + w + [Stop], k)
            == OrFirst(OrFirst(OrFirst(OrFirst(OrFirst(FirstOf(r, k), b, k), m, k), d, k), w, k), [Stop], k)
  {
    FirstOfSplit(r + b + m + d + w, [Stop], k);
    FirstOfSplit(r + b + m + d, w, k);
    FirstOfSplit(r + b + m, d, k);
    FirstOfSplit(r + b, m, k);
    FirstOfSplit(r, b, k);
  }

  lemma FirstOfOne(a: Action, k: Kind)
    ensures FirstOf([a], k) == (if KindOf(a) == k then Some(a) else None) && FirstOf([], k) == None
  {
    assert [a][1..] == [];
  }

  /** The candidate and the maturation each offer at most one action. */
  lemma OptionalOffers(t: Turn, k: Kind)
    ensures FirstOf(if t.candidate.Some? then [BeginCandidate(t.candidate.value)] else [], k)
            == if t.candidate.Some? && k.Begin? then Some(BeginCandidate(t.candidate.value)) else None
    ensures FirstOf(if t.maturation.Some? then [AdvanceTime(t.maturation.value)] else [], k)
            == if t.maturation.Some? && k.Time? then Some(AdvanceTime(t.maturation.value)) else None
  {
    FirstOfOne(Stop, k);
    if t.candidate.Some? {
      FirstOfOne(BeginCandidate(t.candidate.value), k);
    }
    if t.maturation.Some? {
      FirstOfOne(AdvanceTime(t.maturation.value), k);
    }
    hide FirstOf;
  }

  /** Results offer only results, buffered deliveries only deliveries, the first of them the head of the buffer. */
  lemma BufferedOffers(s: State, t: Turn, k: Kind)
    requires k != Result
    ensures FirstOf(Results(s.arrived), k).None?
    ensures FirstOf(Acceptable(s.deliveries, t.armed, 0), k)
            == if k.Ingress? && s.deliveries != [] && s.deliveries[0].source in t.armed
               then Some(AcceptDelivery(s.deliveries[0], 0))
               else None
  {
    FirstOfNone(Results(s.arrived), k);
    AcceptableAre(s.deliveries, t.armed, 0);
    if k != Ingress {
      FirstOfNone(Acceptable(s.deliveries, t.armed, 0), k);
    }
  }

  lemma OfferedOf(s: State, t: Turn, k: Kind)
    requires k != Result
    ensures FirstOf(ActionsOf(s, t), k)
            == match k
               case Begin => if t.candidate.Some? then Some(BeginCandidate(t.candidate.value)) else None
               case Time => if t.maturation.Some? then Some(AdvanceTime(t.maturation.value)) else None
               case Ingress =>
                 if s.deliveries != [] && s.deliveries[0].source in t.armed
                 then Some(AcceptDelivery(s.deliveries[0], 0))
                 else None
               case Waiting => if AnyOutstanding(s.arrived, s.inFlight) then Some(Wait) else None
               case Stopping => Some(Stop)
               case Result => None
  {
    var b := if t.candidate.Some? then [BeginCandidate(t.candidate.value)] else [];
    var m := if t.maturation.Some? then [AdvanceTime(t.maturation.value)] else [];
    var d := Acceptable(s.deliveries, t.armed, 0);
    var w := if AnyOutstanding(s.arrived, s.inFlight) then [Wait] else [];
    FirstOfParts(Results(s.arrived), b, m, d, w, k);
    OptionalOffers(t, k);
    BufferedOffers(s, t, k);
    FirstOfOne(Wait, k);
    FirstOfOne(Stop, k);
    hide FirstOf, Results, Acceptable, AnyOutstanding;
  }

  lemma FirstOffered(s: State, t: Turn)
    ensures OfferedFirst(s, t)
  {
    hide FirstOf, ActionsOf, AnyOutstanding;
    OfferedOf(s, t, Begin);
    OfferedOf(s, t, Time);
    OfferedOf(s, t, Ingress);
    OfferedOf(s, t, Waiting);
    OfferedOf(s, t, Stopping);
  }

  // ---- The re-choose loop -------------------------------------------------

  /** The snapshot had time never been offered. */
  function Untimed(actions: seq<Action>): seq<Action> {
    if actions == [] then []
    else if actions[0].AdvanceTime? then Untimed(actions[1..])
    else [actions[0]] + Untimed(actions[1..])
  }

  lemma {:induction false} UntimedKeeps(actions: seq<Action>, k: Kind)
    ensures FirstOf(Untimed(actions), k) == if k.Time? then None else FirstOf(actions, k)
  {
    if actions == [] {
    } else {
      UntimedKeeps(actions[1..], k);
      if !actions[0].AdvanceTime? {
        assert Untimed(actions)[1..] == Untimed(actions[1..]);
      }
    }
  }

  lemma {:induction false} UntimedKeepsIndependent(actions: seq<Action>, inFlight: seq<Occurrence>)
    ensures FirstIndependent(Untimed(actions), inFlight) == FirstIndependent(actions, inFlight)
  {
    if actions == [] {
    } else {
      hide Independent;
      UntimedKeepsIndependent(actions[1..], inFlight);
      if !actions[0].AdvanceTime? {
        assert Untimed(actions)[1..] == Untimed(actions[1..]);
      }
    }
  }

  lemma {:induction false} DropUntimed(actions: seq<Action>, a: Action)
    requires a.AdvanceTime?
    ensures Untimed(Drop(actions, a)) == Untimed(actions)
    ensures Stop in actions ==> Stop in Drop(actions, a)
  {
    if actions == [] {
    } else {
      DropUntimed(actions[1..], a);
      if actions[0] != a {
        assert Drop(actions, a)[1..] == Drop(actions[1..], a);
      }
    }
  }

  lemma UntimedChoice(p: Policy, s: Snapshot)
    ensures var c := Choose(p, s);
            c.Some? && !c.value.AdvanceTime? ==> Choose(p, s.(actions := Untimed(s.actions))) == c
  {
    UntimedKeeps(s.actions, Result);
    UntimedKeeps(s.actions, Begin);
    UntimedKeeps(s.actions, Time);
    UntimedKeeps(s.actions, Ingress);
    UntimedKeeps(s.actions, Waiting);
    UntimedKeeps(s.actions, Stopping);
    UntimedKeepsIndependent(s.actions, s.inFlight);
    FirstOfMeans(s.actions, Time);
    hide FirstOf, FirstIndependent, Untimed, Offers;
  }

  lemma {:induction false} DropMembers(actions: seq<Action>, a: Action)
    ensures forall b :: b in Drop(actions, a) ==> b in actions
  {
    if actions == [] {
    } else {
      DropMembers(actions[1..], a);
    }
  }

  lemma AllKinds(s: Snapshot)
    ensures forall k: Kind :: FirstOf(s.actions, k).Some? <==> Offers(s.actions, k)
    ensures forall k: Kind :: FirstOf(s.actions, k).Some? ==>
              FirstOf(s.actions, k).value in s.actions && KindOf(FirstOf(s.actions, k).value) == k
    ensures var r := FirstIndependent(s.actions, s.inFlight);
            && (r.Some? ==>
                r.value in s.actions && r.value.BeginCandidate? && Independent(s.inFlight, r.value.candidate))
            && (r.None? ==> forall a :: a in s.actions && a.BeginCandidate? ==> !Independent(s.inFlight, a.candidate))
  {
    hide Independent, Offers, FirstOf;
    forall k: Kind ensures FirstOf(s.actions, k).Some? <==> Offers(s.actions, k)
                   ensures FirstOf(s.actions, k).Some? ==>
                             FirstOf(s.actions, k).value in s.actions && KindOf(FirstOf(s.actions, k).value) == k
    {
      FirstOfMeans(s.actions, k);
    }
    FirstIndependentMeans(s.actions, s.inFlight);
  }

  lemma ChoiceIsOffered(p: Policy, s: Snapshot)
    requires Stop in s.actions
    ensures Choose(p, s).Some? && Choose(p, s).value in s.actions
  {
    var i :| 0 <= i < |s.actions| && s.actions[i] == Stop;
    assert KindOf(s.actions[i]) == Stopping;
    assert Offers(s.actions, Stopping);
    AllKinds(s);
    hide FirstOf, FirstIndependent, Independent, Offers;
  }

  /** The loop always ends with an offered action, and an advance that is not due counts as never offered. */
  lemma {:induction false} RechooseIgnoresUndue(p: Policy, s: Snapshot, due: bool)
    requires Stop in s.actions
    ensures Chosen(p, s, due) == Choose(p, if due then s else s.(actions := Untimed(s.actions)))
    ensures Chosen(p, s, due).Some? && Chosen(p, s, due).value in s.actions
    ensures Chosen(p, s, due).value.AdvanceTime? ==> due
    decreases |s.actions|
  {
    ChoiceIsOffered(p, s);
    var a := Choose(p, s).value;
    hide Choose;
    if a.AdvanceTime? && !due {
      DropUntimed(s.actions, a);
      DropMembers(s.actions, a);
      RechooseIgnoresUndue(p, s.(actions := Drop(s.actions, a)), due);
    } else if !due {
      UntimedChoice(p, s);
    }
  }

  // ---- Alternation --------------------------------------------------------

  /** The progress that the policy owes before a second delivery in a row is available. */
  ghost predicate OwesProgress(p: Policy, s: Snapshot) {
    match p
    case Conservative =>
      || Offers(s.actions, Result)
      || (!Offers(s.actions, Waiting) && (Offers(s.actions, Begin) || Offers(s.actions, Time)))
    case Throughput =>
      || Offers(s.actions, Result) || Offers(s.actions, Time)
      || exists a :: a in s.actions && a.BeginCandidate? && Independent(s.inFlight, a.candidate)
  }

  /** When a delivery is chosen, exactly; and it is always the first one offered. */
  lemma DeliversWhen(p: Policy, s: Snapshot)
    requires Stop in s.actions
    ensures var c := Choose(p, s);
            (c.Some? && c.value.AcceptDelivery?) <==>
              && Offers(s.actions, Ingress)
              && (if AfterDelivery(s) then !OwesProgress(p, s) else p.Throughput? || !Offers(s.actions, Result))
    ensures Choose(p, s).Some? && Choose(p, s).value.AcceptDelivery? ==> Choose(p, s) == FirstOf(s.actions, Ingress)
  {
    AllKinds(s);
    hide FirstOf, FirstIndependent, Independent, Offers;
  }

  /** While a result is outstanding the conservative policy begins nothing. */
  lemma ConservativeBegins(s: Snapshot)
    ensures var c := Choose(Conservative, s);
            c.Some? && c.value.BeginCandidate? ==> !Offers(s.actions, Waiting) && !Offers(s.actions, Result)
  {
    AllKinds(s);
    hide FirstOf, FirstIndependent, Independent, Offers;
  }

  /** The throughput policy begins only independent work. */
  lemma ThroughputBegins(s: Snapshot)
    ensures var c := Choose(Throughput, s);
            c.Some? && c.value.BeginCandidate? ==> Independent(s.inFlight, c.value.candidate)
  {
    AllKinds(s);
    hide FirstOf, FirstIndependent, Independent, Offers;
  }
}
