/**
  The coordinator and its two driving policies (`engine/_coordination.py`) over an
  abstract instance: what is in flight, what has arrived, what is buffered, and
  what the outside world answers during one `drive`.
  */
module Coordination {
  import opened Options

  type OccurrenceId = nat
  type Instant = int

  /** One consumed token, by value, at its place. */
  datatype Spent = Spent(place: string, token: string)

  datatype Candidate = Candidate(transition: string, consumed: seq<Spent>)
  datatype Occurrence = Occurrence(id: OccurrenceId, consumed: seq<Spent>, impure: bool, frozen: bool)
  datatype Delivery = Delivery(source: string, identity: string)
  datatype Outcome = Success | Failure
  datatype Arrival = Arrival(occurrence: OccurrenceId, outcome: Outcome)

  /** A delivery action also carries its place in the buffer, standing for object identity. */
  datatype Action =
    | AcceptResult(arrival: Arrival)
    | BeginCandidate(candidate: Candidate)
    | AdvanceTime(instant: Instant)
    | AcceptDelivery(delivery: Delivery, position: nat)
    | Wait
    | Stop

  datatype Kind = Result | Begin | Time | Ingress | Waiting | Stopping

  function KindOf(a: Action): Kind {
    match a
    case AcceptResult(_) => Result
    case BeginCandidate(_) => Begin
    case AdvanceTime(_) => Time
    case AcceptDelivery(_, _) => Ingress
    case Wait => Waiting
    case Stop => Stopping
  }

  datatype Snapshot = Snapshot(actions: seq<Action>, inFlight: seq<Occurrence>, previous: Option<Action>)

  // ---- Policies -----------------------------------------------------------

  predicate Offers(actions: seq<Action>, k: Kind) { exists i :: 0 <= i < |actions| && KindOf(actions[i]) == k }

  /** The first offered action of a kind. */
  function FirstOf(actions: seq<Action>, k: Kind): Option<Action> {
    if actions == [] then None
    else if KindOf(actions[0]) == k then Some(actions[0])
    else FirstOf(actions[1..], k)
  }

  /** `o`, or else the first offered action of a kind. */
  function OrFirst(o: Option<Action>, actions: seq<Action>, k: Kind): Option<Action> {
    if o.Some? then o else FirstOf(actions, k)
  }

  predicate AfterDelivery(s: Snapshot) { s.previous.Some? && s.previous.value.AcceptDelivery? }

  function ChooseConservative(s: Snapshot): Option<Action> {
    var delivery := FirstOf(s.actions, Ingress);
    if FirstOf(s.actions, Result).Some? then FirstOf(s.actions, Result)
    else if delivery.Some? && !AfterDelivery(s) then delivery
    else if FirstOf(s.actions, Waiting).Some? then (if delivery.Some? then delivery else FirstOf(s.actions, Waiting))
    else OrFirst(OrFirst(OrFirst(FirstOf(s.actions, Begin), s.actions, Time), s.actions, Ingress), s.actions, Stopping)
  }

  predicate InUse(inFlight: seq<Occurrence>, x: Spent) { exists i :: 0 <= i < |inFlight| && x in inFlight[i].consumed }

  /** No token the candidate would consume equals one already spent by work in flight. */
  predicate Independent(inFlight: seq<Occurrence>, c: Candidate) {
    forall x :: x in c.consumed ==> !InUse(inFlight, x)
  }

  function FirstIndependent(actions: seq<Action>, inFlight: seq<Occurrence>): Option<Action> {
    if actions == [] then None
    else if actions[0].BeginCandidate? && Independent(inFlight, actions[0].candidate) then Some(actions[0])
    else FirstIndependent(actions[1..], inFlight)
  }

  function ChooseThroughput(s: Snapshot): Option<Action> {
    var delivery := FirstOf(s.actions, Ingress);
    var independent := FirstIndependent(s.actions, s.inFlight);
    if delivery.Some? && !AfterDelivery(s) then delivery
    else if independent.Some? then independent
    else
      var progress := OrFirst(OrFirst(FirstOf(s.actions, Result), s.actions, Time), s.actions, Ingress);
      OrFirst(OrFirst(progress, s.actions, Waiting), s.actions, Stopping)
  }

  datatype Policy = Conservative | Throughput

  function Choose(p: Policy, s: Snapshot): Option<Action> {
    if p.Conservative? then ChooseConservative(s) else ChooseThroughput(s)
  }

  // ---- One turn -----------------------------------------------------------

  /** What the outside world answers during one `drive`. */
  datatype Turn = Turn(
    collected: seq<Arrival>,          // what the Dispatch hands over
    acknowledged: bool,               // late results agree with what was recorded
    candidate: Option<Candidate>,     // the selected enabled binding
    maturation: Option<Instant>, due: bool,
    armed: set<string>, batch: seq<Delivery>,
    impure: bool,                     // the begun transition has an activity
    dispatched: bool,                 // the Dispatch takes the invocation without raising
    completes: bool,                  // projection or pure handler succeeds
    projectsFailure: bool,            // the handler projects activity failures
    admits: bool,                     // the writer accepts the delivery
    stuck: set<OccurrenceId>,         // resumed work whose completion raises
    republished: nat)                 // resumed invocations the Dispatch takes again before one raises

  /**
    `sent` (invocations whose hand-over to the Dispatch returned), `sensed`, `taken`
    and `accepted` record what happened; the rest is the coordinator and its instance.
    */
  datatype State = State(
    inFlight: seq<Occurrence>, nextId: OccurrenceId, arrived: seq<Arrival>, deliveries: seq<Delivery>,
    known: set<OccurrenceId>, previous: Option<Action>, reconciled: bool,
    sent: set<OccurrenceId>, sensed: seq<Delivery>, taken: seq<Delivery>, accepted: seq<Delivery>)

  datatype Posture = Ready | WaitingFor | AtRest | Raised

  predicate Flying(inFlight: seq<Occurrence>, id: OccurrenceId) {
    exists i :: 0 <= i < |inFlight| && inFlight[i].id == id
  }

  function Without(inFlight: seq<Occurrence>, id: OccurrenceId): seq<Occurrence> {
    if inFlight == [] then [] else (if inFlight[0].id == id then [] else [inFlight[0]]) + Without(inFlight[1..], id)
  }

  function Frozen(inFlight: seq<Occurrence>, id: OccurrenceId): seq<Occurrence> {
    seq(|inFlight|, i requires 0 <= i < |inFlight| =>
      if inFlight[i].id == id then inFlight[i].(frozen := true) else inFlight[i])
  }

  // ---- Reconcile ----------------------------------------------------------

  predicate Outbox(o: Occurrence) { o.impure && !o.frozen }

  function Resumed(inFlight: seq<Occurrence>, stuck: set<OccurrenceId>): seq<Occurrence> {
    if inFlight == [] then []
    else (if Outbox(inFlight[0]) || inFlight[0].id in stuck then [inFlight[0]] else []) + Resumed(inFlight[1..], stuck)
  }

  /** The recorded requests to hand over again, in begin order. */
  function OutboxOf(inFlight: seq<Occurrence>): seq<OccurrenceId> {
    if inFlight == [] then []
    else (if Outbox(inFlight[0]) then [inFlight[0].id] else []) + OutboxOf(inFlight[1..])
  }

  function Ids(ids: seq<OccurrenceId>): set<OccurrenceId> { set i | 0 <= i < |ids| :: ids[i] }

  /**
    A redispatch that raises ends reconciliation on the spot: later
    requests are not handed over, nothing completes.
    */
  predicate RedispatchRaises(s: State, t: Turn) { t.republished < |OutboxOf(s.inFlight)| }

  function Reconcile(s: State, t: Turn): State {
    var ids := OutboxOf(s.inFlight);
    if RedispatchRaises(s, t) then
      s.(reconciled := true, sent := s.sent + Ids(ids[..t.republished]),
         known := s.known + Ids(ids[..t.republished + 1]))
    else
      s.(reconciled := true, inFlight := Resumed(s.inFlight, t.stuck), sent := s.sent + Ids(ids),
         known := s.known + Ids(ids))
  }

  predicate ReconcileRaises(s: State, t: Turn) {
    RedispatchRaises(s, t) || exists o :: o in s.inFlight && !Outbox(o) && o.id in t.stuck
  }

  // ---- Observe ------------------------------------------------------------

  function Live(arrived: seq<Arrival>, inFlight: seq<Occurrence>): seq<Arrival> {
    if arrived == [] then []
    else (if Flying(inFlight, arrived[0].occurrence) then [arrived[0]] else []) + Live(arrived[1..], inFlight)
  }

  /** A completion that is neither in flight nor acknowledged as late is refused. */
  predicate Foreign(s: State, arrived: seq<Arrival>, acknowledged: bool) {
    exists a :: a in arrived && !Flying(s.inFlight, a.occurrence) && (a.occurrence !in s.known || !acknowledged)
  }

  predicate HasArrived(arrived: seq<Arrival>, id: OccurrenceId) {
    exists i :: 0 <= i < |arrived| && arrived[i].occurrence == id
  }

  /** In flight, impure, with neither a result arrived nor one frozen. */
  predicate Outstanding(arrived: seq<Arrival>, o: Occurrence) { Outbox(o) && !HasArrived(arrived, o.id) }

  predicate AnyOutstanding(arrived: seq<Arrival>, inFlight: seq<Occurrence>) {
    exists i :: 0 <= i < |inFlight| && Outstanding(arrived, inFlight[i])
  }

  function Results(arrived: seq<Arrival>): seq<Action> {
    seq(|arrived|, i requires 0 <= i < |arrived| => AcceptResult(arrived[i]))
  }

  /** Buffered parcels in order, up to the first whose source is not armed. */
  function Acceptable(deliveries: seq<Delivery>, armed: set<string>, from: nat): seq<Action>
    requires from <= |deliveries|
    decreases |deliveries| - from
  {
    if from == |deliveries| || deliveries[from].source !in armed then []
    else [AcceptDelivery(deliveries[from], from)] + Acceptable(deliveries, armed, from + 1)
  }

  function Sense(s: State, t: Turn): State {
    if s.deliveries == [] && t.armed != {} then s.(deliveries := t.batch, sensed := s.sensed + t.batch) else s
  }

  /** Buffers after one observation that does not raise. */
  function Observed(s: State, t: Turn): State {
    Sense(s.(arrived := Live(s.arrived + t.collected, s.inFlight)), t)
  }

  function ActionsOf(s: State, t: Turn): seq<Action> {
    Results(s.arrived)
    + (if t.candidate.Some? then [BeginCandidate(t.candidate.value)] else [])
    + (if t.maturation.Some? then [AdvanceTime(t.maturation.value)] else [])
    + Acceptable(s.deliveries, t.armed, 0)
    + (if AnyOutstanding(s.arrived, s.inFlight) then [Wait] else [])
    + [Stop]
  }

  function SnapshotOf(s: State, t: Turn): Snapshot { Snapshot(ActionsOf(s, t), s.inFlight, s.previous) }

  // ---- Choose -------------------------------------------------------------

  function Drop(actions: seq<Action>, a: Action): (r: seq<Action>)
    ensures |r| <= |actions| && (a in actions ==> |r| < |actions|)
  {
    if actions == [] then []
    else if actions[0] == a then Drop(actions[1..], a)
    else [actions[0]] + Drop(actions[1..], a)
  }

  /** The re-choose loop: an advance that is not due withdraws its offer and the policy chooses again. */
  function Chosen(p: Policy, s: Snapshot, due: bool): Option<Action>
    decreases |s.actions|
  {
    var a := Choose(p, s);
    if a.None? || a.value !in s.actions then None
    else if a.value.AdvanceTime? && !due then Chosen(p, s.(actions := Drop(s.actions, a.value)), due)
    else a
  }

  // ---- Apply --------------------------------------------------------------

  function Unbuffered(arrived: seq<Arrival>, id: OccurrenceId): seq<Arrival> {
    if arrived == [] then []
    else if arrived[0].occurrence == id then arrived[1..]
    else [arrived[0]] + Unbuffered(arrived[1..], id)
  }

  function ApplyResult(s: State, a: Arrival, t: Turn): (State, bool) {
    var rest := s.(arrived := Unbuffered(s.arrived, a.occurrence));
    if a.outcome.Failure? && !t.projectsFailure then (rest.(inFlight := Without(s.inFlight, a.occurrence)), false)
    else if t.completes then (rest.(inFlight := Without(s.inFlight, a.occurrence)), true)
    else (rest.(inFlight := Frozen(s.inFlight, a.occurrence)), false)
  }

  function ApplyBegin(s: State, c: Candidate, t: Turn): (State, bool) {
    var begun := s.(nextId := s.nextId + 1);
    if !t.impure then (begun, t.completes)
    else (begun.(inFlight := s.inFlight + [Occurrence(s.nextId, c.consumed, true, false)],
                 known := s.known + {s.nextId}, sent := s.sent + if t.dispatched then {s.nextId} else {}), t.dispatched)
  }

  function ApplyDelivery(s: State, d: Delivery, position: nat, t: Turn): (State, bool)
    requires position < |s.deliveries|
  {
    var rest := s.(deliveries := s.deliveries[..position] + s.deliveries[position + 1..], taken := s.taken + [d]);
    if !t.admits then (rest, false)
    else (rest.(accepted := s.accepted + [d], nextId := s.nextId + 1), t.completes)
  }

  function Apply(s: State, a: Action, t: Turn): (State, bool)
    requires !a.Wait? && !a.Stop?
    requires a.AcceptDelivery? ==> a.position < |s.deliveries|
  {
    match a
    case AcceptResult(arrival) => ApplyResult(s, arrival, t)
    case BeginCandidate(c) => ApplyBegin(s, c, t)
    case AdvanceTime(_) => (s, true)
    case AcceptDelivery(d, position) => ApplyDelivery(s, d, position, t)
  }

  /** Observe, choose and apply at most one action. */
  function Act(p: Policy, s: State, t: Turn): (State, Posture) {
    if Foreign(s, s.arrived + t.collected, t.acknowledged) then (s.(arrived := s.arrived + t.collected), Raised)
    else
      var o := Observed(s, t);
      var a := Chosen(p, SnapshotOf(o, t), t.due);
      if a.None? || (a.value.AcceptDelivery? && a.value.position >= |o.deliveries|) then (o, Raised)
      else if a.value.Wait? then (o, WaitingFor)
      else if a.value.Stop? then (o, AtRest)
      else
        var (s', applied) := Apply(o, a.value, t);
        if applied then (s'.(previous := a), Ready) else (s', Raised)
  }

  function Drive(p: Policy, s: State, t: Turn): (State, Posture) {
    if s.reconciled then Act(p, s, t)
    else if ReconcileRaises(s, t) then (Reconcile(s, t), Raised)
    else Act(p, Reconcile(s, t), t)
  }

  /** Between drives, a lifecycle closure may end work in flight. */
  datatype Event = Drives(turn: Turn) | Cancels(id: OccurrenceId)

  function Next(p: Policy, s: State, e: Event): State {
    match e
    case Drives(t) => Drive(p, s, t).0
    case Cancels(id) => s.(inFlight := Without(s.inFlight, id), known := s.known + {id})
  }

  function Run(p: Policy, s: State, events: seq<Event>): State
    decreases events
  {
    if events == [] then s else Run(p, Next(p, s, events[0]), events[1..])
  }

  /** A new coordinator over a resumed instance. */
  function Start(inFlight: seq<Occurrence>, nextId: OccurrenceId, known: set<OccurrenceId>): State {
    State(inFlight, nextId, [], [], known, None, false, {}, [], [], [])
  }
}
