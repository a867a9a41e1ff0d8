/**
  The deterministic simulation World of `src/petrus/testing/dst.py`, on values.

  A World interprets authored attempts over an application profile: a priority
  queue of commands ordered by (instant, order), revocable generations, armed
  faults, hard budgets, an operation log and a journal.  The profile is a record
  of total deterministic functions; inside a profile operation the only services
  are the clock, stable identities and fault consultation, so an operation is a
  bounded script of service calls.  Strict JSON values are canonical text.
  */
module World {
  import opened Options

  // ---- Vocabulary ---------------------------------------------------------

  type Json = string

  datatype Command = Command(profile: string, name: string, payload: Json)
  datatype Fault = Fault(profile: string, name: string, target: string, occurrence: nat,
                         disposition: string, payload: Json)
  datatype Request = Request(name: string, payload: Json)
  datatype Scheduled = Scheduled(instant: nat, command: Command)
  datatype ApplyResult = ApplyResult(disposition: string, value: Json, scheduled: seq<Scheduled>)
  datatype Observation = Observation(name: string, value: Json, instant: nat, generation: nat, sequence: nat)
  datatype CheckResult = CheckResult(passed: bool, detail: Json)
  /** One named resource figure; a resource dictionary is its name-sorted listing. */
  datatype Gauge = Gauge(name: string, value: nat)
  datatype Source = Authored | FromProfile
  datatype Ending = Converged | Quiescent | ExternalWait | Quarantined

  /** How a World ended: an authored ending or one of the interpreter's failures. */
  datatype Disposition = Ended(ending: Ending) | BudgetExhausted | InvariantFailure

  datatype Attempt =
    | Submit(generation: nat, command: Command)
    | Step
    | ActivateFault(generation: nat, fault: Fault)
    | Observe(generation: nat, request: Request, poll: bool)
    | Crash(generation: nat, cut: string)
    | Restart
    | BeginFair(generation: nat)
    | Finish(generation: nat, ending: Ending)

  datatype FailureDetail =
    | BudgetFailure(bound: string, limit: nat)
    | CheckerFailure(checkers: seq<string>)

  datatype Operation =
    | ExecuteOp(position: nat, source: Source, order: nat, instant: nat, generation: nat,
                command: Command, result: ApplyResult)
    | FaultOp(position: nat, instant: nat, generation: nat, fault: Fault)
    | ObserveOp(position: nat, poll: bool, observation: Observation, request: Request)
    | CrashOp(position: nat, instant: nat, generation: nat, cut: string, discarded: nat)
    | RestartOp(position: nat, instant: nat, generation: nat)
    | FairOp(position: nat, instant: nat, generation: nat)
    | FinishOp(position: nat, instant: nat, generation: nat, ending: Ending)
    | FailureOp(position: nat, instant: nat, live: Option<nat>, accepted: nat, attempt: Attempt,
                failure: FailureDetail)

  datatype Kind = CreatedEntry | LoadedEntry | CommandEntry | FaultEntry | ObservationEntry | CheckEntry
                | CrashEntry | FairEntry | FinishEntry | BudgetEntry | FailureEntry | ResourceEntry

  datatype EntryValue =
    | ScheduledValue(scheduled: seq<Scheduled>)
    | OperationValue(operation: Operation)
    | CheckValue(checker: string, trigger: string, observation: Observation, result: CheckResult)
    | UsageValue(usage: seq<Gauge>)
    | LimitValue(limit: nat)

  datatype Entry = Entry(position: nat, instant: nat, generation: Option<nat>, kind: Kind, name: string,
                         value: EntryValue)

  datatype Queued = Queued(instant: nat, order: nat, generation: nat, source: Source, command: Command)
  datatype ActiveFault = ActiveFault(fault: Fault, seen: nat)

  // ---- The application profile --------------------------------------------

  datatype Service = AskNow | AskId(namespace: string) | AskFaults(target: string)
  datatype Answer = NowIs(instant: nat) | IdIs(namespace: string, ordinal: nat) | FaultsAre(faults: seq<Fault>)

  /** A profile operation: it consults at most `rounds` services, each chosen from the answers so far. */
  datatype Script<A> = Script(rounds: nat, next: seq<Answer> -> Option<Service>, finish: seq<Answer> -> A)

  datatype Started<H> = Started(host: H, scheduled: seq<Scheduled>)
  datatype Applied<H> = Applied(host: H, result: ApplyResult)
  datatype Observed<H> = Observed(host: H, value: Json)

  /** `H` is everything the application keeps: its durable store and its live generation. */
  datatype Profile<!H> = Profile(
    identity: string,
    initial: H,
    validate: Command -> bool,
    validateFault: Fault -> bool,
    create: H -> Script<Started<H>>,
    load: H -> Script<Started<H>>,
    apply: (H, Command) -> Script<Applied<H>>,
    observe: (H, Request) -> Script<Observed<H>>,
    drop: H -> H,
    usage: (H, bool) -> seq<Gauge>)

  datatype Checker = Checker(name: string, request: Request, check: Observation -> CheckResult)

  /** `resources` is present exactly for the version-4 budget. */
  datatype Budget = Budget(actions: nat, queued: nat, timerAdvances: nat, logicalInstant: nat, reloads: nat,
                           polls: nat, resources: Option<seq<Gauge>>)

  datatype Config<!H> = Config(profile: Profile<H>, budget: Budget, checkers: seq<Checker>)

  // ---- State --------------------------------------------------------------

  /** What the profile's context may change: stable-identity counters and armed faults. */
  datatype Services = Services(ids: map<string, nat>, faults: seq<ActiveFault>)

  datatype State<H> = State(
    instant: nat,
    host: H,
    generation: Option<nat>,
    lastGeneration: nat,
    queue: seq<Queued>,
    queueOrder: nat,
    operations: seq<Operation>,
    journal: seq<Entry>,
    services: Services,
    actions: nat,
    timerAdvances: nat,
    reloads: nat,
    polls: nat,
    fair: bool,
    disposition: Option<Disposition>)

  /** How one interpreter call ended: the source returns, or raises one of these families. */
  datatype Outcome =
    | Done
    | Refused                                    // DstError, StaleGeneration, PendingWork, argument errors
    | Broken                                     // the profile broke its protocol
    | Exhausted(bound: string, limit: nat)       // BudgetExhausted
    | Violated(checkers: seq<string>)            // InvariantViolation

  datatype Result<H> = Result(world: State<H>, outcome: Outcome)

  // ---- Services -----------------------------------------------------------

  /** Faults of `armed` that this consultation of `target` fires: those reaching their occurrence. */
  function Matched(armed: seq<ActiveFault>, target: string): seq<Fault> {
    if armed == [] then []
    else
      var a := armed[0];
      (if a.fault.target == target && a.seen + 1 == a.fault.occurrence then [a.fault] else [])
      + Matched(armed[1..], target)
  }

  /** The faults still armed afterwards, consultations of `target` counted. */
  function Retained(armed: seq<ActiveFault>, target: string): seq<ActiveFault> {
    if armed == [] then []
    else
      var a := armed[0];
      (if a.fault.target != target then [a]
       else if a.seen + 1 == a.fault.occurrence then []
       else [ActiveFault(a.fault, a.seen + 1)])
      + Retained(armed[1..], target)
  }

  function Consult(service: Service, instant: nat, s: Services): (Answer, Services) {
    match service
    case AskNow => (NowIs(instant), s)
    case AskId(ns) =>
      var ordinal := (if ns in s.ids then s.ids[ns] else 0) + 1;
      (IdIs(ns, ordinal), s.(ids := s.ids[ns := ordinal]))
    case AskFaults(target) =>
      (FaultsAre(Matched(s.faults, target)), s.(faults := Retained(s.faults, target)))
  }

  function Run<A>(script: Script<A>, answers: seq<Answer>, instant: nat, s: Services): (A, Services)
    decreases script.rounds - |answers|
  {
    if |answers| >= script.rounds then (script.finish(answers), s)
    else match script.next(answers)
      case None => (script.finish(answers), s)
      case Some(service) =>
        var (answer, s') := Consult(service, instant, s);
        Run(script, answers + [answer], instant, s')
  }

  // ---- Journal, budgets, resources, checkers ------------------------------

  function Record<H>(w: State<H>, kind: Kind, name: string, value: EntryValue, generation: Option<nat>): State<H> {
    w.(journal := w.journal + [Entry(|w.journal|, w.instant, generation, kind, name, value)])
  }

  function Exhaust<H>(w: State<H>, bound: string, limit: nat): Result<H> {
    Result(Record(w.(disposition := Some(BudgetExhausted)), BudgetEntry, bound, LimitValue(limit), w.generation),
           Exhausted(bound, limit))
  }

  function Reserve<H>(c: Config<H>, w: State<H>): Result<H> {
    if w.actions >= c.budget.actions then Exhaust(w, "actions", c.budget.actions)
    else Result(w.(actions := w.actions + 1), Done)
  }

  function Names(gauges: seq<Gauge>): seq<string> {
    seq(|gauges|, i requires 0 <= i < |gauges| => gauges[i].name)
  }

  /** The first gauge over its limit in name order. */
  function FirstOver(usage: seq<Gauge>, limits: seq<Gauge>): Option<Gauge>
    requires |usage| == |limits|
  {
    if usage == [] then None
    else if usage[0].value > limits[0].value then Some(limits[0])
    else FirstOver(usage[1..], limits[1..])
  }

  function Sample<H>(c: Config<H>, w: State<H>, live: bool, trigger: string): Result<H> {
    match c.budget.resources
    case None => Result(w, Done)
    case Some(limits) =>
      var usage := c.profile.usage(w.host, live);
      if |usage| != |limits| || Names(usage) != Names(limits) then Result(w, Broken)
      else
        var w' := Record(w, ResourceEntry, trigger, UsageValue(usage), if live then w.generation else None);
        match FirstOver(usage, limits)
        case None => Result(w', Done)
        case Some(limit) => Exhaust(w', "profile_resources:" + limit.name, limit.value)
  }

  datatype Checked = Checked(name: string, observation: Observation, result: CheckResult)

  /** Evaluate `checkers` in order over live observations; nothing is journalled yet. */
  function Capture<H>(c: Config<H>, w: State<H>, checkers: seq<Checker>, sequence: nat, generation: nat)
    : (State<H>, seq<Checked>)
    decreases checkers
  {
    if checkers == [] then (w, [])
    else
      var checker := checkers[0];
      var (seen, services) := Run(c.profile.observe(w.host, checker.request), [], w.instant, w.services);
      var observation := Observation(checker.request.name, seen.value, w.instant, generation, sequence);
      var (w', rest) := Capture(c, w.(host := seen.host, services := services), checkers[1..], sequence, generation);
      (w', [Checked(checker.name, observation, checker.check(observation))] + rest)
  }

  function RecordCaptured<H>(w: State<H>, trigger: string, captured: seq<Checked>): State<H>
    decreases captured
  {
    if captured == [] then w
    else
      var k := captured[0];
      RecordCaptured(
        Record(w, CheckEntry, k.name, CheckValue(k.name, trigger, k.observation, k.result),
               Some(k.observation.generation)),
        trigger, captured[1..])
  }

  function FailedNames(captured: seq<Checked>): seq<string> {
    if captured == [] then []
    else (if captured[0].result.passed then [] else [captured[0].name]) + FailedNames(captured[1..])
  }

  function RecordChecks<H>(w: State<H>, trigger: string, captured: seq<Checked>): Result<H> {
    var w' := RecordCaptured(w, trigger, captured);
    var failed := FailedNames(captured);
    if failed == [] then Result(w', Done)
    else Result(w'.(disposition := Some(InvariantFailure)), Violated(failed))
  }

  function Evaluate<H>(c: Config<H>, w: State<H>, trigger: string, sequence: nat, generation: nat): Result<H> {
    var (w', captured) := Capture(c, w, c.checkers, sequence, generation);
    RecordChecks(w', trigger, captured)
  }

  /** Sample resources, then evaluate checkers: the tail of most interpreter operations. */
  function Boundary<H>(c: Config<H>, w: State<H>, sample: string, trigger: string, sequence: nat, generation: nat)
    : Result<H>
  {
    var sampled := Sample(c, w, true, sample);
    if !sampled.outcome.Done? then sampled
    else Evaluate(c, sampled.world, trigger, sequence, generation)
  }

  // ---- The queue ----------------------------------------------------------

  predicate Less(a: Queued, b: Queued) {
    a.instant < b.instant || (a.instant == b.instant && a.order < b.order)
  }

  /** `heappush` on the heap's sorted listing. */
  function Insert(queue: seq<Queued>, q: Queued): seq<Queued> {
    if queue == [] then [q]
    else if Less(q, queue[0]) then [q] + queue
    else [queue[0]] + Insert(queue[1..], q)
  }

  function Push<H>(w: State<H>, instant: nat, command: Command, source: Source): State<H>
    requires w.generation.Some?
  {
    w.(queue := Insert(w.queue, Queued(instant, w.queueOrder, w.generation.value, source, command)),
       queueOrder := w.queueOrder + 1)
  }

  function PushAll<H>(w: State<H>, scheduled: seq<Scheduled>): State<H>
    requires w.generation.Some?
    decreases scheduled
  {
    if scheduled == [] then w
    else PushAll(Push(w, scheduled[0].instant, scheduled[0].command, FromProfile), scheduled[1..])
  }

  predicate Valid<H>(c: Config<H>, command: Command) {
    command.profile == c.profile.identity && c.profile.validate(command)
  }

  /** Admit every entry of a profile schedule before any of it is queued. */
  function Vet<H>(c: Config<H>, now: nat, scheduled: seq<Scheduled>): Outcome {
    if scheduled == [] then Done
    else if scheduled[0].instant < now then Broken
    else if scheduled[0].instant > c.budget.logicalInstant then Exhausted("logical_instant", c.budget.logicalInstant)
    else if !Valid(c, scheduled[0].command) then Broken
    else Vet(c, now, scheduled[1..])
  }

  function EnqueueAll<H>(c: Config<H>, w: State<H>, scheduled: seq<Scheduled>): Result<H>
    requires w.generation.Some?
  {
    if |w.queue| + |scheduled| > c.budget.queued then Exhaust(w, "queued_commands", c.budget.queued)
    else match Vet(c, w.instant, scheduled)
      case Exhausted(bound, limit) => Exhaust(w, bound, limit)
      case Done => Result(PushAll(w, scheduled), Done)
      case _ => Result(w, Broken)
  }

  function Append<H>(w: State<H>, op: Operation): State<H> {
    w.(operations := w.operations + [op])
  }

  // ---- Interpreter operations ---------------------------------------------

  predicate Eligible<H>(w: State<H>) {
    w.queue != [] && w.queue[0].instant <= w.instant
  }

  /** Pop the least entry and let the clock catch up with it. */
  function Dequeue<H>(w: State<H>): State<H>
    requires w.queue != []
  {
    var q := w.queue[0];
    w.(queue := w.queue[1..],
       timerAdvances := if q.instant > w.instant then w.timerAdvances + 1 else w.timerAdvances,
       instant := if q.instant > w.instant then q.instant else w.instant)
  }

  /** Run the profile on a dequeued command, log and journal the execution. */
  function Apply<H>(c: Config<H>, w: State<H>, q: Queued): (State<H>, seq<Scheduled>)
    requires w.generation.Some?
  {
    var (applied, services) := Run(c.profile.apply(w.host, q.command), [], w.instant, w.services);
    var op := ExecuteOp(|w.operations|, q.source, q.order, w.instant, w.generation.value, q.command, applied.result);
    (Record(Append(w.(host := applied.host, services := services), op),
            CommandEntry, q.command.name, OperationValue(op), w.generation),
     applied.result.scheduled)
  }

  /** `_step` past its guards and its action reservation. */
  function Execute<H>(c: Config<H>, w: State<H>): Result<H>
    requires w.generation.Some? && w.queue != []
  {
    var q := w.queue[0];
    var (w', scheduled) := Apply(c, Dequeue(w), q);
    var queued := EnqueueAll(c, w', scheduled);
    if !queued.outcome.Done? then queued
    else Boundary(c, queued.world, q.command.name, q.command.name, |w.operations|, w.generation.value)
  }

  function DoStep<H>(c: Config<H>, w: State<H>): Result<H> {
    if w.disposition.Some? || w.generation.None? || w.queue == [] then Result(w, Refused)
    else if w.queue[0].generation != w.generation.value then Result(w, Refused)
    else if w.queue[0].instant > w.instant && w.timerAdvances >= c.budget.timerAdvances then
      Exhaust(w, "timer_advances", c.budget.timerAdvances)
    else if w.queue[0].instant > w.instant && w.queue[0].instant > c.budget.logicalInstant then
      Exhaust(w, "logical_instant", c.budget.logicalInstant)
    else
      var reserved := Reserve(c, w);
      if !reserved.outcome.Done? then reserved else Execute(c, reserved.world)
  }

  function DoSubmit<H>(c: Config<H>, w: State<H>, generation: nat, command: Command): Result<H> {
    if w.generation != Some(generation) || w.fair || Eligible(w) then Result(w, Refused)
    else if w.instant > c.budget.logicalInstant then Exhaust(w, "logical_instant", c.budget.logicalInstant)
    else if !Valid(c, command) then Result(w, Refused)
    else if |w.queue| >= c.budget.queued then Exhaust(w, "queued_commands", c.budget.queued)
    else DoStep(c, Push(w, w.instant, command, Authored))
  }

  function DoFault<H>(c: Config<H>, w: State<H>, generation: nat, fault: Fault): Result<H> {
    if w.generation != Some(generation) || w.disposition.Some? || w.fair then Result(w, Refused)
    else if fault.profile != c.profile.identity || Eligible(w) || !c.profile.validateFault(fault) then
      Result(w, Refused)
    else
      var reserved := Reserve(c, w);
      if !reserved.outcome.Done? then reserved
      else
        var w1 := reserved.world;
        var position := |w1.operations|;
        var op := FaultOp(position, w1.instant, generation, fault);
        var armed := w1.(services := w1.services.(faults := w1.services.faults + [ActiveFault(fault, 0)]));
        var w2 := Record(Append(armed, op),
                         FaultEntry, fault.name, OperationValue(op), w1.generation);
        Boundary(c, w2, "fault:" + fault.name, "fault:" + fault.name, position, generation)
  }

  function Look<H>(c: Config<H>, w: State<H>, generation: nat, request: Request, poll: bool): State<H> {
    var position := |w.operations|;
    var (seen, services) := Run(c.profile.observe(w.host, request), [], w.instant, w.services);
    var op := ObserveOp(position, poll, Observation(request.name, seen.value, w.instant, generation, position),
                        request);
    Record(Append(w.(host := seen.host, services := services), op),
           ObservationEntry, request.name, OperationValue(op), w.generation)
  }

  function DoObserve<H>(c: Config<H>, w: State<H>, generation: nat, request: Request, poll: bool): Result<H> {
    if w.generation != Some(generation) || w.disposition.Some? then Result(w, Refused)
    else
      var reserved := Reserve(c, w);
      if !reserved.outcome.Done? then reserved
      else if poll && reserved.world.polls >= c.budget.polls then
        Exhaust(reserved.world, "predicate_polls", c.budget.polls)
      else
        var w1 := if poll then reserved.world.(polls := reserved.world.polls + 1) else reserved.world;
        Sample(c, Look(c, w1, generation, request, poll), true, "observe:" + request.name)
  }

  /** Revoke the generation, discard its queue, log and journal the crash. */
  function Drop<H>(c: Config<H>, w: State<H>, generation: nat, cut: string): State<H> {
    var op := CrashOp(|w.operations|, w.instant, generation, cut, |w.queue|);
    Record(Append(w.(generation := None, queue := [], host := c.profile.drop(w.host)), op),
           CrashEntry, cut, OperationValue(op), None)
  }

  function DoCrash<H>(c: Config<H>, w: State<H>, generation: nat, cut: string): Result<H> {
    if w.generation != Some(generation) || w.disposition.Some? || w.fair || cut == "" then Result(w, Refused)
    else
      var reserved := Reserve(c, w);
      if !reserved.outcome.Done? then reserved
      else
        var position := |reserved.world.operations|;
        var (w1, captured) := Capture(c, reserved.world, c.checkers, position, generation);
        var w2 := Drop(c, w1, generation, cut);
        var sampled := Sample(c, w2, false, "crash:" + cut);
        if !sampled.outcome.Done? then sampled
        else RecordChecks(sampled.world, "crash:" + cut, captured)
  }

  function Install<H>(w: State<H>, host: H): State<H> {
    w.(lastGeneration := w.lastGeneration + 1, generation := Some(w.lastGeneration + 1), host := host)
  }

  function Reload<H>(c: Config<H>, w: State<H>): Result<H> {
    var (started, services) := Run(c.profile.load(w.host), [], w.instant, w.services);
    EnqueueAll(c, Install(w.(services := services), started.host), started.scheduled)
  }

  function DoRestart<H>(c: Config<H>, w: State<H>): Result<H> {
    if w.disposition.Some? || w.generation.Some? then Result(w, Refused)
    else if w.reloads >= c.budget.reloads then Exhaust(w, "reloads", c.budget.reloads)
    else
      var reserved := Reserve(c, w);
      if !reserved.outcome.Done? then reserved
      else
        var w1 := reserved.world.(reloads := reserved.world.reloads + 1);
        var queued := Reload(c, w1);
        if !queued.outcome.Done? then queued
        else
          var w2 := queued.world;
          var position := |w2.operations|;
          var op := RestartOp(position, w2.instant, w2.lastGeneration);
          var w3 := Record(Append(w2, op), LoadedEntry, c.profile.identity, OperationValue(op), w2.generation);
          Boundary(c, w3, "load", "load", position, w2.lastGeneration)
  }

  function DoFair<H>(c: Config<H>, w: State<H>, generation: nat): Result<H> {
    if w.generation != Some(generation) || w.disposition.Some? || w.fair || w.services.faults != [] then
      Result(w, Refused)
    else
      var reserved := Reserve(c, w);
      if !reserved.outcome.Done? then reserved
      else
        var w1 := reserved.world.(fair := true);
        var position := |w1.operations|;
        var op := FairOp(position, w1.instant, generation);
        var w2 := Record(Append(w1, op), FairEntry, "begin", OperationValue(op), w1.generation);
        Boundary(c, w2, "begin_fair", "begin_fair", position, generation)
  }

  function EndingName(ending: Ending): string {
    match ending
    case Converged => "converged"
    case Quiescent => "quiescent"
    case ExternalWait => "external_wait"
    case Quarantined => "quarantined"
  }

  function DoFinish<H>(c: Config<H>, w: State<H>, generation: nat, ending: Ending): Result<H> {
    if w.generation != Some(generation) || w.disposition.Some? then Result(w, Refused)
    else if (w.fair && ending.ExternalWait?) || w.queue != [] then Result(w, Refused)
    else
      var reserved := Reserve(c, w);
      if !reserved.outcome.Done? then reserved
      else
        var w1 := reserved.world;
        var op := FinishOp(|w1.operations|, w1.instant, generation, ending);
        var w2 := Record(Append(w1.(disposition := Some(Ended(ending))), op),
                         FinishEntry, EndingName(ending), OperationValue(op), w1.generation);
        Sample(c, w2, true, "finish:" + EndingName(ending))
  }

  function Perform<H>(c: Config<H>, w: State<H>, a: Attempt): Result<H> {
    match a
    case Submit(generation, command) => DoSubmit(c, w, generation, command)
    case Step => DoStep(c, w)
    case ActivateFault(generation, fault) => DoFault(c, w, generation, fault)
    case Observe(generation, request, poll) => DoObserve(c, w, generation, request, poll)
    case Crash(generation, cut) => DoCrash(c, w, generation, cut)
    case Restart => DoRestart(c, w)
    case BeginFair(generation) => DoFair(c, w, generation)
    case Finish(generation, ending) => DoFinish(c, w, generation, ending)
  }

  function Detail(outcome: Outcome): FailureDetail
    requires outcome.Exhausted? || outcome.Violated?
  {
    match outcome
    case Exhausted(bound, limit) => BudgetFailure(bound, limit)
    case Violated(checkers) => CheckerFailure(checkers)
  }

  predicate Failing(outcome: Outcome) { outcome.Exhausted? || outcome.Violated? }

  /** `_attempt`: a budget or checker failure leaves exactly one failure operation behind. */
  function Try<H>(c: Config<H>, w: State<H>, a: Attempt): Result<H> {
    var r := Perform(c, w, a);
    if !Failing(r.outcome) then r
    else
      var accepted := |r.world.operations| - |w.operations|;
      var op := FailureOp(|r.world.operations|, r.world.instant, r.world.generation,
                          if accepted < 0 then 0 else accepted, a, Detail(r.outcome));
      Result(Record(Append(r.world, op), FailureEntry,
                    if r.outcome.Exhausted? then "budget_exhausted" else "invariant_failure",
                    OperationValue(op), r.world.generation),
             r.outcome)
  }

  // ---- Construction and runs ----------------------------------------------

  function Blank<H>(c: Config<H>): State<H> {
    State(0, c.profile.initial, None, 0, [], 0, [], [], Services(map[], []), 0, 0, 0, 0, false, None)
  }

  predicate DistinctNames(names: seq<string>) { forall i, j :: 0 <= i < j < |names| ==> names[i] != names[j] }

  /** The checker manifest. */
  function Manifest(checkers: seq<Checker>): seq<string> {
    seq(|checkers|, i requires 0 <= i < |checkers| => checkers[i].name)
  }

  /** The constructor: anything but `Done` means that no World was handed out. */
  function Construct<H>(c: Config<H>): Result<H> {
    var sampled := Sample(c, Blank(c), false, "before_create");
    if !DistinctNames(Manifest(c.checkers)) then Result(Blank(c), Refused)
    else if !sampled.outcome.Done? then sampled
    else
      var w := sampled.world;
      var (started, services) := Run(c.profile.create(w.host), [], w.instant, w.services);
      var queued := EnqueueAll(c, Install(w.(services := services), started.host), started.scheduled);
      if !queued.outcome.Done? then queued
      else
        var w1 := Record(queued.world, CreatedEntry, c.profile.identity, ScheduledValue(started.scheduled),
                         queued.world.generation);
        Boundary(c, w1, "create", "create", 0, w1.lastGeneration)
  }

  function Exec<H>(c: Config<H>, w: State<H>, attempts: seq<Attempt>): State<H>
    decreases attempts
  {
    if attempts == [] then w else Exec(c, Try(c, w, attempts[0]).world, attempts[1..])
  }
}
