/**
  The World as the source keeps it: one object whose fields every interpreter
  call updates step by step, proved against the value semantics of `World`.  A
  raised exception is the returned `Outcome`.
  */
module WorldMachine {
  import opened Options
  import opened World
  import opened WorldSafety

  /** One armed fault of the pass. */
  lemma ConsultOne(armed: seq<ActiveFault>, i: nat, target: string)
    requires i < |armed|
    ensures var a := armed[i];
            var fires := a.fault.target == target && a.seen + 1 == a.fault.occurrence;
            && Matched(armed[i..], target) == (if fires then [a.fault] else []) + Matched(armed[i + 1..], target)
            && Retained(armed[i..], target)
               == (if a.fault.target != target then [a] else if fires then [] else [ActiveFault(a.fault, a.seen + 1)])
                  + Retained(armed[i + 1..], target)
  {
    assert armed[i..][0] == armed[i] && armed[i..][1..] == armed[i + 1..];
  }

  lemma ConsultNone(armed: seq<ActiveFault>, target: string)
    ensures Matched(armed[|armed|..], target) == [] && Retained(armed[|armed|..], target) == []
  {
  }

  lemma Regroup<T>(a: seq<T>, b: seq<T>, c: seq<T>)
    ensures a + (b + c) == (a + b) + c && a + [] == a
  {
  }

  /** `_faults`: one pass over the armed faults, firing those that reach their occurrence. */
  method ConsultFaults(armed: seq<ActiveFault>, target: string)
    returns (matched: seq<Fault>, retained: seq<ActiveFault>)
    ensures matched == Matched(armed, target) && retained == Retained(armed, target)
  {
    hide Matched;
    hide Retained;
    matched, retained := [], [];
    assert armed[0..] == armed;
    for i := 0 to |armed|
      invariant Matched(armed, target) == matched + Matched(armed[i..], target)
      invariant Retained(armed, target) == retained + Retained(armed[i..], target)
    {
      var active := armed[i];
      ConsultOne(armed, i, target);
      var fired, kept := [], [active];
      if active.fault.target == target {
        if active.seen + 1 == active.fault.occurrence {
          fired, kept := [active.fault], [];
        } else {
          kept := [ActiveFault(active.fault, active.seen + 1)];
        }
      }
      Regroup(matched, fired, Matched(armed[i + 1..], target));
      Regroup(retained, kept, Retained(armed[i + 1..], target));
      matched := matched + fired;
      retained := retained + kept;
    }
    ConsultNone(armed, target);
  }

  class Interpreter<H> {
    const config: Config<H>
    var instant: nat
    var host: H
    var generation: Option<nat>
    var lastGeneration: nat
    var queue: seq<Queued>
    var queueOrder: nat
    var operations: seq<Operation>
    var journal: seq<Entry>
    var services: Services
    var actions: nat
    var timerAdvances: nat
    var reloads: nat
    var polls: nat
    var fair: bool
    var disposition: Option<Disposition>

    function Value(): State<H>
      reads this
    {
      State(instant, host, generation, lastGeneration, queue, queueOrder, operations, journal, services,
            actions, timerAdvances, reloads, polls, fair, disposition)
    }

    constructor (c: Config<H>)
      ensures config == c && Value() == Blank(c)
    {
      config := c;
      instant, host, generation, lastGeneration := 0, c.profile.initial, None, 0;
      queue, queueOrder, operations, journal, services := [], 0, [], [], Services(map[], []);
      actions, timerAdvances, reloads, polls, fair, disposition := 0, 0, 0, 0, false, None;
    }

    method Journal(kind: Kind, name: string, value: EntryValue, g: Option<nat>)
      modifies this
      ensures Value() == Record(old(Value()), kind, name, value, g)
    {
      journal := journal + [Entry(|journal|, instant, g, kind, name, value)];
    }

    method RaiseExhausted(bound: string, limit: nat) returns (outcome: Outcome)
      modifies this
      ensures Result(Value(), outcome) == Exhaust(old(Value()), bound, limit)
    {
      disposition := Some(BudgetExhausted);
      Journal(BudgetEntry, bound, LimitValue(limit), generation);
      outcome := Exhausted(bound, limit);
    }

    method ReserveAction() returns (outcome: Outcome)
      modifies this
      ensures Result(Value(), outcome) == Reserve(config, old(Value()))
    {
      if actions >= config.budget.actions {
        outcome := RaiseExhausted("actions", config.budget.actions);
      } else {
        actions := actions + 1;
        outcome := Done;
      }
    }

    method SampleResources(live: bool, trigger: string) returns (outcome: Outcome)
      modifies this
      ensures Result(Value(), outcome) == Sample(config, old(Value()), live, trigger)
    {
      match config.budget.resources
      case None => outcome := Done;
      case Some(limits) =>
        var usage := config.profile.usage(host, live);
        if |usage| != |limits| || Names(usage) != Names(limits) {
          return Broken;
        }
        Journal(ResourceEntry, trigger, UsageValue(usage), if live then generation else None);
        var i := 0;
        while i < |usage| && usage[i].value <= limits[i].value
          invariant 0 <= i <= |usage|
          invariant FirstOver(usage, limits) == FirstOver(usage[i..], limits[i..])
        {
          i := i + 1;
        }
        if i < |usage| {
          outcome := RaiseExhausted("profile_resources:" + limits[i].name, limits[i].value);
        } else {
          outcome := Done;
        }
    }

    method CaptureChecks(sequence: nat, g: nat) returns (captured: seq<Checked>)
      modifies this
      ensures (Value(), captured) == Capture(config, old(Value()), config.checkers, sequence, g)
    {
      hide Run;
      hide Capture;
      captured := [];
      ghost var all := Capture(config, Value(), config.checkers, sequence, g);
      assert config.checkers[0..] == config.checkers;
      for i := 0 to |config.checkers|
        invariant var rest := Capture(config, Value(), config.checkers[i..], sequence, g);
                  all.0 == rest.0 && all.1 == captured + rest.1
      {
        var checker := config.checkers[i];
        CaptureOne(config, Value(), i, sequence, g);
        var (seen, after) := Run(config.profile.observe(host, checker.request), [], instant, services);
        host, services := seen.host, after;
        var observation := Observation(checker.request.name, seen.value, instant, g, sequence);
        var checked := [Checked(checker.name, observation, checker.check(observation))];
        Regroup(captured, checked, Capture(config, Value(), config.checkers[i + 1..], sequence, g).1);
        captured := captured + checked;
      }
      assert config.checkers[|config.checkers|..] == [];
      CaptureNone(config, Value(), sequence, g);
      assert captured + [] == captured;
    }

    method RecordAllChecks(trigger: string, captured: seq<Checked>) returns (outcome: Outcome)
      modifies this
      ensures Result(Value(), outcome) == RecordChecks(old(Value()), trigger, captured)
    {
      hide Record;
      var failed := [];
      assert captured[0..] == captured;
      for i := 0 to |captured|
        invariant RecordCaptured(old(Value()), trigger, captured) == RecordCaptured(Value(), trigger, captured[i..])
        invariant FailedNames(captured) == failed + FailedNames(captured[i..])
      {
        var k := captured[i];
        assert captured[i..][0] == k && captured[i..][1..] == captured[i + 1..];
        Journal(CheckEntry, k.name, CheckValue(k.name, trigger, k.observation, k.result),
                Some(k.observation.generation));
        if !k.result.passed {
          failed := failed + [k.name];
        }
      }
      assert captured[|captured|..] == [];
      assert failed + [] == failed;
      if failed != [] {
        disposition := Some(InvariantFailure);
        outcome := Violated(failed);
      } else {
        outcome := Done;
      }
    }

    method CloseBoundary(name: string, sequence: nat, g: nat) returns (outcome: Outcome)
      modifies this
      ensures Result(Value(), outcome) == Boundary(config, old(Value()), name, name, sequence, g)
    {
      outcome := SampleResources(true, name);
      if outcome.Done? {
        var captured := CaptureChecks(sequence, g);
        outcome := RecordAllChecks(name, captured);
      }
    }

    method EnqueueValidated(at: nat, command: Command, source: Source)
      requires generation.Some?
      modifies this
      ensures Value() == Push(old(Value()), at, command, source)
    {
      queue := Insert(queue, Queued(at, queueOrder, generation.value, source, command));
      queueOrder := queueOrder + 1;
    }

    method EnqueueSchedule(scheduled: seq<Scheduled>) returns (outcome: Outcome)
      requires generation.Some?
      modifies this
      ensures Result(Value(), outcome) == EnqueueAll(config, old(Value()), scheduled)
    {
      if |queue| + |scheduled| > config.budget.queued {
        outcome := RaiseExhausted("queued_commands", config.budget.queued);
        return;
      }
      var i := 0;
      while i < |scheduled|
        invariant 0 <= i <= |scheduled|
        invariant Vet(config, instant, scheduled) == Vet(config, instant, scheduled[i..])
        invariant Value() == old(Value())
      {
        var s := scheduled[i];
        assert scheduled[i..][0] == s && scheduled[i..][1..] == scheduled[i + 1..];
        if s.instant < instant {
          return Broken;
        }
        if s.instant > config.budget.logicalInstant {
          outcome := RaiseExhausted("logical_instant", config.budget.logicalInstant);
          return;
        }
        if !Valid(config, s.command) {
          return Broken;
        }
        i := i + 1;
      }
      for k := 0 to |scheduled|
        invariant generation.Some?
        invariant PushAll(old(Value()), scheduled) == PushAll(Value(), scheduled[k..])
      {
        assert scheduled[k..][0] == scheduled[k] && scheduled[k..][1..] == scheduled[k + 1..];
        EnqueueValidated(scheduled[k].instant, scheduled[k].command, FromProfile);
      }
      outcome := Done;
    }

    method StepOnce() returns (outcome: Outcome)
      modifies this
      ensures Result(Value(), outcome) == DoStep(config, old(Value()))
    {
      if disposition.Some? || generation.None? || queue == [] {
        return Refused;
      }
      var queued := queue[0];
      if queued.generation != generation.value {
        return Refused;
      }
      if queued.instant > instant {
        if timerAdvances >= config.budget.timerAdvances {
          outcome := RaiseExhausted("timer_advances", config.budget.timerAdvances);
          return;
        }
        if queued.instant > config.budget.logicalInstant {
          outcome := RaiseExhausted("logical_instant", config.budget.logicalInstant);
          return;
        }
      }
      outcome := ReserveAction();
      if outcome.Done? {
        outcome := ExecuteNext();
      }
    }

    method ExecuteNext() returns (outcome: Outcome)
      requires generation.Some? && queue != []
      modifies this
      ensures Result(Value(), outcome) == Execute(config, old(Value()))
    {
      hide EnqueueAll;
      hide Boundary;
      var queued, position, live := queue[0], |operations|, generation.value;
      DequeueNext();
      var scheduled := ApplyQueued(queued);
      outcome := EnqueueSchedule(scheduled);
      if outcome.Done? {
        outcome := CloseBoundary(queued.command.name, position, live);
      }
    }

    method DequeueNext()
      requires queue != []
      modifies this
      ensures Value() == Dequeue(old(Value()))
    {
      var queued := queue[0];
      queue := queue[1..];
      if queued.instant > instant {
        timerAdvances := timerAdvances + 1;
        instant := queued.instant;
      }
    }

    method ApplyQueued(queued: Queued) returns (scheduled: seq<Scheduled>)
      requires generation.Some?
      modifies this
      ensures (Value(), scheduled) == Apply(config, old(Value()), queued)
    {
      var (applied, after) := Run(config.profile.apply(host, queued.command), [], instant, services);
      host, services := applied.host, after;
      var operation := ExecuteOp(|operations|, queued.source, queued.order, instant, generation.value, queued.command,
                                 applied.result);
      operations := operations + [operation];
      Journal(CommandEntry, queued.command.name, OperationValue(operation), generation);
      scheduled := applied.result.scheduled;
    }

    method SubmitCommand(g: nat, command: Command) returns (outcome: Outcome)
      modifies this
      ensures Result(Value(), outcome) == DoSubmit(config, old(Value()), g, command)
    {
      if generation != Some(g) || fair || (queue != [] && queue[0].instant <= instant) {
        return Refused;
      }
      if instant > config.budget.logicalInstant {
        outcome := RaiseExhausted("logical_instant", config.budget.logicalInstant);
      } else if !Valid(config, command) {
        outcome := Refused;
      } else if |queue| >= config.budget.queued {
        outcome := RaiseExhausted("queued_commands", config.budget.queued);
      } else {
        EnqueueValidated(instant, command, Authored);
        outcome := StepOnce();
      }
    }

    method ArmFault(g: nat, fault: Fault) returns (outcome: Outcome)
      modifies this
      ensures Result(Value(), outcome) == DoFault(config, old(Value()), g, fault)
    {
      hide Boundary;
      if generation != Some(g) || disposition.Some? || fair || fault.profile != config.profile.identity
         || (queue != [] && queue[0].instant <= instant) || !config.profile.validateFault(fault) {
        return Refused;
      }
      outcome := ReserveAction();
      if outcome.Done? {
        var position := |operations|;
        var operation := FaultOp(position, instant, g, fault);
        operations := operations + [operation];
        services := services.(faults := services.faults + [ActiveFault(fault, 0)]);
        Journal(FaultEntry, fault.name, OperationValue(operation), generation);
        outcome := CloseBoundary("fault:" + fault.name, position, g);
      }
    }

    method ObserveOnce(g: nat, request: Request, poll: bool) returns (outcome: Outcome)
      modifies this
      ensures Result(Value(), outcome) == DoObserve(config, old(Value()), g, request, poll)
    {
      hide Look;
      hide Sample;
      if generation != Some(g) || disposition.Some? {
        return Refused;
      }
      outcome := ReserveAction();
      if !outcome.Done? {
        return;
      }
      if poll {
        if polls >= config.budget.polls {
          outcome := RaiseExhausted("predicate_polls", config.budget.polls);
          return;
        }
        polls := polls + 1;
      }
      LookOnce(g, request, poll);
      outcome := SampleResources(true, "observe:" + request.name);
    }

    method LookOnce(g: nat, request: Request, poll: bool)
      modifies this
      ensures Value() == Look(config, old(Value()), g, request, poll)
    {
      var position := |operations|;
      var (seen, after) := Run(config.profile.observe(host, request), [], instant, services);
      host, services := seen.host, after;
      var operation := ObserveOp(position, poll, Observation(request.name, seen.value, instant, g, position), request);
      operations := operations + [operation];
      Journal(ObservationEntry, request.name, OperationValue(operation), generation);
    }

    method DropGeneration(g: nat, cut: string)
      modifies this
      ensures Value() == Drop(config, old(Value()), g, cut)
    {
      hide Record;
      var operation := CrashOp(|operations|, instant, g, cut, |queue|);
      generation, queue := None, [];
      host := config.profile.drop(host);
      operations := operations + [operation];
      assert Value() == Append(old(Value()).(generation := None, queue := [], host := host), operation);
      Journal(CrashEntry, cut, OperationValue(operation), None);
    }

    method CrashAt(g: nat, cut: string) returns (outcome: Outcome)
      modifies this
      ensures Result(Value(), outcome) == DoCrash(config, old(Value()), g, cut)
    {
      hide Capture;
      hide Sample;
      hide RecordChecks;
      if generation != Some(g) || disposition.Some? || fair || cut == "" {
        return Refused;
      }
      outcome := ReserveAction();
      if !outcome.Done? {
        return;
      }
      var position := |operations|;
      var captured := CaptureChecks(position, g);
      DropGeneration(g, cut);
      outcome := SampleResources(false, "crash:" + cut);
      if outcome.Done? {
        outcome := RecordAllChecks("crash:" + cut, captured);
      }
    }

    method RestartGeneration() returns (outcome: Outcome)
      modifies this
      ensures Result(Value(), outcome) == DoRestart(config, old(Value()))
    {
      hide Boundary;
      hide Reload;
      if disposition.Some? || generation.Some? {
        return Refused;
      }
      if reloads >= config.budget.reloads {
        outcome := RaiseExhausted("reloads", config.budget.reloads);
        return;
      }
      outcome := ReserveAction();
      if !outcome.Done? {
        return;
      }
      reloads := reloads + 1;
      outcome := LoadGeneration();
      if outcome.Done? {
        var position := |operations|;
        var operation := RestartOp(position, instant, lastGeneration);
        operations := operations + [operation];
        Journal(LoadedEntry, config.profile.identity, OperationValue(operation), generation);
        outcome := CloseBoundary("load", position, lastGeneration);
      }
    }

    method LoadGeneration() returns (outcome: Outcome)
      modifies this
      ensures Result(Value(), outcome) == Reload(config, old(Value()))
    {
      hide EnqueueAll;
      var (started, after) := Run(config.profile.load(host), [], instant, services);
      services := after;
      lastGeneration := lastGeneration + 1;
      generation := Some(lastGeneration);
      host := started.host;
      outcome := EnqueueSchedule(started.scheduled);
    }

    method BeginFairPhase(g: nat) returns (outcome: Outcome)
      modifies this
      ensures Result(Value(), outcome) == DoFair(config, old(Value()), g)
    {
      hide Boundary;
      if generation != Some(g) || disposition.Some? || fair || services.faults != [] {
        return Refused;
      }
      outcome := ReserveAction();
      if outcome.Done? {
        fair := true;
        var position := |operations|;
        var operation := FairOp(position, instant, g);
        operations := operations + [operation];
        Journal(FairEntry, "begin", OperationValue(operation), generation);
        outcome := CloseBoundary("begin_fair", position, g);
      }
    }

    method FinishAs(g: nat, ending: Ending) returns (outcome: Outcome)
      modifies this
      ensures Result(Value(), outcome) == DoFinish(config, old(Value()), g, ending)
    {
      hide Sample;
      if generation != Some(g) || disposition.Some? || (fair && ending.ExternalWait?) || queue != [] {
        return Refused;
      }
      outcome := ReserveAction();
      if outcome.Done? {
        var operation := FinishOp(|operations|, instant, g, ending);
        operations := operations + [operation];
        disposition := Some(Ended(ending));
        Journal(FinishEntry, EndingName(ending), OperationValue(operation), generation);
        outcome := SampleResources(true, "finish:" + EndingName(ending));
      }
    }

    method Dispatch(a: Attempt) returns (outcome: Outcome)
      modifies this
      ensures Result(Value(), outcome) == Perform(config, old(Value()), a)
    {
      match a
      case Submit(g, command) => outcome := SubmitCommand(g, command);
      case Step => outcome := StepOnce();
      case ActivateFault(g, fault) => outcome := ArmFault(g, fault);
      case Observe(g, request, poll) => outcome := ObserveOnce(g, request, poll);
      case Crash(g, cut) => outcome := CrashAt(g, cut);
      case Restart => outcome := RestartGeneration();
      case BeginFair(g) => outcome := BeginFairPhase(g);
      case Finish(g, ending) => outcome := FinishAs(g, ending);
    }

    /** `_attempt`. */
    method Attempted(a: Attempt) returns (outcome: Outcome)
      modifies this
      ensures Result(Value(), outcome) == Try(config, old(Value()), a)
    {
      hide Perform;
      var before := |operations|;
      outcome := Dispatch(a);
      if Failing(outcome) {
        var accepted := |operations| - before;
        var operation := FailureOp(|operations|, instant, generation, if accepted < 0 then 0 else accepted, a,
                                   Detail(outcome));
        operations := operations + [operation];
        Journal(FailureEntry, if outcome.Exhausted? then "budget_exhausted" else "invariant_failure",
                OperationValue(operation), generation);
      }
    }

    /** The rest of the constructor: create the first generation. */
    method Open() returns (outcome: Outcome)
      requires Value() == Blank(config)
      modifies this
      ensures Result(Value(), outcome) == Construct(config)
    {
      hide Run;
      hide DistinctNames;
      hide Sample;
      hide Boundary;
      hide EnqueueAll;
      if !DistinctNames(Manifest(config.checkers)) {
        return Refused;
      }
      outcome := SampleResources(false, "before_create");
      if !outcome.Done? {
        return;
      }
      var (started, after) := Run(config.profile.create(host), [], instant, services);
      services := after;
      lastGeneration := lastGeneration + 1;
      generation := Some(lastGeneration);
      host := started.host;
      outcome := EnqueueSchedule(started.scheduled);
      if outcome.Done? {
        Journal(CreatedEntry, config.profile.identity, ScheduledValue(started.scheduled), generation);
        outcome := CloseBoundary("create", 0, lastGeneration);
      }
    }

    /**
      `Timeline.run_until`: poll, and step while the predicate does not hold.  It is an ordinary run of attempts,
      and the poll budget makes it end.
      */
    method RunUntil(g: nat, request: Request, holds: Observation -> bool)
      returns (outcome: Outcome, found: Option<Observation>, ghost attempts: seq<Attempt>)
      modifies this
      ensures Value() == Exec(config, old(Value()), attempts)
      ensures forall a :: a in attempts ==> a == Observe(g, request, true) || a == Step
      ensures found.Some? ==>
        && outcome.Done? && holds(found.value)
        && operations != [] && operations[|operations| - 1].ObserveOp?
        && operations[|operations| - 1].observation == found.value
      ensures found.None? && outcome.Done? ==> queue == []
    {
      hide Try;
      hide Exec;
      attempts, found := [], None;
      assert Value() == Exec(config, old(Value()), attempts) by { ExecNothing(config, Value()); }
      while true
        invariant Value() == Exec(config, old(Value()), attempts)
        invariant forall a :: a in attempts ==> a == Observe(g, request, true) || a == Step
        decreases config.budget.polls - polls
      {
        ghost var before, made := Value(), attempts;
        outcome := Attempted(Observe(g, request, true));
        ExecAppends(config, old(Value()), made, Observe(g, request, true));
        attempts := attempts + [Observe(g, request, true)];
        if !outcome.Done? {
          return;
        }
        PollSpends(config, before, g, request);
        var observation := operations[|operations| - 1].observation;
        if holds(observation) {
          found := Some(observation);
          return;
        }
        if queue == [] {
          return;
        }
        ghost var polled := Value();
        outcome := Attempted(Step);
        ExecAppends(config, old(Value()), attempts, Step);
        attempts := attempts + [Step];
        StepKeepsPolls(config, polled);
        if !outcome.Done? {
          return;
        }
      }
    }
  }

  lemma ExecNothing<H>(c: Config<H>, w: State<H>)
    ensures Exec(c, w, []) == w
  {
  }

  lemma {:induction false} ExecAppends<H>(c: Config<H>, w: State<H>, attempts: seq<Attempt>, a: Attempt)
    ensures Exec(c, w, attempts + [a]) == Try(c, Exec(c, w, attempts), a).world
    decreases attempts
  {
    hide Try;
    if attempts == [] {
      assert ([] + [a])[0] == a && ([] + [a])[1..] == [];
    } else {
      assert (attempts + [a])[1..] == attempts[1..] + [a];
      ExecAppends(c, Try(c, w, attempts[0]).world, attempts[1..], a);
    }
  }

  /** An accepted poll logs its observation and spends one poll. */
  lemma PollSpends<H>(c: Config<H>, w: State<H>, g: nat, request: Request)
    requires Try(c, w, Observe(g, request, true)).outcome.Done?
    ensures var w' := Try(c, w, Observe(g, request, true)).world;
            && w.polls < c.budget.polls && w'.polls == w.polls + 1
            && w'.operations != [] && w'.operations[|w'.operations| - 1].ObserveOp?
  {
    var w1 := Reserve(c, w).world;
    SampleQuiet(c, Look(c, w1.(polls := w1.polls + 1), g, request, true), true, "observe:" + request.name);
  }

  lemma StepKeepsPolls<H>(c: Config<H>, w: State<H>)
    ensures Try(c, w, Step).world.polls == w.polls
  {
    hide Execute;
    var r := Reserve(c, w);
    if w.generation.Some? && w.queue != [] && r.outcome.Done? {
      ExecuteKeepsPolls(c, r.world);
    }
  }

  lemma ExecuteKeepsPolls<H>(c: Config<H>, w: State<H>)
    requires w.generation.Some? && w.queue != []
    ensures Execute(c, w).world.polls == w.polls
  {
    hide Boundary;
    hide Run;
    hide Vet;
    var (w2, scheduled) := Apply(c, Dequeue(w), w.queue[0]);
    var queued := EnqueueAll(c, w2, scheduled);
    PushAllFrame(w2, scheduled);
    hide PushAll;
    var name := w.queue[0].command.name;
    BoundaryQuiet(c, queued.world, name, name, |w.operations|, w.generation.value);
  }

  lemma {:induction false} PushAllFrame<H>(w: State<H>, scheduled: seq<Scheduled>)
    requires w.generation.Some?
    ensures PushAll(w, scheduled).polls == w.polls
    decreases scheduled
  {
    if scheduled == [] {
    } else {
      PushAllFrame(Push(w, scheduled[0].instant, scheduled[0].command, FromProfile), scheduled[1..]);
    }
  }

  lemma CaptureNone<H>(c: Config<H>, w: State<H>, sequence: nat, g: nat)
    ensures Capture(c, w, [], sequence, g) == (w, [])
  {
  }

  lemma CaptureOne<H>(c: Config<H>, w: State<H>, i: nat, sequence: nat, g: nat)
    requires i < |c.checkers|
    ensures var checker := c.checkers[i];
            var (seen, after) := Run(c.profile.observe(w.host, checker.request), [], w.instant, w.services);
            var observation := Observation(checker.request.name, seen.value, w.instant, g, sequence);
            var rest := Capture(c, w.(host := seen.host, services := after), c.checkers[i + 1..], sequence, g);
            Capture(c, w, c.checkers[i..], sequence, g)
            == (rest.0, [Checked(checker.name, observation, checker.check(observation))] + rest.1)
  {
    hide Run;
    assert c.checkers[i..][0] == c.checkers[i] && c.checkers[i..][1..] == c.checkers[i + 1..];
  }
}
