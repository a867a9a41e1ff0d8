/**
  What every attempt on a World keeps: the scheduler invariant, the budgets, the
  shape of the operation log and of the journal, and the one thing replay rests
  on, that an attempt and the operation it produced determine each other.
  */
module WorldSafety {
  import opened Options
  import opened World

  // ---- The invariant ------------------------------------------------------

  ghost predicate Sorted(queue: seq<Queued>) {
    forall i, j :: 0 <= i < j < |queue| ==> Less(queue[i], queue[j])
  }

  /** Every queued command is valid, belongs to the live generation and is due within the budget, never in the past. */
  ghost predicate Scheduler<H>(c: Config<H>, w: State<H>) {
    && Sorted(w.queue)
    && (forall q :: q in w.queue ==>
          && w.generation == Some(q.generation)
          && q.order < w.queueOrder && Valid(c, q.command)
          && w.instant <= q.instant <= c.budget.logicalInstant)
    && (w.generation.Some? ==> w.generation.value == w.lastGeneration)
  }

  /** Between attempts of an unfinished World only the profile's own commands are queued; a finished one has none. */
  ghost predicate OnlyProfile<H>(w: State<H>) {
    && (w.disposition.None? ==> forall q :: q in w.queue ==> q.source == FromProfile)
    && (w.disposition.Some? && w.disposition.value.Ended? ==> w.queue == [])
  }

  ghost predicate WithinBudget<H>(c: Config<H>, w: State<H>) {
    && |w.queue| <= c.budget.queued
    && w.instant <= c.budget.logicalInstant
    && w.actions <= c.budget.actions
    && w.timerAdvances <= c.budget.timerAdvances
    && w.reloads <= c.budget.reloads
    && w.polls <= c.budget.polls
    && |w.operations| <= w.actions + (if Failed(w) then 1 else 0)
  }

  predicate Failed<H>(w: State<H>) {
    w.disposition == Some(BudgetExhausted) || w.disposition == Some(InvariantFailure)
  }

  function OpInstant(op: Operation): nat {
    if op.ObserveOp? then op.observation.instant else op.instant
  }

  /** Dense positions and never-decreasing instants. */
  ghost predicate LoggedOps<H>(w: State<H>) {
    && (forall i :: 0 <= i < |w.operations| ==> w.operations[i].position == i)
    && (forall i :: 0 <= i < |w.operations| ==> OpInstant(w.operations[i]) <= w.instant)
    && (forall i, j :: 0 <= i < j < |w.operations| ==> OpInstant(w.operations[i]) <= OpInstant(w.operations[j]))
  }

  ghost predicate DenseJournal<H>(w: State<H>) {
    forall i :: 0 <= i < |w.journal| ==> w.journal[i].position == i
  }

  /** A failure operation is the last one, and there exactly when the World failed. */
  ghost predicate FailureLast<H>(w: State<H>) {
    && (forall i :: 0 <= i < |w.operations| - 1 ==> !w.operations[i].FailureOp?)
    && (Failed(w) <==> w.operations != [] && w.operations[|w.operations| - 1].FailureOp?)
  }

  /** Commands and faults name the World's own profile. */
  predicate OwnAttempt<H>(c: Config<H>, a: Attempt) {
    match a
    case Submit(_, command) => command.profile == c.profile.identity
    case ActivateFault(_, fault) => fault.profile == c.profile.identity
    case _ => true
  }

  predicate OwnOp<H>(c: Config<H>, op: Operation) {
    match op
    case ExecuteOp(_, _, _, _, _, command, _) => command.profile == c.profile.identity
    case FaultOp(_, _, _, fault) => fault.profile == c.profile.identity
    case FailureOp(_, _, _, _, attempt, _) => OwnAttempt(c, attempt)
    case _ => true
  }

  ghost predicate OwnOps<H>(c: Config<H>, operations: seq<Operation>) {
    forall i :: 0 <= i < |operations| ==> OwnOp(c, operations[i])
  }

  /** What holds inside an attempt, before its own failure operation is written. */
  ghost predicate Core<H>(c: Config<H>, w: State<H>) {
    Scheduler(c, w) && WithinBudget(c, w) && LoggedOps(w) && DenseJournal(w) && OwnOps(c, w.operations)
  }

  ghost predicate Inv<H>(c: Config<H>, w: State<H>) {
    Core(c, w) && OnlyProfile(w) && FailureLast(w)
  }

  // ---- Journal-only change ------------------------------------------------

  /** `w'` is `w` after journalling and profile calls only; an ended World stays ended. */
  ghost predicate Quiet<H>(w: State<H>, w': State<H>) {
    && w' == w.(host := w'.host, services := w'.services, journal := w'.journal, disposition := w'.disposition)
    && w.journal <= w'.journal
    && (DenseJournal(w) ==> DenseJournal(w'))
    && (w.disposition.Some? ==> w'.disposition.Some?)
  }

  lemma QuietRecord<H>(w: State<H>, kind: Kind, name: string, value: EntryValue, generation: Option<nat>)
    ensures Quiet(w, Record(w, kind, name, value, generation))
  {
  }

  lemma QuietExhaust<H>(w: State<H>, bound: string, limit: nat)
    ensures Quiet(w, Exhaust(w, bound, limit).world)
  {
    QuietRecord(w.(disposition := Some(BudgetExhausted)), BudgetEntry, bound, LimitValue(limit), w.generation);
  }

  /** What an operation's tail reports: `Done` keeps the disposition, a failure sets the matching one. */
  ghost predicate Reports<H>(w: State<H>, r: Result<H>) {
    match r.outcome
    case Done => r.world.disposition == w.disposition
    case Exhausted(_, _) => r.world.disposition == Some(BudgetExhausted)
    case Violated(_) => r.world.disposition == Some(InvariantFailure)
    case Refused => false
    case Broken => true
  }

  lemma SampleQuiet<H>(c: Config<H>, w: State<H>, live: bool, trigger: string)
    ensures var r := Sample(c, w, live, trigger); Quiet(w, r.world) && Reports(w, r)
  {
    if c.budget.resources.Some? {
      var usage, limits := c.profile.usage(w.host, live), c.budget.resources.value;
      if |usage| == |limits| && Names(usage) == Names(limits) {
        var generation := if live then w.generation else None;
        var w' := Record(w, ResourceEntry, trigger, UsageValue(usage), generation);
        QuietRecord(w, ResourceEntry, trigger, UsageValue(usage), generation);
        match FirstOver(usage, limits)
        case None =>
        case Some(limit) => QuietExhaust(w', "profile_resources:" + limit.name, limit.value);
      }
    }
  }

  lemma {:induction false} CaptureQuiet<H>(c: Config<H>, w: State<H>, checkers: seq<Checker>, sequence: nat,
                                           generation: nat)
    ensures var (w', captured) := Capture(c, w, checkers, sequence, generation);
            w' == w.(host := w'.host, services := w'.services)
    decreases checkers
  {
    if checkers == [] {
    } else {
      var (seen, services) := Run(c.profile.observe(w.host, checkers[0].request), [], w.instant, w.services);
      CaptureQuiet(c, w.(host := seen.host, services := services), checkers[1..], sequence, generation);
    }
  }

  lemma {:induction false} RecordCapturedQuiet<H>(w: State<H>, trigger: string, captured: seq<Checked>)
    ensures var w' := RecordCaptured(w, trigger, captured); Quiet(w, w') && w'.disposition == w.disposition
    decreases captured
  {
    if captured == [] {
    } else {
      var k := captured[0];
      var w1 := Record(w, CheckEntry, k.name, CheckValue(k.name, trigger, k.observation, k.result),
                       Some(k.observation.generation));
      RecordCapturedQuiet(w1, trigger, captured[1..]);
    }
  }

  lemma RecordChecksQuiet<H>(w: State<H>, trigger: string, captured: seq<Checked>)
    ensures var r := RecordChecks(w, trigger, captured); Quiet(w, r.world) && Reports(w, r)
  {
    RecordCapturedQuiet(w, trigger, captured);
  }

  lemma EvaluateQuiet<H>(c: Config<H>, w: State<H>, trigger: string, sequence: nat, generation: nat)
    ensures var r := Evaluate(c, w, trigger, sequence, generation); Quiet(w, r.world) && Reports(w, r)
  {
    CaptureQuiet(c, w, c.checkers, sequence, generation);
    var (w', captured) := Capture(c, w, c.checkers, sequence, generation);
    RecordChecksQuiet(w', trigger, captured);
  }

  lemma BoundaryQuiet<H>(c: Config<H>, w: State<H>, sample: string, trigger: string, sequence: nat, generation: nat)
    ensures var r := Boundary(c, w, sample, trigger, sequence, generation); Quiet(w, r.world) && Reports(w, r)
  {
    SampleQuiet(c, w, true, sample);
    var sampled := Sample(c, w, true, sample);
    if sampled.outcome.Done? {
      EvaluateQuiet(c, sampled.world, trigger, sequence, generation);
    }
  }

  // ---- The queue ----------------------------------------------------------

  lemma {:induction false} InsertKeeps(queue: seq<Queued>, q: Queued)
    requires Sorted(queue)
    requires forall p :: p in queue ==> p.order != q.order
    ensures var queue' := Insert(queue, q);
            && Sorted(queue') && |queue'| == |queue| + 1
            && (forall p :: p in queue' <==> p == q || p in queue)
            && (queue == [] || Less(q, queue[0]) ==> queue'[0] == q)
  {
    if queue != [] && !Less(q, queue[0]) {
      var rest := queue[1..];
      InsertKeeps(rest, q);
      var queue' := Insert(queue, q);
      assert queue == [queue[0]] + rest;
      assert queue' == [queue[0]] + Insert(rest, q);
      forall i, j | 0 <= i < j < |queue'| ensures Less(queue'[i], queue'[j]) {
        if i == 0 {
          assert queue'[j] == Insert(rest, q)[j - 1];
          assert queue'[j] in Insert(rest, q);
        } else {
          assert queue'[i] == Insert(rest, q)[i - 1] && queue'[j] == Insert(rest, q)[j - 1];
        }
      }
    }
  }

  lemma PushKeeps<H>(c: Config<H>, w: State<H>, instant: nat, command: Command, source: Source)
    requires Scheduler(c, w) && w.generation.Some?
    requires w.instant <= instant <= c.budget.logicalInstant && Valid(c, command)
    ensures var w' := Push(w, instant, command, source);
            && Scheduler(c, w') && |w'.queue| == |w.queue| + 1
            && forall q :: q in w'.queue ==> q in w.queue || (q.source == source && q.command == command)
  {
    InsertKeeps(w.queue, Queued(instant, w.queueOrder, w.generation.value, source, command));
  }

  lemma {:induction false} VetMeans<H>(c: Config<H>, now: nat, scheduled: seq<Scheduled>)
    requires Vet(c, now, scheduled).Done?
    ensures forall s :: s in scheduled ==> now <= s.instant <= c.budget.logicalInstant && Valid(c, s.command)
  {
    if scheduled == [] {
    } else {
      VetMeans(c, now, scheduled[1..]);
    }
  }

  lemma {:induction false} PushAllKeeps<H>(c: Config<H>, w: State<H>, scheduled: seq<Scheduled>)
    requires Scheduler(c, w) && w.generation.Some?
    requires forall s :: s in scheduled ==> w.instant <= s.instant <= c.budget.logicalInstant && Valid(c, s.command)
    ensures var w' := PushAll(w, scheduled);
            && w' == w.(queue := w'.queue, queueOrder := w'.queueOrder)
            && Scheduler(c, w') && |w'.queue| == |w.queue| + |scheduled|
            && forall q :: q in w'.queue ==> q in w.queue || q.source == FromProfile
    decreases scheduled
  {
    if scheduled == [] {
    } else {
      PushKeeps(c, w, scheduled[0].instant, scheduled[0].command, FromProfile);
      PushAllKeeps(c, Push(w, scheduled[0].instant, scheduled[0].command, FromProfile), scheduled[1..]);
    }
  }

  lemma EnqueueAllKeeps<H>(c: Config<H>, w: State<H>, scheduled: seq<Scheduled>)
    requires Scheduler(c, w) && w.generation.Some? && |w.queue| <= c.budget.queued
    ensures var r := EnqueueAll(c, w, scheduled);
            && Reports(w, r)
            && r.world == w.(queue := r.world.queue, queueOrder := r.world.queueOrder, journal := r.world.journal,
                             disposition := r.world.disposition)
            && (DenseJournal(w) ==> DenseJournal(r.world))
            && w.journal <= r.world.journal
            && Scheduler(c, r.world) && |r.world.queue| <= c.budget.queued
            && forall q :: q in r.world.queue ==> q in w.queue || q.source == FromProfile
  {
    if |w.queue| + |scheduled| > c.budget.queued {
      QuietExhaust(w, "queued_commands", c.budget.queued);
    } else {
      match Vet(c, w.instant, scheduled)
      case Exhausted(bound, limit) => QuietExhaust(w, bound, limit);
      case Done => VetMeans(c, w.instant, scheduled); PushAllKeeps(c, w, scheduled);
      case _ =>
    }
  }

  // ---- Attempts and the operations they produce ---------------------------

  /** `_attempt_produced_operation`. */
  predicate Produced(a: Attempt, op: Operation) {
    match (a, op)
    case (Submit(g, command), ExecuteOp(_, Authored, _, _, g', command', _)) => command == command' && g == g'
    case (Step, ExecuteOp(_, FromProfile, _, _, _, _, _)) => true
    case (ActivateFault(g, fault), FaultOp(_, _, g', fault')) => fault == fault' && g == g'
    case (Observe(g, request, poll), ObserveOp(_, poll', observation, request')) =>
      request == request' && g == observation.generation && poll == poll'
    case (Crash(g, cut), CrashOp(_, _, g', cut', _)) => cut == cut' && g == g'
    case (Restart, RestartOp(_, _, _)) => true
    case (BeginFair(g), FairOp(_, _, g')) => g == g'
    case (Finish(g, ending), FinishOp(_, _, g', ending')) => ending == ending' && g == g'
    case _ => false
  }

  /** At most one operation was accepted, it is the attempt's own, and it carries the World's instant. */
  ghost predicate Accepts<H>(w: State<H>, a: Attempt, w': State<H>) {
    && |w'.operations| == |w.operations| + 1
    && w'.operations[..|w.operations|] == w.operations
    && var op := w'.operations[|w.operations|];
       Produced(a, op) && op.position == |w.operations| && OpInstant(op) == w'.instant
  }

  /** What one interpreter call does to an unfinished World, before `_attempt` adds its failure operation. */
  ghost predicate Shape<H>(c: Config<H>, w: State<H>, a: Attempt, r: Result<H>) {
    match r.outcome
    case Refused => r.world == w
    case Broken => true
    case Done =>
      && Accepts(w, a, r.world) && Sound(c, w, r.world) && OnlyProfile(r.world)
      && r.world.disposition == (if a.Finish? then Some(Ended(a.ending)) else None)
    case Exhausted(_, _) =>
      && (Accepts(w, a, r.world) || r.world.operations == w.operations) && Sound(c, w, r.world)
      && r.world.disposition == Some(BudgetExhausted)
    case Violated(_) =>
      && (Accepts(w, a, r.world) || r.world.operations == w.operations) && Sound(c, w, r.world)
      && r.world.disposition == Some(InvariantFailure)
  }

  ghost predicate Sound<H>(c: Config<H>, w: State<H>, w': State<H>) {
    Core(c, w') && |w'.operations| <= w'.actions && w.instant <= w'.instant && w.journal <= w'.journal
  }

  /** The states an attempt may start from. */
  ghost predicate Ready<H>(c: Config<H>, w: State<H>) {
    Inv(c, w) && w.disposition.None?
  }

  lemma ReadyCounts<H>(c: Config<H>, w: State<H>)
    requires Ready(c, w)
    ensures |w.operations| <= w.actions
    ensures forall op :: op in w.operations ==> !op.FailureOp?
  {
  }

  lemma ReserveKeeps<H>(c: Config<H>, w: State<H>)
    requires Core(c, w) && w.disposition.None? && |w.operations| <= w.actions
    ensures var r := Reserve(c, w);
            && (r.outcome.Done? || r.outcome.Exhausted?) && Core(c, r.world)
            && r.world.operations == w.operations && w.journal <= r.world.journal && r.world.instant == w.instant
            && (r.outcome.Done? ==> r.world == w.(actions := w.actions + 1))
            && (r.outcome.Exhausted? ==> r.world.disposition == Some(BudgetExhausted))
            && |w.operations| <= r.world.actions
  {
    if w.actions >= c.budget.actions {
      QuietExhaust(w, "actions", c.budget.actions);
    }
  }

  lemma ExhaustShape<H>(c: Config<H>, w: State<H>, w1: State<H>, a: Attempt, bound: string, limit: nat)
    requires Core(c, w1) && |w1.operations| <= w1.actions
    requires w1.operations == w.operations && w.instant <= w1.instant && w.journal <= w1.journal
    ensures Shape(c, w, a, Exhaust(w1, bound, limit))
  {
    QuietExhaust(w1, bound, limit);
  }

  /** `w1` with its operation appended and journalled: the core invariant still holds. */
  lemma AppendKeeps<H>(c: Config<H>, w: State<H>, op: Operation, kind: Kind, name: string, generation: Option<nat>)
    requires Core(c, w) && |w.operations| < w.actions
    requires op.position == |w.operations| && OpInstant(op) == w.instant && OwnOp(c, op)
    ensures var w' := Record(Append(w, op), kind, name, OperationValue(op), generation);
            && Core(c, w') && |w'.operations| <= w'.actions
            && w'.operations == w.operations + [op] && w.journal <= w'.journal
  {
  }

  /** An operation's tail: sampling and checking only journal, so the shape is settled by the appended operation. */
  lemma TailShape<H>(c: Config<H>, w: State<H>, w1: State<H>, a: Attempt, r: Result<H>)
    requires Core(c, w1) && |w1.operations| <= w1.actions
    requires Accepts(w, a, w1) && w.instant <= w1.instant && w.journal <= w1.journal
    requires w1.disposition == (if a.Finish? then Some(Ended(a.ending)) else None)
    requires OnlyProfile(w1)
    requires Quiet(w1, r.world) && Reports(w1, r)
    ensures Shape(c, w, a, r)
  {
  }

  lemma DequeueKeeps<H>(c: Config<H>, w: State<H>)
    requires Core(c, w) && w.queue != []
    requires w.queue[0].instant > w.instant ==> w.timerAdvances < c.budget.timerAdvances
    ensures Core(c, Dequeue(w))
  {
    var queue := w.queue;
    assert queue[0] in queue;
    forall q | q in queue[1..] ensures queue[0].instant <= q.instant && q in queue {
      var i :| 0 <= i < |queue[1..]| && queue[1..][i] == q;
      assert Less(queue[0], queue[i + 1]);
    }
  }

  lemma ApplyKeeps<H>(c: Config<H>, w: State<H>, q: Queued)
    requires Core(c, w) && w.generation.Some? && |w.operations| < w.actions && Valid(c, q.command)
    ensures var (w', _) := Apply(c, w, q);
            && Core(c, w') && |w'.operations| <= w'.actions
            && w' == w.(host := w'.host, services := w'.services, operations := w'.operations, journal := w'.journal)
            && w.journal <= w'.journal
            && Accepts(w, if q.source == Authored then Submit(w.generation.value, q.command) else Step, w')
  {
    var (applied, services) := Run(c.profile.apply(w.host, q.command), [], w.instant, w.services);
    var op := ExecuteOp(|w.operations|, q.source, q.order, w.instant, w.generation.value, q.command, applied.result);
    AppendKeeps(c, w.(host := applied.host, services := services), op, CommandEntry, q.command.name, w.generation);
  }

  lemma ExecuteShape<H>(c: Config<H>, w0: State<H>, w: State<H>, a: Attempt)
    requires Core(c, w) && w.disposition.None? && w.generation.Some? && w.queue != []
    requires |w.operations| < w.actions
    requires w0.operations == w.operations && w0.instant == w.instant && w0.journal <= w.journal
    requires w.queue[0].instant > w.instant ==> w.timerAdvances < c.budget.timerAdvances
    requires forall q :: q in w.queue[1..] ==> q.source == FromProfile
    requires a == (if w.queue[0].source == Authored then Submit(w.generation.value, w.queue[0].command) else Step)
    ensures Shape(c, w0, a, Execute(c, w)) && !Execute(c, w).outcome.Refused?
  {
    hide Boundary;
    hide EnqueueAll;
    hide Run;
    hide Apply;
    var q := w.queue[0];
    assert q in w.queue;
    DequeueKeeps(c, w);
    ApplyKeeps(c, Dequeue(w), q);
    var (w2, scheduled) := Apply(c, Dequeue(w), q);
    EnqueueAllKeeps(c, w2, scheduled);
    var queued := EnqueueAll(c, w2, scheduled);
    if queued.outcome.Done? {
      BoundaryQuiet(c, queued.world, q.command.name, q.command.name, |w.operations|, w.generation.value);
      TailShape(c, w0, queued.world, a,
                Boundary(c, queued.world, q.command.name, q.command.name, |w.operations|, w.generation.value));
    }
  }

  lemma StepShape<H>(c: Config<H>, w0: State<H>, w: State<H>, a: Attempt)
    requires Core(c, w) && w.disposition.None? && |w.operations| <= w.actions
    requires w0.operations == w.operations && w0.instant == w.instant && w0.journal <= w.journal
    requires w.queue != [] ==>
      && (forall q :: q in w.queue[1..] ==> q.source == FromProfile)
      && w.generation.Some?
      && a == (if w.queue[0].source == Authored then Submit(w.generation.value, w.queue[0].command) else Step)
    ensures var r := DoStep(c, w);
            if r.outcome.Refused? then r.world == w && w.queue == [] else Shape(c, w0, a, r)
  {
    if w.queue != [] {
      assert w.queue[0] in w.queue;
      var q := w.queue[0];
      if q.instant > w.instant && w.timerAdvances >= c.budget.timerAdvances {
        ExhaustShape(c, w0, w, a, "timer_advances", c.budget.timerAdvances);
      } else if q.instant > w.instant && q.instant > c.budget.logicalInstant {
        ExhaustShape(c, w0, w, a, "logical_instant", c.budget.logicalInstant);
      } else {
        ReserveKeeps(c, w);
        if Reserve(c, w).outcome.Done? {
          ExecuteShape(c, w0, Reserve(c, w).world, a);
        }
      }
    }
  }

  lemma SubmitShape<H>(c: Config<H>, w: State<H>, generation: nat, command: Command)
    requires Ready(c, w)
    ensures Shape(c, w, Submit(generation, command), DoSubmit(c, w, generation, command))
  {
    ReadyCounts(c, w);
    var a := Submit(generation, command);
    if w.generation == Some(generation) && !w.fair && !Eligible(w) && Valid(c, command) {
      if |w.queue| >= c.budget.queued {
        ExhaustShape(c, w, w, a, "queued_commands", c.budget.queued);
      } else {
        PushKeeps(c, w, w.instant, command, Authored);
        var pushed := Push(w, w.instant, command, Authored);
        var q := Queued(w.instant, w.queueOrder, generation, Authored, command);
        InsertKeeps(w.queue, q);
        assert pushed.queue[0] == q && pushed.queue == [q] + w.queue;
        assert pushed.queue[1..] == w.queue;
        StepShape(c, w, pushed, a);
      }
    }
  }

  lemma FaultShape<H>(c: Config<H>, w: State<H>, generation: nat, fault: Fault)
    requires Ready(c, w)
    ensures Shape(c, w, ActivateFault(generation, fault), DoFault(c, w, generation, fault))
  {
    hide Boundary;
    ReadyCounts(c, w);
    ReserveKeeps(c, w);
    var r := Reserve(c, w);
    if r.outcome.Done? && w.generation == Some(generation) && fault.profile == c.profile.identity {
      var w1 := r.world.(services := r.world.services.(faults := r.world.services.faults + [ActiveFault(fault, 0)]));
      var op := FaultOp(|w.operations|, w1.instant, generation, fault);
      AppendKeeps(c, w1, op, FaultEntry, fault.name, w1.generation);
      var w2 := Record(Append(w1, op), FaultEntry, fault.name, OperationValue(op), w1.generation);
      var name := "fault:" + fault.name;
      BoundaryQuiet(c, w2, name, name, |w.operations|, generation);
      TailShape(c, w, w2, ActivateFault(generation, fault), Boundary(c, w2, name, name, |w.operations|, generation));
    }
  }

  lemma ObserveShape<H>(c: Config<H>, w: State<H>, generation: nat, request: Request, poll: bool)
    requires Ready(c, w)
    ensures Shape(c, w, Observe(generation, request, poll), DoObserve(c, w, generation, request, poll))
  {
    hide Sample;
    hide Look;
    ReadyCounts(c, w);
    ReserveKeeps(c, w);
    var r := Reserve(c, w);
    var a := Observe(generation, request, poll);
    if r.outcome.Done? && w.generation == Some(generation) {
      if poll && r.world.polls >= c.budget.polls {
        ExhaustShape(c, w, r.world, a, "predicate_polls", c.budget.polls);
      } else {
        var w1 := if poll then r.world.(polls := r.world.polls + 1) else r.world;
        LookKeeps(c, w1, generation, request, poll);
        var w2 := Look(c, w1, generation, request, poll);
        SampleQuiet(c, w2, true, "observe:" + request.name);
        TailShape(c, w, w2, a, Sample(c, w2, true, "observe:" + request.name));
      }
    }
  }

  lemma LookKeeps<H>(c: Config<H>, w: State<H>, generation: nat, request: Request, poll: bool)
    requires Core(c, w) && |w.operations| < w.actions
    ensures var w' := Look(c, w, generation, request, poll);
            && Core(c, w') && |w'.operations| <= w'.actions
            && w' == w.(host := w'.host, services := w'.services, operations := w'.operations, journal := w'.journal)
            && w.journal <= w'.journal
            && Accepts(w, Observe(generation, request, poll), w')
  {
    var position := |w.operations|;
    var (seen, services) := Run(c.profile.observe(w.host, request), [], w.instant, w.services);
    var op := ObserveOp(position, poll, Observation(request.name, seen.value, w.instant, generation, position),
                        request);
    AppendKeeps(c, w.(host := seen.host, services := services), op, ObservationEntry, request.name, w.generation);
  }

  lemma CrashShape<H>(c: Config<H>, w: State<H>, generation: nat, cut: string)
    requires Ready(c, w)
    ensures Shape(c, w, Crash(generation, cut), DoCrash(c, w, generation, cut))
  {
    hide Sample;
    hide Capture;
    hide RecordChecks;
    ReadyCounts(c, w);
    ReserveKeeps(c, w);
    var r := Reserve(c, w);
    var a := Crash(generation, cut);
    if r.outcome.Done? && w.generation == Some(generation) && !w.fair && cut != "" {
      var position := |r.world.operations|;
      CaptureQuiet(c, r.world, c.checkers, position, generation);
      var (w1, captured) := Capture(c, r.world, c.checkers, position, generation);
      var w2 := Drop(c, w1, generation, cut);
      var op := CrashOp(position, w1.instant, generation, cut, |w1.queue|);
      AppendKeeps(c, w1.(generation := None, queue := [], host := c.profile.drop(w1.host)), op, CrashEntry, cut, None);
      SampleQuiet(c, w2, false, "crash:" + cut);
      var sampled := Sample(c, w2, false, "crash:" + cut);
      if sampled.outcome.Done? {
        RecordChecksQuiet(sampled.world, "crash:" + cut, captured);
      }
      TailShape(c, w, w2, a, DoCrash(c, w, generation, cut));
    }
  }

  lemma RestartShape<H>(c: Config<H>, w: State<H>)
    requires Ready(c, w)
    ensures Shape(c, w, Restart, DoRestart(c, w))
  {
    hide Boundary;
    hide Reload;
    hide Run;
    ReadyCounts(c, w);
    if w.generation.None? {
      if w.reloads >= c.budget.reloads {
        ExhaustShape(c, w, w, Restart, "reloads", c.budget.reloads);
      } else {
        ReserveKeeps(c, w);
        var r := Reserve(c, w);
        if r.outcome.Done? {
          var w1 := r.world.(reloads := r.world.reloads + 1);
          QueueNeedsGeneration(c, w);
          ReloadKeeps(c, w1);
          if Reload(c, w1).outcome.Done? {
            RestartTail(c, w, Reload(c, w1).world);
          }
        }
      }
    }
  }

  lemma QueueNeedsGeneration<H>(c: Config<H>, w: State<H>)
    requires Scheduler(c, w)
    ensures w.queue != [] ==> w.generation.Some?
  {
    if w.queue != [] {
      assert w.queue[0] in w.queue;
    }
  }

  lemma ReloadKeeps<H>(c: Config<H>, w: State<H>)
    requires Core(c, w) && w.generation.None? && w.queue == [] && w.disposition.None? && |w.operations| <= w.actions
    ensures var r := Reload(c, w);
            && r.world.operations == w.operations && r.world.instant == w.instant && w.journal <= r.world.journal
            && r.world.actions == w.actions && Reports(w, r)
            && (!r.outcome.Broken? ==> Core(c, r.world))
            && (r.outcome.Done? ==> OnlyProfile(r.world) && r.world.generation.Some?)
  {
    var (started, services) := Run(c.profile.load(w.host), [], w.instant, w.services);
    EnqueueAllKeeps(c, Install(w.(services := services), started.host), started.scheduled);
  }

  lemma RestartTail<H>(c: Config<H>, w: State<H>, w2: State<H>)
    requires Core(c, w2) && |w2.operations| < w2.actions && w2.generation.Some? && w2.disposition.None?
    requires w2.operations == w.operations && w.instant <= w2.instant && w.journal <= w2.journal
    requires OnlyProfile(w2)
    ensures var op := RestartOp(|w2.operations|, w2.instant, w2.lastGeneration);
            var w3 := Record(Append(w2, op), LoadedEntry, c.profile.identity, OperationValue(op), w2.generation);
            Shape(c, w, Restart, Boundary(c, w3, "load", "load", |w2.operations|, w2.lastGeneration))
  {
    var op := RestartOp(|w2.operations|, w2.instant, w2.lastGeneration);
    AppendKeeps(c, w2, op, LoadedEntry, c.profile.identity, w2.generation);
    var w3 := Record(Append(w2, op), LoadedEntry, c.profile.identity, OperationValue(op), w2.generation);
    BoundaryQuiet(c, w3, "load", "load", |w2.operations|, w2.lastGeneration);
    TailShape(c, w, w3, Restart, Boundary(c, w3, "load", "load", |w2.operations|, w2.lastGeneration));
  }

  lemma FairShape<H>(c: Config<H>, w: State<H>, generation: nat)
    requires Ready(c, w)
    ensures Shape(c, w, BeginFair(generation), DoFair(c, w, generation))
  {
    hide Boundary;
    ReadyCounts(c, w);
    ReserveKeeps(c, w);
    var r := Reserve(c, w);
    if r.outcome.Done? && w.generation == Some(generation) {
      var w1 := r.world.(fair := true);
      var op := FairOp(|w1.operations|, w1.instant, generation);
      AppendKeeps(c, w1, op, FairEntry, "begin", w1.generation);
      var w2 := Record(Append(w1, op), FairEntry, "begin", OperationValue(op), w1.generation);
      BoundaryQuiet(c, w2, "begin_fair", "begin_fair", |w1.operations|, generation);
      TailShape(c, w, w2, BeginFair(generation),
                Boundary(c, w2, "begin_fair", "begin_fair", |w1.operations|, generation));
    }
  }

  lemma FinishShape<H>(c: Config<H>, w: State<H>, generation: nat, ending: Ending)
    requires Ready(c, w)
    ensures Shape(c, w, Finish(generation, ending), DoFinish(c, w, generation, ending))
  {
    ReadyCounts(c, w);
    ReserveKeeps(c, w);
    var r := Reserve(c, w);
    var a := Finish(generation, ending);
    if r.outcome.Done? && w.generation == Some(generation) && w.queue == [] {
      var w1 := r.world.(disposition := Some(Ended(ending)));
      var op := FinishOp(|w1.operations|, w1.instant, generation, ending);
      AppendKeeps(c, w1, op, FinishEntry, EndingName(ending), w1.generation);
      var w2 := Record(Append(w1, op), FinishEntry, EndingName(ending), OperationValue(op), w1.generation);
      var name := "finish:" + EndingName(ending);
      SampleQuiet(c, w2, true, name);
      TailShape(c, w, w2, a, Sample(c, w2, true, name));
    }
  }

  /** Every interpreter call on a ready World keeps the invariant and accepts at most its own operation. */
  lemma PerformShape<H>(c: Config<H>, w: State<H>, a: Attempt)
    requires Ready(c, w)
    ensures Shape(c, w, a, Perform(c, w, a))
  {
    match a
    case Submit(generation, command) => SubmitShape(c, w, generation, command);
    case Step =>
      ReadyCounts(c, w);
      if w.queue != [] { assert w.queue[0] in w.queue; }
      StepShape(c, w, w, Step);
    case ActivateFault(generation, fault) => FaultShape(c, w, generation, fault);
    case Observe(generation, request, poll) => ObserveShape(c, w, generation, request, poll);
    case Crash(generation, cut) => CrashShape(c, w, generation, cut);
    case Restart => RestartShape(c, w);
    case BeginFair(generation) => FairShape(c, w, generation);
    case Finish(generation, ending) => FinishShape(c, w, generation, ending);
  }

  // ---- Whole attempts and whole runs --------------------------------------

  /** The operation a failing attempt leaves last. */
  ghost predicate FailureFor<H>(w: State<H>, a: Attempt, w': State<H>) {
    && |w'.operations| > |w.operations|
    && var f := w'.operations[|w'.operations| - 1];
       && f.FailureOp? && f.attempt == a && f.position == |w'.operations| - 1
       && f.accepted == |w'.operations| - 1 - |w.operations|
       && w'.disposition == Some(if f.failure.BudgetFailure? then BudgetExhausted else InvariantFailure)
  }

  /** What one attempt does to a ready World. */
  ghost predicate TryShape<H>(c: Config<H>, w: State<H>, a: Attempt, r: Result<H>) {
    match r.outcome
    case Refused => r.world == w
    case Broken => true
    case Done =>
      && Accepts(w, a, r.world) && !r.world.operations[|w.operations|].FailureOp?
      && r.world.disposition == (if a.Finish? then Some(Ended(a.ending)) else None)
      && Inv(c, r.world) && w.journal <= r.world.journal
    case _ =>
      && FailureFor(w, a, r.world) && Inv(c, r.world) && w.journal <= r.world.journal
      && r.world.operations[..|w.operations|] == w.operations
      && |r.world.operations| <= |w.operations| + 2
      && (|r.world.operations| == |w.operations| + 2 ==>
            && Produced(a, r.world.operations[|w.operations|])
            && !r.world.operations[|w.operations|].FailureOp?)
  }

  lemma TryKeeps<H>(c: Config<H>, w: State<H>, a: Attempt)
    requires Ready(c, w)
    ensures TryShape(c, w, a, Try(c, w, a))
  {
    PerformShape(c, w, a);
    ReadyCounts(c, w);
    var p, r := Perform(c, w, a), Try(c, w, a);
    if p.outcome.Done? {
      DoneKeeps(c, w, a, p.world);
    } else if Failing(p.outcome) {
      FailureKeeps(c, w, a, p);
    }
  }

  lemma DoneKeeps<H>(c: Config<H>, w: State<H>, a: Attempt, w': State<H>)
    requires Ready(c, w) && Accepts(w, a, w') && Sound(c, w, w')
    requires OnlyProfile(w') && !Failed(w')
    ensures Inv(c, w') && !w'.operations[|w.operations|].FailureOp?
  {
    ReadyCounts(c, w);
    forall i | 0 <= i < |w'.operations| ensures !w'.operations[i].FailureOp? {
      if i < |w.operations| {
        assert w'.operations[i] == w'.operations[..|w.operations|][i];
        assert w'.operations[i] in w.operations;
      }
    }
  }

  lemma FailureKeeps<H>(c: Config<H>, w: State<H>, a: Attempt, p: Result<H>)
    requires Ready(c, w) && Shape(c, w, a, p) && Failing(p.outcome) && p == Perform(c, w, a)
    ensures TryShape(c, w, a, Try(c, w, a))
  {
    var n, w1, w' := |w.operations|, p.world, Try(c, w, a).world;
    assert |w1.operations| == n || |w1.operations| == n + 1;
    assert w1.operations[..n] == w.operations;
    var op := FailureOp(|w1.operations|, w1.instant, w1.generation, |w1.operations| - n, a, Detail(p.outcome));
    assert w'.operations == w1.operations + [op];
    NoFailureYet(c, w, a, p);
    FailsOnItsOwn(c, w, a);
    WithFailure(c, w1, op, if p.outcome.Exhausted? then "budget_exhausted" else "invariant_failure");
    assert w'.operations[..n] == w1.operations[..n];
  }

  /** An attempt that names another profile is refused before it can fail. */
  lemma FailsOnItsOwn<H>(c: Config<H>, w: State<H>, a: Attempt)
    requires Core(c, w)
    ensures Failing(Perform(c, w, a).outcome) ==> OwnAttempt(c, a)
  {
    hide DoStep;
    hide Boundary;
    hide Sample;
  }

  lemma NoFailureYet<H>(c: Config<H>, w: State<H>, a: Attempt, p: Result<H>)
    requires Ready(c, w) && Shape(c, w, a, p) && Failing(p.outcome)
    ensures forall i :: 0 <= i < |p.world.operations| ==> !p.world.operations[i].FailureOp?
  {
    ReadyCounts(c, w);
    var n, w1 := |w.operations|, p.world;
    forall i | 0 <= i < |w1.operations| ensures !w1.operations[i].FailureOp? {
      if i < n {
        assert w1.operations[i] == w1.operations[..n][i];
        assert w1.operations[i] in w.operations;
      }
    }
  }

  lemma WithFailure<H>(c: Config<H>, w: State<H>, op: Operation, name: string)
    requires Core(c, w) && |w.operations| <= w.actions && Failed(w)
    requires forall i :: 0 <= i < |w.operations| ==> !w.operations[i].FailureOp?
    requires op.FailureOp? && op.position == |w.operations| && op.instant == w.instant && OwnOp(c, op)
    ensures Inv(c, Record(Append(w, op), FailureEntry, name, OperationValue(op), w.generation))
  {
  }

  /** The attempt is not a submission, or one that its own guards stop. */
  predicate Harmless<H>(c: Config<H>, w: State<H>, a: Attempt) {
    match a
    case Submit(g, command) => w.generation != Some(g) || w.fair || Eligible(w) || !Valid(c, command)
    case _ => true
  }

  /** An ended World refuses every harmless attempt, and refusing changes nothing. */
  lemma EndedRefuses<H>(c: Config<H>, w: State<H>, a: Attempt)
    requires Inv(c, w) && w.disposition.Some? && Harmless(c, w, a)
    ensures Try(c, w, a) == Result(w, Refused)
  {
  }

  /** No attempt broke the profile protocol, and whatever an ended World is asked is harmless. */
  ghost predicate Orderly<H>(c: Config<H>, w: State<H>, attempts: seq<Attempt>)
    decreases attempts
  {
    attempts == [] ||
    (&& !Try(c, w, attempts[0]).outcome.Broken?
     && (w.disposition.Some? ==> Harmless(c, w, attempts[0]))
     && Orderly(c, Try(c, w, attempts[0]).world, attempts[1..]))
  }

  lemma ConstructKeeps<H>(c: Config<H>)
    requires Construct(c).outcome.Done?
    ensures Ready(c, Construct(c).world) && Construct(c).world.operations == []
  {
    var blank := Blank(c);
    SampleQuiet(c, blank, false, "before_create");
    var w := Sample(c, blank, false, "before_create").world;
    var (started, services) := Run(c.profile.create(w.host), [], w.instant, w.services);
    var w1 := Install(w.(services := services), started.host);
    EnqueueAllKeeps(c, w1, started.scheduled);
    var queued := EnqueueAll(c, w1, started.scheduled);
    var w2 := Record(queued.world, CreatedEntry, c.profile.identity, ScheduledValue(started.scheduled),
                     queued.world.generation);
    BoundaryQuiet(c, w2, "create", "create", 0, w2.lastGeneration);
  }

  /** In every orderly run the World invariant holds throughout, and the log and the journal only grow. */
  lemma {:induction false} RunKeeps<H>(c: Config<H>, w: State<H>, attempts: seq<Attempt>)
    requires Inv(c, w) && Orderly(c, w, attempts)
    ensures var w' := Exec(c, w, attempts);
            && Inv(c, w') && w.operations <= w'.operations && w.journal <= w'.journal
            && (w.disposition.Some? ==> w' == w)
    decreases attempts
  {
    if attempts == [] {
    } else {
      if w.disposition.Some? {
        EndedRefuses(c, w, attempts[0]);
      } else {
        TryKeeps(c, w, attempts[0]);
      }
      RunKeeps(c, Try(c, w, attempts[0]).world, attempts[1..]);
    }
  }

  // ---- What is executed ---------------------------------------------------

  /** `op` executes `q`, and nothing in `queue` comes before `q`. */
  ghost predicate RunsLeast(queue: seq<Queued>, q: Queued, op: Operation) {
    && op.ExecuteOp? && op.source == q.source && op.order == q.order && op.instant == q.instant
    && op.generation == q.generation && op.command == q.command
    && q in queue
    && forall p :: p in queue ==>
         p == q || q.instant < p.instant || (q.instant == p.instant && q.order < p.order)
  }

  lemma {:induction false} PushAllLogsNothing<H>(w: State<H>, scheduled: seq<Scheduled>)
    requires w.generation.Some?
    ensures PushAll(w, scheduled).operations == w.operations
    decreases scheduled
  {
    if scheduled == [] {
    } else {
      PushAllLogsNothing(Push(w, scheduled[0].instant, scheduled[0].command, FromProfile), scheduled[1..]);
    }
  }

  /** Past the dequeued command, an execution logs nothing more. */
  lemma ExecuteLogs<H>(c: Config<H>, w: State<H>)
    requires w.generation.Some? && w.queue != []
    ensures Execute(c, w).world.operations == Apply(c, Dequeue(w), w.queue[0]).0.operations
  {
    hide Boundary;
    hide Run;
    var (w1, scheduled) := Apply(c, Dequeue(w), w.queue[0]);
    PushAllLogsNothing(w1, scheduled);
    hide Apply;
    hide Vet;
    var queued, name := EnqueueAll(c, w1, scheduled), w.queue[0].command.name;
    BoundaryQuiet(c, queued.world, name, name, |w.operations|, w.generation.value);
  }

  /**
    The scheduler's choice: whatever a step logs, however it ends, is the
    least (instant, order) of everything queued.
    */
  lemma ExecutesLeast<H>(c: Config<H>, w: State<H>)
    requires Core(c, w)
    ensures var logged := DoStep(c, w).world.operations;
            logged == w.operations
            || (&& |logged| == |w.operations| + 1 && logged[..|w.operations|] == w.operations
                && w.queue != [] && RunsLeast(w.queue, w.queue[0], logged[|w.operations|]))
  {
    if w.queue != [] && w.generation.Some? {
      assert w.queue[0] in w.queue;
      forall p | p in w.queue ensures p == w.queue[0] || Less(w.queue[0], p) {
        var i :| 0 <= i < |w.queue| && w.queue[i] == p;
      }
      var w1 := Reserve(c, w).world;
      if w1.generation.Some? && w1.queue != [] {
        ExecuteLogs(c, w1);
      }
      hide Execute;
      hide Run;
    }
  }

  /** The queue that a step chooses from: a submission is queued first. */
  function Choices<H>(w: State<H>, a: Attempt): seq<Queued> {
    match a
    case Submit(g, command) => Insert(w.queue, Queued(w.instant, w.queueOrder, g, Authored, command))
    case _ => w.queue
  }

  /**
    A submission that logs anything executes itself: it is the least of
    everything queued, whatever else is waiting.
    */
  lemma SubmissionRunsItself<H>(c: Config<H>, w: State<H>, g: nat, command: Command)
    requires Core(c, w)
    ensures var logged := DoSubmit(c, w, g, command).world.operations;
            var own := Queued(w.instant, w.queueOrder, g, Authored, command);
            logged == w.operations
            || (&& |logged| == |w.operations| + 1 && logged[..|w.operations|] == w.operations
                && RunsLeast(Choices(w, Submit(g, command)), own, logged[|w.operations|]))
  {
    hide DoStep;
    if w.generation == Some(g) && !w.fair && !Eligible(w) && Valid(c, command) && |w.queue| < c.budget.queued {
      var pushed := Push(w, w.instant, command, Authored);
      PushKeeps(c, w, w.instant, command, Authored);
      if w.queue != [] {
        assert w.queue[0] in w.queue;
      }
      InsertKeeps(w.queue, Queued(w.instant, w.queueOrder, g, Authored, command));
      ExecutesLeast(c, pushed);
    }
  }

  lemma TryLogs<H>(c: Config<H>, w: State<H>, a: Attempt)
    ensures var made, logged := Perform(c, w, a).world.operations, Try(c, w, a).world.operations;
            logged == made || (|logged| == |made| + 1 && logged[..|made|] == made && logged[|made|].FailureOp?)
  {
    hide Perform;
  }

  /** A submission or a step logs only the least entry it had to choose from. */
  lemma PerformRunsLeast<H>(c: Config<H>, w: State<H>, a: Attempt)
    requires Core(c, w) && (a.Submit? || a.Step?)
    ensures var made := Perform(c, w, a).world.operations;
            made == w.operations
            || (|made| == |w.operations| + 1 && exists q :: RunsLeast(Choices(w, a), q, made[|w.operations|]))
  {
    hide RunsLeast;
    hide DoStep;
    hide DoSubmit;
    var n, made := |w.operations|, Perform(c, w, a).world.operations;
    match a {
      case Submit(g, command) =>
        SubmissionRunsItself(c, w, g, command);
        var own := Queued(w.instant, w.queueOrder, g, Authored, command);
        assert made == w.operations || RunsLeast(Choices(w, a), own, made[n]);
      case Step =>
        ExecutesLeast(c, w);
        assert made == w.operations || RunsLeast(Choices(w, a), w.queue[0], made[n]);
    }
  }

  lemma TryExecutesLeast<H>(c: Config<H>, w: State<H>, a: Attempt)
    requires Ready(c, w) && !Try(c, w, a).outcome.Broken?
    ensures var logged := Try(c, w, a).world.operations;
            w.operations <= logged
            && (|logged| > |w.operations| && logged[|w.operations|].ExecuteOp? ==>
                  exists q :: RunsLeast(Choices(w, a), q, logged[|w.operations|]))
            && forall i :: |w.operations| < i < |logged| ==> !logged[i].ExecuteOp?
  {
    TryKeeps(c, w, a);
    TryLogs(c, w, a);
    hide Try;
    hide Perform;
    hide RunsLeast;
    var logged := Try(c, w, a).world.operations;
    if |logged| > |w.operations| && logged[|w.operations|].ExecuteOp? {
      assert Produced(a, logged[|w.operations|]);
      PerformRunsLeast(c, w, a);
    }
    hide Inv;
  }

  /** In every orderly run each logged execution was the least entry of what its attempt had to choose from. */
  lemma {:induction false} EveryExecutionIsLeast<H>(c: Config<H>, w: State<H>, attempts: seq<Attempt>, i: nat)
    returns (k: nat)
    requires Inv(c, w) && Orderly(c, w, attempts)
    requires |w.operations| <= i < |Exec(c, w, attempts).operations| && Exec(c, w, attempts).operations[i].ExecuteOp?
    ensures k < |attempts|
    ensures var v := Exec(c, w, attempts[..k]);
            |v.operations| == i && exists q :: RunsLeast(Choices(v, attempts[k]), q, Exec(c, w, attempts).operations[i])
    decreases attempts
  {
    hide Try;
    hide RunsLeast;
    hide Inv;
    var w1 := Try(c, w, attempts[0]).world;
    if w.disposition.Some? {
      EndedRefuses(c, w, attempts[0]);
    } else {
      TryKeeps(c, w, attempts[0]);
      TryExecutesLeast(c, w, attempts[0]);
    }
    RunKeeps(c, w1, attempts[1..]);
    var last := Exec(c, w, attempts);
    if i < |w1.operations| {
      assert last.operations[i] == w1.operations[i];
      k := 0;
      assert attempts[..0] == [];
    } else {
      var rest := EveryExecutionIsLeast(c, w1, attempts[1..], i);
      k := rest + 1;
      assert attempts[..k][0] == attempts[0] && attempts[..k][1..] == attempts[1..][..rest];
    }
  }

  // ---- Submitting to an ended World ---------------------------------------

  /**
    Exactly what a submission to an ended World does.  It is refused without a
    trace if and only if one of its own guards stops it; otherwise it stays queued
    although it is refused, or, with the queue at its budget, the World fails once
    more: the disposition is overwritten and a failed World has two failures.
    */
  lemma EndedSubmission<H>(c: Config<H>, w: State<H>, g: nat, command: Command)
    requires Inv(c, w) && w.disposition.Some?
    ensures var r := Try(c, w, Submit(g, command));
            && (r == Result(w, Refused) <==> Harmless(c, w, Submit(g, command)))
            && (!Harmless(c, w, Submit(g, command)) ==>
                  if |w.queue| < c.budget.queued then
                    r == Result(Push(w, w.instant, command, Authored), Refused)
                  else
                    && r.outcome == Exhausted("queued_commands", c.budget.queued)
                    && r.world.disposition == Some(BudgetExhausted)
                    && |r.world.operations| == |w.operations| + 1 && r.world.operations[|w.operations|].FailureOp?
                    && (Failed(w) ==> !FailureLast(r.world)))
  {
    var r := Try(c, w, Submit(g, command));
    if !Harmless(c, w, Submit(g, command)) {
      if |w.queue| < c.budget.queued {
        assert r.world.queueOrder == w.queueOrder + 1;
      } else {
        assert r.world.operations[..|w.operations|] == w.operations;
        if Failed(w) {
          assert r.world.operations[|w.operations| - 1].FailureOp?;
        }
      }
    }
  }

  // ---- A profile that keeps its protocol ----------------------------------

  /** It schedules only valid commands at or after now, and reports exactly the budgeted resources. */
  ghost predicate Schedules<H>(c: Config<H>, now: nat, scheduled: seq<Scheduled>) {
    forall s :: s in scheduled ==> now <= s.instant && Valid(c, s.command)
  }

  ghost predicate Protocol<H(!new)>(c: Config<H>) {
    && (forall h, command, now, services ::
          Schedules(c, now, Run(c.profile.apply(h, command), [], now, services).0.result.scheduled))
    && (forall h, now, services :: Schedules(c, now, Run(c.profile.load(h), [], now, services).0.scheduled))
    && (c.budget.resources.Some? ==>
          forall h, live :: Names(c.profile.usage(h, live)) == Names(c.budget.resources.value))
  }

  lemma {:induction false} VetNeverBreaks<H>(c: Config<H>, now: nat, scheduled: seq<Scheduled>)
    requires Schedules(c, now, scheduled)
    ensures Vet(c, now, scheduled).Done? || Vet(c, now, scheduled).Exhausted?
  {
    if scheduled == [] {
    } else {
      assert scheduled[0] in scheduled;
      VetNeverBreaks(c, now, scheduled[1..]);
    }
  }

  lemma SampleNeverBreaks<H(!new)>(c: Config<H>, w: State<H>, live: bool, trigger: string)
    requires Protocol(c)
    ensures !Sample(c, w, live, trigger).outcome.Broken?
  {
    if c.budget.resources.Some? {
      var usage, limits := c.profile.usage(w.host, live), c.budget.resources.value;
      assert |Names(usage)| == |usage| && |Names(limits)| == |limits|;
    }
  }

  lemma BoundaryNeverBreaks<H(!new)>(c: Config<H>, w: State<H>, sample: string, trigger: string, sequence: nat,
                                     generation: nat)
    requires Protocol(c)
    ensures !Boundary(c, w, sample, trigger, sequence, generation).outcome.Broken?
  {
    SampleNeverBreaks(c, w, true, sample);
  }

  lemma StepNeverBreaks<H(!new)>(c: Config<H>, w: State<H>)
    requires Protocol(c)
    ensures !DoStep(c, w).outcome.Broken?
  {
    var r := Reserve(c, w);
    if w.generation.Some? && w.queue != [] && r.outcome.Done? {
      var q, w1 := w.queue[0], Dequeue(r.world);
      var (applied, services) := Run(c.profile.apply(w1.host, q.command), [], w1.instant, w1.services);
      VetNeverBreaks(c, w1.instant, applied.result.scheduled);
      var (w2, scheduled) := Apply(c, w1, q);
      var queued := EnqueueAll(c, w2, scheduled);
      BoundaryNeverBreaks(c, queued.world, q.command.name, q.command.name, |w.operations|, w.generation.value);
    }
  }

  lemma RestartNeverBreaks<H(!new)>(c: Config<H>, w: State<H>)
    requires Protocol(c)
    ensures !DoRestart(c, w).outcome.Broken?
  {
    var r := Reserve(c, w);
    if r.outcome.Done? {
      var w1 := r.world.(reloads := r.world.reloads + 1);
      var (started, services) := Run(c.profile.load(w1.host), [], w1.instant, w1.services);
      VetNeverBreaks(c, w1.instant, started.scheduled);
      var w2 := Reload(c, w1).world;
      var op := RestartOp(|w2.operations|, w2.instant, w2.lastGeneration);
      BoundaryNeverBreaks(
        c, Record(Append(w2, op), LoadedEntry, c.profile.identity, OperationValue(op), w2.generation),
        "load", "load", |w2.operations|, w2.lastGeneration);
    }
  }

  /** A profile that keeps its protocol never breaks an attempt, from any state whatever. */
  lemma ProtocolNeverBreaks<H(!new)>(c: Config<H>, w: State<H>, a: Attempt)
    requires Protocol(c)
    ensures !Try(c, w, a).outcome.Broken?
  {
    match a
    case Submit(generation, command) =>
      if w.generation.Some? { StepNeverBreaks(c, Push(w, w.instant, command, Authored)); }
    case Step => StepNeverBreaks(c, w);
    case Restart => RestartNeverBreaks(c, w);
    case _ => OtherNeverBreaks(c, w, a);
  }

  lemma OtherNeverBreaks<H(!new)>(c: Config<H>, w: State<H>, a: Attempt)
    requires Protocol(c) && !a.Submit? && !a.Step? && !a.Restart?
    ensures !Perform(c, w, a).outcome.Broken?
  {
    forall w': State<H>, live, trigger ensures !Sample(c, w', live, trigger).outcome.Broken? {
      SampleNeverBreaks(c, w', live, trigger);
    }
  }
}
