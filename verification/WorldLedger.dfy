/**
  The log accounts for the World: its counters are what the logged operations say,
  no command is lost or runs twice, the queue holds exactly what was filed and not
  yet run, and a budget is reported exhausted only when it is.
  */
module WorldLedger {
  import opened Options
  import opened World
  import opened WorldSafety
  import opened WorldVerdicts

  // ---- The queue as a bag -------------------------------------------------

  /** A profile's schedule as it is filed, from `order` on. */
  function Filed(order: nat, generation: nat, scheduled: seq<Scheduled>): seq<Queued> {
    seq(|scheduled|, i requires 0 <= i < |scheduled| =>
      Queued(scheduled[i].instant, order + i, generation, FromProfile, scheduled[i].command))
  }

  lemma {:induction false} InsertAdds(queue: seq<Queued>, q: Queued)
    ensures multiset(Insert(queue, q)) == multiset(queue) + multiset{q}
  {
    if queue == [] || Less(q, queue[0]) {
    } else {
      InsertAdds(queue[1..], q);
      assert queue == [queue[0]] + queue[1..];
    }
  }

  lemma FiledSplits(order: nat, generation: nat, scheduled: seq<Scheduled>)
    requires scheduled != []
    ensures multiset(Filed(order, generation, scheduled))
            == multiset{Queued(scheduled[0].instant, order, generation, FromProfile, scheduled[0].command)}
               + multiset(Filed(order + 1, generation, scheduled[1..]))
  {
    var first := Queued(scheduled[0].instant, order, generation, FromProfile, scheduled[0].command);
    assert Filed(order, generation, scheduled) == [first] + Filed(order + 1, generation, scheduled[1..]);
  }

  lemma {:induction false} PushAllFiles<H>(w: State<H>, scheduled: seq<Scheduled>)
    requires w.generation.Some?
    ensures var w' := PushAll(w, scheduled);
            && multiset(w'.queue) == multiset(w.queue) + multiset(Filed(w.queueOrder, w.generation.value, scheduled))
            && w'.queueOrder == w.queueOrder + |scheduled|
    decreases scheduled
  {
    if scheduled == [] {
    } else {
      FiledSplits(w.queueOrder, w.generation.value, scheduled);
      hide Filed;
      hide Insert;
      InsertAdds(w.queue, Queued(scheduled[0].instant, w.queueOrder, w.generation.value, FromProfile,
                                 scheduled[0].command));
      PushAllFiles(Push(w, scheduled[0].instant, scheduled[0].command, FromProfile), scheduled[1..]);
    }
  }

  // ---- What an accepted attempt does --------------------------------------

  /** The queue entry that an execution ran. */
  function EntryOf(op: Operation): Queued
    requires op.ExecuteOp?
  {
    Queued(op.instant, op.order, op.generation, op.source, op.command)
  }

  /** The first order that follow-up work of an attempt is filed under. */
  function NextOrder<H>(w: State<H>, a: Attempt): nat { if a.Submit? then w.queueOrder + 1 else w.queueOrder }

  /** The entry run has left the queue, and all that the profile answered has entered it. */
  ghost predicate Executes<H>(c: Config<H>, w: State<H>, a: Attempt, w': State<H>, op: Operation) {
    && op.ExecuteOp? && w.generation.Some?
    && op.result == Run(c.profile.apply(w.host, op.command), [], w'.instant, w.services).0.result
    && multiset(w'.queue) + multiset{EntryOf(op)}
       == multiset(Choices(w, a)) + multiset(Filed(NextOrder(w, a), w.generation.value, op.result.scheduled))
    && w'.queueOrder == NextOrder(w, a) + |op.result.scheduled|
  }

  ghost predicate Reloads<H>(c: Config<H>, w: State<H>, w': State<H>) {
    var started := Run(c.profile.load(w.host), [], w.instant, w.services).0;
    && multiset(w'.queue) == multiset(w.queue) + multiset(Filed(w.queueOrder, w'.lastGeneration, started.scheduled))
    && w'.queueOrder == w.queueOrder + |started.scheduled|
  }

  ghost predicate Discards<H>(w: State<H>, w': State<H>, op: Operation) {
    w'.queue == [] && w'.queueOrder == w.queueOrder && op.CrashOp? && op.discarded == |w.queue|
  }

  ghost predicate Queues<H>(c: Config<H>, w: State<H>, a: Attempt, w': State<H>, op: Operation) {
    if a.Submit? || a.Step? then Executes(c, w, a, w', op)
    else if a.Crash? then Discards(w, w', op)
    else if a.Restart? then Reloads(c, w, w')
    else w'.queue == w.queue && w'.queueOrder == w.queueOrder && (a.Observe? ==> Shows(c, w, a.request, w', op))
  }

  /** An observation logs what the profile shows, and leaves the application as showing it does. */
  ghost predicate Shows<H>(c: Config<H>, w: State<H>, request: Request, w': State<H>, op: Operation) {
    var (value, left) := Shown(c, (w.host, w.services), request, w.instant);
    op.ObserveOp? && op.observation.value == value && (w'.host, w'.services) == left
  }

  function One(b: bool): nat { if b then 1 else 0 }

  ghost predicate Counts<H>(w: State<H>, a: Attempt, w': State<H>) {
    && w'.polls == w.polls + One(a.Observe? && a.poll)
    && w'.reloads == w.reloads + One(a.Restart?)
    && w'.lastGeneration == w.lastGeneration + One(a.Restart?)
    && w'.timerAdvances == w.timerAdvances + One(w.instant < w'.instant)
    && w'.fair == (w.fair || a.BeginFair?)
    && w'.generation == (if a.Crash? then None else if a.Restart? then Some(w'.lastGeneration) else w.generation)
    && (!a.Submit? && !a.Step? ==> w'.instant == w.instant)
  }

  ghost predicate Does<H>(c: Config<H>, w: State<H>, a: Attempt, r: Result<H>) {
    r.outcome.Done? ==>
      && |r.world.operations| == |w.operations| + 1 && r.world.actions == w.actions + 1
      && Counts(w, a, r.world) && Queues(c, w, a, r.world, r.world.operations[|w.operations|])
  }

  /** Checks and samples touch nothing that is counted or queued. */
  ghost predicate Aside<H>(w: State<H>, w': State<H>) {
    w' == w.(host := w'.host, services := w'.services, journal := w'.journal, disposition := w'.disposition)
  }

  lemma BoundaryAside<H>(c: Config<H>, w: State<H>, sample: string, trigger: string, sequence: nat, generation: nat)
    ensures Aside(w, Boundary(c, w, sample, trigger, sequence, generation).world)
  {
    hide Boundary;
    BoundaryQuiet(c, w, sample, trigger, sequence, generation);
  }

  lemma SampleAside<H>(c: Config<H>, w: State<H>, live: bool, trigger: string)
    ensures Aside(w, Sample(c, w, live, trigger).world)
  {
    hide Sample;
    SampleQuiet(c, w, live, trigger);
  }

  /** Filing a schedule that is accepted changes the queue and nothing else. */
  lemma EnqueueFiles<H>(c: Config<H>, w: State<H>, scheduled: seq<Scheduled>)
    requires w.generation.Some? && EnqueueAll(c, w, scheduled).outcome.Done?
    ensures var w' := EnqueueAll(c, w, scheduled).world;
            && w' == w.(queue := w'.queue, queueOrder := w'.queueOrder)
            && multiset(w'.queue) == multiset(w.queue) + multiset(Filed(w.queueOrder, w.generation.value, scheduled))
            && w'.queueOrder == w.queueOrder + |scheduled|
  {
    VetEnds(c, w.instant, scheduled);
    PushAllFiles(w, scheduled);
    EnqueueFrames(c, w, scheduled);
    hide Vet;
    hide PushAll;
    hide Filed;
  }

  lemma ExecuteDoes<H>(c: Config<H>, w: State<H>)
    requires w.generation.Some? && w.queue != [] && w.queue[0].generation == w.generation.value
    requires w.instant <= w.queue[0].instant && Execute(c, w).outcome.Done?
    ensures var w' := Execute(c, w).world;
            && |w'.operations| == |w.operations| + 1 && w'.actions == w.actions && Counts(w, Step, w')
            && Executes(c, w, Step, w', w'.operations[|w.operations|])
            && EntryOf(w'.operations[|w.operations|]) == w.queue[0]
  {
    hide Run;
    hide Boundary;
    hide Filed;
    hide EnqueueAll;
    var q, d := w.queue[0], Dequeue(w);
    var (w1, scheduled) := Apply(c, d, q);
    EnqueueFrames(c, w1, scheduled);
    EnqueueFiles(c, w1, scheduled);
    var w2 := EnqueueAll(c, w1, scheduled).world;
    BoundaryAside(c, w2, q.command.name, q.command.name, |w.operations|, w.generation.value);
    assert w.queue == [q] + d.queue;
  }

  lemma StepDoes<H>(c: Config<H>, w: State<H>)
    requires w.queue != [] ==> w.instant <= w.queue[0].instant
    ensures Does(c, w, Step, DoStep(c, w))
    ensures DoStep(c, w).outcome.Done? ==>
              w.queue != [] && EntryOf(DoStep(c, w).world.operations[|w.operations|]) == w.queue[0]
  {
    hide Execute;
    hide Filed;
    hide Run;
    var r := Reserve(c, w);
    if DoStep(c, w).outcome.Done? {
      ExecuteDoes(c, r.world);
    }
  }

  lemma SubmitDoes<H>(c: Config<H>, w: State<H>, g: nat, command: Command)
    requires w.queue != [] ==> w.instant <= w.queue[0].instant
    ensures Does(c, w, Submit(g, command), DoSubmit(c, w, g, command))
  {
    hide DoStep;
    hide Filed;
    hide Run;
    if DoSubmit(c, w, g, command).outcome.Done? {
      var pushed := Push(w, w.instant, command, Authored);
      assert pushed.queue[0].instant >= w.instant;
      StepDoes(c, pushed);
    }
  }

  lemma FaultDoes<H>(c: Config<H>, w: State<H>, g: nat, fault: Fault)
    ensures Does(c, w, ActivateFault(g, fault), DoFault(c, w, g, fault))
  {
    hide Boundary;
    var w1 := Reserve(c, w).world;
    var op := FaultOp(|w1.operations|, w1.instant, g, fault);
    var armed := w1.(services := w1.services.(faults := w1.services.faults + [ActiveFault(fault, 0)]));
    var w2 := Record(Append(armed, op), FaultEntry, fault.name, OperationValue(op), w1.generation);
    BoundaryAside(c, w2, "fault:" + fault.name, "fault:" + fault.name, |w1.operations|, g);
  }

  lemma ObserveDoes<H>(c: Config<H>, w: State<H>, g: nat, request: Request, poll: bool)
    ensures Does(c, w, Observe(g, request, poll), DoObserve(c, w, g, request, poll))
  {
    hide Sample;
    hide Run;
    var w1 := Reserve(c, w).world;
    var w2 := if poll then w1.(polls := w1.polls + 1) else w1;
    SampleAside(c, Look(c, w2, g, request, poll), true, "observe:" + request.name);
    SampleKeepsHost(c, Look(c, w2, g, request, poll), true, "observe:" + request.name);
  }

  lemma CrashDoes<H>(c: Config<H>, w: State<H>, g: nat, cut: string)
    ensures Does(c, w, Crash(g, cut), DoCrash(c, w, g, cut))
  {
    hide Sample;
    hide Capture;
    hide RecordChecks;
    var w0 := Reserve(c, w).world;
    CaptureQuiet(c, w0, c.checkers, |w0.operations|, g);
    var (w1, captured) := Capture(c, w0, c.checkers, |w0.operations|, g);
    var w2 := Drop(c, w1, g, cut);
    SampleAside(c, w2, false, "crash:" + cut);
    RecordChecksQuiet(Sample(c, w2, false, "crash:" + cut).world, "crash:" + cut, captured);
  }

  lemma RestartDoes<H>(c: Config<H>, w: State<H>)
    ensures Does(c, w, Restart, DoRestart(c, w))
  {
    hide Boundary;
    hide Run;
    hide Filed;
    hide EnqueueAll;
    var w1 := Reserve(c, w).world.(reloads := Reserve(c, w).world.reloads + 1);
    var (started, services) := Run(c.profile.load(w1.host), [], w1.instant, w1.services);
    var installed := Install(w1.(services := services), started.host);
    EnqueueFrames(c, installed, started.scheduled);
    var w2 := Reload(c, w1).world;
    if Reload(c, w1).outcome.Done? {
      EnqueueFiles(c, installed, started.scheduled);
    }
    var op := RestartOp(|w2.operations|, w2.instant, w2.lastGeneration);
    var w3 := Record(Append(w2, op), LoadedEntry, c.profile.identity, OperationValue(op), w2.generation);
    BoundaryAside(c, w3, "load", "load", |w2.operations|, w2.lastGeneration);
  }

  lemma FairDoes<H>(c: Config<H>, w: State<H>, g: nat)
    ensures Does(c, w, BeginFair(g), DoFair(c, w, g))
  {
    hide Boundary;
    var w1 := Reserve(c, w).world.(fair := true);
    var op := FairOp(|w1.operations|, w1.instant, g);
    var w2 := Record(Append(w1, op), FairEntry, "begin", OperationValue(op), w1.generation);
    BoundaryAside(c, w2, "begin_fair", "begin_fair", |w1.operations|, g);
  }

  lemma FinishDoes<H>(c: Config<H>, w: State<H>, g: nat, ending: Ending)
    ensures Does(c, w, Finish(g, ending), DoFinish(c, w, g, ending))
  {
    hide Sample;
    var w1 := Reserve(c, w).world;
    var op := FinishOp(|w1.operations|, w1.instant, g, ending);
    var ended := Append(w1.(disposition := Some(Ended(ending))), op);
    var w2 := Record(ended, FinishEntry, EndingName(ending), OperationValue(op), w1.generation);
    SampleAside(c, w2, true, "finish:" + EndingName(ending));
  }

  /** What every accepted attempt on a ready World counts, files and takes from the queue. */
  lemma AttemptDoes<H>(c: Config<H>, w: State<H>, a: Attempt)
    requires Ready(c, w)
    ensures Does(c, w, a, Try(c, w, a))
  {
    if w.queue != [] {
      assert w.queue[0] in w.queue;
    }
    hide Does;
    match a
    case Submit(g, command) => SubmitDoes(c, w, g, command);
    case Step => StepDoes(c, w);
    case ActivateFault(g, fault) => FaultDoes(c, w, g, fault);
    case Observe(g, request, poll) => ObserveDoes(c, w, g, request, poll);
    case Crash(g, cut) => CrashDoes(c, w, g, cut);
    case Restart => RestartDoes(c, w);
    case BeginFair(g) => FairDoes(c, w, g);
    case Finish(g, ending) => FinishDoes(c, w, g, ending);
  }

  // ---- The accounts of a whole run ----------------------------------------

  function Total(ops: seq<Operation>, f: Operation -> nat): nat {
    if ops == [] then 0 else Total(ops[..|ops| - 1], f) + f(ops[|ops| - 1])
  }

  function Polled(op: Operation): nat { One(op.ObserveOp? && op.poll) }
  function Restarted(op: Operation): nat { One(op.RestartOp?) }
  function Crashed(op: Operation): nat { One(op.CrashOp?) }
  function Executed(op: Operation): nat { One(op.ExecuteOp?) }
  function Began(op: Operation): nat { One(op.FairOp?) }
  function Discarded(op: Operation): nat { if op.CrashOp? then op.discarded else 0 }

  function LastInstant(ops: seq<Operation>): nat { if ops == [] then 0 else OpInstant(ops[|ops| - 1]) }

  /** How often the clock moved between logged operations. */
  function Jumps(ops: seq<Operation>): nat {
    if ops == [] then 0
    else
      var before := ops[..|ops| - 1];
      Jumps(before) + One(LastInstant(before) < OpInstant(ops[|ops| - 1]))
  }

  /** Every counter of the World is what its log says, and each order given out is queued, executed or discarded. */
  ghost predicate Balanced<H>(w: State<H>) {
    var ops := w.operations;
    && w.actions == |ops|
    && w.polls == Total(ops, Polled)
    && w.reloads == Total(ops, Restarted)
    && w.lastGeneration == 1 + w.reloads
    && Total(ops, Crashed) == Total(ops, Restarted) + One(w.generation.None?)
    && w.fair == (Total(ops, Began) > 0)
    && w.instant == LastInstant(ops) && w.timerAdvances == Jumps(ops)
    && w.queueOrder == |w.queue| + Total(ops, Executed) + Total(ops, Discarded)
  }

  lemma OneMoreTotal(ops: seq<Operation>, op: Operation, f: Operation -> nat)
    ensures Total(ops + [op], f) == Total(ops, f) + f(op)
  {
    assert (ops + [op])[..|ops|] == ops;
  }

  lemma OneMoreJump(ops: seq<Operation>, op: Operation)
    ensures Jumps(ops + [op]) == Jumps(ops) + One(LastInstant(ops) < OpInstant(op))
  {
    assert (ops + [op])[..|ops|] == ops;
  }

  /** How many entries an accepted attempt leaves queued. */
  lemma QueueLength<H>(c: Config<H>, w: State<H>, a: Attempt, w': State<H>, op: Operation)
    requires Queues(c, w, a, w', op) && (a.Restart? ==> w.queue == []) && Produced(a, op)
    ensures w'.queueOrder - |w'.queue| == w.queueOrder - |w.queue| + Executed(op) + Discarded(op)
  {
    hide Run;
    if a.Submit? || a.Step? {
      var filed := Filed(NextOrder(w, a), w.generation.value, op.result.scheduled);
      if a.Submit? {
        InsertAdds(w.queue, Queued(w.instant, w.queueOrder, a.generation, Authored, a.command));
        assert |multiset(Choices(w, a))| == |w.queue| + 1;
      }
      assert |multiset(w'.queue) + multiset{EntryOf(op)}| == |w'.queue| + 1;
      assert |multiset(Choices(w, a)) + multiset(filed)| == |Choices(w, a)| + |filed|;
    } else if a.Restart? {
      var started := Run(c.profile.load(w.host), [], w.instant, w.services).0;
      var filed := Filed(w.queueOrder, w'.lastGeneration, started.scheduled);
      assert |multiset(w'.queue)| == |multiset(filed)|;
    }
  }

  lemma AttemptBalances<H>(c: Config<H>, w: State<H>, a: Attempt)
    requires Ready(c, w) && Balanced(w) && Try(c, w, a).outcome.Done?
    ensures Balanced(Try(c, w, a).world)
  {
    hide Try;
    hide Queues;
    hide Inv;
    hide Total;
    hide Jumps;
    TryKeeps(c, w, a);
    AttemptDoes(c, w, a);
    var w' := Try(c, w, a).world;
    var ops, op := w.operations, w'.operations[|w.operations|];
    assert w'.operations == ops + [op];
    RestartNeedsCrash(c, w, a);
    QueueLength(c, w, a, w', op);
    OneMoreTotal(ops, op, Polled);
    OneMoreTotal(ops, op, Restarted);
    OneMoreTotal(ops, op, Crashed);
    OneMoreTotal(ops, op, Began);
    OneMoreTotal(ops, op, Executed);
    OneMoreTotal(ops, op, Discarded);
    OneMoreJump(ops, op);
  }

  lemma RestartNeedsCrash<H>(c: Config<H>, w: State<H>, a: Attempt)
    requires Ready(c, w) && Try(c, w, a).outcome.Done?
    ensures a.Restart? ==> w.generation.None? && w.queue == []
    ensures a.Crash? ==> w.generation.Some?
  {
    QueueNeedsGeneration(c, w);
  }

  lemma ConstructBalances<H>(c: Config<H>)
    requires Construct(c).outcome.Done?
    ensures Balanced(Construct(c).world)
  {
    ConstructKeeps(c);
    hide Sample;
    hide EnqueueAll;
    hide Boundary;
    hide Run;
    var blank := Blank(c);
    SampleAside(c, blank, false, "before_create");
    var w := Sample(c, blank, false, "before_create").world;
    var (started, services) := Run(c.profile.create(w.host), [], w.instant, w.services);
    var w1 := Install(w.(services := services), started.host);
    EnqueueFrames(c, w1, started.scheduled);
    EnqueueFiles(c, w1, started.scheduled);
    var queued := EnqueueAll(c, w1, started.scheduled).world;
    assert |multiset(queued.queue)| == |multiset(Filed(w1.queueOrder, 1, started.scheduled))|;
    var w2 := Record(queued, CreatedEntry, c.profile.identity, ScheduledValue(started.scheduled), queued.generation);
    BoundaryAside(c, w2, "create", "create", 0, w2.lastGeneration);
  }

  /** Over every orderly run that has not failed, the log accounts for every counter and for every order. */
  lemma {:induction false} RunBalances<H>(c: Config<H>, w: State<H>, attempts: seq<Attempt>)
    requires Inv(c, w) && Orderly(c, w, attempts) && (Failed(w) || Balanced(w))
    ensures var w' := Exec(c, w, attempts); Failed(w') || Balanced(w')
    decreases attempts
  {
    hide Inv;
    hide Balanced;
    hide Try;
    if attempts == [] {
    } else {
      if w.disposition.Some? {
        EndedRefuses(c, w, attempts[0]);
      } else {
        assert Ready(c, w);
        TryKeeps(c, w, attempts[0]);
        if Try(c, w, attempts[0]).outcome.Done? {
          AttemptBalances(c, w, attempts[0]);
        }
      }
      RunBalances(c, Try(c, w, attempts[0]).world, attempts[1..]);
    }
  }

  // ---- Each order runs at most once ---------------------------------------

  /** No order was executed twice, and none that was executed is still queued. */
  ghost predicate Once<H>(w: State<H>) {
    var ops := w.operations;
    && (forall i, j :: 0 <= i < j < |ops| && ops[i].ExecuteOp? && ops[j].ExecuteOp? ==> ops[i].order != ops[j].order)
    && (forall i, q :: 0 <= i < |ops| && ops[i].ExecuteOp? && q in w.queue ==> ops[i].order != q.order)
    && (forall i :: 0 <= i < |ops| && ops[i].ExecuteOp? ==> ops[i].order < w.queueOrder)
    && Distinct(w.queue)
  }

  ghost predicate Distinct(queue: seq<Queued>) {
    forall p, q :: p in queue && q in queue && p.order == q.order ==> p == q
  }

  lemma {:induction false} SortedIsSimple(queue: seq<Queued>, q: Queued)
    requires Sorted(queue)
    ensures multiset(queue)[q] <= 1
  {
    if queue == [] {
    } else {
      SortedIsSimple(queue[1..], q);
      assert queue == [queue[0]] + queue[1..];
      forall i | 0 <= i < |queue[1..]| ensures queue[1..][i] != queue[0] {
        assert Less(queue[0], queue[i + 1]);
      }
    }
  }

  /** What is queued after an execution was queued before and is not what ran, or has just been filed. */
  lemma AfterExecution<H>(c: Config<H>, w: State<H>, a: Attempt, w': State<H>, op: Operation, q: Queued)
    requires Executes(c, w, a, w', op) && Sorted(Choices(w, a))
    requires op.order < NextOrder(w, a) && q in w'.queue
    ensures var filed := Filed(NextOrder(w, a), w.generation.value, op.result.scheduled);
            (q in Choices(w, a) && q != EntryOf(op)) || q in filed
  {
    hide Run;
    var e, filed := EntryOf(op), Filed(NextOrder(w, a), w.generation.value, op.result.scheduled);
    var left, right := multiset(w'.queue) + multiset{e}, multiset(Choices(w, a)) + multiset(filed);
    assert left[q] == right[q] && multiset(w'.queue)[q] > 0;
    SortedIsSimple(Choices(w, a), e);
    assert e !in filed;
    assert multiset(filed)[e] == 0;
  }

  lemma FiledIsNew(order: nat, generation: nat, scheduled: seq<Scheduled>)
    ensures Distinct(Filed(order, generation, scheduled))
    ensures forall q :: q in Filed(order, generation, scheduled) ==> order <= q.order < order + |scheduled|
  {
  }

  /** Removing one entry and filing new ones, of higher order, keeps every order used at most once. */
  lemma StillOnce<H>(w: State<H>, w': State<H>, op: Operation, choices: seq<Queued>, filed: seq<Queued>, next: nat)
    requires Once(w) && op.ExecuteOp? && w'.operations == w.operations + [op] && EntryOf(op) in choices
    requires w.queueOrder <= next <= w'.queueOrder && Distinct(choices) && Distinct(filed)
    requires forall q :: q in choices ==> q.order < next && (q in w.queue || q.order == w.queueOrder)
    requires forall q :: q in filed ==> next <= q.order
    requires forall q :: q in w'.queue ==> (q in choices && q != EntryOf(op)) || q in filed
    ensures Once(w')
  {
    var ops, ops' := w.operations, w'.operations;
    forall i, q | 0 <= i < |ops'| && ops'[i].ExecuteOp? && q in w'.queue ensures ops'[i].order != q.order {
      if i < |ops| {
        assert ops'[i] == ops[i];
      }
    }
    forall i, j | 0 <= i < j < |ops'| && ops'[i].ExecuteOp? && ops'[j].ExecuteOp?
      ensures ops'[i].order != ops'[j].order
    {
      assert ops'[i] == ops[i];
    }
  }

  lemma ExecutionRunsOnce<H>(c: Config<H>, w: State<H>, a: Attempt, w': State<H>, op: Operation)
    requires Executes(c, w, a, w', op) && Once(w) && Scheduler(c, w) && (a.Submit? || a.Step?)
    requires EntryOf(op) in Choices(w, a) && w'.operations == w.operations + [op]
    ensures Once(w')
  {
    hide Run;
    hide Filed;
    hide Choices;
    ChoicesKeep(c, w, a);
    hide Scheduler;
    var choices := Choices(w, a);
    var filed := Filed(NextOrder(w, a), w.generation.value, op.result.scheduled);
    FiledIsNew(NextOrder(w, a), w.generation.value, op.result.scheduled);
    forall q | q in w'.queue ensures (q in choices && q != EntryOf(op)) || q in filed {
      AfterExecution(c, w, a, w', op, q);
    }
    StillOnce(w, w', op, choices, filed, NextOrder(w, a));
  }

  lemma ChoicesKeep<H>(c: Config<H>, w: State<H>, a: Attempt)
    requires Scheduler(c, w) && Distinct(w.queue)
    ensures Sorted(Choices(w, a)) && Distinct(Choices(w, a))
    ensures forall q :: q in Choices(w, a) ==>
              q.order < NextOrder(w, a) && (q in w.queue || (a.Submit? && q.order == w.queueOrder))
  {
    if a.Submit? {
      InsertKeeps(w.queue, Queued(w.instant, w.queueOrder, a.generation, Authored, a.command));
    }
  }

  lemma OtherRunsOnce<H>(c: Config<H>, w: State<H>, a: Attempt, w': State<H>, op: Operation)
    requires Queues(c, w, a, w', op) && Once(w) && !a.Submit? && !a.Step? && (a.Restart? ==> w.queue == [])
    requires !op.ExecuteOp? && w'.operations == w.operations + [op]
    ensures Once(w')
  {
    hide Run;
    if a.Restart? {
      var started := Run(c.profile.load(w.host), [], w.instant, w.services).0;
      var filed := Filed(w.queueOrder, w'.lastGeneration, started.scheduled);
      forall q | q in w'.queue ensures q in filed && q.order >= w.queueOrder {
        assert multiset(w'.queue)[q] == multiset(filed)[q];
      }
    }
  }

  lemma AttemptRunsOnce<H>(c: Config<H>, w: State<H>, a: Attempt)
    requires Ready(c, w) && Once(w) && Try(c, w, a).outcome.Done?
    ensures Once(Try(c, w, a).world)
  {
    hide Try;
    hide Once;
    hide Executes;
    hide Reloads;
    TryKeeps(c, w, a);
    AttemptDoes(c, w, a);
    RestartNeedsCrash(c, w, a);
    TryExecutesLeast(c, w, a);
    var w' := Try(c, w, a).world;
    var op := w'.operations[|w.operations|];
    assert w'.operations == w.operations + [op];
    if a.Submit? || a.Step? {
      ExecutionRunsOnce(c, w, a, w', op);
    } else {
      OtherRunsOnce(c, w, a, w', op);
    }
  }

  /** Over every orderly run that has not failed no queued command ran twice. */
  lemma {:induction false} RunRunsOnce<H>(c: Config<H>, w: State<H>, attempts: seq<Attempt>)
    requires Inv(c, w) && Orderly(c, w, attempts) && (Failed(w) || Once(w))
    ensures var w' := Exec(c, w, attempts); Failed(w') || Once(w')
    decreases attempts
  {
    hide Inv;
    hide Once;
    hide Try;
    if attempts == [] {
    } else {
      if w.disposition.Some? {
        EndedRefuses(c, w, attempts[0]);
      } else {
        assert Ready(c, w);
        TryKeeps(c, w, attempts[0]);
        if Try(c, w, attempts[0]).outcome.Done? {
          AttemptRunsOnce(c, w, attempts[0]);
        }
      }
      RunRunsOnce(c, Try(c, w, attempts[0]).world, attempts[1..]);
    }
  }

  // ---- Budgets are reported spent only when they are ----------------------

  /** What the profile asks to have scheduled next. */
  function FollowUp<H>(c: Config<H>, w: State<H>, a: Attempt, instant: nat): seq<Scheduled> {
    match a
    case Submit(_, command) => Run(c.profile.apply(w.host, command), [], instant, w.services).0.result.scheduled
    case Step =>
      if w.queue == [] then []
      else Run(c.profile.apply(w.host, w.queue[0].command), [], instant, w.services).0.result.scheduled
    case Restart => Run(c.profile.load(w.host), [], instant, w.services).0.scheduled
    case _ => []
  }

  ghost predicate TooLate(scheduled: seq<Scheduled>, limit: nat) {
    exists i :: 0 <= i < |scheduled| && scheduled[i].instant > limit
  }

  /** The bound is the budget's own and the attempt needed more than it leaves. */
  ghost predicate Spent<H>(c: Config<H>, w: State<H>, a: Attempt, instant: nat, bound: string, limit: nat) {
    || (bound == "actions" && limit == c.budget.actions == w.actions)
    || (bound == "timer_advances" && a.Step? && limit == c.budget.timerAdvances == w.timerAdvances
        && w.queue != [] && w.instant < w.queue[0].instant)
    || (bound == "reloads" && a.Restart? && limit == c.budget.reloads == w.reloads)
    || (bound == "predicate_polls" && a.Observe? && a.poll && limit == c.budget.polls == w.polls)
    || (bound == "queued_commands" && limit == c.budget.queued
        && ((a.Submit? && |w.queue| == limit) || |w.queue| - One(a.Step?) + |FollowUp(c, w, a, instant)| > limit))
    || (bound == "logical_instant" && limit == c.budget.logicalInstant
        && TooLate(FollowUp(c, w, a, instant), limit))
    || OfResource(bound)
  }

  ghost predicate Honest<H>(c: Config<H>, w: State<H>, a: Attempt, r: Result<H>) {
    r.outcome.Exhausted? ==> Spent(c, w, a, r.world.instant, r.outcome.bound, r.outcome.limit)
  }

  lemma {:induction false} VetIsHonest<H>(c: Config<H>, now: nat, scheduled: seq<Scheduled>)
    requires Vet(c, now, scheduled).Exhausted?
    ensures TooLate(scheduled, c.budget.logicalInstant)
  {
    if scheduled == [] || scheduled[0].instant > c.budget.logicalInstant {
    } else {
      VetIsHonest(c, now, scheduled[1..]);
      var i :| 0 <= i < |scheduled[1..]| && scheduled[1..][i].instant > c.budget.logicalInstant;
      assert scheduled[i + 1] == scheduled[1..][i];
    }
  }

  lemma EnqueueIsHonest<H>(c: Config<H>, w: State<H>, scheduled: seq<Scheduled>)
    requires w.generation.Some?
    ensures var r := EnqueueAll(c, w, scheduled);
            && r.world.instant == w.instant
            && (r.outcome.Exhausted? ==>
                  || (r.outcome == Exhausted("queued_commands", c.budget.queued)
                      && |w.queue| + |scheduled| > c.budget.queued)
                  || (r.outcome == Exhausted("logical_instant", c.budget.logicalInstant)
                      && TooLate(scheduled, c.budget.logicalInstant)))
  {
    VetEnds(c, w.instant, scheduled);
    PushAllFrames(w, scheduled);
    if Vet(c, w.instant, scheduled).Exhausted? {
      VetIsHonest(c, w.instant, scheduled);
    }
    hide PushAll;
    hide Vet;
  }

  lemma SampleIsHonest<H>(c: Config<H>, w: State<H>, live: bool, trigger: string)
    ensures var r := Sample(c, w, live, trigger);
            r.world.instant == w.instant && (r.outcome.Exhausted? ==> OfResource(r.outcome.bound))
  {
  }

  lemma BoundaryIsHonest<H>(c: Config<H>, w: State<H>, sample: string, trigger: string, sequence: nat, generation: nat)
    ensures var r := Boundary(c, w, sample, trigger, sequence, generation);
            r.world.instant == w.instant && (r.outcome.Exhausted? ==> OfResource(r.outcome.bound))
  {
    BoundaryQuiet(c, w, sample, trigger, sequence, generation);
    SampleIsHonest(c, w, true, sample);
    hide Sample;
    hide Capture;
  }

  lemma ExecuteIsHonest<H>(c: Config<H>, w: State<H>)
    requires w.generation.Some? && w.queue != []
    ensures var r := Execute(c, w);
            var scheduled := FollowUp(c, w, Step, r.world.instant);
            r.outcome.Exhausted? ==>
              || (r.outcome == Exhausted("queued_commands", c.budget.queued)
                  && |w.queue| - 1 + |scheduled| > c.budget.queued)
              || (r.outcome == Exhausted("logical_instant", c.budget.logicalInstant)
                  && TooLate(scheduled, c.budget.logicalInstant))
              || OfResource(r.outcome.bound)
  {
    hide Run;
    hide Boundary;
    hide EnqueueAll;
    hide TooLate;
    hide OfResource;
    var q := w.queue[0];
    var (w1, scheduled) := Apply(c, Dequeue(w), q);
    EnqueueIsHonest(c, w1, scheduled);
    var w2 := EnqueueAll(c, w1, scheduled).world;
    BoundaryIsHonest(c, w2, q.command.name, q.command.name, |w.operations|, w.generation.value);
  }

  lemma StepIsHonest<H>(c: Config<H>, w: State<H>)
    requires Core(c, w)
    ensures Honest(c, w, Step, DoStep(c, w))
  {
    hide Execute;
    hide Run;
    hide TooLate;
    hide OfResource;
    if w.queue != [] {
      assert w.queue[0] in w.queue;
      ExecuteIsHonest(c, w.(actions := w.actions + 1));
    }
  }

  lemma SubmitIsHonest<H>(c: Config<H>, w: State<H>, g: nat, command: Command)
    requires Ready(c, w)
    ensures Honest(c, w, Submit(g, command), DoSubmit(c, w, g, command))
  {
    hide DoStep;
    hide Run;
    hide TooLate;
    hide OfResource;
    var a := Submit(g, command);
    if w.generation == Some(g) && !w.fair && !Eligible(w) && Valid(c, command) && |w.queue| < c.budget.queued {
      PushKeeps(c, w, w.instant, command, Authored);
      InsertKeeps(w.queue, Queued(w.instant, w.queueOrder, g, Authored, command));
      if w.queue != [] {
        assert w.queue[0] in w.queue;
      }
      var pushed := Push(w, w.instant, command, Authored);
      assert pushed.queue[0] == Queued(w.instant, w.queueOrder, g, Authored, command);
      StepIsHonest(c, pushed);
    }
  }

  lemma RestartIsHonest<H>(c: Config<H>, w: State<H>)
    requires Ready(c, w)
    ensures Honest(c, w, Restart, DoRestart(c, w))
  {
    hide Run;
    hide Boundary;
    hide EnqueueAll;
    hide TooLate;
    hide OfResource;
    QueueNeedsGeneration(c, w);
    var w1 := Reserve(c, w).world.(reloads := w.reloads + 1);
    var (started, services) := Run(c.profile.load(w1.host), [], w1.instant, w1.services);
    EnqueueIsHonest(c, Install(w1.(services := services), started.host), started.scheduled);
    var w2 := Reload(c, w1).world;
    var op := RestartOp(|w2.operations|, w2.instant, w2.lastGeneration);
    BoundaryIsHonest(c, Record(Append(w2, op), LoadedEntry, c.profile.identity, OperationValue(op), w2.generation),
                     "load", "load", |w2.operations|, w2.lastGeneration);
  }

  lemma FaultIsHonest<H>(c: Config<H>, w: State<H>, g: nat, fault: Fault)
    requires Ready(c, w)
    ensures Honest(c, w, ActivateFault(g, fault), DoFault(c, w, g, fault))
  {
    hide Boundary;
    hide OfResource;
    var w1 := Reserve(c, w).world;
    var op := FaultOp(|w1.operations|, w1.instant, g, fault);
    var armed := w1.(services := w1.services.(faults := w1.services.faults + [ActiveFault(fault, 0)]));
    BoundaryIsHonest(c, Record(Append(armed, op), FaultEntry, fault.name, OperationValue(op), w1.generation),
                     "fault:" + fault.name, "fault:" + fault.name, |w1.operations|, g);
  }

  lemma ObserveIsHonest<H>(c: Config<H>, w: State<H>, g: nat, request: Request, poll: bool)
    requires Ready(c, w)
    ensures Honest(c, w, Observe(g, request, poll), DoObserve(c, w, g, request, poll))
  {
    hide Sample;
    hide Look;
    hide OfResource;
    var w1 := Reserve(c, w).world;
    var w2 := if poll then w1.(polls := w1.polls + 1) else w1;
    SampleIsHonest(c, Look(c, w2, g, request, poll), true, "observe:" + request.name);
  }

  lemma FairIsHonest<H>(c: Config<H>, w: State<H>, g: nat)
    requires Ready(c, w)
    ensures Honest(c, w, BeginFair(g), DoFair(c, w, g))
  {
    hide Boundary;
    hide OfResource;
    var w1 := Reserve(c, w).world.(fair := true);
    var op := FairOp(|w1.operations|, w1.instant, g);
    BoundaryIsHonest(c, Record(Append(w1, op), FairEntry, "begin", OperationValue(op), w1.generation),
                     "begin_fair", "begin_fair", |w1.operations|, g);
  }

  lemma FinishIsHonest<H>(c: Config<H>, w: State<H>, g: nat, ending: Ending)
    requires Ready(c, w)
    ensures Honest(c, w, Finish(g, ending), DoFinish(c, w, g, ending))
  {
    hide Sample;
    hide OfResource;
    var w1 := Reserve(c, w).world;
    var op := FinishOp(|w1.operations|, w1.instant, g, ending);
    SampleIsHonest(c, Record(Append(w1.(disposition := Some(Ended(ending))), op), FinishEntry, EndingName(ending),
                             OperationValue(op), w1.generation), true, "finish:" + EndingName(ending));
  }

  lemma CrashIsHonest<H>(c: Config<H>, w: State<H>, g: nat, cut: string)
    requires Ready(c, w)
    ensures Honest(c, w, Crash(g, cut), DoCrash(c, w, g, cut))
  {
    hide Sample;
    hide Capture;
    hide FailedNames;
    hide RecordCaptured;
    hide OfResource;
    var w0 := Reserve(c, w).world;
    var (w1, captured) := Capture(c, w0, c.checkers, |w0.operations|, g);
    SampleIsHonest(c, Drop(c, w1, g, cut), false, "crash:" + cut);
  }

  /** On a ready World, a budget reported exhausted is one that the attempt needed more of than is left. */
  lemma AttemptIsHonest<H>(c: Config<H>, w: State<H>, a: Attempt)
    requires Ready(c, w)
    ensures Honest(c, w, a, Try(c, w, a))
  {
    hide Spent;
    match a
    case Submit(g, command) => SubmitIsHonest(c, w, g, command);
    case Step => StepIsHonest(c, w);
    case Restart => RestartIsHonest(c, w);
    case Crash(g, cut) => CrashIsHonest(c, w, g, cut);
    case ActivateFault(g, fault) => FaultIsHonest(c, w, g, fault);
    case Observe(g, request, poll) => ObserveIsHonest(c, w, g, request, poll);
    case BeginFair(g) => FairIsHonest(c, w, g);
    case Finish(g, ending) => FinishIsHonest(c, w, g, ending);
  }
}
