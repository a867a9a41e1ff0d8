/**
  What the checkers' results mean for a World, read off its journal: a World fails
  its invariant exactly when a journalled check did not pass, the failure names
  those checkers in order, and every check is its checker's own answer on what the
  profile shows.
  */
module WorldVerdicts {
  import opened Options
  import opened World
  import opened WorldSafety

  // ---- Failed checks of a journal -----------------------------------------

  predicate FailsCheck(e: Entry) {
    e.kind.CheckEntry? && e.value.CheckValue? && !e.value.result.passed
  }

  /** The checkers that did not pass, in the order they were journalled. */
  function FailedChecks(entries: seq<Entry>): seq<string> {
    if entries == [] then []
    else
      var last := entries[|entries| - 1];
      FailedChecks(entries[..|entries| - 1]) + if FailsCheck(last) then [last.name] else []
  }

  /** They are empty exactly when every journalled check passed. */
  lemma {:induction false} FailedChecksMeans(entries: seq<Entry>)
    ensures FailedChecks(entries) == [] <==> forall i :: 0 <= i < |entries| ==> !FailsCheck(entries[i])
  {
    if entries == [] {
    } else {
      var before := entries[..|entries| - 1];
      FailedChecksMeans(before);
      assert forall i :: 0 <= i < |before| ==> before[i] == entries[i];
    }
  }

  /** The first gauge, in name order, of which `usage` takes more than its limit. */
  ghost predicate FirstExceeded(usage: seq<Gauge>, limits: seq<Gauge>, i: nat) {
    && i < |usage| == |limits| && limits[i].value < usage[i].value
    && forall j :: 0 <= j < i ==> usage[j].value <= limits[j].value
  }

  ghost predicate Exceeds<H>(c: Config<H>, e: Entry) {
    && e.kind.ResourceEntry? && e.value.UsageValue? && c.budget.resources.Some?
    && exists i: nat :: FirstExceeded(e.value.usage, c.budget.resources.value, i)
  }

  /** How many journalled samples went over their limits. */
  ghost function Excesses<H>(c: Config<H>, entries: seq<Entry>): nat {
    if entries == [] then 0
    else Excesses(c, entries[..|entries| - 1]) + if Exceeds(c, entries[|entries| - 1]) then 1 else 0
  }

  predicate OfResource(bound: string) { "profile_resources:" <= bound }

  lemma {:induction false} ExcessesMeans<H>(c: Config<H>, entries: seq<Entry>)
    ensures Excesses(c, entries) == 0 <==> forall i :: 0 <= i < |entries| ==> !Exceeds(c, entries[i])
  {
    if entries == [] {
    } else {
      var before := entries[..|entries| - 1];
      ExcessesMeans(c, before);
      assert forall i :: 0 <= i < |before| ==> before[i] == entries[i];
    }
  }

  lemma OneMore<H>(c: Config<H>, entries: seq<Entry>, e: Entry)
    ensures FailedChecks(entries + [e]) == FailedChecks(entries) + if FailsCheck(e) then [e.name] else []
    ensures Excesses(c, entries + [e]) == Excesses(c, entries) + if Exceeds(c, e) then 1 else 0
  {
    assert (entries + [e])[..|entries|] == entries;
  }

  // ---- The verdict of one attempt -----------------------------------------

  /**
    A call fails its checks exactly when it journals a failed one, and names just
    those; it runs out of a resource exactly when it journals usage over the limits.
    */
  ghost predicate Verdict<H>(c: Config<H>, w: State<H>, r: Result<H>) {
    && FailedChecks(r.world.journal)
       == FailedChecks(w.journal) + (if r.outcome.Violated? then r.outcome.checkers else [])
    && (r.outcome.Violated? ==> r.outcome.checkers != [] && r.world.disposition == Some(InvariantFailure))
    && Excesses(c, r.world.journal)
       == Excesses(c, w.journal) + (if r.outcome.Exhausted? && OfResource(r.outcome.bound) then 1 else 0)
  }

  /** Nothing failed a check or went over a limit. */
  ghost predicate Silent<H>(c: Config<H>, w: State<H>, w': State<H>) {
    FailedChecks(w'.journal) == FailedChecks(w.journal) && Excesses(c, w'.journal) == Excesses(c, w.journal)
  }

  lemma RecordIsSilent<H>(c: Config<H>, w: State<H>, kind: Kind, name: string, value: EntryValue,
                          generation: Option<nat>)
    requires !kind.CheckEntry? && !kind.ResourceEntry?
    ensures Silent(c, w, Record(w, kind, name, value, generation))
  {
    OneMore(c, w.journal, Entry(|w.journal|, w.instant, generation, kind, name, value));
  }

  lemma ExhaustVerdict<H>(c: Config<H>, w: State<H>, bound: string, limit: nat)
    requires !OfResource(bound)
    ensures Verdict(c, w, Exhaust(w, bound, limit))
  {
    RecordIsSilent(c, w.(disposition := Some(BudgetExhausted)), BudgetEntry, bound, LimitValue(limit), w.generation);
  }

  lemma {:induction false} FirstOverMeans(usage: seq<Gauge>, limits: seq<Gauge>)
    requires |usage| == |limits|
    ensures var over := FirstOver(usage, limits);
            && (over.None? <==> forall j :: 0 <= j < |usage| ==> usage[j].value <= limits[j].value)
            && (over.Some? ==> exists i: nat :: FirstExceeded(usage, limits, i) && over.value == limits[i])
  {
    if usage == [] {
    } else if usage[0].value > limits[0].value {
      assert FirstExceeded(usage, limits, 0);
    } else {
      FirstOverMeans(usage[1..], limits[1..]);
      var over := FirstOver(usage[1..], limits[1..]);
      assert forall j :: 0 < j < |usage| ==> usage[j] == usage[1..][j - 1] && limits[j] == limits[1..][j - 1];
      if over.Some? {
        var i: nat :| FirstExceeded(usage[1..], limits[1..], i) && over.value == limits[1..][i];
        assert FirstExceeded(usage, limits, i + 1);
      }
    }
  }

  lemma SampleVerdict<H>(c: Config<H>, w: State<H>, live: bool, trigger: string)
    ensures Verdict(c, w, Sample(c, w, live, trigger)) && !Sample(c, w, live, trigger).outcome.Violated?
  {
    hide FailedChecks;
    hide Excesses;
    if c.budget.resources.Some? {
      var usage, limits := c.profile.usage(w.host, live), c.budget.resources.value;
      if |usage| == |limits| && Names(usage) == Names(limits) {
        var generation := if live then w.generation else None;
        var e := Entry(|w.journal|, w.instant, generation, ResourceEntry, trigger, UsageValue(usage));
        OneMore(c, w.journal, e);
        FirstOverMeans(usage, limits);
        var over := FirstOver(usage, limits);
        if over.Some? {
          var w' := Record(w, ResourceEntry, trigger, UsageValue(usage), generation);
          var bound := "profile_resources:" + over.value.name;
          RecordIsSilent(c, w'.(disposition := Some(BudgetExhausted)), BudgetEntry, bound,
                         LimitValue(over.value.value), w'.generation);
        }
      }
    }
  }

  /** One captured check as it is journalled. */
  function Noted<H>(w: State<H>, trigger: string, k: Checked): State<H> {
    Record(w, CheckEntry, k.name, CheckValue(k.name, trigger, k.observation, k.result),
           Some(k.observation.generation))
  }

  lemma NotedVerdict<H>(c: Config<H>, w: State<H>, trigger: string, k: Checked)
    ensures FailedChecks(Noted(w, trigger, k).journal)
            == FailedChecks(w.journal) + if k.result.passed then [] else [k.name]
    ensures Excesses(c, Noted(w, trigger, k).journal) == Excesses(c, w.journal)
  {
    hide FailedChecks;
    hide Excesses;
    var value := CheckValue(k.name, trigger, k.observation, k.result);
    OneMore(c, w.journal, Entry(|w.journal|, w.instant, Some(k.observation.generation), CheckEntry, k.name, value));
  }

  lemma {:induction false} CapturedVerdict<H>(c: Config<H>, w: State<H>, trigger: string, captured: seq<Checked>)
    ensures FailedChecks(RecordCaptured(w, trigger, captured).journal)
            == FailedChecks(w.journal) + FailedNames(captured)
    ensures Excesses(c, RecordCaptured(w, trigger, captured).journal) == Excesses(c, w.journal)
    decreases captured
  {
    hide FailedChecks;
    hide Excesses;
    if captured == [] {
    } else {
      var k, rest := captured[0], captured[1..];
      var failed := if k.result.passed then [] else [k.name];
      assert FailedNames(captured) == failed + FailedNames(rest);
      hide FailedNames;
      NotedVerdict(c, w, trigger, k);
      CapturedVerdict(c, Noted(w, trigger, k), trigger, rest);
      Regroup(FailedChecks(w.journal), failed, FailedNames(rest));
    }
  }

  lemma Regroup(a: seq<string>, b: seq<string>, c: seq<string>)
    ensures (a + b) + c == a + (b + c)
  {
  }

  lemma ChecksVerdict<H>(c: Config<H>, w: State<H>, trigger: string, captured: seq<Checked>)
    ensures Verdict(c, w, RecordChecks(w, trigger, captured))
  {
    CapturedVerdict(c, w, trigger, captured);
  }

  lemma BoundaryVerdict<H>(c: Config<H>, w: State<H>, sample: string, trigger: string, sequence: nat, generation: nat)
    ensures Verdict(c, w, Boundary(c, w, sample, trigger, sequence, generation))
  {
    hide FailedChecks;
    hide Excesses;
    hide RecordChecks;
    hide Sample;
    SampleVerdict(c, w, true, sample);
    var sampled := Sample(c, w, true, sample);
    if sampled.outcome.Done? {
      var (w', captured) := Capture(c, sampled.world, c.checkers, sequence, generation);
      CaptureQuiet(c, sampled.world, c.checkers, sequence, generation);
      ChecksVerdict(c, w', trigger, captured);
    }
  }

  lemma {:induction false} PushAllIsSilent<H>(w: State<H>, scheduled: seq<Scheduled>)
    requires w.generation.Some?
    ensures PushAll(w, scheduled).journal == w.journal
    decreases scheduled
  {
    if scheduled == [] {
    } else {
      PushAllIsSilent(Push(w, scheduled[0].instant, scheduled[0].command, FromProfile), scheduled[1..]);
    }
  }

  lemma {:induction false} VetEnds<H>(c: Config<H>, now: nat, scheduled: seq<Scheduled>)
    ensures Vet(c, now, scheduled) in {Done, Broken, Exhausted("logical_instant", c.budget.logicalInstant)}
  {
    if scheduled == [] {
    } else {
      VetEnds(c, now, scheduled[1..]);
    }
  }

  lemma EnqueueVerdict<H>(c: Config<H>, w: State<H>, scheduled: seq<Scheduled>)
    requires w.generation.Some?
    ensures Verdict(c, w, EnqueueAll(c, w, scheduled)) && !EnqueueAll(c, w, scheduled).outcome.Violated?
  {
    hide FailedChecks;
    hide Excesses;
    hide PushAll;
    PushAllIsSilent(w, scheduled);
    VetEnds(c, w.instant, scheduled);
    ExhaustVerdict(c, w, "queued_commands", c.budget.queued);
    match Vet(c, w.instant, scheduled)
    case Exhausted(bound, limit) => ExhaustVerdict(c, w, bound, limit);
    case _ =>
  }

  lemma ReserveVerdict<H>(c: Config<H>, w: State<H>)
    ensures Verdict(c, w, Reserve(c, w)) && !Reserve(c, w).outcome.Violated?
  {
    hide FailedChecks;
    hide Excesses;
    ExhaustVerdict(c, w, "actions", c.budget.actions);
  }

  lemma ExecuteVerdict<H>(c: Config<H>, w: State<H>)
    requires w.generation.Some? && w.queue != []
    ensures Verdict(c, w, Execute(c, w))
  {
    hide FailedChecks;
    hide Excesses;
    hide Run;
    hide Boundary;
    hide EnqueueAll;
    var q, d := w.queue[0], Dequeue(w);
    var (applied, services) := Run(c.profile.apply(d.host, q.command), [], d.instant, d.services);
    var op := ExecuteOp(|d.operations|, q.source, q.order, d.instant, d.generation.value, q.command, applied.result);
    RecordIsSilent(c, Append(d.(host := applied.host, services := services), op), CommandEntry, q.command.name,
                   OperationValue(op), d.generation);
    var (w', scheduled) := Apply(c, d, q);
    EnqueueVerdict(c, w', scheduled);
    var queued := EnqueueAll(c, w', scheduled);
    BoundaryVerdict(c, queued.world, q.command.name, q.command.name, |w.operations|, w.generation.value);
  }

  lemma StepVerdict<H>(c: Config<H>, w: State<H>)
    ensures Verdict(c, w, DoStep(c, w))
  {
    hide FailedChecks;
    hide Excesses;
    hide Execute;
    ExhaustVerdict(c, w, "timer_advances", c.budget.timerAdvances);
    ExhaustVerdict(c, w, "logical_instant", c.budget.logicalInstant);
    ReserveVerdict(c, w);
    var r := Reserve(c, w);
    if r.outcome.Done? && r.world.generation.Some? && r.world.queue != [] {
      ExecuteVerdict(c, r.world);
    }
  }

  lemma SubmitVerdict<H>(c: Config<H>, w: State<H>, g: nat, command: Command)
    ensures Verdict(c, w, DoSubmit(c, w, g, command))
  {
    hide FailedChecks;
    hide Excesses;
    hide DoStep;
    ExhaustVerdict(c, w, "logical_instant", c.budget.logicalInstant);
    ExhaustVerdict(c, w, "queued_commands", c.budget.queued);
    if w.generation.Some? {
      StepVerdict(c, Push(w, w.instant, command, Authored));
    }
  }

  lemma FaultVerdict<H>(c: Config<H>, w: State<H>, g: nat, fault: Fault)
    ensures Verdict(c, w, DoFault(c, w, g, fault))
  {
    hide FailedChecks;
    hide Excesses;
    hide Boundary;
    ReserveVerdict(c, w);
    var w1 := Reserve(c, w).world;
    var op := FaultOp(|w1.operations|, w1.instant, g, fault);
    var armed := w1.(services := w1.services.(faults := w1.services.faults + [ActiveFault(fault, 0)]));
    RecordIsSilent(c, Append(armed, op), FaultEntry, fault.name, OperationValue(op), w1.generation);
    var w2 := Record(Append(armed, op), FaultEntry, fault.name, OperationValue(op), w1.generation);
    BoundaryVerdict(c, w2, "fault:" + fault.name, "fault:" + fault.name, |w1.operations|, g);
  }

  lemma ObserveVerdict<H>(c: Config<H>, w: State<H>, g: nat, request: Request, poll: bool)
    ensures Verdict(c, w, DoObserve(c, w, g, request, poll))
  {
    hide FailedChecks;
    hide Excesses;
    hide Sample;
    hide Run;
    ReserveVerdict(c, w);
    var w1 := Reserve(c, w).world;
    ExhaustVerdict(c, w1, "predicate_polls", c.budget.polls);
    var w2 := if poll then w1.(polls := w1.polls + 1) else w1;
    var (seen, services) := Run(c.profile.observe(w2.host, request), [], w2.instant, w2.services);
    var n := |w2.operations|;
    var op := ObserveOp(n, poll, Observation(request.name, seen.value, w2.instant, g, n), request);
    RecordIsSilent(c, Append(w2.(host := seen.host, services := services), op), ObservationEntry, request.name,
                   OperationValue(op), w2.generation);
    SampleVerdict(c, Look(c, w2, g, request, poll), true, "observe:" + request.name);
  }

  lemma CrashVerdict<H>(c: Config<H>, w: State<H>, g: nat, cut: string)
    ensures Verdict(c, w, DoCrash(c, w, g, cut))
  {
    hide FailedChecks;
    hide Excesses;
    hide Sample;
    hide Capture;
    hide RecordChecks;
    ReserveVerdict(c, w);
    var w0 := Reserve(c, w).world;
    CaptureQuiet(c, w0, c.checkers, |w0.operations|, g);
    var (w1, captured) := Capture(c, w0, c.checkers, |w0.operations|, g);
    var op := CrashOp(|w1.operations|, w1.instant, g, cut, |w1.queue|);
    RecordIsSilent(c, Append(w1.(generation := None, queue := [], host := c.profile.drop(w1.host)), op), CrashEntry,
                   cut, OperationValue(op), None);
    var w2 := Drop(c, w1, g, cut);
    SampleVerdict(c, w2, false, "crash:" + cut);
    ChecksVerdict(c, Sample(c, w2, false, "crash:" + cut).world, "crash:" + cut, captured);
  }

  lemma RestartVerdict<H>(c: Config<H>, w: State<H>)
    ensures Verdict(c, w, DoRestart(c, w))
  {
    hide FailedChecks;
    hide Excesses;
    hide Boundary;
    hide Run;
    hide EnqueueAll;
    ExhaustVerdict(c, w, "reloads", c.budget.reloads);
    ReserveVerdict(c, w);
    var w1 := Reserve(c, w).world.(reloads := Reserve(c, w).world.reloads + 1);
    var (started, services) := Run(c.profile.load(w1.host), [], w1.instant, w1.services);
    EnqueueVerdict(c, Install(w1.(services := services), started.host), started.scheduled);
    var w2 := Reload(c, w1).world;
    var op := RestartOp(|w2.operations|, w2.instant, w2.lastGeneration);
    RecordIsSilent(c, Append(w2, op), LoadedEntry, c.profile.identity, OperationValue(op), w2.generation);
    var w3 := Record(Append(w2, op), LoadedEntry, c.profile.identity, OperationValue(op), w2.generation);
    BoundaryVerdict(c, w3, "load", "load", |w2.operations|, w2.lastGeneration);
  }

  lemma FairVerdict<H>(c: Config<H>, w: State<H>, g: nat)
    ensures Verdict(c, w, DoFair(c, w, g))
  {
    hide FailedChecks;
    hide Excesses;
    hide Boundary;
    ReserveVerdict(c, w);
    var w1 := Reserve(c, w).world.(fair := true);
    var op := FairOp(|w1.operations|, w1.instant, g);
    RecordIsSilent(c, Append(w1, op), FairEntry, "begin", OperationValue(op), w1.generation);
    var w2 := Record(Append(w1, op), FairEntry, "begin", OperationValue(op), w1.generation);
    BoundaryVerdict(c, w2, "begin_fair", "begin_fair", |w1.operations|, g);
  }

  lemma FinishVerdict<H>(c: Config<H>, w: State<H>, g: nat, ending: Ending)
    ensures Verdict(c, w, DoFinish(c, w, g, ending))
  {
    hide FailedChecks;
    hide Excesses;
    hide Sample;
    ReserveVerdict(c, w);
    var w1 := Reserve(c, w).world;
    var op := FinishOp(|w1.operations|, w1.instant, g, ending);
    var ended := Append(w1.(disposition := Some(Ended(ending))), op);
    RecordIsSilent(c, ended, FinishEntry, EndingName(ending), OperationValue(op), w1.generation);
    var w2 := Record(ended, FinishEntry, EndingName(ending), OperationValue(op), w1.generation);
    SampleVerdict(c, w2, true, "finish:" + EndingName(ending));
  }

  lemma PerformVerdict<H>(c: Config<H>, w: State<H>, a: Attempt)
    ensures Verdict(c, w, Perform(c, w, a))
  {
    hide Verdict;
    match a
    case Submit(g, command) => SubmitVerdict(c, w, g, command);
    case Step => StepVerdict(c, w);
    case ActivateFault(g, fault) => FaultVerdict(c, w, g, fault);
    case Observe(g, request, poll) => ObserveVerdict(c, w, g, request, poll);
    case Crash(g, cut) => CrashVerdict(c, w, g, cut);
    case Restart => RestartVerdict(c, w);
    case BeginFair(g) => FairVerdict(c, w, g);
    case Finish(g, ending) => FinishVerdict(c, w, g, ending);
  }

  /** What the last operation says, if it is a failure. */
  function LastFailure<H>(w: State<H>): Option<FailureDetail> {
    if w.operations != [] && w.operations[|w.operations| - 1].FailureOp? then
      Some(w.operations[|w.operations| - 1].failure)
    else None
  }

  /**
    From any state: an attempt is violated exactly when it journals a check that did
    not pass, and it names those checkers, in order, and no others; its failure
    operation, the last one, says the same.
    */
  lemma AttemptVerdict<H>(c: Config<H>, w: State<H>, a: Attempt)
    ensures var r := Try(c, w, a);
            && Verdict(c, w, r)
            && (r.outcome.Violated? ==>
                  r.world.disposition == Some(InvariantFailure)
                  && LastFailure(r.world) == Some(CheckerFailure(r.outcome.checkers)))
            && (r.outcome.Exhausted? ==>
                  LastFailure(r.world) == Some(BudgetFailure(r.outcome.bound, r.outcome.limit)))
  {
    hide Perform;
    hide FailedChecks;
    hide Excesses;
    PerformVerdict(c, w, a);
    var p := Perform(c, w, a);
    if Failing(p.outcome) {
      var accepted := |p.world.operations| - |w.operations|;
      var op := FailureOp(|p.world.operations|, p.world.instant, p.world.generation,
                          if accepted < 0 then 0 else accepted, a, Detail(p.outcome));
      RecordIsSilent(c, Append(p.world, op), FailureEntry,
                     if p.outcome.Exhausted? then "budget_exhausted" else "invariant_failure",
                     OperationValue(op), p.world.generation);
    }
  }

  // ---- The verdict of a whole run -----------------------------------------

  /** The checkers that the World's last operation blames. */
  function Blamed<H>(w: State<H>): seq<string> {
    match LastFailure(w)
    case Some(CheckerFailure(checkers)) => checkers
    case _ => []
  }

  /** Whether the World's last operation says that a resource of the profile ran out. */
  function RanOut<H>(w: State<H>): nat {
    match LastFailure(w)
    case Some(BudgetFailure(bound, _)) => if OfResource(bound) then 1 else 0
    case _ => 0
  }

  /**
    The World failed its invariant exactly when its journal holds a failed check, and
    blames exactly those; and it ran out of a resource exactly when a sample says so.
    */
  ghost predicate Judged<H>(c: Config<H>, w: State<H>) {
    && FailedChecks(w.journal) == Blamed(w)
    && (w.disposition == Some(InvariantFailure) <==> FailedChecks(w.journal) != [])
    && Excesses(c, w.journal) == RanOut(w)
  }

  lemma AttemptIsJudged<H>(c: Config<H>, w: State<H>, a: Attempt)
    requires Ready(c, w) && Judged(c, w) && !Try(c, w, a).outcome.Broken?
    ensures Judged(c, Try(c, w, a).world)
  {
    hide Try;
    hide Inv;
    hide FailedChecks;
    hide Excesses;
    hide Produced;
    ReadyCounts(c, w);
    TryKeeps(c, w, a);
    AttemptVerdict(c, w, a);
    if w.operations != [] {
      assert w.operations[|w.operations| - 1] in w.operations;
    }
  }

  lemma ConstructVerdict<H>(c: Config<H>)
    requires Construct(c).outcome.Done?
    ensures FailedChecks(Construct(c).world.journal) == [] && Excesses(c, Construct(c).world.journal) == 0
  {
    hide Sample, EnqueueAll, Boundary, Run, Install;
    var blank := Blank(c);
    SampleVerdict(c, blank, false, "before_create");
    var w := Sample(c, blank, false, "before_create").world;
    var (started, services) := Run(c.profile.create(w.host), [], w.instant, w.services);
    var w1 := Install(w.(services := services), started.host);
    InstallIsSilent(w.(services := services), started.host);
    EnqueueVerdict(c, w1, started.scheduled);
    var queued := EnqueueAll(c, w1, started.scheduled).world;
    var value := ScheduledValue(started.scheduled);
    RecordIsSilent(c, queued, CreatedEntry, c.profile.identity, value, queued.generation);
    var w2 := Record(queued, CreatedEntry, c.profile.identity, value, queued.generation);
    BoundaryVerdict(c, w2, "create", "create", 0, w2.lastGeneration);
    hide Record;
    assert FailedChecks(blank.journal) == [] && Excesses(c, blank.journal) == 0;
  }

  lemma InstallIsSilent<H>(w: State<H>, host: H)
    ensures Install(w, host).journal == w.journal && Install(w, host).generation.Some?
  {
  }

  lemma ConstructIsJudged<H>(c: Config<H>)
    requires Construct(c).outcome.Done?
    ensures Judged(c, Construct(c).world)
  {
    hide Construct, Inv;
    ConstructKeeps(c);
    ConstructVerdict(c);
  }

  /** Over every orderly run: the disposition, the blame and the journalled checks agree. */
  lemma {:induction false} RunIsJudged<H>(c: Config<H>, w: State<H>, attempts: seq<Attempt>)
    requires Inv(c, w) && Judged(c, w) && Orderly(c, w, attempts)
    ensures Judged(c, Exec(c, w, attempts))
    decreases attempts
  {
    hide Inv;
    hide Judged;
    hide Try;
    if attempts == [] {
    } else {
      if w.disposition.Some? {
        EndedRefuses(c, w, attempts[0]);
      } else {
        assert Ready(c, w);
        TryKeeps(c, w, attempts[0]);
        AttemptIsJudged(c, w, attempts[0]);
      }
      RunIsJudged(c, Try(c, w, attempts[0]).world, attempts[1..]);
    }
  }

  /**
    A run that fails its invariant does so at one attempt: up to it every check had
    passed, and that attempt journalled the failed ones and ended the World.
    */
  lemma {:induction false} FailsAtOnce<H>(c: Config<H>, w: State<H>, attempts: seq<Attempt>) returns (k: nat)
    requires Ready(c, w) && Judged(c, w) && Orderly(c, w, attempts)
    requires Exec(c, w, attempts).disposition == Some(InvariantFailure)
    ensures k < |attempts|
    ensures var v, w' := Exec(c, w, attempts[..k]), Exec(c, w, attempts);
            && v.disposition.None? && v.journal <= w'.journal
            && (forall i :: 0 <= i < |v.journal| ==> !FailsCheck(v.journal[i]))
            && (exists i :: |v.journal| <= i < |w'.journal| && FailsCheck(w'.journal[i]))
            && Try(c, v, attempts[k]) == Result(w', Violated(FailedChecks(w'.journal)))
    decreases attempts
  {
    hide FailedChecks;
    hide Excesses;
    hide Inv;
    hide Try;
    assert attempts != [];
    FailedChecksMeans(w.journal);
    assert FailedChecks(w.journal) == [];
    var r := Try(c, w, attempts[0]);
    TryKeeps(c, w, attempts[0]);
    AttemptIsJudged(c, w, attempts[0]);
    if r.world.disposition.None? {
      assert Ready(c, r.world);
      var rest := FailsAtOnce(c, r.world, attempts[1..]);
      k := rest + 1;
      assert attempts[..k][0] == attempts[0] && attempts[..k][1..] == attempts[1..][..rest];
    } else {
      RunKeeps(c, r.world, attempts[1..]);
      k := 0;
      assert attempts[..0] == [];
      AttemptVerdict(c, w, attempts[0]);
      var journal := r.world.journal;
      FailedChecksMeans(journal);
      var i :| 0 <= i < |journal| && FailsCheck(journal[i]);
      assert |w.journal| <= i;
    }
  }

  // ---- Every check is its checker's own -----------------------------------

  /** What the profile shows to one request, and what showing it leaves behind. */
  function Shown<H>(c: Config<H>, at: (H, Services), request: Request, instant: nat): (Json, (H, Services)) {
    var (seen, services) := Run(c.profile.observe(at.0, request), [], instant, at.1);
    (seen.value, (seen.host, services))
  }

  /** `e` is the answer of `checker` on what the profile shows at `at`. */
  ghost predicate Answers<H>(c: Config<H>, checker: Checker, at: (H, Services), instant: nat, generation: nat,
                             sequence: nat, trigger: string, e: Entry) {
    var seen := Observation(checker.request.name, Shown(c, at, checker.request, instant).0, instant, generation,
                            sequence);
    && e.kind.CheckEntry? && e.name == checker.name && e.generation == Some(generation)
    && e.value == CheckValue(checker.name, trigger, seen, checker.check(seen))
  }

  /** One answer per checker, in order, each on what the previous observation left; `stages` are the states between. */
  ghost predicate Inspected<H>(c: Config<H>, stages: seq<(H, Services)>, instant: nat, generation: nat, sequence: nat,
                               trigger: string, entries: seq<Entry>) {
    && |entries| == |c.checkers| && |stages| == |c.checkers| + 1
    && (forall i :: 0 <= i < |entries| ==>
          && Answers(c, c.checkers[i], stages[i], instant, generation, sequence, trigger, entries[i])
          && stages[i + 1] == Shown(c, stages[i], c.checkers[i].request, instant).1)
  }

  lemma {:induction false} CaptureInspects<H>(c: Config<H>, w: State<H>, checkers: seq<Checker>, sequence: nat,
                                              generation: nat) returns (stages: seq<(H, Services)>)
    ensures var (w', captured) := Capture(c, w, checkers, sequence, generation);
            && |captured| == |checkers| && |stages| == |checkers| + 1
            && stages[0] == (w.host, w.services) && stages[|checkers|] == (w'.host, w'.services)
            && forall i :: 0 <= i < |checkers| ==>
                 && stages[i + 1] == Shown(c, stages[i], checkers[i].request, w.instant).1
                 && captured[i].name == checkers[i].name
                 && captured[i].observation == Observation(checkers[i].request.name,
                                                           Shown(c, stages[i], checkers[i].request, w.instant).0,
                                                           w.instant, generation, sequence)
                 && captured[i].result == checkers[i].check(captured[i].observation)
    decreases checkers
  {
    hide Run;
    if checkers == [] {
      stages := [(w.host, w.services)];
    } else {
      var (seen, services) := Run(c.profile.observe(w.host, checkers[0].request), [], w.instant, w.services);
      var rest := CaptureInspects(c, w.(host := seen.host, services := services), checkers[1..], sequence, generation);
      stages := [(w.host, w.services)] + rest;
    }
  }

  lemma {:induction false} CapturedEntries<H>(w: State<H>, trigger: string, captured: seq<Checked>)
    ensures var journal := RecordCaptured(w, trigger, captured).journal;
            && |journal| == |w.journal| + |captured| && w.journal <= journal
            && forall i :: 0 <= i < |captured| ==>
                 var k := captured[i];
                 journal[|w.journal| + i]
                 == Entry(|w.journal| + i, w.instant, Some(k.observation.generation), CheckEntry, k.name,
                          CheckValue(k.name, trigger, k.observation, k.result))
    decreases captured
  {
    if captured == [] {
    } else {
      var k := captured[0];
      var value := CheckValue(k.name, trigger, k.observation, k.result);
      var w1 := Record(w, CheckEntry, k.name, value, Some(k.observation.generation));
      CapturedEntries(w1, trigger, captured[1..]);
      var journal := RecordCaptured(w, trigger, captured).journal;
      forall i | 0 <= i < |captured|
        ensures journal[|w.journal| + i]
                == Entry(|w.journal| + i, w.instant, Some(captured[i].observation.generation), CheckEntry,
                         captured[i].name,
                         CheckValue(captured[i].name, trigger, captured[i].observation, captured[i].result))
      {
        if i == 0 {
          assert journal[|w.journal|] == w1.journal[|w.journal|];
        } else {
          assert captured[i] == captured[1..][i - 1];
          assert journal[|w1.journal| + (i - 1)] == journal[|w.journal| + i];
        }
      }
    }
  }

  /** The last entries, one per checker. */
  function LastChecks<H>(c: Config<H>, journal: seq<Entry>): seq<Entry>
    requires |c.checkers| <= |journal|
  {
    journal[|journal| - |c.checkers|..]
  }

  /** The checks recorded last are the answers of the checkers as they were captured. */
  lemma ChecksInspect<H>(c: Config<H>, w: State<H>, v: State<H>, trigger: string, sequence: nat, generation: nat)
    returns (stages: seq<(H, Services)>)
    requires v.instant == w.instant
    ensures var (w', captured) := Capture(c, w, c.checkers, sequence, generation);
            var r := RecordChecks(v, trigger, captured);
            && |c.checkers| <= |r.world.journal|
            && Inspected(c, stages, w.instant, generation, sequence, trigger, LastChecks(c, r.world.journal))
            && stages[0] == (w.host, w.services) && stages[|c.checkers|] == (w'.host, w'.services)
  {
    hide Shown;
    stages := CaptureInspects(c, w, c.checkers, sequence, generation);
    var (w', captured) := Capture(c, w, c.checkers, sequence, generation);
    hide Capture;
    CapturedEntries(v, trigger, captured);
    hide RecordCaptured;
    var journal := RecordChecks(v, trigger, captured).world.journal;
    forall i | 0 <= i < |c.checkers|
      ensures Answers(c, c.checkers[i], stages[i], w.instant, generation, sequence, trigger, LastChecks(c, journal)[i])
    {
      assert LastChecks(c, journal)[i] == journal[|v.journal| + i];
    }
  }

  lemma BoundaryInspects<H>(c: Config<H>, w: State<H>, sample: string, trigger: string, sequence: nat, generation: nat)
    returns (stages: seq<(H, Services)>)
    requires var outcome := Boundary(c, w, sample, trigger, sequence, generation).outcome;
             outcome.Done? || outcome.Violated?
    ensures var w' := Boundary(c, w, sample, trigger, sequence, generation).world;
            && |c.checkers| <= |w'.journal|
            && Inspected(c, stages, w.instant, generation, sequence, trigger, LastChecks(c, w'.journal))
            && stages[0] == (w.host, w.services) && stages[|c.checkers|] == (w'.host, w'.services)
            && w'.instant == w.instant
  {
    hide Inspected;
    hide Sample;
    SampleQuiet(c, w, true, sample);
    SampleVerdict(c, w, true, sample);
    SampleKeepsHost(c, w, true, sample);
    var w1 := Sample(c, w, true, sample).world;
    CaptureQuiet(c, w1, c.checkers, sequence, generation);
    var (w2, captured) := Capture(c, w1, c.checkers, sequence, generation);
    stages := ChecksInspect(c, w1, w2, trigger, sequence, generation);
    RecordChecksQuiet(w2, trigger, captured);
    RecordKeepsHost(w2, trigger, captured);
    hide Capture;
    hide RecordChecks;
  }

  lemma SampleKeepsHost<H>(c: Config<H>, w: State<H>, live: bool, trigger: string)
    ensures var w' := Sample(c, w, live, trigger).world; w'.host == w.host && w'.services == w.services
  {
  }

  lemma {:induction false} RecordKeepsHost<H>(w: State<H>, trigger: string, captured: seq<Checked>)
    ensures var w' := RecordCaptured(w, trigger, captured); w'.host == w.host && w'.services == w.services
    decreases captured
  {
    if captured == [] {
    } else {
      var k := captured[0];
      RecordKeepsHost(Record(w, CheckEntry, k.name, CheckValue(k.name, trigger, k.observation, k.result),
                             Some(k.observation.generation)), trigger, captured[1..]);
    }
  }

  /** The application as the checkers first see it. */
  function Before<H>(c: Config<H>, w: State<H>, a: Attempt, command: Command, instant: nat): (H, Services) {
    match a
    case Submit(_, _) => Left(Run(c.profile.apply(w.host, command), [], instant, w.services))
    case Step => Left(Run(c.profile.apply(w.host, command), [], instant, w.services))
    case ActivateFault(_, fault) =>
      (w.host, w.services.(faults := w.services.faults + [ActiveFault(fault, 0)]))
    case Restart =>
      var (started, services) := Run(c.profile.load(w.host), [], instant, w.services);
      (started.host, services)
    case _ => (w.host, w.services)
  }

  function Left<H>(ran: (Applied<H>, Services)): (H, Services) { (ran.0.host, ran.1) }

  /** What the checks are journalled under. */
  function TriggerOf(a: Attempt, command: Command): string {
    match a
    case Submit(_, _) => command.name
    case Step => command.name
    case ActivateFault(_, fault) => "fault:" + fault.name
    case Crash(_, cut) => "crash:" + cut
    case Restart => "load"
    case BeginFair(_) => "begin_fair"
    case Observe(_, _, _) => ""
    case Finish(_, _) => ""
  }

  /** The command an attempt executed, if it executed one. */
  function Ran(op: Operation): Command {
    if op.ExecuteOp? then op.command else Command("", "", "")
  }

  /**
    A call that is done or violated, and is no observation or finish, ends its
    journal with one answer per checker: on what its own profile call left, or for
    a crash on the application before it is dropped.
    */
  ghost predicate Inspects<H>(c: Config<H>, w: State<H>, a: Attempt, r: Result<H>, stages: seq<(H, Services)>) {
    var w', n := r.world, |c.checkers|;
    && n <= |w'.journal| && |w.operations| < |w'.operations|
    && var command := Ran(w'.operations[|w.operations|]);
       var generation := if w.generation.Some? then w.generation.value else w'.lastGeneration;
       && Inspected(c, stages, w'.instant, generation, |w.operations|, TriggerOf(a, command),
                    LastChecks(c, w'.journal))
       && stages[0] == Before(c, w, a, command, w'.instant)
       && w'.services == stages[n].1
       && w'.host == (if a.Crash? then c.profile.drop(stages[n].0) else stages[n].0)
  }

  predicate Checks<H>(a: Attempt, r: Result<H>) {
    !a.Observe? && !a.Finish? && (r.outcome.Done? || r.outcome.Violated?)
  }

  lemma ExecuteInspects<H>(c: Config<H>, w: State<H>) returns (stages: seq<(H, Services)>)
    requires w.generation.Some? && w.queue != [] && Checks(Step, Execute(c, w))
    ensures Inspects(c, w, Step, Execute(c, w), stages)
    ensures var q := w.queue[0];
            var op := Execute(c, w).world.operations[|w.operations|];
            op.ExecuteOp? && op.command == q.command
  {
    hide Run;
    hide Inspected;
    hide Boundary;
    hide EnqueueAll;
    var q, d := w.queue[0], Dequeue(w);
    var (w1, scheduled) := Apply(c, d, q);
    EnqueueFrames(c, w1, scheduled);
    var w2 := EnqueueAll(c, w1, scheduled).world;
    BoundaryQuiet(c, w2, q.command.name, q.command.name, |w.operations|, w.generation.value);
    stages := BoundaryInspects(c, w2, q.command.name, q.command.name, |w.operations|, w.generation.value);
  }

  lemma {:induction false} PushAllFrames<H>(w: State<H>, scheduled: seq<Scheduled>)
    requires w.generation.Some?
    ensures var w' := PushAll(w, scheduled); w' == w.(queue := w'.queue, queueOrder := w'.queueOrder)
    decreases scheduled
  {
    if scheduled == [] {
    } else {
      PushAllFrames(Push(w, scheduled[0].instant, scheduled[0].command, FromProfile), scheduled[1..]);
    }
  }

  lemma EnqueueFrames<H>(c: Config<H>, w: State<H>, scheduled: seq<Scheduled>)
    requires w.generation.Some?
    ensures var r := EnqueueAll(c, w, scheduled);
            && (r.outcome.Done? || r.outcome.Broken? || r.outcome.Exhausted?)
            && (r.outcome.Done? ==> r.world == w.(queue := r.world.queue, queueOrder := r.world.queueOrder))
  {
    PushAllFrames(w, scheduled);
    VetEnds(c, w.instant, scheduled);
    hide PushAll;
    hide Vet;
  }

  lemma StepInspects<H>(c: Config<H>, w: State<H>) returns (stages: seq<(H, Services)>)
    requires Checks(Step, DoStep(c, w))
    ensures Inspects(c, w, Step, DoStep(c, w), stages)
    ensures w.queue != [] && Ran(DoStep(c, w).world.operations[|w.operations|]) == w.queue[0].command
  {
    hide Execute;
    hide Inspected;
    stages := ExecuteInspects(c, Reserve(c, w).world);
  }

  lemma SubmitInspects<H>(c: Config<H>, w: State<H>, g: nat, command: Command) returns (stages: seq<(H, Services)>)
    requires Checks(Submit(g, command), DoSubmit(c, w, g, command))
    ensures Inspects(c, w, Submit(g, command), DoSubmit(c, w, g, command), stages)
  {
    hide DoStep;
    hide Inspected;
    stages := StepInspects(c, Push(w, w.instant, command, Authored));
  }

  lemma FaultInspects<H>(c: Config<H>, w: State<H>, g: nat, fault: Fault) returns (stages: seq<(H, Services)>)
    requires Checks(ActivateFault(g, fault), DoFault(c, w, g, fault))
    ensures Inspects(c, w, ActivateFault(g, fault), DoFault(c, w, g, fault), stages)
  {
    hide Boundary;
    hide Inspected;
    var w1 := Reserve(c, w).world;
    var op := FaultOp(|w1.operations|, w1.instant, g, fault);
    var armed := w1.(services := w1.services.(faults := w1.services.faults + [ActiveFault(fault, 0)]));
    var w2 := Record(Append(armed, op), FaultEntry, fault.name, OperationValue(op), w1.generation);
    BoundaryQuiet(c, w2, "fault:" + fault.name, "fault:" + fault.name, |w1.operations|, g);
    stages := BoundaryInspects(c, w2, "fault:" + fault.name, "fault:" + fault.name, |w1.operations|, g);
  }

  lemma RestartInspects<H>(c: Config<H>, w: State<H>) returns (stages: seq<(H, Services)>)
    requires Checks(Restart, DoRestart(c, w))
    ensures Inspects(c, w, Restart, DoRestart(c, w), stages)
  {
    hide Boundary;
    hide Inspected;
    hide Run;
    hide EnqueueAll;
    var w1 := Reserve(c, w).world.(reloads := Reserve(c, w).world.reloads + 1);
    var (started, services) := Run(c.profile.load(w1.host), [], w1.instant, w1.services);
    var installed := Install(w1.(services := services), started.host);
    EnqueueFrames(c, installed, started.scheduled);
    var w2 := Reload(c, w1).world;
    var op := RestartOp(|w2.operations|, w2.instant, w2.lastGeneration);
    var w3 := Record(Append(w2, op), LoadedEntry, c.profile.identity, OperationValue(op), w2.generation);
    BoundaryQuiet(c, w3, "load", "load", |w2.operations|, w2.lastGeneration);
    stages := BoundaryInspects(c, w3, "load", "load", |w2.operations|, w2.lastGeneration);
  }

  lemma FairInspects<H>(c: Config<H>, w: State<H>, g: nat) returns (stages: seq<(H, Services)>)
    requires Checks(BeginFair(g), DoFair(c, w, g))
    ensures Inspects(c, w, BeginFair(g), DoFair(c, w, g), stages)
  {
    hide Boundary;
    hide Inspected;
    var w1 := Reserve(c, w).world.(fair := true);
    var op := FairOp(|w1.operations|, w1.instant, g);
    var w2 := Record(Append(w1, op), FairEntry, "begin", OperationValue(op), w1.generation);
    BoundaryQuiet(c, w2, "begin_fair", "begin_fair", |w1.operations|, g);
    stages := BoundaryInspects(c, w2, "begin_fair", "begin_fair", |w1.operations|, g);
  }

  lemma CrashInspects<H>(c: Config<H>, w: State<H>, g: nat, cut: string) returns (stages: seq<(H, Services)>)
    requires Checks(Crash(g, cut), DoCrash(c, w, g, cut))
    ensures Inspects(c, w, Crash(g, cut), DoCrash(c, w, g, cut), stages)
  {
    hide Inspected;
    hide Sample;
    var w0 := Reserve(c, w).world;
    CaptureQuiet(c, w0, c.checkers, |w0.operations|, g);
    var (w1, captured) := Capture(c, w0, c.checkers, |w0.operations|, g);
    var w2 := Drop(c, w1, g, cut);
    SampleQuiet(c, w2, false, "crash:" + cut);
    SampleVerdict(c, w2, false, "crash:" + cut);
    SampleKeepsHost(c, w2, false, "crash:" + cut);
    var w3 := Sample(c, w2, false, "crash:" + cut).world;
    stages := ChecksInspect(c, w0, w3, "crash:" + cut, |w0.operations|, g);
    hide Capture;
    RecordChecksQuiet(w3, "crash:" + cut, captured);
    RecordKeepsHost(w3, "crash:" + cut, captured);
    hide RecordCaptured;
    hide FailedNames;
  }

  /** Every attempt that checks has each checker's own answer on what the application then was. */
  lemma PerformInspects<H>(c: Config<H>, w: State<H>, a: Attempt) returns (stages: seq<(H, Services)>)
    requires Checks(a, Perform(c, w, a))
    ensures Inspects(c, w, a, Perform(c, w, a), stages)
  {
    hide Inspects;
    match a {
      case Submit(g, command) => stages := SubmitInspects(c, w, g, command);
      case Step => stages := StepInspects(c, w);
      case ActivateFault(g, fault) => stages := FaultInspects(c, w, g, fault);
      case Crash(g, cut) => stages := CrashInspects(c, w, g, cut);
      case Restart => stages := RestartInspects(c, w);
      case BeginFair(g) => stages := FairInspects(c, w, g);
    }
  }
}
