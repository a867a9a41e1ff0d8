/**
  Which attempts a World refuses, as something its author can check before making
  the attempt.
  */
module WorldGuards {
  import opened Options
  import opened World
  import opened WorldSafety

  /** The attempt's own first branches stop it. */
  predicate Stopped<H>(c: Config<H>, w: State<H>, a: Attempt) {
    match a
    case Submit(g, command) => w.generation != Some(g) || w.fair || Eligible(w) || !Valid(c, command)
    case Step => w.disposition.Some? || w.generation.None? || w.queue == []
    case ActivateFault(g, fault) =>
      || w.generation != Some(g) || w.disposition.Some? || w.fair || fault.profile != c.profile.identity
      || Eligible(w) || !c.profile.validateFault(fault)
    case Observe(g, _, _) => w.generation != Some(g) || w.disposition.Some?
    case Crash(g, cut) => w.generation != Some(g) || w.disposition.Some? || w.fair || cut == ""
    case Restart => w.disposition.Some? || w.generation.Some?
    case BeginFair(g) => w.generation != Some(g) || w.disposition.Some? || w.fair || w.services.faults != []
    case Finish(g, ending) =>
      w.generation != Some(g) || w.disposition.Some? || (w.fair && ending.ExternalWait?) || w.queue != []
  }

  lemma ReserveNeverRefuses<H>(c: Config<H>, w: State<H>)
    ensures !Reserve(c, w).outcome.Refused?
  {
  }

  lemma ReloadNeverRefuses<H>(c: Config<H>, w: State<H>)
    ensures !Reload(c, w).outcome.Refused?
  {
    hide Run;
    hide PushAll;
    hide Vet;
  }

  lemma StepRefusedWhen<H>(c: Config<H>, w: State<H>)
    requires Ready(c, w)
    ensures DoStep(c, w).outcome.Refused? <==> Stopped(c, w, Step)
  {
    ReadyCounts(c, w);
    if w.queue != [] {
      assert w.queue[0] in w.queue;
    }
    StepShape(c, w, w, Step);
    hide Reserve;
    hide Execute;
    hide Shape;
  }

  lemma SubmitRefusedWhen<H>(c: Config<H>, w: State<H>, g: nat, command: Command)
    requires Ready(c, w)
    ensures DoSubmit(c, w, g, command).outcome.Refused? <==> Stopped(c, w, Submit(g, command))
  {
    hide DoStep;
    ReadyCounts(c, w);
    if !Stopped(c, w, Submit(g, command)) && |w.queue| < c.budget.queued {
      PushKeeps(c, w, w.instant, command, Authored);
      var pushed := Push(w, w.instant, command, Authored);
      var q := Queued(w.instant, w.queueOrder, g, Authored, command);
      InsertKeeps(w.queue, q);
      assert pushed.queue == [q] + w.queue;
      assert pushed.queue[1..] == w.queue;
      StepShape(c, w, pushed, Submit(g, command));
      hide Shape;
    }
  }

  lemma CrashRefusedWhen<H>(c: Config<H>, w: State<H>, g: nat, cut: string)
    ensures DoCrash(c, w, g, cut).outcome.Refused? <==> Stopped(c, w, Crash(g, cut))
  {
    hide Sample;
    hide RecordChecks;
    hide Capture;
    hide Drop;
    hide Reserve;
    ReserveNeverRefuses(c, w);
    var w0 := Reserve(c, w).world;
    var (w1, captured) := Capture(c, w0, c.checkers, |w0.operations|, g);
    var w2 := Drop(c, w1, g, cut);
    SampleQuiet(c, w2, false, "crash:" + cut);
    RecordChecksQuiet(Sample(c, w2, false, "crash:" + cut).world, "crash:" + cut, captured);
  }

  lemma RestartRefusedWhen<H>(c: Config<H>, w: State<H>)
    ensures DoRestart(c, w).outcome.Refused? <==> Stopped(c, w, Restart)
  {
    hide Boundary;
    hide Reload;
    hide Reserve;
    ReserveNeverRefuses(c, w);
    if w.generation.None? {
      var w1 := Reserve(c, w).world;
      var w2 := Reload(c, w1.(reloads := w1.reloads + 1)).world;
      ReloadNeverRefuses(c, w1.(reloads := w1.reloads + 1));
      var op := RestartOp(|w2.operations|, w2.instant, w2.lastGeneration);
      var w3 := Record(Append(w2, op), LoadedEntry, c.profile.identity, OperationValue(op), w2.generation);
      BoundaryQuiet(c, w3, "load", "load", |w2.operations|, w2.lastGeneration);
    }
  }

  lemma BoundaryNeverRefuses<H>(c: Config<H>)
    ensures forall w: State<H>, sample, trigger, sequence, generation ::
              !Boundary(c, w, sample, trigger, sequence, generation).outcome.Refused?
    ensures forall w: State<H>, live, trigger :: !Sample(c, w, live, trigger).outcome.Refused?
  {
    forall w: State<H>, sample, trigger, sequence, generation
      ensures !Boundary(c, w, sample, trigger, sequence, generation).outcome.Refused?
    {
      BoundaryQuiet(c, w, sample, trigger, sequence, generation);
    }
    forall w: State<H>, live, trigger ensures !Sample(c, w, live, trigger).outcome.Refused? {
      SampleQuiet(c, w, live, trigger);
    }
  }

  lemma OtherRefusedWhen<H>(c: Config<H>, w: State<H>, a: Attempt)
    requires a.ActivateFault? || a.Observe? || a.BeginFair? || a.Finish?
    ensures Perform(c, w, a).outcome.Refused? <==> Stopped(c, w, a)
  {
    hide Boundary;
    hide Sample;
    hide Look;
    hide Reserve;
    ReserveNeverRefuses(c, w);
    BoundaryNeverRefuses(c);
  }

  /** A World refuses an attempt, before it ended and harmlessly after, exactly when the attempt's guard stops it. */
  lemma RefusedWhen<H>(c: Config<H>, w: State<H>, a: Attempt)
    requires Inv(c, w) && (w.disposition.Some? ==> Harmless(c, w, a))
    ensures Try(c, w, a).outcome.Refused? <==> Stopped(c, w, a)
  {
    if w.disposition.Some? {
      EndedRefuses(c, w, a);
    } else {
      match a {
        case Submit(g, command) => SubmitRefusedWhen(c, w, g, command);
        case Step => StepRefusedWhen(c, w);
        case Crash(g, cut) => CrashRefusedWhen(c, w, g, cut);
        case Restart => RestartRefusedWhen(c, w);
        case _ => OtherRefusedWhen(c, w, a);
      }
      hide Inv;
      hide DoSubmit;
      hide DoStep;
      hide DoCrash;
      hide DoRestart;
      hide DoFault;
      hide DoObserve;
      hide DoFair;
      hide DoFinish;
    }
  }

  /** No attempt of the run is stopped where it is made. */
  ghost predicate NoneStopped<H>(c: Config<H>, w: State<H>, attempts: seq<Attempt>)
    decreases attempts
  {
    attempts == [] || (!Stopped(c, w, attempts[0]) && NoneStopped(c, Try(c, w, attempts[0]).world, attempts[1..]))
  }

  // ---- A submission that an ended World does not shrug off ----------------

  /** After any successful finish outside a fair phase, a valid submission is refused and queued all the same. */
  lemma FinishThenSubmit<H>(c: Config<H>, w: State<H>, g: nat, ending: Ending, command: Command)
    requires Ready(c, w) && !w.fair && Try(c, w, Finish(g, ending)).outcome.Done?
    requires Valid(c, command) && 0 < c.budget.queued
    ensures var ended := Try(c, w, Finish(g, ending)).world;
            var r := Try(c, ended, Submit(g, command));
            && r.outcome.Refused? && ended.generation == Some(g) && ended.queue == []
            && r.world == Push(ended, ended.instant, command, Authored) && r.world != ended
  {
    TryKeeps(c, w, Finish(g, ending));
    FinishLeaves(c, w, g, ending);
    var ended := Try(c, w, Finish(g, ending)).world;
    hide Try;
    EndedSubmission(c, ended, g, command);
    assert Push(ended, ended.instant, command, Authored).queueOrder == ended.queueOrder + 1;
  }

  lemma FinishLeaves<H>(c: Config<H>, w: State<H>, g: nat, ending: Ending)
    requires Try(c, w, Finish(g, ending)).outcome.Done?
    ensures var ended := Try(c, w, Finish(g, ending)).world;
            && ended.generation == Some(g) && ended.fair == w.fair && ended.queue == []
            && ended.disposition == Some(Ended(ending))
  {
    hide Sample;
    var w1 := Reserve(c, w).world;
    var op := FinishOp(|w1.operations|, w1.instant, g, ending);
    var w2 := Record(Append(w1.(disposition := Some(Ended(ending))), op),
                     FinishEntry, EndingName(ending), OperationValue(op), w1.generation);
    SampleQuiet(c, w2, true, "finish:" + EndingName(ending));
  }
}
