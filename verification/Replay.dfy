/**
  Expanded replay (`replay`, `_replay_operations`): an artifact's operations are
  turned back into attempts on a fresh World, and every attempt must reproduce
  exactly the recorded operations.  Replay accepts an artifact if and only if
  some orderly run of a World produced it.  The journal digest is the journal.
  */
module Replay {
  import opened Options
  import opened World
  import opened WorldSafety
  import opened WorldMachine

  /** `_replay_operation` and `_replay_attempt`. */
  function AttemptOf(op: Operation): Attempt {
    match op
    case ExecuteOp(_, Authored, _, _, generation, command, _) => Submit(generation, command)
    case ExecuteOp(_, FromProfile, _, _, _, _, _) => Step
    case FaultOp(_, _, generation, fault) => ActivateFault(generation, fault)
    case ObserveOp(_, poll, observation, request) => Observe(observation.generation, request, poll)
    case CrashOp(_, _, generation, cut, _) => Crash(generation, cut)
    case RestartOp(_, _, _) => Restart
    case FairOp(_, _, generation) => BeginFair(generation)
    case FinishOp(_, _, generation, ending) => Finish(generation, ending)
    case FailureOp(_, _, _, _, attempt, _) => attempt
  }

  datatype Artifact = Artifact(profile: string, checkers: seq<string>, operations: seq<Operation>,
                               disposition: Disposition, failure: Option<FailureDetail>, checks: seq<Entry>,
                               journal: seq<Entry>)

  function Checks(journal: seq<Entry>): seq<Entry> {
    if journal == [] then []
    else if journal[0].kind == CheckEntry then [journal[0]] + Checks(journal[1..])
    else Checks(journal[1..])
  }

  /** `artifact`: what an ended World hands out. */
  function ArtifactOf<H>(c: Config<H>, w: State<H>): Artifact
    requires w.disposition.Some?
  {
    var n := |w.operations|;
    Artifact(c.profile.identity, Manifest(c.checkers), w.operations, w.disposition.value,
             if n > 0 && w.operations[n - 1].FailureOp? then Some(w.operations[n - 1].failure) else None,
             Checks(w.journal), w.journal)
  }

  // ---- The artifact validator ---------------------------------------------

  /** `_validate_shape`: dense operations, ordered unique check entries, a manifest without repetition. */
  ghost predicate WellShaped(a: Artifact) {
    && (forall i :: 0 <= i < |a.operations| ==> a.operations[i].position == i)
    && OrderedChecks(a.checks)
    && DistinctNames(a.checkers)
  }

  ghost predicate OrderedChecks(checks: seq<Entry>) {
    && (forall i :: 0 <= i < |checks| ==> checks[i].kind == CheckEntry)
    && (forall i, j :: 0 <= i < j < |checks| ==> checks[i].position < checks[j].position)
  }

  /** `_validate_failure`: one terminal failure exactly when the ending is a failure, naming its accepted operation. */
  ghost predicate FailureStated(a: Artifact) {
    var n := |a.operations|;
    && (forall i :: 0 <= i < n - 1 ==> !a.operations[i].FailureOp?)
    && (if a.disposition.Ended? then
          a.failure.None? && (n == 0 || !a.operations[n - 1].FailureOp?)
        else
          && n > 0 && a.operations[n - 1].FailureOp?
          && a.failure == Some(a.operations[n - 1].failure)
          && a.operations[n - 1].accepted <= 1
          && (a.operations[n - 1].accepted == 1 ==>
                n >= 2 && Produced(a.operations[n - 1].attempt, a.operations[n - 2])))
  }

  /**
    `_validate_profiles`: every command, fault and failed attempt names
    the artifact's profile; failure and ending agree.
    */
  ghost predicate Profiled(a: Artifact) {
    forall i :: 0 <= i < |a.operations| ==>
      match a.operations[i]
      case ExecuteOp(_, _, _, _, _, command, _) => command.profile == a.profile
      case FaultOp(_, _, _, fault) => fault.profile == a.profile
      case FailureOp(_, _, _, _, attempt, failure) =>
        && a.disposition == (if failure.BudgetFailure? then BudgetExhausted else InvariantFailure)
        && (attempt.Submit? ==> attempt.command.profile == a.profile)
        && (attempt.ActivateFault? ==> attempt.fault.profile == a.profile)
      case _ => true
  }

  ghost predicate Coherent(a: Artifact) { WellShaped(a) && FailureStated(a) && Profiled(a) }

  /** One turn of the replay loop: the World afterwards, or `None` where the source raises. */
  function ReplayTurn<H>(c: Config<H>, w: State<H>, operations: seq<Operation>, position: nat)
    : (r: Option<(State<H>, bool)>)
    requires position < |operations|
    ensures r.Some? ==> |w.operations| < |r.value.0.operations|
  {
    var expected := operations[position];
    var paired := position + 1 < |operations| && operations[position + 1].FailureOp?
                  && operations[position + 1].accepted == 1;
    var before := |w.operations|;
    var t := Try(c, w, AttemptOf(expected));
    if t.outcome.Refused? || t.outcome.Broken? then None
    else
      var failed := Failing(t.outcome);
      var after := |t.world.operations|;
      if after <= before || |operations| < after
         || t.world.operations[before..] != operations[before..after] then None
      else
        var position' := position + (after - before);
        if failed then
          if t.world.operations[after - 1].FailureOp? && position' == |operations| then Some((t.world, true)) else None
        else if paired || after - before != 1 || expected.FailureOp? then None
        else Some((t.world, false))
  }

  /** `_replay_operations`: the World after all operations were reproduced, or `None`. */
  function ReplayFrom<H>(c: Config<H>, w: State<H>, operations: seq<Operation>, position: nat): Option<State<H>>
    requires position <= |operations|
    decreases |operations| - position
  {
    if position == |operations| then Some(w)
    else
      match ReplayTurn(c, w, operations, position)
      case None => None
      case Some((w', failed)) => if failed then Some(w') else ReplayFrom(c, w', operations, position + 1)
  }

  /** `replay`: construct a fresh World, replay, compare disposition, checks and journal. */
  predicate Passes<H>(c: Config<H>, a: Artifact) {
    && a.profile == c.profile.identity && a.checkers == Manifest(c.checkers)
    && Construct(c).outcome.Done?
    && var r := ReplayFrom(c, Construct(c).world, a.operations, 0);
       && r.Some? && r.value.disposition == Some(a.disposition)
       && Checks(r.value.journal) == a.checks && r.value.journal == a.journal
  }

  /** The replay loop over the interpreter itself. */
  method ReplayOperations<H>(world: Interpreter<H>, operations: seq<Operation>) returns (reproduced: bool)
    modifies world
    ensures var r := ReplayFrom(world.config, old(world.Value()), operations, 0);
            && reproduced == r.Some?
            && (reproduced ==> world.Value() == r.value)
  {
    hide Try;
    var position := 0;
    while position < |operations|
      invariant position <= |operations|
      invariant ReplayFrom(world.config, old(world.Value()), operations, 0)
             == ReplayFrom(world.config, world.Value(), operations, position)
    {
      var expected := operations[position];
      var paired := position + 1 < |operations| && operations[position + 1].FailureOp?
                    && operations[position + 1].accepted == 1;
      var before := |world.operations|;
      ghost var start := world.Value();
      var outcome := world.Attempted(AttemptOf(expected));
      if outcome.Refused? || outcome.Broken? {
        return false;
      }
      var after := |world.operations|;
      if after <= before || |operations| < after || world.operations[before..] != operations[before..after] {
        return false;
      }
      if Failing(outcome) {
        reproduced := world.operations[after - 1].FailureOp? && position + (after - before) == |operations|;
        return;
      }
      if paired || after - before != 1 || expected.FailureOp? {
        return false;
      }
      assert ReplayTurn(world.config, start, operations, position) == Some((world.Value(), false));
      position := position + 1;
    }
    reproduced := true;
  }

  // ---- Every run replays --------------------------------------------------

  lemma ProducedDetermines(a: Attempt, op: Operation)
    ensures !op.FailureOp? ==> (Produced(a, op) <==> AttemptOf(op) == a)
  {
  }

  /** The first operation an attempt adds is never the second half of an accepted-then-failed pair. */
  lemma {:induction false} FirstIsUnpaired<H>(c: Config<H>, w: State<H>, attempts: seq<Attempt>)
    requires Inv(c, w) && Orderly(c, w, attempts)
    ensures var w' := Exec(c, w, attempts);
            |w'.operations| > |w.operations| && w'.operations[|w.operations|].FailureOp? ==>
              w'.operations[|w.operations|].accepted == 0
    decreases attempts
  {
    if attempts == [] {
    } else {
      if w.disposition.Some? {
        EndedRefuses(c, w, attempts[0]);
      } else {
        TryKeeps(c, w, attempts[0]);
      }
      var w1 := Try(c, w, attempts[0]).world;
      RunKeeps(c, w1, attempts[1..]);
      var w' := Exec(c, w1, attempts[1..]);
      if |w1.operations| > |w.operations| {
        assert w'.operations[|w.operations|] == w1.operations[|w.operations|];
      } else {
        FirstIsUnpaired(c, w1, attempts[1..]);
      }
    }
  }

  /** From any ready World: replaying what the run still has to log reproduces the run's final World. */
  lemma {:induction false} RunReplays<H>(c: Config<H>, w: State<H>, attempts: seq<Attempt>)
    requires Ready(c, w) && Orderly(c, w, attempts)
    requires Exec(c, w, attempts).disposition.Some?
    ensures |w.operations| <= |Exec(c, w, attempts).operations|
    ensures ReplayFrom(c, w, Exec(c, w, attempts).operations, |w.operations|) == Some(Exec(c, w, attempts))
    decreases attempts
  {
    hide Try;
    hide ReplayTurn;
    var a, t := attempts[0], Try(c, w, attempts[0]);
    var w', n := Exec(c, w, attempts), |w.operations|;
    TryKeeps(c, w, a);
    if t.outcome.Refused? {
      RunReplays(c, w, attempts[1..]);
    } else {
      RunKeeps(c, t.world, attempts[1..]);
      assert w' == Exec(c, t.world, attempts[1..]);
      if t.outcome.Done? {
        FirstIsUnpaired(c, t.world, attempts[1..]);
        DoneTurn(c, w, a, w'.operations);
        if !a.Finish? {
          RunReplays(c, t.world, attempts[1..]);
        }
      } else {
        FailedTurn(c, w, a);
      }
    }
  }

  lemma DoneTurn<H>(c: Config<H>, w: State<H>, a: Attempt, operations: seq<Operation>)
    requires Ready(c, w) && Try(c, w, a).outcome.Done?
    requires var w1 := Try(c, w, a).world;
             && w1.operations <= operations
             && (|operations| > |w1.operations| && operations[|w1.operations|].FailureOp? ==>
                   operations[|w1.operations|].accepted == 0)
    ensures |w.operations| < |operations|
    ensures ReplayTurn(c, w, operations, |w.operations|) == Some((Try(c, w, a).world, false))
  {
    hide Try;
    TryKeeps(c, w, a);
    var w1, n := Try(c, w, a).world, |w.operations|;
    assert operations[n] == w1.operations[n];
    ProducedDetermines(a, operations[n]);
    assert w1.operations[n..] == operations[n..n + 1];
  }

  lemma FailedTurn<H>(c: Config<H>, w: State<H>, a: Attempt)
    requires Ready(c, w) && Failing(Try(c, w, a).outcome)
    ensures var w' := Try(c, w, a).world;
            |w.operations| < |w'.operations| && ReplayTurn(c, w, w'.operations, |w.operations|) == Some((w', true))
  {
    hide Try;
    TryKeeps(c, w, a);
    var w', n := Try(c, w, a).world, |w.operations|;
    ProducedDetermines(a, w'.operations[n]);
    assert AttemptOf(w'.operations[n]) == a;
    assert w'.operations[n..] == w'.operations[n..|w'.operations|];
  }

  /** Replay fidelity: whatever was refused in between, an ended orderly run replays to the very same World. */
  lemma ReplayFidelity<H>(c: Config<H>, attempts: seq<Attempt>)
    requires Construct(c).outcome.Done?
    requires Orderly(c, Construct(c).world, attempts) && Exec(c, Construct(c).world, attempts).disposition.Some?
    ensures var w := Exec(c, Construct(c).world, attempts);
            ReplayFrom(c, Construct(c).world, w.operations, 0) == Some(w) && Passes(c, ArtifactOf(c, w))
  {
    ConstructKeeps(c);
    RunReplays(c, Construct(c).world, attempts);
  }

  // ---- Only runs replay ---------------------------------------------------

  /** A finished World reproduces nothing more. */
  lemma EndedReplaysNothing<H>(c: Config<H>, w: State<H>, operations: seq<Operation>, position: nat)
    requires Inv(c, w) && w.disposition.Some? && w.disposition.value.Ended? && c.budget.queued >= 1
    requires position < |operations|
    ensures ReplayTurn(c, w, operations, position).None?
  {
    var a := AttemptOf(operations[position]);
    if Harmless(c, w, a) {
      EndedRefuses(c, w, a);
    }
  }

  /**
    A successful replay is itself a run: the attempts it made produce exactly the
    recorded operations.  Every budget allows at least one queued command.
    */
  lemma {:induction false} ReplayIsRun<H>(c: Config<H>, w: State<H>, operations: seq<Operation>)
    returns (attempts: seq<Attempt>)
    requires Inv(c, w) && !Failed(w) && c.budget.queued >= 1
    requires w.operations <= operations
    requires ReplayFrom(c, w, operations, |w.operations|).Some?
    ensures Orderly(c, w, attempts)
    ensures ReplayFrom(c, w, operations, |w.operations|) == Some(Exec(c, w, attempts))
    ensures Exec(c, w, attempts).operations == operations
    decreases |operations| - |w.operations|
  {
    hide Try;
    hide Inv;
    var n := |w.operations|;
    if n == |operations| {
      attempts := [];
    } else if w.disposition.Some? {
      EndedReplaysNothing(c, w, operations, n);
      assert false;
    } else {
      var a := AttemptOf(operations[n]);
      var (w', failed) := ReplayTurn(c, w, operations, n).value;
      TryKeeps(c, w, a);
      assert w'.operations == w'.operations[..n] + w'.operations[n..];
      assert w'.operations <= operations;
      var rest: seq<Attempt> := [];
      if !failed {
        rest := ReplayIsRun(c, w', operations);
      }
      attempts := [a] + rest;
      assert attempts[0] == a && attempts[1..] == rest;
    }
  }

  lemma FirstCheck(e: Entry, rest: seq<Entry>)
    requires OrderedChecks(rest) && e.kind == CheckEntry && forall r :: r in rest ==> e.position < r.position
    ensures OrderedChecks([e] + rest)
  {
    var all := [e] + rest;
    forall i, j | 0 <= i < j < |all| ensures all[i].position < all[j].position {
      assert all[j] == rest[j - 1] && rest[j - 1] in rest;
      if i > 0 {
        assert all[i] == rest[i - 1];
      }
    }
  }

  lemma {:induction false} ChecksOrdered(journal: seq<Entry>)
    requires forall i, j :: 0 <= i < j < |journal| ==> journal[i].position < journal[j].position
    ensures OrderedChecks(Checks(journal))
    ensures forall e :: e in Checks(journal) ==> e in journal
  {
    if journal == [] {
    } else {
      hide OrderedChecks;
      var e, rest := journal[0], journal[1..];
      ChecksOrdered(rest);
      forall r | r in Checks(rest) ensures e.position < r.position {
        var i :| 0 <= i < |rest| && rest[i] == r;
        assert journal[i + 1] == r;
      }
      if e.kind == CheckEntry {
        FirstCheck(e, Checks(rest));
        assert Checks(journal) == [e] + Checks(rest);
      } else {
        assert Checks(journal) == Checks(rest);
      }
    }
  }

  /** Every ended orderly run hands out an artifact its own validator accepts. */
  lemma ArtifactCoherent<H>(c: Config<H>, attempts: seq<Attempt>)
    requires Construct(c).outcome.Done?
    requires Orderly(c, Construct(c).world, attempts) && Exec(c, Construct(c).world, attempts).disposition.Some?
    ensures Coherent(ArtifactOf(c, Exec(c, Construct(c).world, attempts)))
  {
    hide Try;
    ConstructKeeps(c);
    RunKeeps(c, Construct(c).world, attempts);
    assert DistinctNames(Manifest(c.checkers));
    hide Construct;
    FailureIsPaired(c, Construct(c).world, attempts);
    ChecksOrdered(Exec(c, Construct(c).world, attempts).journal);
    CoherentAtEnd(c, Exec(c, Construct(c).world, attempts));
  }

  lemma CoherentAtEnd<H>(c: Config<H>, w: State<H>)
    requires Inv(c, w) && w.disposition.Some? && PairedFailure(w.operations) && DispositionMatches(w)
    requires OrderedChecks(Checks(w.journal)) && DistinctNames(Manifest(c.checkers))
    ensures Coherent(ArtifactOf(c, w))
  {
    hide OrderedChecks;
    hide Scheduler;
    var a := ArtifactOf(c, w);
    forall i | 0 <= i < |w.operations|
      ensures match w.operations[i]
              case ExecuteOp(_, _, _, _, _, command, _) => command.profile == a.profile
              case FaultOp(_, _, _, fault) => fault.profile == a.profile
              case FailureOp(_, _, _, _, attempt, failure) =>
                && a.disposition == (if failure.BudgetFailure? then BudgetExhausted else InvariantFailure)
                && (attempt.Submit? ==> attempt.command.profile == a.profile)
                && (attempt.ActivateFault? ==> attempt.fault.profile == a.profile)
              case _ => true
    {
      assert OwnOp(c, w.operations[i]);
    }
  }

  ghost predicate PairedFailure(operations: seq<Operation>) {
    var n := |operations|;
    n > 0 && operations[n - 1].FailureOp? ==>
      && operations[n - 1].accepted <= 1
      && (operations[n - 1].accepted == 1 ==> n >= 2 && Produced(operations[n - 1].attempt, operations[n - 2]))
  }

  lemma {:induction false} FailureIsPaired<H>(c: Config<H>, w: State<H>, attempts: seq<Attempt>)
    requires Inv(c, w) && Orderly(c, w, attempts) && PairedFailure(w.operations) && DispositionMatches(w)
    ensures PairedFailure(Exec(c, w, attempts).operations) && DispositionMatches(Exec(c, w, attempts))
    decreases attempts
  {
    hide Inv;
    hide Try;
    hide PairedFailure;
    hide DispositionMatches;
    if attempts == [] {
    } else {
      AttemptIsPaired(c, w, attempts[0]);
      FailureIsPaired(c, Try(c, w, attempts[0]).world, attempts[1..]);
    }
  }

  lemma AttemptIsPaired<H>(c: Config<H>, w: State<H>, a: Attempt)
    requires Inv(c, w) && PairedFailure(w.operations) && DispositionMatches(w)
    requires !Try(c, w, a).outcome.Broken? && (w.disposition.Some? ==> Harmless(c, w, a))
    ensures var w' := Try(c, w, a).world; Inv(c, w') && PairedFailure(w'.operations) && DispositionMatches(w')
  {
    hide Try;
    if w.disposition.Some? {
      EndedRefuses(c, w, a);
    } else {
      assert Ready(c, w);
      TryKeeps(c, w, a);
    }
    hide Inv;
  }

  ghost predicate DispositionMatches<H>(w: State<H>) {
    var n := |w.operations|;
    n > 0 && w.operations[n - 1].FailureOp? ==>
      w.disposition == Some(if w.operations[n - 1].failure.BudgetFailure? then BudgetExhausted else InvariantFailure)
  }

  /** Replay accepts exactly the artifacts of real runs. */
  lemma ReplayCharacterized<H>(c: Config<H>, a: Artifact)
    requires Construct(c).outcome.Done? && c.budget.queued >= 1 && FailureStated(a)
    ensures Passes(c, a) <==>
            exists attempts ::
              && Orderly(c, Construct(c).world, attempts)
              && Exec(c, Construct(c).world, attempts).disposition.Some?
              && ArtifactOf(c, Exec(c, Construct(c).world, attempts)) == a
  {
    ConstructKeeps(c);
    var w := Construct(c).world;
    if Passes(c, a) {
      var attempts := ReplayIsRun(c, w, a.operations);
      RunKeeps(c, w, attempts);
      assert ArtifactOf(c, Exec(c, w, attempts)) == a;
    }
    forall attempts | Orderly(c, w, attempts) && Exec(c, w, attempts).disposition.Some?
                      && ArtifactOf(c, Exec(c, w, attempts)) == a
      ensures Passes(c, a)
    {
      ReplayFidelity(c, attempts);
    }
  }
}
