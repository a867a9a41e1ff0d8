/**
  Whole paths through the Hands protocol, as the source's own methods run them:
  `HandsGateway.submit` and `EpisodeAttachment.settle`, section by section, with
  other threads acting between any two sections.  Each is proved to be a run of
  the protocol's machine that never gets stuck between its sections, so every run
  theorem applies to it.
  */
module HandsHost {
  import opened Options
  import opened Hands
  import opened HandsSafety
  import opened HandsRuns

  // ---- What others leave alone --------------------------------------------

  /** The step is not one of call `t`'s own sections. */
  predicate SparesCall(step: Step, t: nat) { step.Advance? ==> step.call != t }

  /** The step is not one of the settling thread's own. */
  predicate SparesSettler(step: Step) {
    !step.DrainNext? && !step.SettleAbort? && !step.CleanUp? && !step.Export? && !step.SettleEnd?
  }

  /** Call `t` and its hold on the barrier are as they were. */
  ghost predicate Undisturbed(s: State, s': State, t: nat) {
    && t < |s.calls| <= |s'.calls| && s'.calls[t] == s.calls[t] && |s.gateways| <= |s'.gateways|
    && (s.barrier == Some(t) ==> s'.barrier == Some(t))
    && (At(s, t) && Active(s.calls[t].stage) ==> (HasEntered(s', t) <==> HasEntered(s, t)))
  }

  /** The id of call `t` has crossed into its gateway's adapter. */
  predicate HasEntered(s: State, t: nat) {
    At(s, t) && s.calls[t].request.call in s.gateways[s.calls[t].gateway].entered
  }

  lemma OtherAdvance(s: State, u: nat, act: Act, t: nat)
    requires Inv(s) && At(s, u) && t < |s.calls| && u != t
    ensures Undisturbed(s, Put(s, u, ActedAt(s, u, act)), t)
  {
    hide Acted;
    var c := s.calls[u];
    assert GuardOf(s, u) && Alone(s, u, t);
    hide Inv;
    ActedBarrier(View(s, u), u, Write(c.gateway, c.request.call), c.request, Fence(s), act);
    OtherEnters(s, u, act, t);
    hide Entry, Alone;
  }

  lemma OtherEnters(s: State, u: nat, act: Act, t: nat)
    requires At(s, u) && t < |s.calls| && u != t && Alone(s, u, t)
    ensures At(s, t) && Active(s.calls[t].stage) ==>
              (HasEntered(Put(s, u, ActedAt(s, u, act)), t) <==> HasEntered(s, t))
  {
    hide Acted;
    var c := s.calls[u];
    ActedEntry(View(s, u), u, Write(c.gateway, c.request.call), c.request, Fence(s), act);
  }

  lemma OtherStep(s: State, step: Step, t: nat)
    requires Inv(s) && t < |s.calls| && SparesCall(step, t)
    ensures Undisturbed(s, Next(s, step), t)
  {
    if step.Advance? {
      if At(s, step.call) {
        OtherAdvance(s, step.call, step.act, t);
      }
      hide Inv, Put, ActedAt;
    } else {
      hide Inv;
      SettleKeepsClaims(s, step);
      SettleKeepsBarrier(s, step);
      hide Settle, NewGatewayRecord;
    }
  }

  lemma SettleKeepsBarrier(s: State, step: Step)
    ensures Settle(s, step).barrier == s.barrier
    ensures forall i :: 0 <= i < |s.gateways| && i < |Settle(s, step).gateways| ==>
              Settle(s, step).gateways[i].entered == s.gateways[i].entered
  {
  }

  lemma {:induction false} OtherSteps(s: State, steps: seq<Step>, t: nat)
    requires Inv(s) && t < |s.calls| && forall step :: step in steps ==> SparesCall(step, t)
    ensures Undisturbed(s, Run(s, steps), t)
    decreases steps
  {
    hide Inv, Next;
    if steps == [] {
    } else {
      assert steps[0] in steps;
      OtherStep(s, steps[0], t);
      NextKeeps(s, steps[0]);
      OtherSteps(Next(s, steps[0]), steps[1..], t);
    }
  }

  /** Closed admission stays closed, the gateways are those that were closed, and settlement is where it was. */
  ghost predicate Closing(s: State, s': State) {
    !s'.open && |s'.gateways| == |s.gateways| && s'.settler == s.settler && s'.settled == s.settled
        && s'.uncertain == s.uncertain
  }

  lemma ClosingStep(s: State, step: Step)
    requires !s.open && !s.settler.Resting? && SparesSettler(step)
    ensures Closing(s, Next(s, step))
  {
    hide ActedAt, Opened, Closed, Requested;
  }

  lemma {:induction false} ClosingSteps(s: State, steps: seq<Step>)
    requires !s.open && !s.settler.Resting? && forall step :: step in steps ==> SparesSettler(step)
    ensures Closing(s, Run(s, steps))
    decreases steps
  {
    hide Next;
    if steps == [] {
    } else {
      assert steps[0] in steps;
      ClosingStep(s, steps[0]);
      ClosingSteps(Next(s, steps[0]), steps[1..]);
    }
  }

  lemma {:induction false} RunSplits(s: State, left: seq<Step>, right: seq<Step>)
    ensures Run(s, left + right) == Run(Run(s, left), right)
    decreases left
  {
    hide Next;
    if left == [] {
      assert left + right == right;
    } else {
      assert (left + right)[0] == left[0] && (left + right)[1..] == left[1..] + right;
      RunSplits(Next(s, left[0]), left[1..], right);
    }
  }

  lemma RunSnoc(s: State, steps: seq<Step>, step: Step)
    ensures Run(s, steps + [step]) == Next(Run(s, steps), step)
  {
    RunSplits(s, steps, [step]);
    assert [step][1..] == [];
    hide Next;
  }

  // ---- One call's stages --------------------------------------------------

  /** What a section of call `t` leaves of its own stage. */
  lemma OwnStep(s: State, t: nat, act: Act)
    requires At(s, t)
    ensures var s' := Next(s, Advance(t, act)); var c := s.calls[t]; var v := ActedAt(s, t, act);
            && |s'.calls| == |s.calls| && s'.calls[t] == c.(stage := v.stage) && s'.barrier == v.barrier
            && |s'.gateways| == |s.gateways|
  {
    hide ActedAt;
  }

  /** What a check of the fence, the grant and the rest may say. */
  predicate Gate(refusal: Option<Category>, c: Category) {
    c == POST_FENCE || c == ABORTED || c == STALE_EPOCH || refusal == Some(c)
  }

  /** Where a section takes a call of `r`; the sections that wait for the barrier may leave it where it is. */
  ghost predicate Leads(x: Stage, r: Request, act: Act, x': Stage) {
    match act
    case Stale => x.Claimed? ==> x' == Rejecting(STALE_EPOCH)
    case Precheck(refusal) =>
      x.Claimed? ==> x' == x || (x'.Passed? && refusal.None?) || (x'.Rejecting? && Gate(refusal, x'.category))
    case Consume => x.Passed? ==> x'.Spent? || x' == Rejecting(STALE_EPOCH) || x' == Rejecting(BUDGET)
    case Enter => x.Spent? ==> x'.Entered?
    case Perform(ok) => x.Entered? && !r.write ==> x' == if ok then Performed else Rejecting(PROVIDER)
    case StageWrite(ok) => x.Entered? && r.write ==> x' == if ok then Staged else Rejecting(PROVIDER)
    case Mismatch => x.Staged? ==> x' == Dropping(PROVIDER)
    case Postcheck(refusal) =>
      x.Performed? ==> x' == x || (x'.Accepting? && refusal.None?) || (x'.Rejecting? && Gate(refusal, x'.category))
    case CheckFence => x.Holding? ==> x'.Fenced? || (x'.Dropping? && Gate(None, x'.category))
    case CheckRest(refusal) =>
      x.Fenced? ==> (x'.Cleared? && refusal.None?) || (x'.Dropping? && Gate(refusal, x'.category))
    case Commit(ok, matches) =>
      x.Cleared? ==> x' == if !ok then Dropping(PROVIDER) else if matches then Accepting else Rejecting(PROVIDER)
    case Drop(ok) => x.Dropping? ==> x' == Rejecting(if ok then x.category else PROVIDER)
    case Spoil => x.Accepting? ==> x' == Rejecting(PROVIDER)
    case Record => (x.Accepting? ==> x'.Counting?) && (x.Rejecting? ==> x' == Recorded(Rejected(x.category)))
    case Count => x.Counting? ==> x' == Recorded(Accepted)
    case Publish => x.Recorded? ==> x' == Returned(x.reply)
    case _ => true
  }

  lemma ActedLeads(s: State, t: nat, act: Act)
    requires At(s, t)
    ensures Leads(s.calls[t].stage, s.calls[t].request, act, ActedAt(s, t, act).stage)
  {
    if BeforeAdapter(act) {
      hide ActedAfter;
    } else {
      hide ActedBefore;
    }
  }

  lemma ActedEnters(s: State, t: nat, act: Act)
    requires At(s, t)
    ensures HasEntered(Put(s, t, ActedAt(s, t, act)), t)
            <==> HasEntered(s, t) || (act.Enter? && s.calls[t].stage.Spent?)
  {
    if BeforeAdapter(act) {
      hide ActedAfter;
    } else {
      hide ActedBefore;
    }
  }

  /** What the adapter, the policies and the other seams answer to one call. */
  datatype Answers = Answers(stale: bool, refusal: Option<Category>, ok: bool, mismatch: bool,
                             recheck: Option<Category>, commits: bool, digestMatches: bool,
                             discards: bool, spoiled: bool)

  /** Every answer that the call needs to be accepted. */
  predicate Earned(a: Answers, r: Request) {
    && !a.stale && a.refusal.None? && a.ok && a.recheck.None?
    && (r.write ==> !a.mismatch && a.commits && a.digestMatches)
  }

  /** The adapter, or the record of what it did, let the call down. */
  predicate LetDown(a: Answers, r: Request) {
    !a.ok || (r.write && (a.mismatch || !a.commits || !a.digestMatches || !a.discards))
  }

  /** Why a call that entered the adapter may be rejected as `c`. */
  predicate Late(a: Answers, r: Request, c: Category) {
    Gate(None, c) || (c == PROVIDER && LetDown(a, r)) || (a.ok && a.recheck == Some(c))
  }

  /** Why a call that owns its id may be rejected as `c`. */
  predicate Reason(a: Answers, r: Request, c: Category) {
    if a.stale then c == STALE_EPOCH
    else if a.refusal.Some? then Gate(a.refusal, c)
    else c == BUDGET || Late(a, r, c)
  }

  /** A call's reply, the rendering of its result included. */
  predicate Deserves(a: Answers, r: Request, reply: Reply) {
    match reply
    case Accepted => Earned(a, r) && !a.spoiled
    case Rejected(c) => Reason(a, r, c) || (a.spoiled && Earned(a, r) && c == PROVIDER)
  }

  /** What the call comes to is what its answers allow. */
  ghost predicate Deserved(a: Answers, r: Request, x: Stage) {
    (x.Accepting? ==> Earned(a, r)) && (x.Rejecting? ==> Reason(a, r, x.category))
  }

  datatype Outcome = Answered(reply: Reply) | Overflow | Conflict | Starved

  /** `state` is the protocol's state, reached from `start` by `trace`; `others` is what other threads still do. */
  class Host {
    var state: State
    var others: seq<seq<Step>>
    ghost var start: State
    ghost var trace: seq<Step>

    ghost predicate Valid()
      reads this
    {
      Inv(state) && state == Run(start, trace)
    }

    ghost predicate Spared(t: nat)
      reads this
    {
      forall r, step :: r in others && step in r ==> SparesCall(step, t)
    }

    /** The call is ours: its number, gateway and request. */
    ghost predicate Ours(t: nat, g: nat, request: Request)
      reads this
    {
      t < |state.calls| && g < |state.gateways| && state.calls[t].gateway == g && state.calls[t].request == request
    }

    constructor (others: seq<seq<Step>>)
      ensures Valid() && state == Start() && this.others == others
    {
      state, this.others, start, trace := Start(), others, Start(), [];
      new;
      StartInv();
    }

    /** One critical section. */
    method Do(step: Step)
      requires Valid()
      modifies this`state, this`trace
      ensures Valid() && state == Next(old(state), step) && old(trace) <= trace
    {
      NextKeeps(state, step);
      RunSnoc(start, trace, step);
      hide Inv, Run, Next;
      state := Next(state, step);
      trace := trace + [step];
    }

    /** Between two sections the other threads take their next round. */
    method Yield(ghost t: nat)
      requires Valid() && t < |state.calls| && Spared(t)
      modifies this`state, this`trace, this`others
      ensures Valid() && Undisturbed(old(state), state, t) && Spared(t) && old(trace) <= trace
      ensures |others| < |old(others)| || others == old(others) == []
    {
      if others != [] {
        var round := others[0];
        assert round in others;
        RunKeeps(state, round);
        OtherSteps(state, round, t);
        RunSplits(start, trace, round);
        hide Inv, Run;
        state := Run(state, round);
        trace := trace + round;
        others := others[1..];
        assert forall r :: r in others ==> r in old(others);
      }
    }

    /** A section of call `t`: what it leaves of the call is what `Acted` says. */
    method Section(t: nat, act: Act, g: nat, request: Request)
      requires Valid() && Ours(t, g, request)
      modifies this`state, this`trace
      ensures Valid() && Ours(t, g, request) && old(trace) <= trace && state == Next(old(state), Advance(t, act))
      ensures At(old(state), t) && state.calls[t].stage == ActedAt(old(state), t, act).stage
      ensures state.barrier == ActedAt(old(state), t, act).barrier
      ensures HasEntered(state, t) <==> HasEntered(old(state), t) || (act.Enter? && old(state.calls[t].stage.Spent?))
      ensures Leads(old(state.calls[t].stage), request, act, state.calls[t].stage)
    {
      OwnStep(state, t, act);
      ActedLeads(state, t, act);
      ActedEnters(state, t, act);
      hide Inv, Run, Next, ActedAt;
      Do(Advance(t, act));
    }

    /** `_claim`: try, and wait for whoever owns the id, until there is an answer. */
    method ClaimId(t: nat, g: nat, request: Request) returns (starved: bool)
      requires Valid() && Ours(t, g, request) && Spared(t) && state.calls[t].stage.Parsed?
      modifies this`state, this`trace, this`others
      ensures Valid() && Ours(t, g, request) && Spared(t) && old(trace) <= trace
      ensures if starved then others == []
              else var x := state.calls[t].stage; x.Claimed? || x.Refused? || x.Conflicted? || x.Returned?
    {
      hide Inv, Run, Next;
      while true
        invariant Valid() && Ours(t, g, request) && Spared(t) && old(trace) <= trace && state.calls[t].stage.Parsed?
        decreases |others|
      {
        Section(t, TryClaim, g, request);
        if !state.calls[t].stage.Parsed? {
          return false;
        }
        if others == [] {
          return true;
        }
        Yield(t);
      }
    }

    /** A section that reads the fence waits while another call holds the barrier. */
    method ReadFence(t: nat, act: Act, g: nat, request: Request) returns (starved: bool)
      requires Valid() && Ours(t, g, request) && Spared(t)
      requires (act.Precheck? && state.calls[t].stage.Claimed?) || (act.Postcheck? && state.calls[t].stage.Performed?)
      modifies this`state, this`trace, this`others
      ensures Valid() && Ours(t, g, request) && Spared(t) && old(trace) <= trace
      ensures HasEntered(state, t) <==> HasEntered(old(state), t)
      ensures if starved then others == []
              else var x := state.calls[t].stage;
                   || (x.Rejecting? && Gate(act.refusal, x.category))
                   || (act.refusal.None? && if act.Precheck? then x.Passed? else x.Accepting?)
    {
      hide Inv, Run, Next;
      while true
        invariant Valid() && Ours(t, g, request) && Spared(t) && old(trace) <= trace
        invariant HasEntered(state, t) <==> HasEntered(old(state), t)
        invariant if act.Precheck? then state.calls[t].stage.Claimed? else state.calls[t].stage.Performed?
        decreases |others|
      {
        Section(t, act, g, request);
        if !state.calls[t].stage.Claimed? && !state.calls[t].stage.Performed? {
          return false;
        }
        if others == [] {
          return true;
        }
        Yield(t);
      }
    }

    method TakeBarrier(t: nat, g: nat, request: Request) returns (starved: bool)
      requires Valid() && Ours(t, g, request) && Spared(t) && state.calls[t].stage.Staged?
      modifies this`state, this`trace, this`others
      ensures Valid() && Ours(t, g, request) && Spared(t) && old(trace) <= trace
      ensures if starved then others == [] else state.calls[t].stage.Holding? && state.barrier == Some(t)
    {
      hide Inv, Run, Next;
      while true
        invariant Valid() && Ours(t, g, request) && Spared(t) && old(trace) <= trace && state.calls[t].stage.Staged?
        decreases |others|
      {
        Section(t, Acquire, g, request);
        if state.calls[t].stage.Holding? {
          return false;
        }
        if others == [] {
          return true;
        }
        Yield(t);
      }
    }

    /** Others take a round, then one section. */
    method Paced(t: nat, act: Act, g: nat, request: Request)
      requires Valid() && Ours(t, g, request) && Spared(t)
      modifies this`state, this`trace, this`others
      ensures Valid() && Ours(t, g, request) && Spared(t) && old(trace) <= trace
      ensures Leads(old(state.calls[t].stage), request, act, state.calls[t].stage)
      ensures Active(old(state.calls[t].stage)) ==>
                (HasEntered(state, t) <==>
                 HasEntered(old(state), t) || (act.Enter? && old(state.calls[t].stage.Spent?)))
    {
      hide Inv, Run, Next, ActedAt, Leads;
      Yield(t);
      Section(t, act, g, request);
    }

    /** `_postcheck` under the barrier. */
    method Recheck(t: nat, g: nat, request: Request, refusal: Option<Category>)
      requires Valid() && Ours(t, g, request) && Spared(t) && state.calls[t].stage.Holding?
      modifies this`state, this`trace, this`others
      ensures Valid() && Ours(t, g, request) && Spared(t) && old(trace) <= trace
      ensures var x := state.calls[t].stage;
              (x.Cleared? && refusal.None?) || (x.Dropping? && Gate(refusal, x.category))
    {
      hide Inv, Run, Next, ActedAt, SparesCall;
      Paced(t, CheckFence, g, request);
      if state.calls[t].stage.Fenced? {
        Paced(t, CheckRest(refusal), g, request);
      }
    }

    /** `_execute_write` past staging, under the barrier: recheck, then commit or discard. */
    method CommitOrDrop(t: nat, g: nat, request: Request, answers: Answers)
      requires Valid() && Ours(t, g, request) && Spared(t) && state.calls[t].stage.Holding?
      modifies this`state, this`trace, this`others
      ensures Valid() && Ours(t, g, request) && Spared(t) && old(trace) <= trace
      ensures var x := state.calls[t].stage;
              || (x.Accepting? && answers.recheck.None? && answers.commits && answers.digestMatches)
              || (x.Rejecting? && Gate(answers.recheck, x.category))
              || (x == Rejecting(PROVIDER) && !(answers.commits && answers.digestMatches && answers.discards))
    {
      hide Inv, Run, Next, ActedAt, SparesCall;
      Recheck(t, g, request, answers.recheck);
      if state.calls[t].stage.Cleared? {
        Paced(t, Commit(answers.commits, answers.digestMatches), g, request);
      }
      if state.calls[t].stage.Dropping? {
        Paced(t, Drop(answers.discards), g, request);
      }
    }

    /** A stage that is not what was asked for is discarded. */
    method DropMismatched(t: nat, g: nat, request: Request, discards: bool)
      requires Valid() && Ours(t, g, request) && state.calls[t].stage.Staged?
      modifies this`state, this`trace
      ensures Valid() && Ours(t, g, request) && old(trace) <= trace && state.calls[t].stage == Rejecting(PROVIDER)
    {
      hide Inv, Run, Next, ActedAt;
      Section(t, Mismatch, g, request);
      Section(t, Drop(discards), g, request);
    }

    method ExecuteWrite(t: nat, g: nat, request: Request, answers: Answers) returns (starved: bool)
      requires Valid() && Ours(t, g, request) && Spared(t) && state.calls[t].stage.Entered? && request.write
      modifies this`state, this`trace, this`others
      ensures Valid() && Ours(t, g, request) && Spared(t) && old(trace) <= trace
      ensures if starved then others == []
              else var x := state.calls[t].stage;
                   || (x.Accepting? && (!answers.stale && answers.refusal.None? ==> Earned(answers, request)))
                   || (x.Rejecting? && Late(answers, request, x.category))
    {
      hide Inv, Run, Next, ActedAt, SparesCall;
      starved := false;
      Section(t, StageWrite(answers.ok), g, request);
      if !state.calls[t].stage.Staged? {
        return;
      }
      Yield(t);
      if answers.mismatch {
        DropMismatched(t, g, request, answers.discards);
        return;
      }
      starved := TakeBarrier(t, g, request);
      if !starved {
        CommitOrDrop(t, g, request, answers);
      }
    }

    method ExecuteRead(t: nat, g: nat, request: Request, answers: Answers) returns (starved: bool)
      requires Valid() && Ours(t, g, request) && Spared(t) && state.calls[t].stage.Entered? && !request.write
      modifies this`state, this`trace, this`others
      ensures Valid() && Ours(t, g, request) && Spared(t) && old(trace) <= trace
      ensures if starved then others == []
              else var x := state.calls[t].stage;
                   || (x.Accepting? && (!answers.stale && answers.refusal.None? ==> Earned(answers, request)))
                   || (x.Rejecting? && Late(answers, request, x.category))
    {
      hide Inv, Run, Next, ActedAt, SparesCall;
      starved := false;
      Section(t, Perform(answers.ok), g, request);
      if state.calls[t].stage.Performed? {
        Yield(t);
        starved := ReadFence(t, Postcheck(answers.recheck), g, request);
      }
    }

    /** `_finalize`: record the evidence, and count an admitted result. */
    method Finalize(t: nat, g: nat, request: Request) returns (reply: Reply)
      requires Valid() && Ours(t, g, request) && Spared(t)
      requires state.calls[t].stage.Accepting? || state.calls[t].stage.Rejecting?
      modifies this`state, this`trace, this`others
      ensures Valid() && Ours(t, g, request) && Spared(t) && old(trace) <= trace
      ensures state.calls[t].stage == Recorded(reply)
      ensures HasEntered(state, t) <==> HasEntered(old(state), t)
      ensures var x := old(state.calls[t].stage); reply == if x.Accepting? then Accepted else Rejected(x.category)
    {
      hide Inv, Run, Next, ActedAt, SparesCall;
      Paced(t, Act.Record, g, request);
      if state.calls[t].stage.Counting? {
        Paced(t, Count, g, request);
      }
      reply := state.calls[t].stage.reply;
    }

    /** `_finalize`, once more if the data cannot be rendered, and `_publish`. */
    method Answer(t: nat, g: nat, request: Request, spoiled: bool) returns (reply: Reply)
      requires Valid() && Ours(t, g, request) && Spared(t)
      requires state.calls[t].stage.Accepting? || state.calls[t].stage.Rejecting?
      modifies this`state, this`trace, this`others
      ensures Valid() && Ours(t, g, request) && Spared(t) && old(trace) <= trace
      ensures state.calls[t].stage == Returned(reply)
      ensures HasEntered(state, t) <==> HasEntered(old(state), t)
      ensures var x := old(state.calls[t].stage);
              reply == if x.Rejecting? then Rejected(x.category) else if spoiled then Rejected(PROVIDER) else Accepted
    {
      hide Inv, Run, Next, ActedAt, SparesCall;
      if state.calls[t].stage.Accepting? && spoiled {
        Paced(t, Spoil, g, request);
      }
      reply := Finalize(t, g, request);
      Paced(t, Publish, g, request);
    }

    /**
      `submit`: count, claim, check, spend, enter, execute, publish.  However other
      calls, grants, cancellation and settlement interleave, the call reaches an
      answer (or is still waiting when nobody else moves any more), and the answer is
      what the gateway's ledger holds for its id.  A call that came to own its id is
      accepted only if everything it asked said yes, is rejected only for a reason
      that it was given, and never enters the adapter if the prechecks refuse it.
      */
    method Submit(g: nat, request: Request, answers: Answers) returns (outcome: Outcome, t: nat, ghost owned: bool)
      requires Valid() && g < |state.gateways| && Spared(|state.calls|)
      modifies this`state, this`trace, this`others
      ensures Valid() && old(trace) <= trace && t == old(|state.calls|) && Ours(t, g, request)
      ensures match outcome
              case Answered(reply) =>
                && state.calls[t].stage == Returned(reply) && request.call in state.gateways[g].claims
                && state.gateways[g].claims[request.call] == Claim(request, Some(reply))
              case Overflow => state.calls[t].stage.Refused?
              case Conflict =>
                && state.calls[t].stage.Conflicted? && request.call in state.gateways[g].claims
                && state.gateways[g].claims[request.call].request != request
              case Starved => others == []
      ensures owned && outcome.Answered? ==> Deserves(answers, request, outcome.reply)
      ensures owned && (answers.stale || answers.refusal.Some?) ==> request.call !in state.gateways[g].entered
      ensures outcome.Overflow? || outcome.Conflict? ==> !owned
    {
      t := |state.calls|;
      Begin(g, request);
      outcome, owned := Serve(t, g, request, answers);
      Settled(state, t);
    }

    method Begin(g: nat, request: Request)
      requires Valid() && g < |state.gateways|
      modifies this`state, this`trace
      ensures Valid() && old(trace) <= trace && Ours(|old(state.calls)|, g, request)
      ensures state.calls[|old(state.calls)|].stage.Parsed?
    {
      hide Inv, Run;
      Do(Step.Submit(g, request));
    }

    method Serve(t: nat, g: nat, request: Request, answers: Answers) returns (outcome: Outcome, ghost owned: bool)
      requires Valid() && Ours(t, g, request) && Spared(t) && state.calls[t].stage.Parsed?
      modifies this`state, this`trace, this`others
      ensures Valid() && Ours(t, g, request) && old(trace) <= trace
      ensures match outcome
              case Answered(reply) => state.calls[t].stage == Returned(reply)
              case Overflow => state.calls[t].stage.Refused?
              case Conflict => state.calls[t].stage.Conflicted?
              case Starved => others == []
      ensures owned && outcome.Answered? ==> Deserves(answers, request, outcome.reply)
      ensures owned && (answers.stale || answers.refusal.Some?) ==> !HasEntered(state, t)
      ensures outcome.Overflow? || outcome.Conflict? ==> !owned
    {
      hide Inv, Run, Next;
      owned := false;
      Yield(t);
      var starved := ClaimId(t, g, request);
      if starved {
        return Starved, owned;
      }
      match state.calls[t].stage {
        case Returned(reply) => return Answered(reply), owned;
        case Refused => return Overflow, owned;
        case Conflicted => return Conflict, owned;
        case _ =>
      }
      owned := true;
      Settled(state, t);
      Yield(t);
      starved := Execute(t, g, request, answers);
      if starved {
        return Starved, owned;
      }
      Yield(t);
      var reply := Answer(t, g, request, answers.spoiled);
      return Answered(reply), owned;
    }

    /** From a claimed id to something to answer. */
    method Execute(t: nat, g: nat, request: Request, answers: Answers) returns (starved: bool)
      requires Valid() && Ours(t, g, request) && Spared(t) && state.calls[t].stage.Claimed? && !HasEntered(state, t)
      modifies this`state, this`trace, this`others
      ensures Valid() && Ours(t, g, request) && Spared(t) && old(trace) <= trace
      ensures if starved then others == []
              else var x := state.calls[t].stage; (x.Accepting? || x.Rejecting?) && Deserved(answers, request, x)
      ensures answers.stale || answers.refusal.Some? ==> !HasEntered(state, t)
    {
      hide Inv, Run, Next, ActedAt, SparesCall;
      if answers.stale {
        Paced(t, Stale, g, request);
        return false;
      }
      starved := ReadFence(t, Precheck(answers.refusal), g, request);
      if starved || state.calls[t].stage.Rejecting? {
        return;
      }
      Paced(t, Consume, g, request);
      if state.calls[t].stage.Rejecting? {
        return;
      }
      Paced(t, Enter, g, request);
      Yield(t);
      if request.write {
        starved := ExecuteWrite(t, g, request, answers);
      } else {
        starved := ExecuteRead(t, g, request, answers);
      }
    }

    // ---- Settlement -------------------------------------------------------

    ghost predicate SettlerSpared()
      reads this
    {
      forall r, step :: r in others && step in r ==> SparesSettler(step)
    }

    /** While settling, others act but settlement stays where this thread left it. */
    method Pause()
      requires Valid() && SettlerSpared() && !state.open && !state.settler.Resting?
      modifies this`state, this`trace, this`others
      ensures Valid() && SettlerSpared() && old(trace) <= trace && Closing(old(state), state)
      ensures |others| < |old(others)| || others == old(others) == []
    {
      if others != [] {
        var round := others[0];
        assert round in others;
        RunKeeps(state, round);
        ClosingSteps(state, round);
        RunSplits(start, trace, round);
        hide Inv, Run;
        state := Run(state, round);
        trace := trace + round;
        others := others[1..];
        assert forall r :: r in others ==> r in old(others);
      }
    }

    /** `drain` on every gateway in turn; a drain that times out gives up. */
    method DrainAll() returns (drained: bool)
      requires Valid() && SettlerSpared() && !state.open && state.settler == Draining(0)
      modifies this`state, this`trace, this`others
      ensures Valid() && SettlerSpared() && old(trace) <= trace && !state.open && !state.settler.Resting?
      ensures state.settled == old(state.settled) && state.uncertain == old(state.uncertain)
      ensures if drained then state.settler == Cleaning(0) else others == []
    {
      hide Inv, Run, ActedAt;
      var n := 0;
      while n < |state.gateways|
        invariant Valid() && SettlerSpared() && old(trace) <= trace && !state.open && state.settler == Draining(n)
        invariant state.settled == old(state.settled) && state.uncertain == old(state.uncertain)
        invariant n <= |state.gateways|
        decreases |state.gateways| - n, |others|
      {
        if state.gateways[n].inFlight == 0 {
          Do(DrainNext);
          n := n + 1;
        } else {
          if others == [] {
            return false;
          }
          Pause();
        }
      }
      Do(DrainNext);
      return true;
    }

    /** `cleanup_stages` on every gateway, then the archive. */
    method CleanAndExport()
      requires Valid() && SettlerSpared() && !state.open && state.settler == Cleaning(0)
      modifies this`state, this`trace, this`others
      ensures Valid() && SettlerSpared() && old(trace) <= trace && !state.open && state.settler.Exported?
      ensures state.settled == old(state.settled) && state.uncertain == old(state.uncertain)
    {
      hide Inv, Run, ActedAt;
      var n := 0;
      while n < |state.gateways|
        invariant Valid() && SettlerSpared() && old(trace) <= trace && !state.open && state.settler == Cleaning(n)
        invariant state.settled == old(state.settled) && state.uncertain == old(state.uncertain)
        invariant n <= |state.gateways|
        decreases |state.gateways| - n
      {
        Do(CleanUp);
        Pause();
        n := n + 1;
      }
      Do(Export);
    }

    /**
      `settle`: close admission, drain, discard stages, export, settle the binding.
      When it returns a settlement, the archive is the target, every stage was
      committed or discarded, and no grant is left, whatever calls were in progress;
      when a drain times out, admission stays closed and nothing is settled.
      */
    method Settle(verified: bool) returns (settlement: Option<seq<Write>>)
      requires Valid() && SettlerSpared()
      requires state.barrier.None? && !state.uncertain && !state.settled && state.settler.Resting?
      modifies this`state, this`trace, this`others
      ensures Valid() && old(trace) <= trace && !state.open
      ensures settlement.Some? ==>
                && state.settled && state.uncertain == !verified && state.ledger.current.None?
                && state.archive == Some(state.target) == Some(settlement.value)
                && forall i :: 0 <= i < |state.gateways| ==>
                     state.gateways[i].outstanding == 0
                     && state.gateways[i].stages == state.gateways[i].commits + state.gateways[i].discards
      ensures settlement.None? ==> others == [] && !state.settled && !state.uncertain
    {
      hide Inv, Run, ActedAt;
      Do(SettleBegin);
      var drained := DrainAll();
      if !drained {
        if state.barrier.None? {
          Do(SettleAbort);
        }
        return None;
      }
      CleanAndExport();
      while state.barrier.Some?
        invariant Valid() && SettlerSpared() && old(trace) <= trace && !state.open && state.settler.Exported?
        invariant !state.settled && !state.uncertain
        decreases |others|
      {
        if others == [] {
          return None;
        }
        Pause();
      }
      Do(SettleEnd(verified));
      Archived(state);
      return state.archive;
    }
  }

  /** The invariant at one call: what it was told is what the gateway's ledger says. */
  lemma Settled(s: State, t: nat)
    requires Inv(s) && t < |s.calls|
    ensures At(s, t) && Owns(s, t)
  {
  }

  lemma Archived(s: State)
    requires Inv(s) && s.settled
    ensures s.archive == Some(s.target)
    ensures forall i :: 0 <= i < |s.gateways| ==>
              s.gateways[i].outstanding == 0 && s.gateways[i].stages == s.gateways[i].commits + s.gateways[i].discards
  {
    forall i | 0 <= i < |s.gateways|
      ensures s.gateways[i].outstanding == 0 && s.gateways[i].stages == s.gateways[i].commits + s.gateways[i].discards
    {
      assert BooksOf(s, i);
    }
  }
}
