/**
  The course of a call.  A call that is accepted made every move that the gateway
  demands, in order and no other: claimed its id, passed the prechecks with the fence
  open and its grant current, spent one call of that grant, entered the adapter, and
  passed the postchecks, for a write under the barrier, before it was admitted.
  */
module HandsCourse {
  import opened Options
  import opened Hands

  // ---- The course ---------------------------------------------------------

  function Entry(): seq<Act> { [TryClaim, Precheck(None), Consume, Enter] }

  function Landing(): seq<Act> { [StageWrite(true), Acquire, CheckFence, CheckRest(None), Commit(true, true)] }

  /** The moves of an accepted call, up to being accepted. */
  function Course(r: Request): seq<Act> {
    Entry() + if r.write then Landing() else [Perform(true), Postcheck(None)]
  }

  /** A section of a call that moved it: what it did, and what the fence and the grant said then. */
  datatype Move = Move(act: Act, fence: Option<Category>, granted: bool)

  function Acts(moves: seq<Move>): seq<Act> {
    seq(|moves|, i requires 0 <= i < |moves| => moves[i].act)
  }

  /** Checks of the fence found it open, checks of the grant found it current. */
  predicate Fair(m: Move) {
    && (m.act.Precheck? || m.act.CheckFence? || m.act.Postcheck? ==> m.fence.None?)
    && (m.act.Precheck? || m.act.Consume? || m.act.CheckRest? || m.act.Postcheck? ==> m.granted)
  }

  predicate Followed(moves: seq<Move>, acts: seq<Act>) {
    Acts(moves) == acts && forall i :: 0 <= i < |moves| ==> Fair(moves[i])
  }

  /** Stages on the way to being accepted, and of an accepted call. */
  predicate OnCourse(x: Stage) {
    || x.Parsed? || x.Claimed? || x.Passed? || x.Spent? || x.Entered? || x.Performed? || x.Staged? || x.Holding?
    || x.Fenced? || x.Cleared? || x.Accepting? || x.Counting? || x == Recorded(Accepted) || x == Returned(Accepted)
  }

  /** The moves behind a call of `r` at a stage on the course. */
  function Behind(x: Stage, r: Request): seq<Act> {
    match x
    case Claimed => Entry()[..1]
    case Passed => Entry()[..2]
    case Spent(_) => Entry()[..3]
    case Entered(_) => Entry()
    case Performed => Entry() + [Perform(true)]
    case Staged => Entry() + Landing()[..1]
    case Holding => Entry() + Landing()[..2]
    case Fenced => Entry() + Landing()[..3]
    case Cleared => Entry() + Landing()[..4]
    case Accepting => Course(r)
    case Counting => Course(r) + [Act.Record]
    case Recorded(_) => Course(r) + [Act.Record] + [Count]
    case Returned(_) => Course(r) + [Act.Record] + [Count] + [Publish]
    case _ => []
  }

  predicate Suits(x: Stage, r: Request) {
    && (x.Performed? ==> !r.write)
    && (x.Staged? || x.Holding? || x.Fenced? || x.Cleared? ==> r.write)
  }

  /** A call at a stage on the course made exactly the moves behind it; a returned one may have been told the answer. */
  ghost predicate Fits(x: Stage, r: Request, moves: seq<Move>) {
    OnCourse(x) ==>
      Suits(x, r) && (Followed(moves, Behind(x, r)) || (x.Returned? && Followed(moves, [TryClaim])))
  }

  // ---- One section --------------------------------------------------------

  function MoveOf(v: Local, r: Request, fence: Option<Category>, act: Act): Move {
    Move(act, fence, v.ledger.current.Some? && v.ledger.current.value.epoch == r.grantEpoch)
  }

  lemma OneMoreMove(moves: seq<Move>, acts: seq<Act>, m: Move)
    requires Followed(moves, acts) && Fair(m)
    ensures Followed(moves + [m], acts + [m.act])
  {
    assert Acts(moves + [m]) == Acts(moves) + [m.act];
  }

  /** The only way into a stage on the course is the course's own move, and a fair one. */
  ghost predicate WayIn(x: Stage, x': Stage, r: Request, m: Move) {
    match x'
    case Claimed => x.Parsed? && m.act == TryClaim
    case Passed => x.Claimed? && m.act == Precheck(None) && Fair(m)
    case Spent(_) => x.Passed? && m.act == Consume && Fair(m)
    case Entered(_) => x.Spent? && m.act == Enter
    case Performed => x.Entered? && m.act == Perform(true) && !r.write
    case Staged => x.Entered? && m.act == StageWrite(true) && r.write
    case Holding => x.Staged? && m.act == Acquire
    case Fenced => x.Holding? && m.act == CheckFence && Fair(m)
    case Cleared => x.Fenced? && m.act == CheckRest(None) && Fair(m)
    case Accepting =>
      (x.Performed? && m.act == Postcheck(None) && Fair(m)) || (x.Cleared? && m.act == Commit(true, true))
    case Counting => x.Accepting? && m.act == Act.Record
    case Recorded(reply) => reply.Accepted? ==> x.Counting? && m.act == Count
    case Returned(reply) => (x == Recorded(reply) && m.act == Publish) || (x.Parsed? && m.act == TryClaim)
    case Parsed => false
    case _ => true
  }

  lemma BeforeWayIn(v: Local, r: Request, fence: Option<Category>, act: Act)
    requires BeforeAdapter(act)
    ensures var v' := ActedBefore(v, r, fence, act);
            v'.stage != v.stage ==> WayIn(v.stage, v'.stage, r, MoveOf(v, r, fence, act))
  {
  }

  lemma AfterWayIn(v: Local, t: nat, w: Write, r: Request, fence: Option<Category>, act: Act)
    requires !BeforeAdapter(act)
    ensures var v' := ActedAfter(v, t, w, r, fence, act);
            v'.stage != v.stage ==> WayIn(v.stage, v'.stage, r, MoveOf(v, r, fence, act))
  {
  }

  lemma BehindNext(x: Stage, x': Stage, r: Request, m: Move)
    requires OnCourse(x) && OnCourse(x') && Suits(x, r) && WayIn(x, x', r, m) && !x.Returned?
    ensures Suits(x', r)
    ensures Behind(x', r) == Behind(x, r) + [m.act] || (x'.Returned? && x.Parsed? && m.act == TryClaim)
  {
  }

  lemma OnlyCourseLeadsOn(x: Stage, x': Stage, r: Request, m: Move)
    requires OnCourse(x') && WayIn(x, x', r, m)
    ensures OnCourse(x) && !x.Returned? && Fair(m)
  {
  }

  lemma WayInFits(x: Stage, x': Stage, r: Request, moves: seq<Move>, m: Move)
    requires Fits(x, r, moves) && WayIn(x, x', r, m)
    ensures Fits(x', r, moves + [m])
  {
    if OnCourse(x') {
      OnlyCourseLeadsOn(x, x', r, m);
      BehindNext(x, x', r, m);
      OneMoreMove(moves, Behind(x, r), m);
      hide Followed;
      hide WayIn;
      assert x.Parsed? ==> Behind(x, r) + [m.act] == [m.act];
    }
  }

  /** A section that moves a call keeps its moves on the course. */
  lemma SectionFits(s: State, t: nat, act: Act, moves: seq<Move>)
    requires At(s, t) && Fits(s.calls[t].stage, s.calls[t].request, moves)
    ensures var c, v := s.calls[t], ActedAt(s, t, act);
            v.stage != c.stage ==> Fits(v.stage, c.request, moves + [MoveOf(View(s, t), c.request, Fence(s), act)])
  {
    hide Fits;
    hide WayIn;
    hide ActedBefore;
    hide ActedAfter;
    var c, v := s.calls[t], ActedAt(s, t, act);
    var view, m := View(s, t), MoveOf(View(s, t), c.request, Fence(s), act);
    if v.stage != c.stage {
      if BeforeAdapter(act) {
        BeforeWayIn(view, c.request, Fence(s), act);
      } else {
        AfterWayIn(view, t, Write(c.gateway, c.request.call), c.request, Fence(s), act);
      }
      WayInFits(c.stage, v.stage, c.request, moves, m);
    }
  }

  // ---- Why a call is rejected ---------------------------------------------

  predicate GrantCurrent(s: State, r: Request) {
    s.ledger.current.Some? && s.ledger.current.value.epoch == r.grantEpoch
  }

  /** What the fence answers: closed before cancelled. */
  function FenceSays(s: State): Option<Category> {
    if !s.open || s.uncertain then Some("post_fence") else if s.aborted then Some("aborted") else None
  }

  /** What a whole check answers: the fence first, then the grant, then everything else. */
  function Says(s: State, r: Request, refusal: Option<Category>): Option<Category> {
    if FenceSays(s).Some? then FenceSays(s) else if !GrantCurrent(s, r) then Some("stale_epoch") else refusal
  }

  /** Where a section that decides takes its call, and as what it is rejected. */
  ghost predicate Decides(s: State, c: Call, act: Act, x': Stage) {
    match act
    case Stale => c.stage.Claimed? ==> x' == Rejecting("stale_epoch")
    case Precheck(refusal) =>
      c.stage.Claimed? && s.barrier.None? ==>
        x' == if Says(s, c.request, refusal).Some? then Rejecting(Says(s, c.request, refusal).value) else Passed
    case Consume =>
      c.stage.Passed? ==>
        x' == if !GrantCurrent(s, c.request) then Rejecting("stale_epoch")
              else if s.ledger.consumed < s.ledger.current.value.maxCalls then Spent(c.request.grantEpoch)
              else Rejecting("budget")
    case Postcheck(refusal) =>
      c.stage.Performed? && s.barrier.None? ==>
        x' == if Says(s, c.request, refusal).Some? then Rejecting(Says(s, c.request, refusal).value) else Accepting
    case CheckFence =>
      c.stage.Holding? ==> x' == if FenceSays(s).Some? then Dropping(FenceSays(s).value) else Fenced
    case CheckRest(refusal) =>
      c.stage.Fenced? ==>
        x' == if !GrantCurrent(s, c.request) then Dropping("stale_epoch")
              else if refusal.Some? then Dropping(refusal.value) else Cleared
    case Drop(ok) => c.stage.Dropping? ==> x' == Rejecting(if ok then c.stage.category else "provider")
    case Perform(ok) => c.stage.Entered? && !c.request.write && !ok ==> x' == Rejecting("provider")
    case StageWrite(ok) => c.stage.Entered? && c.request.write && !ok ==> x' == Rejecting("provider")
    case Mismatch => c.stage.Staged? ==> x' == Dropping("provider")
    case Commit(ok, matches) =>
      c.stage.Cleared? && !(ok && matches) ==> x' == if ok then Rejecting("provider") else Dropping("provider")
    case Spoil => c.stage.Accepting? ==> x' == Rejecting("provider")
    case _ => true
  }

  /** Every deciding section passes its call or rejects it as exactly the first reason that applies. */
  lemma SectionDecides(s: State, t: nat, act: Act)
    requires At(s, t)
    ensures Decides(s, s.calls[t], act, ActedAt(s, t, act).stage)
  {
    if BeforeAdapter(act) {
      hide ActedAfter;
    } else {
      hide ActedBefore;
    }
  }

  // ---- Whole runs ---------------------------------------------------------

  /** The sections of call `t` that moved it, in order. */
  function Moves(s: State, steps: seq<Step>, t: nat): seq<Move>
    decreases steps
  {
    if steps == [] then []
    else
      var s' := Next(s, steps[0]);
      (if steps[0].Advance? && steps[0].call == t && At(s, t) && t < |s'.calls|
          && s'.calls[t].stage != s.calls[t].stage
       then [MoveOf(View(s, t), s.calls[t].request, Fence(s), steps[0].act)] else [])
      + Moves(s', steps[1..], t)
  }

  /** Nothing but its own sections moves a call, and none changes what was asked. */
  lemma SettleMovesNoCall(s: State, step: Step)
    ensures Settle(s, step).calls == s.calls
  {
    hide Opened, Closed, Cleaned;
  }

  lemma OnlyOwnSections(s: State, step: Step, t: nat)
    requires t < |s.calls|
    ensures t < |Next(s, step).calls| && Next(s, step).calls[t].request == s.calls[t].request
    ensures Next(s, step).calls[t].gateway == s.calls[t].gateway
    ensures !(step.Advance? && step.call == t && At(s, t)) ==> Next(s, step).calls[t] == s.calls[t]
    ensures step.Advance? && step.call == t && At(s, t) ==>
              Next(s, step).calls[t].stage == ActedAt(s, t, step.act).stage
  {
    hide ActedAt, Settle, Requested, NewGatewayRecord;
    SettleMovesNoCall(s, step);
  }

  ghost predicate Tracked(s: State, moves: seq<Move>, t: nat) {
    if t < |s.calls| then Fits(s.calls[t].stage, s.calls[t].request, moves) else moves == []
  }

  lemma NewCalls(s: State, step: Step, t: nat)
    requires |s.calls| <= t < |Next(s, step).calls|
    ensures !(step.Advance? && At(s, step.call))
    ensures Next(s, step).calls[t].stage.Parsed? || Next(s, step).calls[t].stage.Unparsed?
  {
    hide ActedAt, Settle, Requested, NewGatewayRecord;
    SettleMovesNoCall(s, step);
  }

  lemma {:induction false} RunTracks(s: State, steps: seq<Step>, t: nat, moves: seq<Move>)
    requires Tracked(s, moves, t)
    ensures Tracked(Run(s, steps), moves + Moves(s, steps, t), t)
    decreases steps
  {
    hide Next;
    hide Fits;
    hide Moves;
    if steps == [] {
      assert Moves(s, steps, t) == [] by { NoMoves(s, t); }
      assert moves + [] == moves;
    } else {
      var first := StepTracks(s, steps[0], t, moves);
      RunTracks(Next(s, steps[0]), steps[1..], t, moves + first);
      MovesSplit(s, steps, t);
      assert Moves(s, steps, t) == first + Moves(Next(s, steps[0]), steps[1..], t);
      assert moves + Moves(s, steps, t) == (moves + first) + Moves(Next(s, steps[0]), steps[1..], t);
    }
  }

  lemma NoMoves(s: State, t: nat)
    ensures Moves(s, [], t) == []
  {
  }

  /** The move of one step, if it is one of `t`. */
  function FirstMove(s: State, step: Step, t: nat): seq<Move> {
    if step.Advance? && step.call == t && At(s, t) && t < |Next(s, step).calls|
       && Next(s, step).calls[t].stage != s.calls[t].stage
    then [MoveOf(View(s, t), s.calls[t].request, Fence(s), step.act)] else []
  }

  lemma MovesSplit(s: State, steps: seq<Step>, t: nat)
    requires steps != []
    ensures Moves(s, steps, t) == FirstMove(s, steps[0], t) + Moves(Next(s, steps[0]), steps[1..], t)
  {
    hide Next;
  }

  lemma StepTracks(s: State, step: Step, t: nat, moves: seq<Move>) returns (first: seq<Move>)
    requires Tracked(s, moves, t)
    ensures first == FirstMove(s, step, t) && Tracked(Next(s, step), moves + first, t)
  {
    hide Next;
    hide ActedAt;
    first := FirstMove(s, step, t);
    assert moves + [] == moves;
    if t < |s.calls| {
      OnlyOwnSections(s, step, t);
      if step.Advance? && step.call == t && At(s, t) {
        SectionFits(s, t, step.act, moves);
      }
      hide Fits;
    } else if t < |Next(s, step).calls| {
      NewCalls(s, step, t);
      assert Acts([]) == [];
    }
  }

  /**
    In every run, a call that got anywhere made exactly the moves that lead there,
    with every check of the fence and of the grant passed at its moment; an accepted
    call made the whole course, or was told the answer of one that did.
    */
  lemma RunFollowsCourse(steps: seq<Step>, t: nat)
    requires t < |Run(Start(), steps).calls|
    ensures var c := Run(Start(), steps).calls[t]; Fits(c.stage, c.request, Moves(Start(), steps, t))
  {
    assert Tracked(Start(), [], t);
    RunTracks(Start(), steps, t, []);
    assert [] + Moves(Start(), steps, t) == Moves(Start(), steps, t);
  }

  // ---- Who entered the adapter --------------------------------------------

  /** Some call of this id made the moves up to entering. */
  ghost predicate Admitted(s: State, past: nat -> seq<Move>, g: nat, id: CallId) {
    exists t :: && 0 <= t < |s.calls| && s.calls[t].gateway == g && s.calls[t].request.call == id
                && CameIn(past(t))
  }

  ghost predicate CameIn(moves: seq<Move>) { |moves| >= 4 && Followed(moves[..4], Entry()) }

  lemma StillIn(moves: seq<Move>, more: seq<Move>)
    requires CameIn(moves)
    ensures CameIn(moves + more)
  {
    assert (moves + more)[..4] == moves[..4];
  }

  ghost predicate Explained(s: State, past: nat -> seq<Move>) {
    && (forall t: nat :: Tracked(s, past(t), t))
    && (forall g, id :: 0 <= g < |s.gateways| && id in s.gateways[g].entered ==> Admitted(s, past, g, id))
  }

  /** Only a call that has spent its grant enters, and only its own gateway notes it. */
  lemma WhoEnters(s: State, step: Step, g: nat, id: CallId)
    requires g < |Next(s, step).gateways| && id in Next(s, step).gateways[g].entered
    ensures || (g < |s.gateways| && id in s.gateways[g].entered)
            || (&& step.Advance? && At(s, step.call) && step.act == Enter && s.calls[step.call].stage.Spent?
                && s.calls[step.call].gateway == g && s.calls[step.call].request.call == id)
  {
    hide Opened;
    hide Closed;
    if step.Advance? && At(s, step.call) {
      EnterOnly(s, step.call, step.act);
      hide ActedAt;
    }
  }

  lemma EnterOnly(s: State, t: nat, act: Act)
    requires At(s, t)
    ensures var g, g', c := s.gateways[s.calls[t].gateway], ActedAt(s, t, act).gateway, s.calls[t];
            g'.entered == g.entered || (act == Enter && c.stage.Spent? && g'.entered == g.entered + {c.request.call})
  {
  }

  lemma StepExplains(s: State, step: Step, past: nat -> seq<Move>, past': nat -> seq<Move>)
    requires Explained(s, past) && forall t: nat :: past'(t) == past(t) + FirstMove(s, step, t)
    ensures Explained(Next(s, step), past')
  {
    hide Next;
    hide FirstMove;
    hide CameIn;
    var s' := Next(s, step);
    forall t: nat ensures Tracked(s', past'(t), t) {
      var first := StepTracks(s, step, t, past(t));
    }
    forall g, id | 0 <= g < |s'.gateways| && id in s'.gateways[g].entered ensures Admitted(s', past', g, id) {
      WhoEnters(s, step, g, id);
      if g < |s.gateways| && id in s.gateways[g].entered {
        assert Admitted(s, past, g, id);
        var t :| 0 <= t < |s.calls| && s.calls[t].gateway == g && s.calls[t].request.call == id && CameIn(past(t));
        StillIn(past(t), FirstMove(s, step, t));
        OnlyOwnSections(s, step, t);
      } else {
        var t := step.call;
        EntersByCourse(s, step, t, past(t));
        OnlyOwnSections(s, step, t);
      }
    }
  }

  lemma EntersByCourse(s: State, step: Step, t: nat, moves: seq<Move>)
    requires At(s, t) && step == Advance(t, Enter) && s.calls[t].stage.Spent? && Tracked(s, moves, t)
    ensures CameIn(moves + FirstMove(s, step, t))
  {
    var first := StepTracks(s, step, t, moves);
    assert Next(s, step).calls[t].stage.Entered?;
    hide Next;
    var all := moves + first;
    assert Followed(all, Entry());
    assert |Acts(all)| == |all| && all[..4] == all;
  }

  lemma {:induction false} RunExplains(s: State, steps: seq<Step>, past: nat -> seq<Move>)
    requires Explained(s, past)
    ensures Explained(Run(s, steps), (t: nat) => past(t) + Moves(s, steps, t))
    decreases steps
  {
    hide Next;
    hide Moves;
    hide Explained;
    var whole := (t: nat) => past(t) + Moves(s, steps, t);
    if steps == [] {
      forall t: nat ensures whole(t) == past(t) {
        NoMoves(s, t);
        assert past(t) + [] == past(t);
      }
      SameExplanation(s, past, whole);
    } else {
      var next := (t: nat) => past(t) + FirstMove(s, steps[0], t);
      StepExplains(s, steps[0], past, next);
      RunExplains(Next(s, steps[0]), steps[1..], next);
      var rest := (t: nat) => next(t) + Moves(Next(s, steps[0]), steps[1..], t);
      forall t: nat ensures whole(t) == rest(t) {
        MovesSplit(s, steps, t);
        assert past(t) + (FirstMove(s, steps[0], t) + Moves(Next(s, steps[0]), steps[1..], t)) == rest(t);
      }
      SameExplanation(Run(s, steps), rest, whole);
    }
  }

  lemma SameExplanation(s: State, past: nat -> seq<Move>, past': nat -> seq<Move>)
    requires Explained(s, past) && forall t: nat :: past'(t) == past(t)
    ensures Explained(s, past')
  {
    hide CameIn;
    hide Tracked;
    forall g, id | 0 <= g < |s.gateways| && id in s.gateways[g].entered ensures Admitted(s, past', g, id) {
      assert Admitted(s, past, g, id);
      var t :| 0 <= t < |s.calls| && s.calls[t].gateway == g && s.calls[t].request.call == id && CameIn(past(t));
      assert CameIn(past'(t));
    }
  }

  /**
    In every run, whatever crossed into an adapter was let in: some call of that id
    claimed it, passed every precheck with the fence open and the grant current,
    and spent a call of that grant, before it entered.
    */
  lemma EntriesWereChecked(steps: seq<Step>, g: nat, id: CallId)
    requires g < |Run(Start(), steps).gateways| && id in Run(Start(), steps).gateways[g].entered
    ensures Admitted(Run(Start(), steps), (t: nat) => Moves(Start(), steps, t), g, id)
  {
    hide Moves;
    var none := (t: nat) => [];
    assert Explained(Start(), none);
    RunExplains(Start(), steps, none);
    var s, whole := Run(Start(), steps), (t: nat) => none(t) + Moves(Start(), steps, t);
    hide Run;
    forall t: nat ensures whole(t) == Moves(Start(), steps, t) {
      assert [] + Moves(Start(), steps, t) == Moves(Start(), steps, t);
    }
    SameExplanation(s, whole, (t: nat) => Moves(Start(), steps, t));
  }
}
