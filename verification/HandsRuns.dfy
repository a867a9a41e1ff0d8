/**
  Whole runs of the Hands protocol: the invariant is kept by every step, and what
  follows for exactly-once calls, grant budgets, cancellation and settlement.
  */
module HandsRuns {
  import opened Options
  import opened Hands
  import opened HandsSafety

  // ---- Two more ledgers ---------------------------------------------------

  /** Claims that no result has been published for. */
  function Unresolved(g: Gateway): set<CallId> { set id | id in g.claims && g.claims[id].reply.None? }

  function WritesBy(target: seq<Write>, i: nat): nat {
    if target == [] then 0 else WritesBy(target[..|target| - 1], i) + One(target[|target| - 1].gateway == i)
  }

  ghost predicate Counted(s: State, i: nat)
    requires i < |s.gateways|
  {
    s.gateways[i].inFlight == |Unresolved(s.gateways[i])| && s.gateways[i].commits == WritesBy(s.target, i)
  }

  ghost predicate Inv(s: State) {
    && Books(s) && Exclusive(s) && Once(s) && Guarded(s) && Silent(s) && Granted(s)
    && forall i :: 0 <= i < |s.gateways| ==> Counted(s, i)
  }

  lemma MoveKeepsUnresolved(s: State, t: nat, v: Local)
    requires At(s, t) && Owns(s, t) && Tallies(View(s, t), v) && Claims(View(s, t), v, s.calls[t].request)
    requires s.gateways[s.calls[t].gateway].inFlight == |Unresolved(s.gateways[s.calls[t].gateway])|
    ensures v.gateway.inFlight == |Unresolved(v.gateway)|
  {
    hide Active, BeforeEntry;
    var g, id := s.gateways[s.calls[t].gateway], s.calls[t].request.call;
    if Active(v.stage) && !Active(s.calls[t].stage) {
      assert Unresolved(v.gateway) == Unresolved(g) + {id};
    } else if Active(s.calls[t].stage) && !Active(v.stage) {
      assert Unresolved(v.gateway) == Unresolved(g) - {id};
    }
  }

  lemma CommitsCounted(v: Local, v': Local, w: Write, i: nat)
    requires Commits(v, v', w)
    ensures WritesBy(v'.target, i) - WritesBy(v.target, i)
            == if i == w.gateway then v'.gateway.commits - v.gateway.commits else 0
  {
    if v'.target != v.target {
      assert v'.target[..|v'.target| - 1] == v.target;
    }
  }

  lemma MoveKeepsCounted(s: State, t: nat, v: Local, i: nat)
    requires At(s, t) && i < |s.gateways| && Owns(s, t) && Counted(s, s.calls[t].gateway) && Counted(s, i)
    requires Tallies(View(s, t), v) && Claims(View(s, t), v, s.calls[t].request)
    requires Commits(View(s, t), v, Write(s.calls[t].gateway, s.calls[t].request.call))
    ensures Counted(Put(s, t, v), i)
  {
    MoveKeepsUnresolved(s, t, v);
    CommitsCounted(View(s, t), v, Write(s.calls[t].gateway, s.calls[t].request.call), i);
    hide Tallies, Claims, Owns, Unresolved, Commits, WritesBy;
  }

  lemma AdvanceKeepsCounted(s: State, t: nat, act: Act)
    requires Exclusive(s) && At(s, t) && forall i :: 0 <= i < |s.gateways| ==> Counted(s, i)
    ensures forall i :: 0 <= i < |s.gateways| ==> Counted(Put(s, t, ActedAt(s, t, act)), i)
  {
    var c := s.calls[t];
    var w := Write(c.gateway, c.request.call);
    ActedTallies(View(s, t), t, w, c.request, Fence(s), act);
    ActedClaims(View(s, t), t, w, c.request, Fence(s), act);
    ActedCommits(View(s, t), t, w, c.request, Fence(s), act);
    hide Acted, Tallies, Claims, Commits, Counted, Owns;
    var v := ActedAt(s, t, act);
    assert Counted(s, c.gateway) && Owns(s, t);
    forall i | 0 <= i < |s.gateways| ensures Counted(Put(s, t, v), i) {
      MoveKeepsCounted(s, t, v, i);
    }
  }

  // ---- Every step keeps the invariant -------------------------------------

  lemma AdvanceKeeps(s: State, t: nat, act: Act)
    requires Inv(s) && At(s, t)
    ensures Inv(Put(s, t, ActedAt(s, t, act)))
  {
    hide Books, Exclusive, Once, Guarded, Silent, Granted, Counted, ActedAt;
    assert Placed(s) by {
      PlacedByBooks(s);
    }
    AdvanceKeepsBooks(s, t, act);
    AdvanceKeepsExclusive(s, t, act);
    AdvanceKeepsOnce(s, t, act);
    AdvanceKeepsGuarded(s, t, act);
    AdvanceKeepsSilent(s, t, act);
    AdvanceKeepsGranted(s, t, act);
    AdvanceKeepsCounted(s, t, act);
  }

  lemma PlacedByBooks(s: State)
    requires Books(s)
    ensures Placed(s)
  {
  }

  lemma SubmitKeepsIds(s: State, g: nat, c: Call)
    requires Exclusive(s) && Once(s) && g < |s.gateways| && c.gateway == g && (c.stage.Parsed? || c.stage.Unparsed?)
    ensures Exclusive(Submitted(s, g, c)) && Once(Submitted(s, g, c))
  {
    var s' := Submitted(s, g, c);
    forall t | 0 <= t < |s'.calls| ensures Owns(s', t) {
      assert t < |s.calls| ==> Owns(s, t);
    }
    forall t, u | 0 <= t < |s'.calls| && 0 <= u < |s'.calls| ensures Alone(s', t, u) {
      assert t < |s.calls| && u < |s.calls| ==> Alone(s, t, u);
    }
    forall w | w in s'.target ensures Landed(s', w) {
      assert Landed(s, w);
      forall t | 0 <= t < |s'.calls| ensures !Ahead(s', t, w) {
        assert t < |s.calls| ==> !Ahead(s, t, w);
      }
    }
  }

  lemma SubmitKeepsRest(s: State, g: nat, c: Call)
    requires Guarded(s) && Silent(s) && Granted(s) && g < |s.gateways| && (c.stage.Parsed? || c.stage.Unparsed?)
    ensures Guarded(Submitted(s, g, c)) && Silent(Submitted(s, g, c)) && Granted(Submitted(s, g, c))
  {
    var s' := Submitted(s, g, c);
    forall t | 0 <= t < |s'.calls| ensures GuardOf(s', t) && Idle(s', t) {
      assert t < |s.calls| ==> GuardOf(s, t) && Idle(s, t);
    }
    forall e: nat ensures GrantOf(s', e) {
      assert GrantOf(s, e);
      SumAppend(s.calls, c, Unentered(e));
    }
  }

  lemma SubmitKeeps(s: State, g: nat, c: Call)
    requires Inv(s) && g < |s.gateways| && c.gateway == g && (c.stage.Parsed? || c.stage.Unparsed?)
    ensures Inv(Submitted(s, g, c))
  {
    var s' := Submitted(s, g, c);
    forall i | 0 <= i < |s'.gateways| ensures BooksOf(s', i) {
      SubmitKeepsBook(s, g, c, i);
    }
    SubmitKeepsIds(s, g, c);
    SubmitKeepsRest(s, g, c);
    hide BooksOf, Exclusive, Once, Guarded, Silent, Granted;
    forall i | 0 <= i < |s'.gateways| ensures Counted(s', i) {
      assert Counted(s, i);
    }
  }

  lemma NoWritesBy(s: State)
    requires Once(s)
    ensures WritesBy(s.target, |s.gateways|) == 0
  {
    forall k | 0 <= k < |s.target| ensures s.target[k].gateway < |s.gateways| {
      assert Landed(s, s.target[k]);
    }
    WritesElsewhere(s.target, |s.gateways|);
  }

  lemma {:induction false} WritesElsewhere(target: seq<Write>, i: nat)
    requires forall k :: 0 <= k < |target| ==> target[k].gateway < i
    ensures WritesBy(target, i) == 0
  {
    if target == [] {
    } else {
      WritesElsewhere(target[..|target| - 1], i);
    }
  }

  lemma NewGatewayKeepsIds(s: State, maxCalls: nat)
    requires Exclusive(s) && Once(s)
    ensures var s' := s.(gateways := s.gateways + [NewGatewayRecord(maxCalls)]); Exclusive(s') && Once(s')
  {
    var s' := s.(gateways := s.gateways + [NewGatewayRecord(maxCalls)]);
    forall t | 0 <= t < |s.calls| ensures Owns(s', t) {
      assert Owns(s, t);
    }
    forall t, u | 0 <= t < |s.calls| && 0 <= u < |s.calls| ensures Alone(s', t, u) {
      assert Alone(s, t, u);
    }
    forall w | w in s.target ensures Landed(s', w) {
      assert Landed(s, w);
      forall t | 0 <= t < |s.calls| ensures !Ahead(s', t, w) {
        assert !Ahead(s, t, w);
      }
    }
  }

  lemma NewGatewayKeeps(s: State, maxCalls: nat)
    requires Inv(s) && s.barrier.None? && s.open
    ensures Inv(s.(gateways := s.gateways + [NewGatewayRecord(maxCalls)]))
  {
    var s' := s.(gateways := s.gateways + [NewGatewayRecord(maxCalls)]);
    NewGatewayKeepsBooks(s, maxCalls);
    NewGatewayKeepsIds(s, maxCalls);
    hide Books, Exclusive;
    NoWritesBy(s);
    hide Once;
    forall t | 0 <= t < |s.calls| ensures GuardOf(s', t) && Idle(s', t) {
      assert GuardOf(s, t) && Idle(s, t);
    }
    forall e: nat ensures GrantOf(s', e) {
      assert GrantOf(s, e);
    }
    assert Unresolved(NewGatewayRecord(maxCalls)) == {};
    forall i | 0 <= i < |s'.gateways| ensures Counted(s', i) {
      assert i < |s.gateways| ==> Counted(s, i);
    }
  }

  // ---- Settlement and grants ----------------------------------------------

  lemma SameBooks(s: State, s': State)
    requires Books(s) && s'.calls == s.calls && s'.gateways == s.gateways
    ensures Books(s')
  {
    forall i | 0 <= i < |s.gateways| ensures BooksOf(s', i) {
      assert BooksOf(s, i);
    }
  }

  lemma SameIds(s: State, s': State)
    requires Exclusive(s) && Once(s) && s'.calls == s.calls && |s'.gateways| == |s.gateways| && s'.target == s.target
    requires forall i :: 0 <= i < |s.gateways| ==>
               s'.gateways[i].claims == s.gateways[i].claims && s'.gateways[i].entered == s.gateways[i].entered
               && s'.gateways[i].entries == s.gateways[i].entries
    ensures Exclusive(s') && Once(s')
  {
    forall t | 0 <= t < |s.calls| ensures Owns(s', t) {
      assert Owns(s, t);
    }
    forall t, u | 0 <= t < |s.calls| && 0 <= u < |s.calls| ensures Alone(s', t, u) {
      assert Alone(s, t, u);
    }
    forall i | 0 <= i < |s.gateways| ensures Entries(s'.gateways[i]) {
      assert Entries(s.gateways[i]);
    }
    forall w | w in s.target ensures Landed(s', w) {
      assert Landed(s, w);
      forall t | 0 <= t < |s.calls| ensures !Ahead(s', t, w) {
        assert !Ahead(s, t, w);
      }
    }
  }

  lemma SettleKeepsGuarded(s: State, step: Step)
    requires Guarded(s)
    ensures Guarded(Settle(s, step))
  {
    var s' := Settle(s, step);
    forall t | 0 <= t < |s'.calls| ensures GuardOf(s', t) {
      assert GuardOf(s, t);
    }
  }

  lemma LedgerKeepsGranted(s: State, l: Ledger)
    requires Granted(s)
    requires || l == s.ledger || l == Closed(s.ledger)
             || exists n: nat {:trigger Opened(s.ledger, n)} :: l == Opened(s.ledger, n)
    ensures Granted(s.(ledger := l))
  {
    assert GrantOf(s, s.ledger.epoch + 1);
    forall e: nat ensures GrantOf(s.(ledger := l), e) {
      assert GrantOf(s, e);
    }
  }

  lemma SettleKeepsGranted(s: State, step: Step)
    requires Granted(s)
    ensures Granted(Settle(s, step))
  {
    var s' := Settle(s, step);
    assert s'.calls == s.calls;
    LedgerKeepsGranted(s, s'.ledger);
    forall e: nat ensures GrantOf(s', e) {
      assert GrantOf(s.(ledger := s'.ledger), e);
    }
  }

  /** Draining one more gateway: its calls own nothing any more. */
  lemma DrainKeepsIdle(s: State, k: nat, quiet: nat)
    requires Books(s) && k < |s.gateways| && s.gateways[k].inFlight == 0 && s.quiet <= quiet <= k + 1 && k <= s.quiet
    requires forall t :: 0 <= t < |s.calls| ==> Idle(s, t)
    ensures forall t :: 0 <= t < |s.calls| ==> Idle(s.(quiet := quiet), t)
  {
    DrainedIsIdle(s, k);
    hide Books;
    forall t | 0 <= t < |s.calls| ensures Idle(s.(quiet := quiet), t) {
      assert Idle(s, t);
    }
  }

  lemma DrainKeepsSilent(s: State)
    requires Books(s) && Silent(s)
    ensures Silent(Settle(s, DrainNext))
  {
    var s' := Settle(s, DrainNext);
    if s.settler.Draining? && s'.quiet != s.quiet {
      DrainKeepsIdle(s, s.settler.next, s'.quiet);
    }
    hide Books;
    forall t | 0 <= t < |s'.calls| ensures Idle(s', t) {
      assert Idle(s.(quiet := s'.quiet), t);
    }
  }

  lemma CleanKeepsSilent(s: State)
    requires Books(s) && Silent(s)
    ensures Silent(Settle(s, CleanUp))
  {
    if s.settler.Cleaning? && s.settler.next < |s.gateways| {
      AllIdle(s);
      CleanUpKeepsBooks(s, s.settler.next);
    }
    hide Books;
    var s' := Settle(s, CleanUp);
    forall t | 0 <= t < |s'.calls| ensures Idle(s', t) {
      assert Idle(s, t);
    }
  }

  lemma SettleKeepsSilent(s: State, step: Step)
    requires Books(s) && Silent(s)
    ensures Silent(Settle(s, step))
  {
    if step.DrainNext? {
      DrainKeepsSilent(s);
    } else if step.CleanUp? {
      CleanKeepsSilent(s);
    } else {
      hide Books, Opened, Closed, Cleaned;
      var s' := Settle(s, step);
      forall t | 0 <= t < |s'.calls| ensures Idle(s', t) {
        assert Idle(s, t);
      }
    }
  }

  lemma AllIdle(s: State)
    requires Books(s) && Silent(s) && s.quiet == |s.gateways|
    ensures forall t :: 0 <= t < |s.calls| ==> !Busy(s.calls[t].stage)
  {
    forall t | 0 <= t < |s.calls| ensures !Busy(s.calls[t].stage) {
      assert Idle(s, t);
    }
  }

  lemma SettleKeepsCounted(s: State, step: Step, i: nat)
    requires i < |s.gateways| && Counted(s, i)
    ensures |Settle(s, step).gateways| == |s.gateways| && Counted(Settle(s, step), i)
  {
    assert Unresolved(Cleaned(s.gateways[i])) == Unresolved(s.gateways[i]);
  }

  lemma SettleKeepsBooks(s: State, step: Step)
    requires Books(s) && Exclusive(s) && Once(s) && Silent(s)
    ensures Books(Settle(s, step)) && Exclusive(Settle(s, step)) && Once(Settle(s, step))
  {
    var s' := Settle(s, step);
    SameIds(s, s');
    if step.CleanUp? && s.settler.Cleaning? && s.settler.next < |s.gateways| {
      var k := s.settler.next;
      AllIdle(s);
      CleanUpKeepsBooks(s, k);
      SameBooks(s.(gateways := s.gateways[k := Cleaned(s.gateways[k])]), s');
    } else {
      SameBooks(s, s');
    }
  }

  lemma SettleKeeps(s: State, step: Step)
    requires Inv(s)
    ensures Inv(Settle(s, step))
  {
    SettleKeepsBooks(s, step);
    SettleKeepsGuarded(s, step);
    SettleKeepsSilent(s, step);
    SettleKeepsGranted(s, step);
    hide Books, Exclusive, Once, Guarded, Silent, Granted, Counted;
    forall i | 0 <= i < |s.gateways| ensures |Settle(s, step).gateways| == |s.gateways| && Counted(Settle(s, step), i) {
      SettleKeepsCounted(s, step, i);
    }
  }

  lemma NextKeeps(s: State, step: Step)
    requires Inv(s)
    ensures Inv(Next(s, step))
  {
    hide Inv;
    match step {
      case Submit(g, request) =>
        if g < |s.gateways| {
          SubmitKeeps(s, g, Call(g, request, Parsed));
        }
      case SubmitUnparsed(g) =>
        if g < |s.gateways| {
          SubmitKeeps(s, g, Call(g, Request("", 0, false, ""), Unparsed));
        }
      case Advance(t, act) =>
        if At(s, t) {
          AdvanceKeeps(s, t, act);
        }
      case NewGateway(maxCalls) =>
        if s.barrier.None? && !s.uncertain && s.open {
          NewGatewayKeeps(s, maxCalls);
        }
      case _ => SettleKeeps(s, step);
    }
  }

  lemma StartInv()
    ensures Inv(Start())
  {
  }

  lemma {:induction false} RunKeeps(s: State, steps: seq<Step>)
    requires Inv(s)
    ensures Inv(Run(s, steps))
    decreases steps
  {
    hide Inv, Next;
    if steps == [] {
    } else {
      NextKeeps(s, steps[0]);
      RunKeeps(Next(s, steps[0]), steps[1..]);
    }
  }

  // ---- Settlement is final ------------------------------------------------

  /** The adapter-facing side of every gateway, and the target, are as they were. */
  ghost predicate Still(s: State, s': State) {
    && s'.target == s.target && |s'.gateways| == |s.gateways|
    && forall i :: 0 <= i < |s.gateways| ==>
         && s'.gateways[i].entries == s.gateways[i].entries && s'.gateways[i].stages == s.gateways[i].stages
         && s'.gateways[i].commits == s.gateways[i].commits && s'.gateways[i].mutations == s.gateways[i].mutations
  }

  ghost predicate Sealed(s: State) { !s.open && s.quiet == |s.gateways| }

  lemma SealedStep(s: State, step: Step)
    requires Inv(s) && Sealed(s)
    ensures Still(s, Next(s, step)) && Sealed(Next(s, step))
    ensures s.archive.Some? ==> Next(s, step).archive == s.archive
  {
    if step.Advance? && At(s, step.call) {
      SealedAdvance(s, step.call, step.act);
      hide Inv, ActedAt, Still;
    } else {
      SealedSettle(s, step);
      hide Inv, Settle, ActedAt, Cleaned;
    }
  }

  lemma SealedSettle(s: State, step: Step)
    requires Inv(s) && Sealed(s)
    ensures Still(s, Settle(s, step)) && Sealed(Settle(s, step))
    ensures s.archive.Some? ==> Settle(s, step).archive == s.archive
  {
    hide Books, Exclusive, Once, Guarded, Granted, Counted, Opened, Closed;
  }

  lemma SealedAdvance(s: State, t: nat, act: Act)
    requires Inv(s) && Sealed(s) && At(s, t)
    ensures Still(s, Put(s, t, ActedAt(s, t, act)))
  {
    AllIdle(s);
    AdvanceKeepsBooks(s, t, act);
    var c := s.calls[t];
    ActedCommits(View(s, t), t, Write(c.gateway, c.request.call), c.request, Fence(s), act);
    ActedStages(View(s, t), t, Write(c.gateway, c.request.call), c.request, Fence(s), act);
    hide Acted, Books, Exclusive, Once, Guarded, Silent, Granted, Counted;
  }

  /** Once admission is closed and every gateway has drained, no adapter entry, stage or commit ever happens again. */
  lemma {:induction false} SettlementBarrier(s: State, steps: seq<Step>)
    requires Inv(s) && Sealed(s)
    ensures Still(s, Run(s, steps)) && Sealed(Run(s, steps))
    ensures s.archive.Some? ==> Run(s, steps).archive == s.archive
    decreases steps
  {
    hide Inv, Next;
    if steps == [] {
    } else {
      SealedStep(s, steps[0]);
      NextKeeps(s, steps[0]);
      SettlementBarrier(Next(s, steps[0]), steps[1..]);
    }
  }

  /**
    In every run, an exported archive is the target as it is now and as it
    will ever be, and no stage is left behind.
    */
  lemma ArchiveIsFinal(before: seq<Step>, after: seq<Step>)
    requires Run(Start(), before).archive.Some?
    ensures var s := Run(Start(), before); var s' := Run(s, after);
            && s'.archive == s.archive == Some(s.target) && s'.target == s.target
            && forall i :: 0 <= i < |s'.gateways| ==>
                 && s'.gateways[i].outstanding == 0
                 && s'.gateways[i].stages == s'.gateways[i].commits + s'.gateways[i].discards
  {
    StartInv();
    RunKeeps(Start(), before);
    var s := Run(Start(), before);
    SettlementBarrier(s, after);
    RunKeeps(s, after);
    var s' := Run(s, after);
    hide Exclusive, Once, Guarded, Granted, Counted, Run;
    forall i | 0 <= i < |s'.gateways| ensures s'.gateways[i].outstanding == 0
                 && s'.gateways[i].stages == s'.gateways[i].commits + s'.gateways[i].discards
    {
      assert BooksOf(s', i);
    }
  }

  // ---- Commits and the fence ----------------------------------------------

  /** The target changes only by a call that holds the barrier, while the fence is open and not aborted. */
  lemma CommitsBehindFence(s: State, step: Step)
    requires Inv(s) && Next(s, step).target != s.target
    ensures step.Advance? && step.act.Commit? && At(s, step.call)
    ensures s.barrier == Some(step.call) && FenceOpen(s)
    ensures Next(s, step).target == s.target + [Write(s.calls[step.call].gateway, s.calls[step.call].request.call)]
  {
    OnlyCallsWrite(s, step);
    var t := step.call;
    assert GuardOf(s, t);
    hide Inv;
  }

  lemma OnlyCallsWrite(s: State, step: Step)
    requires Next(s, step).target != s.target
    ensures step.Advance? && At(s, step.call)
  {
    hide Acted;
  }

  lemma ClosedStaysClosed(s: State, step: Step)
    requires s.aborted || !s.open
    ensures Next(s, step).aborted || !Next(s, step).open
  {
  }

  /** No commit follows a completed cancellation, or the start of settlement. */
  lemma {:induction false} NoCommitAfterCancel(s: State, steps: seq<Step>)
    requires Inv(s) && (s.aborted || !s.open)
    ensures Run(s, steps).target == s.target
    decreases steps
  {
    hide Inv, Next;
    if steps == [] {
    } else {
      if Next(s, steps[0]).target != s.target {
        CommitsBehindFence(s, steps[0]);
      }
      ClosedStaysClosed(s, steps[0]);
      NextKeeps(s, steps[0]);
      NoCommitAfterCancel(Next(s, steps[0]), steps[1..]);
    }
  }

  // ---- Exactly-once calls -------------------------------------------------

  /** A claim keeps its request for ever, and its reply once published. */
  ghost predicate Kept(g: Gateway, g': Gateway) {
    forall id :: id in g.claims ==>
      && id in g'.claims && g'.claims[id].request == g.claims[id].request
      && (g.claims[id].reply.Some? ==> g'.claims[id] == g.claims[id])
  }

  ghost predicate Remembers(s: State, s': State) {
    && |s.gateways| <= |s'.gateways| && |s.calls| <= |s'.calls|
    && (forall i :: 0 <= i < |s.gateways| ==> Kept(s.gateways[i], s'.gateways[i]))
    && (forall t :: 0 <= t < |s.calls| ==>
          s'.calls[t].gateway == s.calls[t].gateway && s'.calls[t].request == s.calls[t].request)
  }

  lemma AdvanceRemembers(s: State, t: nat, act: Act)
    requires Exclusive(s) && At(s, t)
    ensures Remembers(s, Put(s, t, ActedAt(s, t, act)))
  {
    var c := s.calls[t];
    ActedClaims(View(s, t), t, Write(c.gateway, c.request.call), c.request, Fence(s), act);
    hide Acted, Active;
    var v := ActedAt(s, t, act);
    assert Owns(s, t);
    ClaimsKept(View(s, t), v, c.request);
    hide Exclusive, Claims, Kept, ActedAt, Owns;
    KeptSelf(s);
  }

  /** A section keeps every claim's request, and every reply that was published. */
  lemma ClaimsKept(v: Local, v': Local, r: Request)
    requires Claims(v, v', r)
    requires Active(v.stage) ==> r.call in v.gateway.claims && v.gateway.claims[r.call] == Claim(r, None)
    ensures Kept(v.gateway, v'.gateway)
  {
    hide Active;
  }

  lemma KeptSelf(s: State)
    ensures forall i :: 0 <= i < |s.gateways| ==> Kept(s.gateways[i], s.gateways[i])
  {
  }

  lemma SettleKeepsClaims(s: State, step: Step)
    ensures Settle(s, step).calls == s.calls && |Settle(s, step).gateways| == |s.gateways|
    ensures forall i :: 0 <= i < |s.gateways| ==> Settle(s, step).gateways[i].claims == s.gateways[i].claims
  {
    hide Opened, Closed;
  }

  lemma OthersKeepClaims(s: State, step: Step)
    requires !step.Advance?
    ensures |s.gateways| <= |Next(s, step).gateways| && |s.calls| <= |Next(s, step).calls|
    ensures forall i :: 0 <= i < |s.gateways| ==> Next(s, step).gateways[i].claims == s.gateways[i].claims
    ensures forall t :: 0 <= t < |s.calls| ==> Next(s, step).calls[t] == s.calls[t]
  {
    SettleKeepsClaims(s, step);
    hide Settle, ActedAt, NewGatewayRecord;
  }

  lemma NextRemembers(s: State, step: Step)
    requires Inv(s)
    ensures Remembers(s, Next(s, step))
  {
    if step.Advance? {
      if At(s, step.call) {
        AdvanceRemembers(s, step.call, step.act);
        hide Inv, ActedAt, Put;
      } else {
        KeptSelf(s);
        hide Inv, Kept;
      }
    } else {
      OthersKeepClaims(s, step);
      hide Inv, Next;
    }
  }

  lemma {:induction false} RunRemembers(s: State, steps: seq<Step>)
    requires Inv(s)
    ensures Remembers(s, Run(s, steps))
    decreases steps
  {
    hide Inv, Next;
    if steps == [] {
    } else {
      NextKeeps(s, steps[0]);
      NextRemembers(s, steps[0]);
      RunRemembers(Next(s, steps[0]), steps[1..]);
    }
  }

  /**
    In every run: two submissions of one id are answered alike when their requests
    agree, and never both answered when they differ; at most one of them ever
    owns the id; and adapter entries are as many as the ids that entered.
    */
  lemma ExactlyOnce(steps: seq<Step>, t: nat, u: nat)
    requires var s := Run(Start(), steps); t < |s.calls| && u < |s.calls| && t != u && SameId(s.calls[t], s.calls[u])
    ensures var s := Run(Start(), steps); var c, d := s.calls[t], s.calls[u];
            && !(Active(c.stage) && Active(d.stage))
            && (c.stage.Returned? && d.stage.Returned? ==> c.request == d.request && c.stage.reply == d.stage.reply)
            && (c.stage.Conflicted? ==> (d.stage.Returned? || Active(d.stage) ==> d.request != c.request))
  {
    StartInv();
    RunKeeps(Start(), steps);
    var s := Run(Start(), steps);
    assert Owns(s, t) && Owns(s, u) && Alone(s, t, u);
  }

  /** A reply, once given, answers every later identical request; a differing request under that id always conflicts. */
  lemma AnsweredForever(before: seq<Step>, after: seq<Step>, t: nat, u: nat)
    requires var s := Run(Start(), before); t < |s.calls| && s.calls[t].stage.Returned?
    requires var s := Run(Run(Start(), before), after);
             t < |s.calls| && u < |s.calls| && s.calls[u].stage.Parsed? && SameId(s.calls[t], s.calls[u])
    ensures var was := Run(Start(), before).calls[t];
            var s := Run(Run(Start(), before), after);
            var s' := Next(s, Advance(u, TryClaim));
            s'.calls[u].stage == (if s.calls[u].request == was.request then was.stage else Conflicted)
  {
    StartInv();
    RunKeeps(Start(), before);
    var s0 := Run(Start(), before);
    RunKeeps(s0, after);
    RunRemembers(s0, after);
    var s := Run(s0, after);
    hide Run;
    assert Owns(s0, t);
    assert Kept(s0.gateways[s0.calls[t].gateway], s.gateways[s0.calls[t].gateway]);
    assert Placed(s);
  }

  /**
    In every run and for every gateway: entries, claims in flight, commits
    and, at rest, evidence and stages add up.
    */
  lemma GatewayConservation(steps: seq<Step>, i: nat)
    requires i < |Run(Start(), steps).gateways|
    ensures var s := Run(Start(), steps); var g := s.gateways[i];
            && g.entries == |g.entered| && g.entered <= g.claims.Keys
            && g.inFlight == |Unresolved(g)|
            && g.commits == g.mutations == WritesBy(s.target, i) && Unrepeated(s.target)
            && (g.inFlight == 0 ==>
                  && g.admitted + g.rejections == g.sequence
                  && g.stages == g.commits + (g.discards - g.cleaned) + g.discardFailures)
  {
    StartInv();
    RunKeeps(Start(), steps);
    var s := Run(Start(), steps);
    hide Run;
    assert BooksOf(s, i) && Counted(s, i) && Entries(s.gateways[i]);
    if s.gateways[i].inFlight == 0 {
      DrainedIsIdle(s, i);
      SumZero(s.calls, Uncounted(i));
      SumZero(s.calls, HeldStages(i));
    }
  }

  // ---- Grants -------------------------------------------------------------

  lemma LimitsStay(s: State, step: Step, e: nat)
    requires Inv(s) && e in s.ledger.limits
    ensures e in Next(s, step).ledger.limits && Next(s, step).ledger.limits[e] == s.ledger.limits[e]
  {
    assert GrantOf(s, e);
    if step.Advance? && At(s, step.call) {
      var c := s.calls[step.call];
      ActedSpends(View(s, step.call), step.call, Write(c.gateway, c.request.call), c.request, Fence(s), step.act);
      hide Acted;
    }
  }

  /** The adapter entries charged to a grant, over all gateways, never exceed the limit it was opened with. */
  lemma {:induction false} GrantBudget(s: State, steps: seq<Step>, e: nat)
    requires Inv(s) && e in s.ledger.limits
    ensures var l := Run(s, steps).ledger; Tally(l.entered, e) <= Tally(l.spent, e) <= s.ledger.limits[e]
    decreases steps
  {
    if steps == [] {
      assert GrantOf(s, e);
    } else {
      LimitsStay(s, steps[0], e);
      NextKeeps(s, steps[0]);
      hide Next, Inv;
      GrantBudget(Next(s, steps[0]), steps[1..], e);
    }
  }

  /** Without an opened grant of that epoch nothing enters. */
  lemma NoGrantNoEntry(steps: seq<Step>, e: nat)
    requires e !in Run(Start(), steps).ledger.limits
    ensures Tally(Run(Start(), steps).ledger.entered, e) == 0
  {
    StartInv();
    RunKeeps(Start(), steps);
    assert GrantOf(Run(Start(), steps), e);
  }

  /**
    A result starts towards admission only while the fence is open and not
    aborted; under the barrier if it was a write.
    */
  lemma AdmitsBehindFence(s: State, t: nat, act: Act)
    requires Inv(s) && At(s, t) && !s.calls[t].stage.Accepting? && ActedAt(s, t, act).stage.Accepting?
    ensures FenceOpen(s)
    ensures s.calls[t].stage.Cleared? ==> s.barrier == Some(t)
  {
    var c := s.calls[t];
    ActedBarrier(View(s, t), t, Write(c.gateway, c.request.call), c.request, Fence(s), act);
    hide ActedAt;
    assert GuardOf(s, t);
  }

  // ---- An uncertain settlement --------------------------------------------

  lemma StaysUncertain(s: State, step: Step)
    requires s.uncertain && s.settled && s.settler.Resting? && step != RetrySettlement(true)
    ensures var s' := Next(s, step); s'.uncertain && s'.settled && s'.settler.Resting?
  {
    hide ActedAt, Opened, Closed, Requested;
  }

  /** A settlement whose cleanup was not verified stays uncertain until a retry verifies it. */
  lemma {:induction false} UncertainUntilVerified(s: State, steps: seq<Step>)
    requires s.uncertain && s.settled && s.settler.Resting?
    requires forall k :: 0 <= k < |steps| ==> steps[k] != RetrySettlement(true)
    ensures Run(s, steps).uncertain && Run(s, steps).settled
    decreases steps
  {
    hide Next;
    if steps == [] {
    } else {
      StaysUncertain(s, steps[0]);
      UncertainUntilVerified(Next(s, steps[0]), steps[1..]);
    }
  }

  // ---- The call ledger ----------------------------------------------------

  ghost predicate Roomy(g: Gateway) { |g.claims| <= g.maxCalls }

  lemma OneMoreClaim(g: Gateway, id: CallId, claim: Claim)
    ensures |g.claims[id := claim]| == |g.claims| + if id in g.claims then 0 else 1
  {
    var keys := g.claims[id := claim].Keys;
    assert keys == if id in g.claims then g.claims.Keys else g.claims.Keys + {id};
    assert |g.claims[id := claim]| == |keys| && |g.claims| == |g.claims.Keys|;
  }

  lemma ClaimsRoom(v: Local, r: Request)
    requires Roomy(v.gateway)
    ensures var v' := ClaimAct(v, r); Roomy(v'.gateway)
    ensures ClaimAct(v, r).stage.Refused? && v.stage.Parsed? ==> |v.gateway.claims| == v.gateway.maxCalls
    ensures ClaimAct(v, r).stage.Claimed? && v.stage.Parsed? ==> |v.gateway.claims| < v.gateway.maxCalls
  {
    OneMoreClaim(v.gateway, r.call, Claim(r, None));
  }

  lemma ActedKeepsLimit(v: Local, t: nat, w: Write, r: Request, fence: Option<Category>, act: Act)
    ensures Acted(v, t, w, r, fence, act).gateway.maxCalls == v.gateway.maxCalls
  {
    if BeforeAdapter(act) {
      hide ActedAfter;
    } else {
      hide ActedBefore;
    }
  }

  /** Only claiming claims or refuses. */
  lemma OnlyClaiming(v: Local, t: nat, w: Write, r: Request, fence: Option<Category>, act: Act)
    requires v.stage.Parsed?
    ensures var v' := Acted(v, t, w, r, fence, act);
            v'.stage.Claimed? || v'.stage.Refused? ==> v' == ClaimAct(v, r)
  {
    if BeforeAdapter(act) {
      hide ActedAfter, ClaimAct;
    } else {
      hide ActedBefore, ClaimAct;
    }
  }

  /** A claim is refused exactly when the ledger is full, and is made only when it is not. */
  lemma ActedRoom(s: State, t: nat, act: Act)
    requires At(s, t) && Owns(s, t) && Roomy(s.gateways[s.calls[t].gateway])
    ensures var v := ActedAt(s, t, act);
            && Roomy(v.gateway)
            && (v.stage.Refused? && s.calls[t].stage.Parsed? ==>
                  |s.gateways[s.calls[t].gateway].claims| == s.gateways[s.calls[t].gateway].maxCalls)
            && (v.stage.Claimed? && s.calls[t].stage.Parsed? ==>
                  |s.gateways[s.calls[t].gateway].claims| < s.gateways[s.calls[t].gateway].maxCalls)
  {
    hide Acted, ClaimAct, BeforeEntry;
    var c, v := s.calls[t], View(s, t);
    var w, g := Write(c.gateway, c.request.call), s.gateways[c.gateway];
    ActedKeepsLimit(v, t, w, c.request, Fence(s), act);
    ActedClaims(v, t, w, c.request, Fence(s), act);
    if c.stage.Parsed? {
      OnlyClaiming(v, t, w, c.request, Fence(s), act);
      ClaimsRoom(v, c.request);
    } else {
      OnlyParsedClaims(v, t, w, c.request, Fence(s), act);
      var v' := Acted(v, t, w, c.request, Fence(s), act);
      if v'.stage.Returned? {
        OneMoreClaim(g, c.request.call, Claim(c.request, Some(v'.stage.reply)));
      }
    }
  }

  lemma OnlyParsedClaims(v: Local, t: nat, w: Write, r: Request, fence: Option<Category>, act: Act)
    requires !v.stage.Parsed?
    ensures var v' := Acted(v, t, w, r, fence, act); v'.stage.Claimed? ==> v.stage.Claimed?
  {
    if BeforeAdapter(act) {
      hide ActedAfter;
    } else {
      hide ActedBefore;
    }
  }

  lemma StepRoom(s: State, step: Step)
    requires Inv(s) && forall i :: 0 <= i < |s.gateways| ==> Roomy(s.gateways[i])
    ensures forall i :: 0 <= i < |Next(s, step).gateways| ==> Roomy(Next(s, step).gateways[i])
  {
    if step.Advance? {
      if At(s, step.call) {
        assert Owns(s, step.call);
        ActedRoom(s, step.call, step.act);
      }
      hide Inv, ActedAt;
    } else {
      hide Inv;
      SettleKeepsRoom(s, step);
      hide Settle;
    }
  }

  lemma SettleKeepsRoom(s: State, step: Step)
    ensures var s' := Settle(s, step);
            |s'.gateways| == |s.gateways|
            && forall i :: 0 <= i < |s.gateways| ==>
                 s'.gateways[i].claims == s.gateways[i].claims && s'.gateways[i].maxCalls == s.gateways[i].maxCalls
  {
    hide Opened, Closed;
  }

  /** In every run no gateway answers for more ids than its ledger may hold. */
  lemma {:induction false} LedgerBounded(s: State, steps: seq<Step>)
    requires Inv(s) && forall i :: 0 <= i < |s.gateways| ==> Roomy(s.gateways[i])
    ensures forall i :: 0 <= i < |Run(s, steps).gateways| ==> Roomy(Run(s, steps).gateways[i])
    decreases steps
  {
    hide Inv, Next, Roomy;
    if steps == [] {
    } else {
      StepRoom(s, steps[0]);
      NextKeeps(s, steps[0]);
      LedgerBounded(Next(s, steps[0]), steps[1..]);
    }
  }
}
