/**
  What every interleaving of gateway calls, grant changes, cancellation and
  settlement keeps: exact books, exclusive call ids, bounded grants, commits only
  behind an open fence, and silence once settlement has drained.
  */
module HandsSafety {
  import opened Options
  import opened Hands

  // ---- Stages -------------------------------------------------------------

  /** The call owns its id and has not published a result. */
  predicate Active(g: Stage) {
    g.Claimed? || g.Rejecting? || g.Accepting? || g.Counting? || g.Recorded? || Busy(g)
  }

  /** An adapter read, stage, commit or discard may still begin. */
  predicate Busy(g: Stage) { g.Passed? || g.Spent? || g.Entered? || g.Performed? || HasStage(g) }

  predicate HasStage(g: Stage) { g.Staged? || g.Holding? || g.Fenced? || g.Cleared? || g.Dropping? }

  predicate BeforeEntry(g: Stage) { g.Claimed? || g.Passed? || g.Spent? }

  predicate BeforeCommit(g: Stage) { BeforeEntry(g) || g.Entered? || HasStage(g) }

  predicate MayHold(g: Stage) { g.Holding? || g.Fenced? || g.Cleared? || g.Dropping? || g.Rejecting? }

  function One(b: bool): nat { if b then 1 else 0 }

  // ---- What one critical section does -------------------------------------

  /** Stage, claims in flight and evidence move together. */
  ghost predicate Tallies(v: Local, v': Local) {
    var g, g', x, x' := v.gateway, v'.gateway, v.stage, v'.stage;
    && g'.inFlight - g.inFlight == One(Active(x')) - One(Active(x))
    && (g'.sequence - g'.rejections - g'.admitted) - (g.sequence - g.rejections - g.admitted)
       == One(x'.Counting?) - One(x.Counting?)
  }

  /** Every stage is held by its call until it is committed, discarded or lost to a failed discard. */
  ghost predicate Stages(v: Local, v': Local) {
    var g, g' := v.gateway, v'.gateway;
    && (g'.stages - g'.commits - g'.discards - g'.discardFailures)
       - (g.stages - g.commits - g.discards - g.discardFailures)
       == One(HasStage(v'.stage)) - One(HasStage(v.stage))
    && g'.mutations - g'.commits == g.mutations - g.commits
    && g'.cleaned == g.cleaned && g'.discards >= g.discards && g'.discardFailures >= g.discardFailures
    && g'.outstanding - g'.stages + g'.commits + g'.discards == g.outstanding - g.stages + g.commits + g.discards
  }

  /** How the call id's claim follows the stage. */
  ghost predicate Claims(v: Local, v': Local, r: Request) {
    var g, g', x, x' := v.gateway, v'.gateway, v.stage, v'.stage;
    if Active(x') && !Active(x) then
      x'.Claimed? && r.call !in g.claims && g'.claims == g.claims[r.call := Claim(r, None)]
    else if Active(x) && !Active(x') then
      x'.Returned? && g'.claims == g.claims[r.call := Claim(r, Some(x'.reply))]
    else
      && g'.claims == g.claims
      && (x'.Returned? && x != x' ==> r.call in g.claims && g.claims[r.call] == Claim(r, Some(x'.reply)))
      && (x'.Conflicted? && x != x' ==> r.call in g.claims && g.claims[r.call].request != r)
  }

  /** Who crosses into the adapter, and when. */
  ghost predicate Entry(v: Local, v': Local, r: Request) {
    var g, g', x, x' := v.gateway, v'.gateway, v.stage, v'.stage;
    && (BeforeEntry(x') ==> BeforeEntry(x) || !Active(x))
    && (BeforeCommit(x') ==> BeforeCommit(x) || !Active(x))
    && (if x.Spent? && x' != x then
          && x' == Entered(x.epoch) && g'.entered == g.entered + {r.call} && g'.entries == g.entries + 1
          && v'.ledger == v.ledger.(entered := Plus(v.ledger.entered, x.epoch))
        else g'.entered == g.entered && g'.entries == g.entries && v'.ledger.entered == v.ledger.entered)
  }

  /** What the ledger gives out. */
  ghost predicate Spends(v: Local, v': Local, r: Request) {
    if v'.stage.Spent? && v.stage != v'.stage then
      && v'.stage.epoch == r.grantEpoch && SpendRefusal(v.ledger, r.grantEpoch).None?
      && v'.ledger == SpendOne(v.ledger, r.grantEpoch)
    else v'.ledger == v.ledger.(entered := v'.ledger.entered)
  }

  /** How the barrier changes hands; what is claimed of the fence while it is held. */
  ghost predicate Barrier(v: Local, v': Local, t: nat, fence: Option<Category>) {
    var x, x' := v.stage, v'.stage;
    && (if v'.barrier == v.barrier then v.barrier == Some(t) && MayHold(x) ==> MayHold(x')
        else if v'.barrier == Some(t) then v.barrier.None? && x'.Holding?
        else v'.barrier.None? && (v.barrier == Some(t) || x.Cleared?) && !MayHold(x'))
    && (x'.Holding? ==> v' == v || v'.barrier == Some(t))
    && (x'.Fenced? ==> v' == v || (v'.barrier == v.barrier && x.Holding? && fence.None?))
    && (x'.Cleared? ==> v' == v || (v'.barrier == v.barrier && x.Fenced?))
    && (Busy(x') && !Busy(x) ==> fence.None?)
    && (x'.Accepting? && !x.Accepting? ==> fence.None? || x.Cleared?)
  }

  /** Only a cleared call reaches the target, once. */
  ghost predicate Commits(v: Local, v': Local, writer: Write) {
    var g, g' := v.gateway, v'.gateway;
    if v'.target == v.target then g'.commits == g.commits
    else
      && v.stage.Cleared? && !BeforeCommit(v'.stage)
      && v'.target == v.target + [writer] && g'.commits == g.commits + 1
  }

  /** A call that is not busy touches neither the adapter nor the target. */
  ghost predicate Quiet(v: Local, v': Local) {
    !Busy(v.stage) ==> v'.target == v.target && v'.gateway.outstanding == v.gateway.outstanding
                       && v'.gateway.stages == v.gateway.stages && v'.gateway.commits == v.gateway.commits
                       && v'.gateway.discards == v.gateway.discards && v'.gateway.entries == v.gateway.entries
  }

  lemma ActedTallies(v: Local, t: nat, w: Write, r: Request, fence: Option<Category>, act: Act)
    ensures Tallies(v, Acted(v, t, w, r, fence, act))
  {
    if BeforeAdapter(act) {
      hide ActedAfter;
    } else {
      hide ActedBefore;
    }
  }

  lemma ActedStages(v: Local, t: nat, w: Write, r: Request, fence: Option<Category>, act: Act)
    ensures Stages(v, Acted(v, t, w, r, fence, act))
  {
    if BeforeAdapter(act) {
      hide ActedAfter;
    } else {
      hide ActedBefore;
    }
  }

  lemma ActedClaims(v: Local, t: nat, w: Write, r: Request, fence: Option<Category>, act: Act)
    ensures Claims(v, Acted(v, t, w, r, fence, act), r)
  {
    if BeforeAdapter(act) {
      hide ActedAfter;
    } else {
      hide ActedBefore;
    }
  }

  lemma ActedEntry(v: Local, t: nat, w: Write, r: Request, fence: Option<Category>, act: Act)
    ensures Entry(v, Acted(v, t, w, r, fence, act), r)
  {
    if BeforeAdapter(act) {
      hide ActedAfter;
    } else {
      hide ActedBefore;
    }
  }

  lemma ActedSpends(v: Local, t: nat, w: Write, r: Request, fence: Option<Category>, act: Act)
    ensures Spends(v, Acted(v, t, w, r, fence, act), r)
  {
    if BeforeAdapter(act) {
      hide ActedAfter;
    } else {
      hide ActedBefore;
    }
  }

  lemma ActedBarrier(v: Local, t: nat, w: Write, r: Request, fence: Option<Category>, act: Act)
    ensures Barrier(v, Acted(v, t, w, r, fence, act), t, fence)
  {
    if BeforeAdapter(act) {
      hide ActedAfter;
    } else {
      hide ActedBefore;
    }
  }

  lemma ActedCommits(v: Local, t: nat, w: Write, r: Request, fence: Option<Category>, act: Act)
    ensures Commits(v, Acted(v, t, w, r, fence, act), w)
    ensures Quiet(v, Acted(v, t, w, r, fence, act))
  {
  }

  // ---- Counting calls -----------------------------------------------------

  function Sum(calls: seq<Call>, f: Call -> nat): nat {
    if calls == [] then 0 else f(calls[0]) + Sum(calls[1..], f)
  }

  lemma {:induction false} SumMove(calls: seq<Call>, t: nat, c: Call, f: Call -> nat)
    requires t < |calls|
    ensures Sum(calls[t := c], f) + f(calls[t]) == Sum(calls, f) + f(c)
  {
    if t > 0 {
      assert calls[t := c][1..] == calls[1..][t - 1 := c];
      SumMove(calls[1..], t - 1, c, f);
    } else {
      assert calls[t := c][1..] == calls[1..];
    }
  }

  lemma {:induction false} SumAppend(calls: seq<Call>, c: Call, f: Call -> nat)
    ensures Sum(calls + [c], f) == Sum(calls, f) + f(c)
  {
    if calls == [] {
      assert [c][1..] == [];
      assert calls + [c] == [c];
    } else {
      assert (calls + [c])[1..] == calls[1..] + [c];
      SumAppend(calls[1..], c, f);
    }
  }

  lemma {:induction false} SumPositive(calls: seq<Call>, t: nat, f: Call -> nat)
    requires t < |calls|
    ensures Sum(calls, f) >= f(calls[t])
  {
    if t > 0 {
      SumPositive(calls[1..], t - 1, f);
    }
  }

  lemma {:induction false} SumZero(calls: seq<Call>, f: Call -> nat)
    requires forall t :: 0 <= t < |calls| ==> f(calls[t]) == 0
    ensures Sum(calls, f) == 0
  {
    if calls == [] {
    } else {
      SumZero(calls[1..], f);
    }
  }

  function InFlight(g: nat): Call -> nat { (c: Call) => One(c.gateway == g && Active(c.stage)) }
  function Uncounted(g: nat): Call -> nat { (c: Call) => One(c.gateway == g && c.stage.Counting?) }
  function HeldStages(g: nat): Call -> nat { (c: Call) => One(c.gateway == g && HasStage(c.stage)) }
  function Unentered(e: nat): Call -> nat { (c: Call) => One(c.stage == Spent(e)) }

  // ---- The books ----------------------------------------------------------

  /** One gateway's counters against the calls in progress. */
  ghost predicate Balanced(g: Gateway, active: nat, uncounted: nat, staged: nat) {
    && g.inFlight == active
    && g.sequence == g.rejections + g.admitted + uncounted
    && g.stages == g.commits + (g.discards - g.cleaned) + g.discardFailures + staged
    && g.cleaned <= g.discards && g.cleaned <= g.discardFailures
    && g.mutations == g.commits
    && g.outstanding == g.stages - g.commits - g.discards
  }

  ghost predicate BooksOf(s: State, i: nat)
    requires i < |s.gateways|
  {
    Balanced(s.gateways[i], Sum(s.calls, InFlight(i)), Sum(s.calls, Uncounted(i)), Sum(s.calls, HeldStages(i)))
  }

  ghost predicate Placed(s: State) { forall t :: 0 <= t < |s.calls| ==> s.calls[t].gateway < |s.gateways| }

  ghost predicate Books(s: State) { Placed(s) && forall i :: 0 <= i < |s.gateways| ==> BooksOf(s, i) }

  lemma MoveKeepsBook(s: State, t: nat, v: Local, i: nat)
    requires At(s, t) && i < |s.gateways| && BooksOf(s, i)
    requires Tallies(View(s, t), v) && Stages(View(s, t), v)
    ensures BooksOf(Put(s, t, v), i)
  {
    hide Active, HasStage;
    var c := s.calls[t].(stage := v.stage);
    SumMove(s.calls, t, c, InFlight(i));
    SumMove(s.calls, t, c, Uncounted(i));
    SumMove(s.calls, t, c, HeldStages(i));
  }

  lemma AdvanceKeepsBooks(s: State, t: nat, act: Act)
    requires Books(s) && At(s, t)
    ensures Books(Put(s, t, ActedAt(s, t, act)))
  {
    var c := s.calls[t];
    ActedTallies(View(s, t), t, Write(c.gateway, c.request.call), c.request, Fence(s), act);
    ActedStages(View(s, t), t, Write(c.gateway, c.request.call), c.request, Fence(s), act);
    hide Acted, BooksOf, Tallies, Stages;
    var v := ActedAt(s, t, act);
    forall i | 0 <= i < |s.gateways| ensures BooksOf(Put(s, t, v), i) {
      MoveKeepsBook(s, t, v, i);
    }
  }

  lemma SubmitKeepsBook(s: State, g: nat, c: Call, i: nat)
    requires g < |s.gateways| && i < |s.gateways| && BooksOf(s, i)
    requires !Active(c.stage) && !c.stage.Counting? && !HasStage(c.stage)
    ensures BooksOf(Submitted(s, g, c), i)
  {
    hide Active, HasStage;
    SumAppend(s.calls, c, InFlight(i));
    SumAppend(s.calls, c, Uncounted(i));
    SumAppend(s.calls, c, HeldStages(i));
  }

  lemma NewGatewayKeepsBooks(s: State, maxCalls: nat)
    requires Books(s)
    ensures Books(s.(gateways := s.gateways + [NewGatewayRecord(maxCalls)]))
  {
    var s' := s.(gateways := s.gateways + [NewGatewayRecord(maxCalls)]);
    var n := |s.gateways|;
    SumZero(s.calls, InFlight(n));
    SumZero(s.calls, Uncounted(n));
    SumZero(s.calls, HeldStages(n));
    forall i | 0 <= i < |s'.gateways| ensures BooksOf(s', i) {
      if i < n {
        assert BooksOf(s, i);
      }
    }
  }

  lemma CleanUpKeepsBooks(s: State, k: nat)
    requires Books(s) && k < |s.gateways| && forall t :: 0 <= t < |s.calls| ==> !Busy(s.calls[t].stage)
    ensures Books(s.(gateways := s.gateways[k := Cleaned(s.gateways[k])])) && Cleaned(s.gateways[k]).outstanding == 0
  {
    var s' := s.(gateways := s.gateways[k := Cleaned(s.gateways[k])]);
    SumZero(s.calls, HeldStages(k));
    assert BooksOf(s, k);
    forall i | 0 <= i < |s.gateways| ensures BooksOf(s', i) {
      assert BooksOf(s, i);
    }
  }

  /** A drained gateway has no call that owns an id. */
  lemma DrainedIsIdle(s: State, g: nat)
    requires Books(s) && g < |s.gateways| && s.gateways[g].inFlight == 0
    ensures forall t :: 0 <= t < |s.calls| && s.calls[t].gateway == g ==> !Active(s.calls[t].stage)
  {
    assert BooksOf(s, g);
    forall t | 0 <= t < |s.calls| && s.calls[t].gateway == g ensures !Active(s.calls[t].stage) {
      SumPositive(s.calls, t, InFlight(g));
    }
  }

  // ---- Exclusive call ids -------------------------------------------------

  predicate SameId(c: Call, d: Call) { c.gateway == d.gateway && c.request.call == d.request.call }

  /** A call in progress owns the claim for its id; a returned one got the published reply. */
  ghost predicate Owns(s: State, t: nat)
    requires At(s, t)
  {
    var c := s.calls[t];
    var g, id := s.gateways[c.gateway], c.request.call;
    && (Active(c.stage) ==> id in g.claims && g.claims[id] == Claim(c.request, None))
    && (c.stage.Returned? ==> id in g.claims && g.claims[id] == Claim(c.request, Some(c.stage.reply)))
    && (c.stage.Conflicted? ==> id in g.claims && g.claims[id].request != c.request)
    && (BeforeEntry(c.stage) ==> id !in g.entered)
  }

  ghost predicate Alone(s: State, t: nat, u: nat)
    requires t < |s.calls| && u < |s.calls|
  {
    t != u && SameId(s.calls[t], s.calls[u]) && Active(s.calls[t].stage) ==> !Active(s.calls[u].stage)
  }

  ghost predicate Entries(g: Gateway) { g.entered <= g.claims.Keys && g.entries == |g.entered| }

  ghost predicate Exclusive(s: State) {
    && Placed(s)
    && (forall t :: 0 <= t < |s.calls| ==> Owns(s, t))
    && (forall t, u :: 0 <= t < |s.calls| && 0 <= u < |s.calls| ==> Alone(s, t, u))
    && (forall i :: 0 <= i < |s.gateways| ==> Entries(s.gateways[i]))
  }

  lemma MoveKeepsOwns(s: State, t: nat, v: Local, u: nat)
    requires At(s, t) && At(s, u) && Owns(s, t) && Owns(s, u) && Alone(s, t, u)
    requires Claims(View(s, t), v, s.calls[t].request) && Entry(View(s, t), v, s.calls[t].request)
    requires Entries(s.gateways[s.calls[t].gateway]) && (v.stage == s.calls[t].stage ==> v == View(s, t))
    ensures Owns(Put(s, t, v), u)
  {
    hide HasStage;
  }

  lemma MoveKeepsAlone(s: State, t: nat, v: Local, u: nat, w: nat)
    requires At(s, t) && At(s, u) && At(s, w) && Owns(s, u) && Owns(s, w) && Alone(s, u, w)
    requires Claims(View(s, t), v, s.calls[t].request)
    ensures Alone(Put(s, t, v), u, w)
  {
    hide Active, BeforeEntry;
  }

  lemma MoveKeepsEntries(s: State, t: nat, v: Local)
    requires At(s, t) && Owns(s, t) && Entries(s.gateways[s.calls[t].gateway])
    requires Claims(View(s, t), v, s.calls[t].request) && Entry(View(s, t), v, s.calls[t].request)
    ensures Entries(v.gateway)
  {
  }

  lemma ActedMoves(v: Local, t: nat, w: Write, r: Request, fence: Option<Category>, act: Act)
    ensures Acted(v, t, w, r, fence, act).stage == v.stage ==> Acted(v, t, w, r, fence, act) == v
  {
  }

  lemma AdvanceKeepsExclusive(s: State, t: nat, act: Act)
    requires Exclusive(s) && At(s, t)
    ensures Exclusive(Put(s, t, ActedAt(s, t, act)))
  {
    var c := s.calls[t];
    ActedClaims(View(s, t), t, Write(c.gateway, c.request.call), c.request, Fence(s), act);
    ActedEntry(View(s, t), t, Write(c.gateway, c.request.call), c.request, Fence(s), act);
    ActedMoves(View(s, t), t, Write(c.gateway, c.request.call), c.request, Fence(s), act);
    hide Acted, Claims, Entry, Owns, Alone, Entries;
    var v := ActedAt(s, t, act);
    var s' := Put(s, t, v);
    forall u | 0 <= u < |s.calls| ensures Owns(s', u) {
      MoveKeepsOwns(s, t, v, u);
    }
    forall u, w | 0 <= u < |s.calls| && 0 <= w < |s.calls| ensures Alone(s', u, w) {
      MoveKeepsAlone(s, t, v, u, w);
    }
    MoveKeepsEntries(s, t, v);
  }

  // ---- Each call id commits at most once ----------------------------------

  ghost predicate Ahead(s: State, t: nat, w: Write)
    requires t < |s.calls|
  {
    s.calls[t].gateway == w.gateway && s.calls[t].request.call == w.call && BeforeCommit(s.calls[t].stage)
  }

  ghost predicate Landed(s: State, w: Write) {
    && w.gateway < |s.gateways| && w.call in s.gateways[w.gateway].claims
    && forall t :: 0 <= t < |s.calls| ==> !Ahead(s, t, w)
  }

  ghost predicate Unrepeated(ws: seq<Write>) { forall i, j :: 0 <= i < j < |ws| ==> ws[i] != ws[j] }

  ghost predicate Once(s: State) { Unrepeated(s.target) && forall w :: w in s.target ==> Landed(s, w) }

  lemma MoveKeepsAhead(s: State, t: nat, v: Local, w: Write, u: nat)
    requires At(s, t) && At(s, u) && !Ahead(s, u, w)
    requires w.gateway < |s.gateways| && w.call in s.gateways[w.gateway].claims
    requires Claims(View(s, t), v, s.calls[t].request) && Entry(View(s, t), v, s.calls[t].request)
    ensures !Ahead(Put(s, t, v), u, w)
  {
  }

  lemma MoveKeepsLanded(s: State, t: nat, v: Local, w: Write)
    requires Placed(s) && At(s, t) && Landed(s, w)
    requires Claims(View(s, t), v, s.calls[t].request) && Entry(View(s, t), v, s.calls[t].request)
    ensures Landed(Put(s, t, v), w)
  {
    forall u | 0 <= u < |s.calls| ensures !Ahead(Put(s, t, v), u, w) {
      MoveKeepsAhead(s, t, v, w, u);
    }
  }

  lemma CommitLands(s: State, t: nat, v: Local)
    requires Exclusive(s) && At(s, t) && s.calls[t].stage.Cleared? && !BeforeCommit(v.stage)
    requires Claims(View(s, t), v, s.calls[t].request)
    ensures Landed(Put(s, t, v), Write(s.calls[t].gateway, s.calls[t].request.call))
  {
    var s' := Put(s, t, v);
    var w := Write(s.calls[t].gateway, s.calls[t].request.call);
    assert Owns(s, t);
    forall u | 0 <= u < |s.calls| ensures !Ahead(s', u, w) {
      assert Alone(s, t, u);
    }
  }

  lemma CommitIsNew(s: State, t: nat)
    requires Once(s) && At(s, t) && s.calls[t].stage.Cleared?
    ensures Write(s.calls[t].gateway, s.calls[t].request.call) !in s.target
  {
    assert Ahead(s, t, Write(s.calls[t].gateway, s.calls[t].request.call));
  }

  lemma OneMoreWrite(s: State, s': State, w: Write)
    requires Unrepeated(s.target) && w !in s.target && s'.target == s.target + [w]
    requires (forall x :: x in s.target ==> Landed(s', x)) && Landed(s', w)
    ensures Once(s')
  {
    hide Landed;
  }

  lemma AdvanceKeepsOnce(s: State, t: nat, act: Act)
    requires Exclusive(s) && Once(s) && At(s, t)
    ensures Once(Put(s, t, ActedAt(s, t, act)))
  {
    hide Acted, Claims, Entry, Landed, BeforeCommit;
    var c := s.calls[t];
    var mine := Write(c.gateway, c.request.call);
    ActedClaims(View(s, t), t, mine, c.request, Fence(s), act);
    ActedEntry(View(s, t), t, mine, c.request, Fence(s), act);
    ActedCommits(View(s, t), t, mine, c.request, Fence(s), act);
    var v := ActedAt(s, t, act);
    forall w | w in s.target ensures Landed(Put(s, t, v), w) {
      MoveKeepsLanded(s, t, v, w);
    }
    if v.target != s.target {
      CommitIsNew(s, t);
      CommitLands(s, t, v);
      OneMoreWrite(s, Put(s, t, v), mine);
    }
  }

  // ---- The barrier and the fence ------------------------------------------

  ghost predicate GuardOf(s: State, t: nat)
    requires t < |s.calls|
  {
    var x := s.calls[t].stage;
    && (s.barrier == Some(t) ==> MayHold(x))
    && (x.Holding? || x.Fenced? || x.Cleared? ==> s.barrier == Some(t))
    && (x.Fenced? || x.Cleared? ==> FenceOpen(s))
  }

  ghost predicate Guarded(s: State) {
    (s.barrier.Some? ==> s.barrier.value < |s.calls|) && forall t :: 0 <= t < |s.calls| ==> GuardOf(s, t)
  }

  lemma MoveKeepsGuard(s: State, t: nat, v: Local, u: nat)
    requires At(s, t) && u < |s.calls| && GuardOf(s, t) && GuardOf(s, u) && Barrier(View(s, t), v, t, Fence(s))
    ensures GuardOf(Put(s, t, v), u)
  {
  }

  lemma AdvanceKeepsGuarded(s: State, t: nat, act: Act)
    requires Guarded(s) && At(s, t)
    ensures Guarded(Put(s, t, ActedAt(s, t, act)))
  {
    var c := s.calls[t];
    ActedBarrier(View(s, t), t, Write(c.gateway, c.request.call), c.request, Fence(s), act);
    hide Acted, GuardOf;
    var v := ActedAt(s, t, act);
    forall u | 0 <= u < |s.calls| ensures GuardOf(Put(s, t, v), u) {
      MoveKeepsGuard(s, t, v, u);
    }
  }

  // ---- Settlement ---------------------------------------------------------

  ghost predicate Idle(s: State, t: nat)
    requires t < |s.calls|
  {
    s.calls[t].gateway < s.quiet ==> !Busy(s.calls[t].stage)
  }

  ghost predicate Tidy(s: State) { forall i :: 0 <= i < |s.gateways| ==> s.gateways[i].outstanding == 0 }

  /** Drained gateways stay idle; after cleanup nothing is staged; after export the target is the archive. */
  ghost predicate Silent(s: State) {
    && s.quiet <= |s.gateways|
    && (s.quiet > 0 || !s.settler.Resting? || s.archive.Some? ==> !s.open)
    && (forall t :: 0 <= t < |s.calls| ==> Idle(s, t))
    && (s.settler.Draining? ==> s.settler.next <= s.quiet)
    && (s.settler.Cleaning? ==>
          && s.quiet == |s.gateways| && s.settler.next <= |s.gateways|
          && forall i :: 0 <= i < s.settler.next ==> s.gateways[i].outstanding == 0)
    && (s.settler.Exported? || s.archive.Some? ==> s.quiet == |s.gateways| && Tidy(s))
    && (s.archive.Some? ==> s.archive.value == s.target)
    && (s.settler.Exported? || s.settled ==> s.archive.Some?)
    && (s.uncertain ==> s.settled)
  }

  lemma AdvanceKeepsSilent(s: State, t: nat, act: Act)
    requires Placed(s) && Silent(s) && At(s, t)
    ensures Silent(Put(s, t, ActedAt(s, t, act)))
  {
    var c := s.calls[t];
    ActedBarrier(View(s, t), t, Write(c.gateway, c.request.call), c.request, Fence(s), act);
    ActedCommits(View(s, t), t, Write(c.gateway, c.request.call), c.request, Fence(s), act);
    hide Acted;
    var v := ActedAt(s, t, act);
    assert Idle(s, t);
    forall u | 0 <= u < |s.calls| ensures Idle(Put(s, t, v), u) {
      assert Idle(s, u);
    }
  }

  // ---- Grants -------------------------------------------------------------

  ghost predicate GrantOf(s: State, e: nat) {
    var l := s.ledger;
    && Tally(l.spent, e) == Tally(l.entered, e) + Sum(s.calls, Unentered(e))
    && (e in l.limits ==> e <= l.epoch)
    && Tally(l.spent, e) <= Tally(l.limits, e)
  }

  ghost predicate Granted(s: State) {
    var l := s.ledger;
    && (l.current.Some? ==>
          && l.current.value.epoch == l.epoch && l.epoch in l.limits && l.limits[l.epoch] == l.current.value.maxCalls
          && l.consumed == Tally(l.spent, l.epoch))
    && forall e: nat :: GrantOf(s, e)
  }

  lemma MoveKeepsGrant(s: State, t: nat, v: Local, e: nat)
    requires At(s, t) && Granted(s)
    requires Entry(View(s, t), v, s.calls[t].request) && Spends(View(s, t), v, s.calls[t].request)
    requires v.stage == s.calls[t].stage ==> v == View(s, t)
    ensures GrantOf(Put(s, t, v), e)
  {
    assert GrantOf(s, e);
    hide BeforeEntry, BeforeCommit, Active;
    SumMove(s.calls, t, s.calls[t].(stage := v.stage), Unentered(e));
  }

  lemma AdvanceKeepsGranted(s: State, t: nat, act: Act)
    requires Granted(s) && At(s, t)
    ensures Granted(Put(s, t, ActedAt(s, t, act)))
  {
    var c := s.calls[t];
    var w := Write(c.gateway, c.request.call);
    ActedEntry(View(s, t), t, w, c.request, Fence(s), act);
    ActedSpends(View(s, t), t, w, c.request, Fence(s), act);
    ActedMoves(View(s, t), t, w, c.request, Fence(s), act);
    hide Acted, GrantOf;
    var v := ActedAt(s, t, act);
    forall e: nat ensures GrantOf(Put(s, t, v), e) {
      MoveKeepsGrant(s, t, v, e);
    }
  }
}
