/**
  The Hands gateway, its grant ledger and the Episode Attachment that owns them
  (`hands/gateway.py`, `hands/grants.py`, `attachment/episode.py`) as one machine
  of atomic steps.  Any number of calls run concurrently through any number of
  gateways; a step is one critical section of the source.  The fence and the current
  grant are read from the state; what policy, deadlines, admission, target currency
  and the adapter answer are choices carried by the step.
  */
module Hands {
  import opened Options

  type CallId = string
  type Category = string

  datatype Request = Request(call: CallId, grantEpoch: nat, write: bool, body: string)
  datatype Reply = Accepted | Rejected(category: Category)

  /** Where a submitted call stands. */
  datatype Stage =
    | Parsed                        // counted, not yet claimed
    | Unparsed                      // refused by the parser, not yet recorded
    | Claimed                       // owns its call id
    | Passed                        // prechecks passed
    | Spent(epoch: nat)             // one call of the grant consumed
    | Entered(epoch: nat)           // crossing into the adapter
    | Performed                     // a read-only adapter operation returned
    | Staged                        // a write is staged
    | Holding                       // staged, holding the barrier
    | Fenced                        // holding, the fence was seen open and not aborted
    | Cleared                       // holding, every postcheck passed
    | Dropping(category: Category)  // staged, about to discard
    | Rejecting(category: Category)
    | Accepting
    | Counting                      // accepted and recorded, not yet counted as admitted
    | Recorded(reply: Reply)
    | Returned(reply: Reply)
    | Refused                       // rejected without a claim
    | Conflicted                    // the call id belongs to a different request

  datatype Call = Call(gateway: nat, request: Request, stage: Stage)

  datatype Claim = Claim(request: Request, reply: Option<Reply>)

  /** Counters as the source keeps them, plus which calls entered the adapter and how many stages it still holds. */
  datatype Gateway = Gateway(
    maxCalls: nat, claims: map<CallId, Claim>, inFlight: int, requests: nat, sequence: nat, rejections: nat,
    admitted: nat, entries: nat, stages: nat, commits: nat, discards: nat, discardFailures: nat, mutations: nat,
    cleaned: nat, entered: set<CallId>, outstanding: int)

  datatype Grant = Grant(epoch: nat, maxCalls: nat)

  /** `spent` and `entered` count, per grant epoch, what the ledger gave out and what reached an adapter. */
  datatype Ledger = Ledger(epoch: nat, current: Option<Grant>, consumed: nat,
                           limits: map<nat, nat>, spent: map<nat, nat>, entered: map<nat, nat>)

  datatype Settler = Resting | Draining(next: nat) | Cleaning(next: nat) | Exported

  /** One write that reached the target: which gateway committed it, for which call. */
  datatype Write = Write(gateway: nat, call: CallId)

  datatype State = State(
    open: bool, aborted: bool, uncertain: bool, settled: bool, settler: Settler,
    ledger: Ledger, gateways: seq<Gateway>, calls: seq<Call>, barrier: Option<nat>,
    quiet: nat, target: seq<Write>, archive: Option<seq<Write>>)

  /** What one running call does next. */
  datatype Act =
    | RefuseUnparsed
    | TryClaim
    | Stale
    | Precheck(refusal: Option<Category>)
    | Consume
    | Enter
    | Perform(ok: bool)
    | StageWrite(ok: bool)
    | Mismatch
    | Postcheck(refusal: Option<Category>)
    | Acquire
    | CheckFence
    | CheckRest(refusal: Option<Category>)
    | Commit(ok: bool, digestMatches: bool)
    | Drop(ok: bool)
    | Spoil
    | Record
    | Count
    | Publish

  datatype Step =
    | Submit(gateway: nat, request: Request)
    | SubmitUnparsed(gateway: nat)
    | Advance(call: nat, act: Act)
    | NewGateway(maxCalls: nat)
    | OpenGrant(maxCalls: nat)
    | CloseGrant
    | Cancel
    | SettleBegin
    | DrainNext
    | SettleAbort
    | CleanUp
    | Export
    | SettleEnd(verified: bool)
    | RetrySettlement(verified: bool)

  const PROVIDER := "provider"
  const POST_FENCE := "post_fence"
  const ABORTED := "aborted"
  const BUDGET := "budget"
  const STALE_EPOCH := "stale_epoch"

  // ---- One gateway --------------------------------------------------------

  function NewGatewayRecord(maxCalls: nat): Gateway {
    Gateway(maxCalls, map[], 0, 0, 0, 0, 0, 0, 0, 0, 0, 0, 0, 0, {}, 0)
  }

  function Requested(g: Gateway): Gateway { g.(requests := g.requests + 1) }

  function Rejection(g: Gateway): Gateway { g.(sequence := g.sequence + 1, rejections := g.rejections + 1) }

  function Claiming(g: Gateway, r: Request): Gateway {
    g.(claims := g.claims[r.call := Claim(r, None)], inFlight := g.inFlight + 1)
  }

  function Published(g: Gateway, r: Request, reply: Reply): Gateway {
    g.(claims := g.claims[r.call := Claim(r, Some(reply))], inFlight := g.inFlight - 1)
  }

  function EnteredBy(g: Gateway, call: CallId): Gateway {
    g.(entries := g.entries + 1, entered := g.entered + {call})
  }

  /** `cleanup_stages`: whatever the adapter still holds is discarded. */
  function Cleaned(g: Gateway): Gateway {
    var removed := if g.outstanding > 0 then g.outstanding else 0;
    g.(discards := g.discards + removed, cleaned := g.cleaned + removed, outstanding := g.outstanding - removed)
  }

  // ---- The ledger ---------------------------------------------------------

  function Tally(m: map<nat, nat>, e: nat): nat { if e in m then m[e] else 0 }

  function Plus(m: map<nat, nat>, e: nat): map<nat, nat> { m[e := Tally(m, e) + 1] }

  function Opened(l: Ledger, maxCalls: nat): Ledger {
    l.(epoch := l.epoch + 1, current := Some(Grant(l.epoch + 1, maxCalls)), consumed := 0,
       limits := l.limits[l.epoch + 1 := maxCalls])
  }

  function Closed(l: Ledger): Ledger { l.(current := None, consumed := 0) }

  /** Why `consume` refuses, if it does. */
  function SpendRefusal(l: Ledger, epoch: nat): Option<Category> {
    if l.current.None? || l.current.value.epoch != epoch then Some(STALE_EPOCH)
    else if l.consumed >= l.current.value.maxCalls then Some(BUDGET)
    else None
  }

  function SpendOne(l: Ledger, epoch: nat): Ledger {
    l.(consumed := l.consumed + 1, spent := Plus(l.spent, epoch))
  }

  // ---- One call -----------------------------------------------------------

  /** Everything one step of one call can read and change. */
  datatype Local = Local(stage: Stage, gateway: Gateway, ledger: Ledger, barrier: Option<nat>, target: seq<Write>)

  /** `_claim`: own the id, answer from the ledger, wait, or refuse. */
  function ClaimAct(v: Local, r: Request): Local {
    var g := v.gateway;
    if r.call !in g.claims then
      if |g.claims| >= g.maxCalls then v.(stage := Refused, gateway := Rejection(g))
      else v.(stage := Claimed, gateway := Claiming(g, r))
    else if g.claims[r.call].request != r then v.(stage := Conflicted)
    else if g.claims[r.call].reply.Some? then v.(stage := Returned(g.claims[r.call].reply.value))
    else v
  }

  function CommitAct(v: Local, writer: Write, ok: bool, digestMatches: bool): Local {
    var g := v.gateway;
    if !ok then v.(stage := Dropping(PROVIDER))
    else
      var done := v.(gateway := g.(commits := g.commits + 1, mutations := g.mutations + 1,
                                   outstanding := g.outstanding - 1),
                     target := v.target + [writer]);
      if digestMatches then done.(stage := Accepting, barrier := None) else done.(stage := Rejecting(PROVIDER))
  }

  function DropAct(v: Local, ok: bool, category: Category): Local {
    var g := v.gateway;
    if ok then v.(stage := Rejecting(category),
                  gateway := g.(discards := g.discards + 1, outstanding := g.outstanding - 1))
    else v.(stage := Rejecting(PROVIDER), gateway := g.(discardFailures := g.discardFailures + 1))
  }

  /** What a check of the current grant answers to a call that names `epoch`. */
  function GrantRefusal(l: Ledger, epoch: nat): Option<Category> {
    if l.current.None? || l.current.value.epoch != epoch then Some(STALE_EPOCH) else None
  }

  function FirstOf(first: Option<Category>, then_: Option<Category>): Option<Category> {
    if first.Some? then first else then_
  }

  /** A read-only barrier section: the fence is read, then the remaining checks have their say. */
  function FenceAct(v: Local, fence: Option<Category>, refusal: Option<Category>, pass: Stage): Local {
    if v.barrier.Some? then v
    else if fence.Some? then v.(stage := Rejecting(fence.value))
    else if refusal.Some? then v.(stage := Rejecting(refusal.value))
    else v.(stage := pass)
  }

  /** Up to crossing into the adapter. */
  predicate BeforeAdapter(act: Act) {
    act.RefuseUnparsed? || act.TryClaim? || act.Stale? || act.Precheck? || act.Consume? || act.Enter?
  }

  function ActedBefore(v: Local, r: Request, fence: Option<Category>, act: Act): Local
    requires BeforeAdapter(act)
  {
    var g, x := v.gateway, v.stage;
    match act
    case RefuseUnparsed => if x.Unparsed? then v.(stage := Refused, gateway := Rejection(g)) else v
    case TryClaim => if x.Parsed? then ClaimAct(v, r) else v
    case Stale => if x.Claimed? then v.(stage := Rejecting(STALE_EPOCH)) else v
    case Precheck(refusal) =>
      if x.Claimed? then FenceAct(v, fence, FirstOf(GrantRefusal(v.ledger, r.grantEpoch), refusal), Passed) else v
    case Consume =>
      if !x.Passed? then v
      else if SpendRefusal(v.ledger, r.grantEpoch).Some? then
        v.(stage := Rejecting(SpendRefusal(v.ledger, r.grantEpoch).value))
      else v.(stage := Spent(r.grantEpoch), ledger := SpendOne(v.ledger, r.grantEpoch))
    case Enter =>
      if !x.Spent? then v
      else v.(stage := Entered(x.epoch), gateway := EnteredBy(g, r.call),
              ledger := v.ledger.(entered := Plus(v.ledger.entered, x.epoch)))
  }

  function ActedAfter(v: Local, t: nat, writer: Write, r: Request, fence: Option<Category>, act: Act): Local
    requires !BeforeAdapter(act)
  {
    var g, x := v.gateway, v.stage;
    match act
    case Perform(ok) =>
      if x.Entered? && !r.write then v.(stage := if ok then Performed else Rejecting(PROVIDER)) else v
    case StageWrite(ok) =>
      if !x.Entered? || !r.write then v
      else if !ok then v.(stage := Rejecting(PROVIDER))
      else v.(stage := Staged, gateway := g.(stages := g.stages + 1, outstanding := g.outstanding + 1))
    case Mismatch => if x.Staged? then v.(stage := Dropping(PROVIDER)) else v
    case Postcheck(refusal) =>
      if x.Performed? then FenceAct(v, fence, FirstOf(GrantRefusal(v.ledger, r.grantEpoch), refusal), Accepting) else v
    case Acquire => if x.Staged? && v.barrier.None? then v.(stage := Holding, barrier := Some(t)) else v
    case CheckFence => if x.Holding? then v.(stage := if fence.Some? then Dropping(fence.value) else Fenced) else v
    case CheckRest(refusal) =>
      var reason := FirstOf(GrantRefusal(v.ledger, r.grantEpoch), refusal);
      if x.Fenced? then v.(stage := if reason.Some? then Dropping(reason.value) else Cleared) else v
    case Commit(ok, digestMatches) => if x.Cleared? then CommitAct(v, writer, ok, digestMatches) else v
    case Drop(ok) => if x.Dropping? then DropAct(v, ok, x.category) else v
    case Spoil => if x.Accepting? then v.(stage := Rejecting(PROVIDER)) else v
    case Record =>
      if x.Accepting? then v.(stage := Counting, gateway := g.(sequence := g.sequence + 1))
      else if x.Rejecting? then
        v.(stage := Recorded(Rejected(x.category)), gateway := Rejection(g),
           barrier := if v.barrier == Some(t) then None else v.barrier)
      else v
    case Count => if x.Counting? then v.(stage := Recorded(Accepted), gateway := g.(admitted := g.admitted + 1)) else v
    case Publish => if x.Recorded? then v.(stage := Returned(x.reply), gateway := Published(g, r, x.reply)) else v
  }

  /** One critical section of call number `t`, made by `writer`; `fence` is what the fence would answer now. */
  function Acted(v: Local, t: nat, writer: Write, r: Request, fence: Option<Category>, act: Act): Local {
    if BeforeAdapter(act) then ActedBefore(v, r, fence, act) else ActedAfter(v, t, writer, r, fence, act)
  }

  // ---- The whole attachment -----------------------------------------------

  /** `_fence_snapshot` as the checks read it. */
  function Fence(s: State): Option<Category> {
    if !s.open || s.uncertain then Some(POST_FENCE) else if s.aborted then Some(ABORTED) else None
  }

  predicate FenceOpen(s: State) { s.open && !s.uncertain && !s.aborted }

  predicate At(s: State, t: nat) { t < |s.calls| && s.calls[t].gateway < |s.gateways| }

  function View(s: State, t: nat): Local
    requires At(s, t)
  {
    Local(s.calls[t].stage, s.gateways[s.calls[t].gateway], s.ledger, s.barrier, s.target)
  }

  function Put(s: State, t: nat, v: Local): State
    requires At(s, t)
  {
    var c := s.calls[t];
    s.(calls := s.calls[t := c.(stage := v.stage)], gateways := s.gateways[c.gateway := v.gateway],
       ledger := v.ledger, barrier := v.barrier, target := v.target)
  }

  function ActedAt(s: State, t: nat, act: Act): Local
    requires At(s, t)
  {
    var c := s.calls[t];
    Acted(View(s, t), t, Write(c.gateway, c.request.call), c.request, Fence(s), act)
  }

  function Submitted(s: State, g: nat, call: Call): State
    requires g < |s.gateways|
  {
    s.(calls := s.calls + [call], gateways := s.gateways[g := Requested(s.gateways[g])])
  }

  function Next(s: State, step: Step): State {
    match step
    case Submit(g, request) => if g >= |s.gateways| then s else Submitted(s, g, Call(g, request, Parsed))
    case SubmitUnparsed(g) =>
      if g >= |s.gateways| then s else Submitted(s, g, Call(g, Request("", 0, false, ""), Unparsed))
    case Advance(t, act) => if At(s, t) then Put(s, t, ActedAt(s, t, act)) else s
    case NewGateway(maxCalls) =>
      if s.barrier.Some? || s.uncertain || !s.open then s
      else s.(gateways := s.gateways + [NewGatewayRecord(maxCalls)])
    case _ => Settle(s, step)
  }

  /** Grant changes, cancellation and settlement: no call moves. */
  function Settle(s: State, step: Step): State {
    match step
    case OpenGrant(maxCalls) => s.(ledger := Opened(s.ledger, maxCalls))
    case CloseGrant => s.(ledger := Closed(s.ledger))
    case Cancel =>
      if s.barrier.Some? || !s.settler.Resting? || s.settled || !s.open then s else s.(aborted := true)
    case SettleBegin =>
      if s.barrier.Some? || s.uncertain || s.settled || !s.settler.Resting? then s
      else s.(open := false, settler := Draining(0))
    case DrainNext =>
      if !s.settler.Draining? then s
      else
        var k := s.settler.next;
        if k >= |s.gateways| then s.(settler := Cleaning(0))
        else if s.gateways[k].inFlight != 0 then s
        else s.(settler := Draining(k + 1), quiet := if s.quiet <= k then k + 1 else s.quiet)
    case SettleAbort => if s.settler.Resting? || s.barrier.Some? then s else s.(settler := Resting)
    case CleanUp =>
      if !s.settler.Cleaning? || s.settler.next >= |s.gateways| then s
      else
        var k := s.settler.next;
        s.(settler := Cleaning(k + 1), gateways := s.gateways[k := Cleaned(s.gateways[k])])
    case Export =>
      if !s.settler.Cleaning? || s.settler.next < |s.gateways| then s
      else s.(settler := Exported, archive := Some(s.target))
    case SettleEnd(verified) =>
      if !s.settler.Exported? || s.barrier.Some? then s
      else s.(settler := Resting, settled := true, uncertain := !verified, ledger := Closed(s.ledger))
    case RetrySettlement(verified) =>
      if !s.settled || !s.uncertain || !s.settler.Resting? || s.barrier.Some? then s else s.(uncertain := !verified)
    case _ => s
  }

  function Start(): State {
    State(true, false, false, false, Resting, Ledger(0, None, 0, map[], map[], map[]), [], [], None, 0, [], None)
  }

  function Run(s: State, steps: seq<Step>): State
    decreases steps
  {
    if steps == [] then s else Run(Next(s, steps[0]), steps[1..])
  }
}
