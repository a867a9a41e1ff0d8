/**
  Every run of the agent loop holds one token, never raises on its own account,
  keeps exact counts, and ends.
  */
module AgentSafety {
  import opened Options
  import opened AgentNet

  // ---- What a run has done so far -----------------------------------------

  /** Model phases settled, tools executed, the latest model answer, and what its proposals were answered with. */
  datatype Past = Past(models: nat, tools: nat, latest: Option<ModelSettlement>, results: seq<ModelResult>)

  const NOTHING := Past(0, 0, None, [])

  function Proposed(p: Past): seq<Proposal> { if p.latest.Some? then p.latest.value.proposals else [] }

  function BatchOf(p: Past): seq<string> { ProposalIds(Proposed(p)) }

  function PastOf(fs: seq<Firing>): Past
    decreases |fs|
  {
    if fs == [] then NOTHING else Later(PastOf(fs[..|fs| - 1]), fs[|fs| - 1])
  }

  /** A refusal of proposal `k` of the latest answer. */
  function Refusal(p: Past, k: nat, category: string, detail: string): ModelResult {
    ModelResult(if k < |Proposed(p)| then Proposed(p)[k].id else "", None, Some(Problem(category, detail)))
  }

  /** Read off the firings alone: a model's answer opens a batch, and each proposal of it is answered in turn. */
  function Later(p: Past, f: Firing): Past {
    match f
    case ModelPhase(answer) => Past(p.models + 1, p.tools, Some(answer), [])
    case ClassifyModel =>
      if p.latest.Some? && p.latest.value.stop.Length? then
        p.(results := seq(|Proposed(p)|, i requires 0 <= i < |Proposed(p)| =>
                            Refusal(p, i, "provider", "proposal rejected after length stop")))
      else p
    case ExecuteTool(result) => p.(results := p.results + [result])
    case Reject => p.(results := p.results
                                 + [Refusal(p, |p.results|, "capability", "tool is unsupported or not granted")])
    case Record => p.(tools := p.tools + 1)
  }

  // ---- The invariant ------------------------------------------------------

  ghost predicate SameTurn(s: LoopState, start: LoopState) {
    && s.episode == start.episode && s.turn == start.turn && s.phaseLimit == start.phaseLimit
    && s.toolLimit == start.toolLimit && s.grantEpoch == start.grantEpoch && s.capabilities == start.capabilities
  }

  /** Counts of a state with `settled` model phases behind it. */
  ghost predicate Tallied(s: LoopState, start: LoopState, phases: int, tools: nat) {
    SameTurn(s, start) && s.phase == start.phase + phases && s.toolCount == start.toolCount + tools
  }

  /** The state carries what the latest model answer left, and `results`. */
  ghost predicate Carries(s: LoopState, p: Past, results: seq<ModelResult>) {
    && p.models > 0 && p.latest.Some? && s.output == Some(p.latest.value.output)
    && s.continuation == Some(p.latest.value.continuation) && s.results == results
  }

  ghost predicate GoodWork(w: ToolWork, start: LoopState, p: Past, results: seq<ModelResult>) {
    && ValidWork(w) && Tallied(w.state, start, p.models - 1, p.tools) && Carries(w.state, p, results)
    && w.proposals == Proposed(p) && w.digest == p.latest.value.digest && w.index == |results|
  }

  ghost predicate Good(t: Token, start: LoopState, p: Past) {
    match t
    case AtModel(s) =>
      && ValidLoop(s) && Tallied(s, start, p.models, p.tools)
      && (if p.models > 0 then Carries(s, p, p.results) && ResultIds(s.results) == BatchOf(p) else s == start)
    case AtSettled(m) =>
      && ValidSettlement(m) && Tallied(m.state, start, p.models - 1, p.tools) && p.latest == Some(m)
      && p.models > 0 && p.results == []
    case AtTool(w) => GoodWork(w, start, p, p.results)
    case AtHands(h) =>
      && ValidHands(h) && Allowed(h.work) && p.results == h.work.state.results + [h.result]
      && GoodWork(h.work, start, p, h.work.state.results)
    case AtDone(d) =>
      && ValidTerminal(d) && d.episode == start.episode && d.turn == start.turn
      && p.latest.Some? && d.output == p.latest.value.output && d.continuation == p.latest.value.continuation
      && d.phases == start.phase + p.models - 1 && d.tools == start.toolCount + p.tools
      && (d.code.PhaseBudget? ==> d.phases == start.phaseLimit)
      && (d.code.ToolBudget? ==> d.tools == start.toolLimit)
      && d.phases <= start.phaseLimit && d.tools <= start.toolLimit
  }

  ghost predicate Inv(m: Marking, start: LoopState, p: Past) {
    exists t :: m == Add(EMPTY, t) && Good(t, start, p)
  }

  // ---- Handlers never raise on good tokens --------------------------------

  lemma DetailsAreText()
    ensures Text("proposal rejected after length stop") && |"proposal rejected after length stop"| <= DETAIL_LIMIT
    ensures Text("tool budget exhausted") && |"tool budget exhausted"| <= DETAIL_LIMIT
    ensures Text("tool is unsupported or not granted") && |"tool is unsupported or not granted"| <= DETAIL_LIMIT
  {
  }

  lemma ResultExtends(w: ToolWork, r: ModelResult)
    requires ValidWork(w) && ValidResult(r) && r.id == w.proposals[w.index].id
    ensures ResultIds(w.state.results + [r]) == ProposalIds(w.proposals[..w.index + 1])
    ensures Unique(ResultIds(w.state.results + [r])) && |w.state.results| == w.index
  {
    var ids := ResultIds(w.state.results + [r]);
    assert |ResultIds(w.state.results)| == |ProposalIds(w.proposals[..w.index])|;
    forall i | 0 <= i < |ids| ensures ids[i] == ProposalIds(w.proposals)[i] {
      if i < w.index {
        assert ids[i] == ResultIds(w.state.results)[i];
      }
    }
  }

  lemma ContinueGood(w: ToolWork, r: ModelResult, executed: bool, start: LoopState, p: Past)
    requires GoodWork(w, start, p, w.state.results) && ValidResult(r) && r.id == w.proposals[w.index].id
    requires executed ==> w.state.toolCount < w.state.toolLimit
    ensures var s := WithResult(w.state, r, executed);
            var q := p.(tools := p.tools + if executed then 1 else 0, results := w.state.results + [r]);
            && ValidLoop(s) && Continue(w, s).Some? && Good(Continue(w, s).value, start, q)
  {
    ResultExtends(w, r);
    hide Text, Digest;
    var s := WithResult(w.state, r, executed);
    assert ValidLoop(s);
    if w.index + 1 == |w.proposals| {
      assert w.proposals[..w.index + 1] == w.proposals;
    }
  }

  lemma LengthBatch(ps: seq<Proposal>)
    requires Batch(ps)
    ensures ResultIds(LengthResults(ps)) == ProposalIds(ps) && |LengthResults(ps)| == |ps|
    ensures forall i :: 0 <= i < |ps| ==> ValidResult(LengthResults(ps)[i])
  {
    DetailsAreText();
    hide Text;
    forall i | 0 <= i < |ps| ensures ValidResult(LengthResults(ps)[i]) {
      assert ValidProposal(ps[i]);
    }
  }

  lemma LengthAnswers(p: Past, m: ModelSettlement)
    requires p.latest == Some(m) && m.stop.Length?
    ensures Later(p, ClassifyModel).results == LengthResults(m.proposals)
  {
  }

  lemma ClassifyGood(m: ModelSettlement, start: LoopState, p: Past)
    requires Good(AtSettled(m), start, p)
    ensures Classify(m).Some? && Good(Classify(m).value, start, Later(p, ClassifyModel))
  {
    hide Text, Digest;
    LengthBatch(m.proposals);
    if m.stop.Length? {
      LengthAnswers(p, m);
    }
    assert m.proposals[..0] == [];
    assert ResultIds([]) == ProposalIds([]);
    assert ResultIds([]) == [];
  }

  lemma RejectGood(w: ToolWork, start: LoopState, p: Past)
    requires GoodWork(w, start, p, p.results) && !Allowed(w)
    ensures RejectTool(w).Some? && Good(RejectTool(w).value, start, Later(p, Firing.Reject))
  {
    DetailsAreText();
    assert ValidProposal(w.proposals[w.index]);
    hide Text, Digest;
    var problem := if w.state.toolCount >= w.state.toolLimit then Problem("budget", "tool budget exhausted")
                   else Problem("capability", "tool is unsupported or not granted");
    var r := ModelResult(w.proposals[w.index].id, None, Some(problem));
    assert ValidResult(r);
    ContinueGood(w, r, false, start, p);
    hide Continue, ValidWork;
  }

  lemma RecordGood(h: HandsSettlement, start: LoopState, p: Past)
    requires Good(AtHands(h), start, p)
    ensures RecordResult(h).Some? && Good(RecordResult(h).value, start, Later(p, Record))
  {
    ContinueGood(h.work, h.result, true, start, p);
    hide Text, Digest, Continue, ValidResult;
  }

  // ---- One firing ---------------------------------------------------------

  /** What an activity answered is acceptable. */
  ghost predicate Answers(m: Marking, f: Firing) {
    match f
    case ModelPhase(a) => m.modelPending != [] && ValidSettlement(a) && a.state == m.modelPending[0]
    case ExecuteTool(r) =>
      m.toolPending != [] && 0 <= m.toolPending[0].index < |m.toolPending[0].proposals|
      && ValidResult(r) && r.id == m.toolPending[0].proposals[m.toolPending[0].index].id
    case _ => true
  }

  /** A firing keeps the invariant, and raises exactly when an activity's answer is unacceptable. */
  ghost predicate Sound(t: Token, f: Firing, start: LoopState, p: Past) {
    var m := Add(EMPTY, t);
    && (Fire(m, f).Fired? ==> Inv(Fire(m, f).marking, start, Later(p, f)))
    && (Fire(m, f).Raised? <==>
          !Answers(m, f) && ((f.ModelPhase? && t.AtModel?)
                             || (f.ExecuteTool? && t.AtTool? && ValidWork(t.work) && Allowed(t.work))))
  }

  lemma DepositGood(t: Token, start: LoopState, p: Past)
    requires Good(t, start, p)
    ensures Deposit(EMPTY, Some(t)).Fired? && Inv(Deposit(EMPTY, Some(t)).marking, start, p)
  {
  }

  lemma FireModel(t: Token, answer: ModelSettlement, start: LoopState, p: Past)
    requires Good(t, start, p)
    ensures Sound(t, ModelPhase(answer), start, p)
  {
    hide ValidLoop, Batch, Digest, Text, Inv;
    if t.AtModel? {
      assert Add(EMPTY, t).modelPending[1..] == [];
    }
    if t.AtModel? && ValidSettlement(answer) && answer.state == t.state {
      DepositGood(AtSettled(answer), start, Later(p, ModelPhase(answer)));
    }
  }

  lemma FireClassify(t: Token, start: LoopState, p: Past)
    requires Good(t, start, p)
    ensures Sound(t, ClassifyModel, start, p)
  {
    if t.AtSettled? {
      ClassifyGood(t.settled, start, p);
      DepositGood(Classify(t.settled).value, start, Later(p, ClassifyModel));
    }
    hide Classify, Good, Inv;
  }

  lemma FireExecute(t: Token, r: ModelResult, start: LoopState, p: Past)
    requires Good(t, start, p)
    ensures Sound(t, ExecuteTool(r), start, p)
  {
    hide ValidLoop, Batch, Digest, Text, Inv, ValidResult;
    if t.AtTool? {
      assert Add(EMPTY, t).toolPending[1..] == [];
    }
    if t.AtTool? && Allowed(t.work) && ValidHands(HandsSettlement(t.work, r)) {
      DepositGood(AtHands(HandsSettlement(t.work, r)), start, Later(p, ExecuteTool(r)));
    }
  }

  lemma FireReject(t: Token, start: LoopState, p: Past)
    requires Good(t, start, p)
    ensures Sound(t, Firing.Reject, start, p)
  {
    hide RejectTool, Inv, ValidLoop, ValidResult, Batch, Digest, Text, Tallied, Carries, Later;
    if t.AtTool? {
      assert ValidWork(t.work) && Add(EMPTY, t).toolPending[1..] == [];
      if !Allowed(t.work) {
        RejectGood(t.work, start, p);
        DepositGood(RejectTool(t.work).value, start, Later(p, Firing.Reject));
      }
    }
    hide Good, ValidWork;
  }

  lemma FireRecord(t: Token, start: LoopState, p: Past)
    requires Good(t, start, p)
    ensures Sound(t, Record, start, p)
  {
    hide Good, Inv, RecordResult;
    assert t.AtHands? ==> Add(EMPTY, t).toolSettled[1..] == [];
    if t.AtHands? {
      RecordGood(t.hands, start, p);
      DepositGood(RecordResult(t.hands).value, start, Later(p, Record));
    }
  }

  lemma FireGood(t: Token, f: Firing, start: LoopState, p: Past)
    requires Good(t, start, p)
    ensures Sound(t, f, start, p)
  {
    hide Good, Sound;
    match f {
      case ModelPhase(answer) => FireModel(t, answer, start, p);
      case ClassifyModel => FireClassify(t, start, p);
      case ExecuteTool(r) => FireExecute(t, r, start, p);
      case Reject => FireReject(t, start, p);
      case Record => FireRecord(t, start, p);
    }
  }

  // ---- Whole runs ---------------------------------------------------------

  lemma {:induction false} RunKeeps(start: LoopState, fs: seq<Firing>)
    requires ValidLoop(start) && Run(InitialMarking(start), fs).Some?
    ensures Inv(Run(InitialMarking(start), fs).value, start, PastOf(fs))
    decreases |fs|
  {
    hide ValidLoop, Fire, Good;
    if fs == [] {
      assert InitialMarking(start) == Add(EMPTY, AtModel(start));
      StartGood(start);
    } else {
      var init, last := fs[..|fs| - 1], fs[|fs| - 1];
      RunKeeps(start, init);
      var m := Run(InitialMarking(start), init).value;
      var t :| m == Add(EMPTY, t) && Good(t, start, PastOf(init));
      FireGood(t, last, start, PastOf(init));
    }
  }

  lemma StartGood(start: LoopState)
    requires ValidLoop(start)
    ensures Good(AtModel(start), start, NOTHING)
  {
  }

  /**
    Every reachable marking holds one token; a handler never raises on it; an
    activity's answer is refused exactly when its own checks reject it; and until
    the loop is done exactly one transition of the Net is enabled.
    */
  lemma LoopIsSafe(start: LoopState, fs: seq<Firing>, f: Firing)
    requires ValidLoop(start) && Run(InitialMarking(start), fs).Some?
    ensures var m := Run(InitialMarking(start), fs).value;
            && TokenCount(m) == 1
            && (Fire(m, f).Raised? ==> !Answers(m, f) && (f.ModelPhase? || f.ExecuteTool?))
            && (m.done != [] <==> forall f' :: Fire(m, f').Disabled?)
            && (!Fire(m, f).Disabled? ==> forall f' :: !Fire(m, f').Disabled? ==> TransitionOf(f') == TransitionOf(f))
  {
    RunKeeps(start, fs);
    var m := Run(InitialMarking(start), fs).value;
    var t :| m == Add(EMPTY, t) && Good(t, start, PastOf(fs));
    LandedOnly(t);
    FireGood(t, f, start, PastOf(fs));
    assert t.AtTool? ==> ValidWork(t.work);
    hide Good, Run, ValidLoop, Answers, ValidWork;
    EnabledUntilDone(t);
    if !Fire(m, f).Disabled? {
      OneTransition(t, f);
    }
    hide Fire;
  }

  datatype Transition = ModelPhaseT | ClassifyT | ExecuteT | RejectT | RecordT

  /** Which of the five transitions a firing is of, whatever its activity answers. */
  function TransitionOf(f: Firing): Transition {
    match f
    case ModelPhase(_) => ModelPhaseT
    case ClassifyModel => ClassifyT
    case ExecuteTool(_) => ExecuteT
    case Reject => RejectT
    case Record => RecordT
  }

  lemma OneTransition(t: Token, f: Firing)
    requires t.AtTool? ==> ValidWork(t.work)
    requires !Fire(Add(EMPTY, t), f).Disabled?
    ensures forall f' :: !Fire(Add(EMPTY, t), f').Disabled? ==> TransitionOf(f') == TransitionOf(f)
  {
    hide Classify, RejectTool, RecordResult, ValidLoop, ValidResult, ValidSettlement, ValidHands, ValidWork;
  }

  lemma EnabledUntilDone(t: Token)
    ensures t.AtDone? <==> forall f :: Fire(Add(EMPTY, t), f).Disabled?
    ensures t.AtDone? <==> Add(EMPTY, t).done != []
  {
    hide Classify, RejectTool, RecordResult, ValidLoop, ValidResult, ValidSettlement, ValidHands;
    assert t.AtDone? || !Fire(Add(EMPTY, t), Enabled(t)).Disabled?;
  }

  /** A transition that is not disabled on this token. */
  function Enabled(t: Token): Firing {
    match t
    case AtModel(s) => ModelPhase(ModelSettlement(s, Stop, "", "", "", []))
    case AtSettled(_) => ClassifyModel
    case AtTool(w) =>
      if ValidWork(w) && !Allowed(w) then Firing.Reject else ExecuteTool(ModelResult("", None, None))
    case AtHands(_) => Record
    case AtDone(_) => Record
  }

  // ---- Termination --------------------------------------------------------

  /** One phase costs at most a model phase, its classification, and two firings for each of 16 proposals. */
  function PhasesLeft(s: LoopState): int { 34 * (s.phaseLimit - s.phase) }

  /** How many firings can still happen. */
  function Fuel(t: Token): int {
    match t
    case AtModel(s) => PhasesLeft(s) + 34
    case AtSettled(m) => PhasesLeft(m.state) + 33
    case AtTool(w) => PhasesLeft(w.state) + 2 * (|w.proposals| - w.index)
    case AtHands(h) => PhasesLeft(h.work.state) + 2 * (|h.work.proposals| - h.work.index) - 1
    case AtDone(_) => 0
  }

  lemma ContinueBurns(w: ToolWork, s: LoopState)
    requires ValidWork(w) && s.phase == w.state.phase && s.phaseLimit == w.state.phaseLimit
    ensures Continue(w, s).Some? ==>
              0 <= Fuel(Continue(w, s).value)
                <= PhasesLeft(w.state) + 2 * (|w.proposals| - w.index) - 2
  {
    assert 0 <= w.index < |w.proposals| && w.state.phase <= w.state.phaseLimit;
    hide ValidWork, ValidLoop;
  }

  lemma ClassifyBurns(m: ModelSettlement)
    requires ValidSettlement(m)
    ensures Classify(m).Some? ==> 0 <= Fuel(Classify(m).value) < Fuel(AtSettled(m))
  {
    assert m.state.phase <= m.state.phaseLimit && |m.proposals| <= 16;
    hide ValidWork, ValidLoop, ValidSettlement, LengthResults;
  }

  lemma RejectBurns(w: ToolWork)
    requires ValidWork(w)
    ensures RejectTool(w).Some? ==> 0 <= Fuel(RejectTool(w).value) < Fuel(AtTool(w))
  {
    assert 0 <= w.index < |w.proposals| && w.state.phase <= w.state.phaseLimit;
    forall s: LoopState | s.phase == w.state.phase && s.phaseLimit == w.state.phaseLimit
      ensures Continue(w, s).Some? ==>
                0 <= Fuel(Continue(w, s).value) <= PhasesLeft(w.state) + 2 * (|w.proposals| - w.index) - 2
    {
      ContinueBurns(w, s);
    }
    hide ValidWork, ValidLoop, ValidResult, Continue;
  }

  lemma RecordBurns(h: HandsSettlement)
    requires ValidWork(h.work)
    ensures RecordResult(h).Some? ==> 0 <= Fuel(RecordResult(h).value) < Fuel(AtHands(h))
  {
    var w := h.work;
    assert 0 <= w.index < |w.proposals| && w.state.phase <= w.state.phaseLimit;
    ContinueBurns(w, WithResult(w.state, h.result, true));
    hide ValidWork, ValidLoop, ValidHands, Continue;
  }

  function OrElse(o: Option<Token>, t: Token): Token { if o.Some? then o.value else t }

  /** The token that replaces `t` when `f` fires. */
  function Successor(t: Token, f: Firing): Token {
    match t
    case AtModel(_) => if f.ModelPhase? then AtSettled(f.answer) else t
    case AtSettled(m) => OrElse(Classify(m), t)
    case AtTool(w) => if f.ExecuteTool? then AtHands(HandsSettlement(w, f.answered)) else OrElse(RejectTool(w), t)
    case AtHands(h) => OrElse(RecordResult(h), t)
    case AtDone(_) => t
  }

  lemma FireMoves(t: Token, f: Firing)
    requires Fire(Add(EMPTY, t), f).Fired?
    ensures Fire(Add(EMPTY, t), f).marking == Add(EMPTY, Successor(t, f)) && !t.AtDone?
    ensures t.AtModel? ==> f.ModelPhase? && f.answer.state == t.state
    ensures match t {
              case AtSettled(m) => Classify(m) == Some(Successor(t, f))
              case AtTool(w) => f.ExecuteTool? || RejectTool(w) == Some(Successor(t, f))
              case AtHands(h) => RecordResult(h) == Some(Successor(t, f))
              case _ => true
            }
  {
    hide Classify, RejectTool, RecordResult, ValidLoop, ValidWork, ValidHands, ValidSettlement;
  }

  lemma FireBurns(t: Token, f: Firing, start: LoopState, p: Past)
    requires Good(t, start, p) && Fire(Add(EMPTY, t), f).Fired?
    ensures TokenCount(Fire(Add(EMPTY, t), f).marking) == 1
    ensures 0 <= Fuel(Landed(Fire(Add(EMPTY, t), f).marking)) < Fuel(t)
  {
    BudgetsHold(t, start, p);
    FireMoves(t, f);
    LandedOnly(Successor(t, f));
    hide Fire, Add, TokenCount, Landed;
    match t {
      case AtSettled(m) => ClassifyBurns(m);
      case AtTool(w) => RejectBurns(w);
      case AtHands(h) => RecordBurns(h);
      case _ =>
    }
    hide Good, Classify, RejectTool, RecordResult, ValidLoop, ValidWork, ValidHands, ValidSettlement;
  }

  lemma BudgetsHold(t: Token, start: LoopState, p: Past)
    requires Good(t, start, p)
    ensures 0 <= Fuel(t) && (!t.AtDone? ==> 0 < Fuel(t))
    ensures t.AtTool? ==> 2 <= Fuel(t)
  {
    hide Text, Digest, Unique, ValidResult, ResultIds, ProposalIds, Batch;
  }

  /** The token of a marking with one token. */
  function Landed(m: Marking): Token
    requires TokenCount(m) == 1
  {
    if m.modelPending != [] then AtModel(m.modelPending[0])
    else if m.modelSettled != [] then AtSettled(m.modelSettled[0])
    else if m.toolPending != [] then AtTool(m.toolPending[0])
    else if m.toolSettled != [] then AtHands(m.toolSettled[0])
    else AtDone(m.done[0])
  }

  lemma LandedOnly(t: Token)
    ensures TokenCount(Add(EMPTY, t)) == 1 && Landed(Add(EMPTY, t)) == t
  {
  }

  lemma {:induction false} RunBurns(start: LoopState, fs: seq<Firing>)
    requires ValidLoop(start) && Run(InitialMarking(start), fs).Some?
    ensures var m := Run(InitialMarking(start), fs).value;
            TokenCount(m) == 1 && 0 <= Fuel(Landed(m)) && |fs| + Fuel(Landed(m)) <= Fuel(AtModel(start))
    decreases |fs|
  {
    if fs == [] {
      StartGood(start);
      BudgetsHold(AtModel(start), start, NOTHING);
    } else {
      hide ValidLoop, Fire, Good, Fuel;
      var init, last := fs[..|fs| - 1], fs[|fs| - 1];
      RunBurns(start, init);
      RunKeeps(start, init);
      var m := Run(InitialMarking(start), init).value;
      var t :| m == Add(EMPTY, t) && Good(t, start, PastOf(init));
      LandedOnly(t);
      FireBurns(t, last, start, PastOf(init));
    }
  }

  /**
    No run is longer than 34 firings per remaining phase, and one that cannot go
    on holds a terminal whose counts are those of the run: the phases settled, the
    tools executed, each within its limit, and a budget code only at that limit; and
    which refers to the start's episode and turn and to the last model answer's output
    and continuation.
    */
  lemma LoopTerminates(start: LoopState, fs: seq<Firing>)
    requires ValidLoop(start) && Run(InitialMarking(start), fs).Some?
    ensures |fs| <= 34 * (start.phaseLimit - start.phase + 1)
    ensures var m := Run(InitialMarking(start), fs).value;
            (forall f :: Fire(m, f).Disabled?) ==>
              && |m.done| == 1
              && var d, p := m.done[0], PastOf(fs);
                 && d.phases == start.phase + p.models - 1 <= start.phaseLimit
                 && d.tools == start.toolCount + p.tools <= start.toolLimit
                 && (d.code.PhaseBudget? ==> d.phases == start.phaseLimit)
                 && (d.code.ToolBudget? ==> d.tools == start.toolLimit)
                 && d.episode == start.episode && d.turn == start.turn
                 && p.latest.Some? && d.output == p.latest.value.output
                 && d.continuation == p.latest.value.continuation
  {
    RunBurns(start, fs);
    RunKeeps(start, fs);
    var m := Run(InitialMarking(start), fs).value;
    var t :| m == Add(EMPTY, t) && Good(t, start, PastOf(fs));
    EnabledUntilDone(t);
    hide Run, Fire, ValidLoop, ValidWork, ValidHands, ValidSettlement, ValidTerminal;
  }

  /** What the results of one good token answer. */
  ghost predicate InOrder(t: Token, p: Past) {
    var batch := BatchOf(p);
    match t
    case AtTool(w) =>
      0 <= w.index < |batch| && w.state.results == p.results && ResultIds(p.results) == batch[..w.index]
    case AtHands(h) =>
      && 0 <= h.work.index < |batch| && h.work.state.results + [h.result] == p.results
      && ResultIds(p.results) == batch[..h.work.index + 1]
    case AtModel(s) => p.models > 0 ==> s.results == p.results && ResultIds(p.results) == batch
    case _ => true
  }

  lemma PrefixIds(ps: seq<Proposal>, k: nat)
    requires k <= |ps|
    ensures ProposalIds(ps[..k]) == ProposalIds(ps)[..k]
  {
  }

  lemma GoodIsInOrder(t: Token, start: LoopState, p: Past)
    requires Good(t, start, p)
    ensures InOrder(t, p)
  {
    match t {
      case AtTool(w) => PrefixIds(w.proposals, w.index);
      case AtHands(h) =>
        ResultExtends(h.work, h.result);
        PrefixIds(h.work.proposals, h.work.index + 1);
      case _ =>
    }
    hide ValidLoop, ValidResult, Batch, Digest, Tallied;
  }

  /**
    In every run each proposal of a phase is answered once, in order, with what the
    firings answered it: while tools run, the results are the answers to the proposals
    before the current one, and the next model phase starts from those to the batch.
    */
  lemma ResultsInOrder(start: LoopState, fs: seq<Firing>)
    requires ValidLoop(start) && Run(InitialMarking(start), fs).Some?
    ensures var m := Run(InitialMarking(start), fs).value; TokenCount(m) == 1 && InOrder(Landed(m), PastOf(fs))
  {
    RunKeeps(start, fs);
    var m := Run(InitialMarking(start), fs).value;
    var t :| m == Add(EMPTY, t) && Good(t, start, PastOf(fs));
    LandedOnly(t);
    hide Run, Add, Landed, TokenCount, ValidLoop;
    GoodIsInOrder(t, start, PastOf(fs));
    hide InOrder, Good;
  }

  // ---- What a phase starts from -------------------------------------------

  /** The last model answer of a run, read off its firings. */
  function LastAnswer(fs: seq<Firing>): Option<ModelSettlement>
    decreases |fs|
  {
    if fs == [] then None
    else if fs[|fs| - 1].ModelPhase? then Some(fs[|fs| - 1].answer)
    else LastAnswer(fs[..|fs| - 1])
  }

  lemma {:induction false} LatestIsLast(fs: seq<Firing>)
    ensures PastOf(fs).latest == LastAnswer(fs)
    decreases |fs|
  {
    if fs == [] {
    } else {
      LatestIsLast(fs[..|fs| - 1]);
    }
  }

  /**
    In every run, a state that waits for a model phase is the start itself or carries
    the output and continuation of the answer before it and the whole turn of the
    start; and a terminal refers to the last answer of the run.
    */
  lemma PhasesCarryOn(start: LoopState, fs: seq<Firing>)
    requires ValidLoop(start) && Run(InitialMarking(start), fs).Some?
    ensures var m := Run(InitialMarking(start), fs).value; var last := LastAnswer(fs);
            && TokenCount(m) == 1
            && (m.modelPending != [] ==>
                  var s := m.modelPending[0];
                  && SameTurn(s, start) && (last.None? ==> s == start)
                  && (last.Some? ==> s.output == Some(last.value.output)
                                     && s.continuation == Some(last.value.continuation)))
            && (m.modelSettled != [] ==> last == Some(m.modelSettled[0]))
            && (m.toolPending != [] ==> last.Some? && m.toolPending[0].proposals == last.value.proposals
                                        && m.toolPending[0].digest == last.value.digest)
            && (m.done != [] ==>
                  && last.Some? && m.done[0].output == last.value.output
                  && m.done[0].continuation == last.value.continuation
                  && m.done[0].episode == start.episode && m.done[0].turn == start.turn)
  {
    LatestIsLast(fs);
    RunKeeps(start, fs);
    var m := Run(InitialMarking(start), fs).value;
    var t :| m == Add(EMPTY, t) && Good(t, start, PastOf(fs));
    LandedOnly(t);
    AnsweredOnce(fs);
    hide Run, ValidLoop, ValidWork, ValidHands, ValidSettlement, ValidTerminal;
  }

  lemma {:induction false} AnsweredOnce(fs: seq<Firing>)
    ensures PastOf(fs).models > 0 <==> PastOf(fs).latest.Some?
    decreases |fs|
  {
    if fs == [] {
    } else {
      AnsweredOnce(fs[..|fs| - 1]);
    }
  }

  // ---- Which tools run ----------------------------------------------------

  /**
    In every run, a tool that runs is one that the start grants, while its tool budget
    lasts, and it is the next unanswered proposal of the last model answer; a proposal
    is rejected only when that is not so.
    */
  lemma OnlyGrantedToolsRun(start: LoopState, fs: seq<Firing>, f: Firing)
    requires ValidLoop(start) && Run(InitialMarking(start), fs).Some?
    requires Fire(Run(InitialMarking(start), fs).value, f).Fired? && (f.ExecuteTool? || f.Reject?)
    ensures var p := PastOf(fs);
            && |p.results| < |Proposed(p)|
            && var proposal := Proposed(p)[|p.results|];
               && (f.ExecuteTool? ==> f.answered.id == proposal.id)
               && (f.ExecuteTool? <==>
                     proposal.tool in start.capabilities && start.toolCount + p.tools < start.toolLimit)
  {
    RunKeeps(start, fs);
    var m := Run(InitialMarking(start), fs).value;
    var t :| m == Add(EMPTY, t) && Good(t, start, PastOf(fs));
    hide Run, ValidLoop, ValidResult, Batch, Digest, RejectTool;
    assert t.AtTool?;
  }

  // ---- Why it ended -------------------------------------------------------

  predicate Acts(m: ModelSettlement) { m.proposals != [] && !m.stop.Errored? && !m.stop.Aborted? }

  /** Each terminal code has exactly one kind of cause. */
  ghost predicate Caused(t: Token, f: Firing, code: Code) {
    match code
    case Failed => t.AtSettled? && t.settled.stop.Errored?
    case Completed => t.AtSettled? && t.settled.proposals == [] && !t.settled.stop.Errored? && !t.settled.stop.Aborted?
    case Cancelled =>
      || (t.AtSettled? && t.settled.stop.Aborted?)
      || (t.AtHands? && t.hands.result.error.Some? && t.hands.result.error.value.category == "aborted")
    case ToolBudget =>
      || (t.AtSettled? && Acts(t.settled) && !t.settled.stop.Length?
          && t.settled.state.toolCount == t.settled.state.toolLimit)
      || (t.AtTool? && t.work.state.toolCount == t.work.state.toolLimit)
    case PhaseBudget =>
      || (t.AtSettled? && Acts(t.settled) && t.settled.stop.Length?
          && t.settled.state.phase == t.settled.state.phaseLimit)
      || (t.AtTool? && t.work.index + 1 == |t.work.proposals| && t.work.state.phase == t.work.state.phaseLimit
          && t.work.state.toolCount < t.work.state.toolLimit)
      || (t.AtHands? && t.hands.work.index + 1 == |t.hands.work.proposals|
          && t.hands.work.state.phase == t.hands.work.state.phaseLimit)
  }

  lemma WhyClassified(m: ModelSettlement, f: Firing, start: LoopState, p: Past)
    requires Good(AtSettled(m), start, p) && Classify(m).Some? && Classify(m).value.AtDone?
    ensures Caused(AtSettled(m), f, Classify(m).value.terminal.code)
  {
    hide Text, Digest, Batch, Unique, ValidResult, ResultIds, ProposalIds, ValidTerminal, ValidWork, LengthResults;
  }

  lemma WhyRejected(w: ToolWork, f: Firing, start: LoopState, p: Past)
    requires Good(AtTool(w), start, p) && RejectTool(w).Some? && RejectTool(w).value.AtDone?
    ensures Caused(AtTool(w), f, RejectTool(w).value.terminal.code)
  {
    hide Text, Digest, Batch, Unique, ValidResult, ResultIds, ProposalIds, ValidTerminal;
  }

  lemma WhyRecorded(h: HandsSettlement, f: Firing, start: LoopState, p: Past)
    requires Good(AtHands(h), start, p) && RecordResult(h).Some? && RecordResult(h).value.AtDone?
    ensures Caused(AtHands(h), f, RecordResult(h).value.terminal.code)
  {
    hide Text, Digest, Batch, Unique, ValidResult, ResultIds, ProposalIds, ValidTerminal;
  }

  lemma WhyDone(t: Token, f: Firing, start: LoopState, p: Past)
    requires Good(t, start, p) && Fire(Add(EMPTY, t), f).Fired? && Successor(t, f).AtDone?
    ensures Caused(t, f, Successor(t, f).terminal.code)
  {
    hide Fire, Add, Good, Caused, Classify, RejectTool, RecordResult;
    FireMoves(t, f);
    match t {
      case AtSettled(m) => WhyClassified(m, f, start, p);
      case AtTool(w) => WhyRejected(w, f, start, p);
      case AtHands(h) => WhyRecorded(h, f, start, p);
      case _ =>
    }
  }

  /** In every run, the firing that ends the loop explains the code it ends with. */
  lemma EndIsExplained(start: LoopState, fs: seq<Firing>, f: Firing)
    requires ValidLoop(start) && Run(InitialMarking(start), fs).Some? && Run(InitialMarking(start), fs + [f]).Some?
    requires Run(InitialMarking(start), fs + [f]).value.done != []
    ensures var m := Run(InitialMarking(start), fs).value;
            && TokenCount(m) == 1
            && Caused(Landed(m), f, Run(InitialMarking(start), fs + [f]).value.done[0].code)
  {
    assert (fs + [f])[..|fs|] == fs;
    RunKeeps(start, fs);
    var m := Run(InitialMarking(start), fs).value;
    var t :| m == Add(EMPTY, t) && Good(t, start, PastOf(fs));
    LandedOnly(t);
    FireMoves(t, f);
    LandedOnly(Successor(t, f));
    hide Fire, Good, Caused, Successor;
    WhyDone(t, f, start, PastOf(fs));
  }

  /** A tool that may not run is answered in its place with the reason, without counting as executed. */
  lemma RejectionAnswers(w: ToolWork, start: LoopState, p: Past)
    requires GoodWork(w, start, p, p.results) && !Allowed(w) && w.state.toolCount < w.state.toolLimit
    ensures RejectTool(w).Some?
    ensures var t := RejectTool(w).value;
            var r := ModelResult(w.proposals[w.index].id, None,
                                 Some(Problem("capability", "tool is unsupported or not granted")));
            && (t.AtTool? ==> t.work == w.(index := w.index + 1, state := w.state.(results := w.state.results + [r])))
            && (t.AtModel? ==> t.state == w.state.(phase := w.state.phase + 1, results := w.state.results + [r]))
            && !t.AtSettled? && !t.AtHands?
  {
    RejectGood(w, start, p);
    hide ValidLoop, ValidWork, ValidResult, Text;
  }
}
