/**
  The Agent-as-Net loop (`program/agent_net.py`): five places, five transitions
  and the handlers that build the next token.  Every value is checked by its
  constructor, so a handler may raise; the external activities may answer
  anything.
  */
module AgentNet {
  import opened Options

  const MAX_PROPOSALS: nat := 16
  const MAX_PHASES: nat := 16
  const MAX_TOOLS: nat := 64
  const TEXT_LIMIT: nat := 256
  const DETAIL_LIMIT: nat := 128
  const CATEGORIES: set<string> :=
    {"capability", "path", "argv", "write", "unknown", "deadline", "aborted", "stale_epoch", "post_fence", "provider",
     "schema", "authority", "budget"}

  // ---- Values and their constructors --------------------------------------

  datatype StopReason = Stop | ToolUse | Length | Errored | Aborted
  datatype Code = Completed | Failed | Cancelled | PhaseBudget | ToolBudget

  datatype Problem = Problem(category: string, detail: string)
  datatype Proposal = Proposal(id: string, tool: string, params: string)
  datatype ModelResult = ModelResult(id: string, data: Option<string>, error: Option<Problem>)

  datatype LoopState = LoopState(
    episode: string, turn: string, phase: int, phaseLimit: int, toolCount: int, toolLimit: int,
    output: Option<string>, continuation: Option<string>, grantEpoch: int, capabilities: set<string>,
    results: seq<ModelResult>)

  datatype ModelSettlement = ModelSettlement(
    state: LoopState, stop: StopReason, digest: string, output: string, continuation: string, proposals: seq<Proposal>)

  datatype ToolWork = ToolWork(state: LoopState, digest: string, proposals: seq<Proposal>, index: int)
  datatype HandsSettlement = HandsSettlement(work: ToolWork, result: ModelResult)

  datatype Terminal = Terminal(
    episode: string, turn: string, code: Code, phases: int, tools: int, output: string, continuation: string)

  predicate Text(s: string) {
    && 0 < |s| <= TEXT_LIMIT && s[0] != ' ' && s[|s| - 1] != ' '
    && forall i :: 0 <= i < |s| ==> 32 <= s[i] as int
  }

  predicate OptionalText(s: Option<string>) { s.Some? ==> Text(s.value) }

  predicate Digest(s: string) {
    |s| == 64 && forall i :: 0 <= i < |s| ==> '0' <= s[i] <= '9' || 'a' <= s[i] <= 'f'
  }

  predicate ValidProposal(p: Proposal) { Text(p.id) && Text(p.tool) }

  predicate ValidResult(r: ModelResult) {
    && Text(r.id) && r.data.Some? == r.error.None?
    && (r.error.Some? ==>
          r.error.value.category in CATEGORIES && Text(r.error.value.detail) && |r.error.value.detail| <= DETAIL_LIMIT)
  }

  function ResultIds(rs: seq<ModelResult>): (ids: seq<string>)
    ensures |ids| == |rs| && forall i :: 0 <= i < |rs| ==> ids[i] == rs[i].id
  {
    seq(|rs|, i requires 0 <= i < |rs| => rs[i].id)
  }

  function ProposalIds(ps: seq<Proposal>): (ids: seq<string>)
    ensures |ids| == |ps| && forall i :: 0 <= i < |ps| ==> ids[i] == ps[i].id
  {
    seq(|ps|, i requires 0 <= i < |ps| => ps[i].id)
  }

  predicate Unique(ids: seq<string>) { forall i, j :: 0 <= i < j < |ids| ==> ids[i] != ids[j] }

  predicate Batch(ps: seq<Proposal>) {
    |ps| <= MAX_PROPOSALS && Unique(ProposalIds(ps)) && forall i :: 0 <= i < |ps| ==> ValidProposal(ps[i])
  }

  predicate ValidLoop(s: LoopState) {
    && Text(s.episode) && Text(s.turn) && OptionalText(s.output) && OptionalText(s.continuation)
    && s.output.Some? == s.continuation.Some?
    && 1 <= s.phase <= s.phaseLimit <= MAX_PHASES
    && 0 <= s.toolCount <= s.toolLimit <= MAX_TOOLS
    && s.grantEpoch > 0 && (forall c :: c in s.capabilities ==> Text(c))
    && |s.results| <= MAX_PROPOSALS && Unique(ResultIds(s.results))
    && (forall i :: 0 <= i < |s.results| ==> ValidResult(s.results[i]))
  }

  predicate ValidSettlement(m: ModelSettlement) {
    ValidLoop(m.state) && Digest(m.digest) && Text(m.output) && Text(m.continuation) && Batch(m.proposals)
  }

  predicate ValidWork(w: ToolWork) {
    && ValidLoop(w.state) && Digest(w.digest) && Batch(w.proposals)
    && 0 <= w.index < |w.proposals|
    && ResultIds(w.state.results) == ProposalIds(w.proposals[..w.index])
  }

  predicate ValidHands(h: HandsSettlement) {
    ValidWork(h.work) && ValidResult(h.result) && h.result.id == h.work.proposals[h.work.index].id
  }

  predicate ValidTerminal(t: Terminal) {
    Text(t.episode) && Text(t.turn) && 1 <= t.phases <= MAX_PHASES && 0 <= t.tools <= MAX_TOOLS
    && Text(t.output) && Text(t.continuation)
  }

  // ---- Tokens and handlers ------------------------------------------------

  datatype Token =
    | AtModel(state: LoopState)
    | AtSettled(settled: ModelSettlement)
    | AtTool(work: ToolWork)
    | AtHands(hands: HandsSettlement)
    | AtDone(terminal: Terminal)

  function LoopToken(s: LoopState): Option<Token> { if ValidLoop(s) then Some(AtModel(s)) else None }

  function TerminalToken(s: LoopState, code: Code): Option<Token> {
    if s.output.None? || s.continuation.None? then None
    else
      var t := Terminal(s.episode, s.turn, code, s.phase, s.toolCount, s.output.value, s.continuation.value);
      if ValidTerminal(t) then Some(AtDone(t)) else None
  }

  predicate Allowed(w: ToolWork)
    requires 0 <= w.index < |w.proposals|
  {
    w.proposals[w.index].tool in w.state.capabilities && w.state.toolCount < w.state.toolLimit
  }

  /** `_next` without the constructor's check. */
  function WithResult(s: LoopState, r: ModelResult, executed: bool): LoopState {
    s.(toolCount := s.toolCount + if executed then 1 else 0, results := s.results + [r])
  }

  /** `_continue`: the following proposal, the next phase, or the end of the phases. */
  function Continue(w: ToolWork, s: LoopState): Option<Token> {
    if !ValidLoop(s) then None
    else if w.index + 1 < |w.proposals| then
      var following := w.(state := s, index := w.index + 1);
      if ValidWork(following) then Some(AtTool(following)) else None
    else if s.phase >= s.phaseLimit then TerminalToken(s, PhaseBudget)
    else LoopToken(s.(phase := s.phase + 1))
  }

  function LengthResult(p: Proposal): ModelResult {
    ModelResult(p.id, None, Some(Problem("provider", "proposal rejected after length stop")))
  }

  function LengthResults(ps: seq<Proposal>): seq<ModelResult> {
    seq(|ps|, i requires 0 <= i < |ps| => LengthResult(ps[i]))
  }

  function Classify(m: ModelSettlement): Option<Token> {
    var s := m.state.(output := Some(m.output), continuation := Some(m.continuation), results := []);
    if !ValidSettlement(m) || !ValidLoop(s) then None
    else if m.stop.Errored? then TerminalToken(s, Failed)
    else if m.stop.Aborted? then TerminalToken(s, Cancelled)
    else if m.proposals == [] then TerminalToken(s, Completed)
    else if m.stop.Length? then
      var answered := s.(results := LengthResults(m.proposals));
      if !ValidLoop(answered) then None
      else if s.phase >= s.phaseLimit then TerminalToken(answered, PhaseBudget)
      else LoopToken(answered.(phase := s.phase + 1))
    else if s.toolCount >= s.toolLimit then TerminalToken(s, ToolBudget)
    else
      var work := ToolWork(s, m.digest, m.proposals, 0);
      if ValidWork(work) then Some(AtTool(work)) else None
  }

  function RejectTool(w: ToolWork): Option<Token> {
    if !ValidWork(w) then None
    else
      var budget := w.state.toolCount >= w.state.toolLimit;
      var problem := if budget then Problem("budget", "tool budget exhausted")
                     else Problem("capability", "tool is unsupported or not granted");
      var r := ModelResult(w.proposals[w.index].id, None, Some(problem));
      var s := WithResult(w.state, r, false);
      if !ValidResult(r) || !ValidLoop(s) then None
      else if budget then TerminalToken(s, ToolBudget)
      else Continue(w, s)
  }

  function RecordResult(h: HandsSettlement): Option<Token> {
    var s := WithResult(h.work.state, h.result, true);
    if !ValidHands(h) || !ValidLoop(s) then None
    else if h.result.error.Some? && h.result.error.value.category == "aborted" then TerminalToken(s, Cancelled)
    else Continue(h.work, s)
  }

  // ---- The Net ------------------------------------------------------------

  datatype Marking = Marking(modelPending: seq<LoopState>, modelSettled: seq<ModelSettlement>,
                             toolPending: seq<ToolWork>, toolSettled: seq<HandsSettlement>, done: seq<Terminal>)

  /** The activities' answers come with the firing. */
  datatype Firing =
    ModelPhase(answer: ModelSettlement) | ClassifyModel | ExecuteTool(answered: ModelResult) | Reject | Record

  datatype Outcome = Disabled | Raised | Fired(marking: Marking)

  const EMPTY := Marking([], [], [], [], [])

  function Add(m: Marking, t: Token): Marking {
    match t
    case AtModel(s) => m.(modelPending := m.modelPending + [s])
    case AtSettled(s) => m.(modelSettled := m.modelSettled + [s])
    case AtTool(w) => m.(toolPending := m.toolPending + [w])
    case AtHands(h) => m.(toolSettled := m.toolSettled + [h])
    case AtDone(d) => m.(done := m.done + [d])
  }

  function Deposit(m: Marking, t: Option<Token>): Outcome { if t.None? then Raised else Fired(Add(m, t.value)) }

  /** Consume the oldest token of the transition's place, run its handler and deposit what it builds. */
  function Fire(m: Marking, f: Firing): Outcome {
    match f
    case ModelPhase(answer) =>
      if m.modelPending == [] then Disabled
      else if ValidLoop(m.modelPending[0]) && ValidSettlement(answer) && answer.state == m.modelPending[0] then
        Fired(Add(m.(modelPending := m.modelPending[1..]), AtSettled(answer)))
      else Raised
    case ClassifyModel =>
      if m.modelSettled == [] then Disabled
      else Deposit(m.(modelSettled := m.modelSettled[1..]), Classify(m.modelSettled[0]))
    case ExecuteTool(r) =>
      if m.toolPending == [] then Disabled
      else
        var w := m.toolPending[0];
        if !ValidWork(w) then Raised
        else if !Allowed(w) then Disabled
        else if ValidHands(HandsSettlement(w, r)) then
          Fired(Add(m.(toolPending := m.toolPending[1..]), AtHands(HandsSettlement(w, r))))
        else Raised
    case Reject =>
      if m.toolPending == [] then Disabled
      else
        var w := m.toolPending[0];
        if !ValidWork(w) then Raised
        else if Allowed(w) then Disabled
        else Deposit(m.(toolPending := m.toolPending[1..]), RejectTool(w))
    case Record =>
      if m.toolSettled == [] then Disabled
      else Deposit(m.(toolSettled := m.toolSettled[1..]), RecordResult(m.toolSettled[0]))
  }

  function InitialMarking(s: LoopState): Marking { Marking([s], [], [], [], []) }

  function TokenCount(m: Marking): nat {
    |m.modelPending| + |m.modelSettled| + |m.toolPending| + |m.toolSettled| + |m.done|
  }

  /** A run in which every firing fires. */
  function Run(m: Marking, fs: seq<Firing>): Option<Marking>
    decreases |fs|
  {
    if fs == [] then Some(m)
    else
      var before := Run(m, fs[..|fs| - 1]);
      if before.None? then None
      else
        var last := Fire(before.value, fs[|fs| - 1]);
        if last.Fired? then Some(last.marking) else None
  }
}
