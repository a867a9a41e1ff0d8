/**
  Net authoring (`src/petrus/impetus/dsl.py`) on values: specifications that own
  nodes, carry reusable stamps of other specifications and layer partial
  overrides over what the stamps bring in.  `Source` is the recursive lookup
  that gives a path its meaning; `Compose` is the flattening compiler.

  Places and transitions share one treatment, so a node is a kind and a path;
  a specification object is an entry of the authoring heap.
  */
module NetSpec {
  import opened Options

  type Path = seq<string>
  type SpecId = nat
  datatype Kind = Place | Transition
  datatype Node = Node(kind: Kind, path: Path)

  /** A place's colour, or a transition's handler, guards and timers. */
  datatype Config =
    | Colour(colour: Option<string>)
    | Behaviour(handler: Option<string>, guards: seq<string>, timers: seq<string>)

  /** A layer over an inherited configuration; an absent field is left alone. */
  datatype Patch =
    | Recolour(colour: Option<string>)
    | Change(handler: Option<Option<string>>, guards: Option<seq<string>>, timers: Option<seq<string>>)

  datatype Event = Declared(node: Node) | Connected(source: Node, target: Node, arc: string) | Stamped(path: Path)

  datatype Spec = Spec(
    completion: bool,
    handles: set<Node>,
    nodes: set<Node>,
    configs: map<Node, Config>,
    overrides: map<Node, Patch>,
    stamps: map<Path, SpecId>,
    events: seq<Event>)

  type Heap = map<SpecId, Spec>

  function Default(kind: Kind): Config {
    match kind case Place => Colour(None) case Transition => Behaviour(None, [], [])
  }

  function Or<T>(patch: Option<T>, old_: T): T { if patch.Some? then patch.value else old_ }

  function Apply(patch: Patch, config: Config): Config {
    match patch
    case Recolour(colour) => Colour(colour)
    case Change(handler, guards, timers) =>
      if config.Colour? then config
      else Behaviour(Or(handler, config.handler), Or(guards, config.guards), Or(timers, config.timers))
  }

  /** The layer that acts like `inner` followed by `outer`. */
  function Merge(inner: Patch, outer: Patch): Patch {
    match (inner, outer)
    case (Change(h, g, t), Change(h', g', t')) =>
      Change(if h'.Some? then h' else h, if g'.Some? then g' else g, if t'.Some? then t' else t)
    case _ => outer
  }

  // ---- Stamps and meaning -------------------------------------------------

  /** `_stamp_for`: the length of the longest stamp prefix of `path`, looking at prefixes up to `k`. */
  function StampLength(stamps: map<Path, SpecId>, path: Path, k: nat): (r: Option<nat>)
    requires k <= |path|
    ensures r.Some? ==> r.value <= k && path[..r.value] in stamps
    ensures r.None? ==> forall j :: 0 <= j <= k ==> path[..j] !in stamps
    ensures r.Some? ==> forall j :: r.value < j <= k ==> path[..j] !in stamps
  {
    if path[..k] in stamps then Some(k)
    else if k == 0 then None
    else StampLength(stamps, path, k - 1)
  }

  function StampFor(spec: Spec, path: Path): (r: Option<nat>)
    ensures r.Some? ==> r.value <= |path| && path[..r.value] in spec.stamps
    ensures r.None? <==> forall j :: 0 <= j <= |path| ==> path[..j] !in spec.stamps
  {
    StampLength(spec.stamps, path, |path|)
  }

  ghost predicate Closed(heap: Heap) {
    forall id :: id in heap ==>
      forall p :: p in heap[id].stamps ==> p != [] && heap[id].stamps[p] in heap
  }

  /** What a path of a specification means: does the node exist, is it configured, and how. */
  datatype Meaning = Meaning(exists_: bool, configured: bool, config: Config)

  function Absent(kind: Kind): Meaning { Meaning(false, false, Default(kind)) }

  function Own(spec: Spec, node: Node): Meaning {
    Meaning(node in spec.nodes, node in spec.configs,
            if node in spec.configs then spec.configs[node] else Default(node.kind))
  }

  /** `_source_place` and `_source_transition`. */
  function Source(heap: Heap, id: SpecId, node: Node): Meaning
    requires Closed(heap) && id in heap
    decreases |node.path|
  {
    var spec := heap[id];
    if node.path == [] then Absent(node.kind)
    else match StampFor(spec, node.path)
      case None => Own(spec, node)
      case Some(k) =>
        var inner := Source(heap, spec.stamps[node.path[..k]], Node(node.kind, node.path[k..]));
        Layer(spec, node, inner)
  }

  /** One stamping level over an inherited meaning. */
  function Layer(spec: Spec, node: Node, inner: Meaning): Meaning {
    if !inner.exists_ then Absent(node.kind)
    else if node in spec.overrides then Meaning(true, true, Apply(spec.overrides[node], inner.config))
    else inner
  }

  // ---- Well-formed specifications -----------------------------------------

  ghost predicate NonNested(stamps: map<Path, SpecId>) {
    forall p, q :: p in stamps && q in stamps && p <= q ==> p == q
  }

  ghost predicate StampedBy(stamps: map<Path, SpecId>, path: Path) {
    exists p :: p in stamps && p <= path
  }

  /** Owned nodes lie outside every stamp. */
  ghost predicate Disjoint(nodes: set<Node>, stamps: map<Path, SpecId>) {
    forall n :: n in nodes ==> n.path != [] && !StampedBy(stamps, n.path)
  }

  ghost predicate Handled(handles: set<Node>, nodes: set<Node>, stamps: map<Path, SpecId>) {
    forall n :: n in handles ==> n in nodes || StampedBy(stamps, n.path)
  }

  /** Only inherited nodes are overridden. */
  ghost predicate Inherited(overrides: map<Node, Patch>, stamps: map<Path, SpecId>) {
    forall n :: n in overrides ==> StampedBy(stamps, n.path)
  }

  /** The event log declares exactly the owned nodes and exactly the stamps, each stamp once. */
  ghost predicate Eventful(nodes: set<Node>, stamps: map<Path, SpecId>, events: seq<Event>) {
    && (forall n :: n in nodes <==> Declared(n) in events)
    && (forall p :: p in stamps <==> Stamped(p) in events)
    && (forall i, j :: 0 <= i < j < |events| && events[i].Stamped? ==> events[i] != events[j])
  }

  /** What every authoring sequence keeps of one specification. */
  ghost predicate WellFormed(spec: Spec) {
    && NonNested(spec.stamps)
    && (forall p :: p in spec.stamps ==> p != [])
    && Disjoint(spec.nodes, spec.stamps)
    && Handled(spec.handles, spec.nodes, spec.stamps)
    && Inherited(spec.overrides, spec.stamps)
    && spec.configs.Keys <= spec.nodes
    && Eventful(spec.nodes, spec.stamps, spec.events)
  }

  ghost predicate GoodHeap(heap: Heap) {
    Closed(heap) && forall id :: id in heap ==> WellFormed(heap[id])
  }

  lemma StampUnique(spec: Spec, path: Path, prefix: Path)
    requires NonNested(spec.stamps) && prefix in spec.stamps && prefix <= path
    ensures StampFor(spec, path) == Some(|prefix|) && path[..|prefix|] == prefix
  {
    assert path[..|prefix|] == prefix;
    var k := StampFor(spec, path).value;
    assert k <= |prefix| ==> path[..k] <= prefix;
  }

  lemma StampedMeans(spec: Spec, path: Path)
    ensures StampedBy(spec.stamps, path) <==> StampFor(spec, path).Some?
  {
    if StampedBy(spec.stamps, path) {
      var p :| p in spec.stamps && p <= path;
      assert path[..|p|] == p;
    }
    if StampFor(spec, path).Some? {
      assert path[..StampFor(spec, path).value] <= path;
    }
  }

  // ---- The compiler -------------------------------------------------------

  datatype Error = Cycle | RootCompletion | MissingEndpoint | MissingOverride
  datatype Composed = Ok(spec: Spec) | Err(error: Error)

  /** `_node` on the effective specification, which has no stamps. */
  function AddNode(eff: Spec, node: Node): Spec {
    if node in eff.nodes then eff.(handles := eff.handles + {node})
    else eff.(handles := eff.handles + {node}, nodes := eff.nodes + {node}, events := eff.events + [Declared(node)])
  }

  function Prefixed(prefix: Path, node: Node): Node { Node(node.kind, prefix + node.path) }

  /** `_relative`, on a node under `prefix`. */
  function Relative(prefix: Path, node: Node): Node {
    Node(node.kind, if |prefix| <= |node.path| then node.path[|prefix|..] else [])
  }

  function Declare(spec: Spec, eff: Spec, prefix: Path, node: Node): Spec {
    var added := AddNode(eff, Prefixed(prefix, node));
    if node in spec.configs then added.(configs := added.configs[Prefixed(prefix, node) := spec.configs[node]])
    else added
  }

  function Connect(eff: Spec, prefix: Path, source: Node, target: Node, arc: string): Spec {
    var added := AddNode(AddNode(eff, Prefixed(prefix, source)), Prefixed(prefix, target));
    added.(events := added.events + [Connected(Prefixed(prefix, source), Prefixed(prefix, target), arc)])
  }

  /** `_compose`: everything of `id`, then this level's overrides on top. */
  function Compose(heap: Heap, id: SpecId, eff: Spec, prefix: Path, stack: set<SpecId>): Composed
    requires Closed(heap) && id in heap
    decreases heap.Keys - stack, 0
  {
    if id in stack then Err(Cycle)
    else if prefix != [] && heap[id].completion then Err(RootCompletion)
    else match ComposeEvents(heap, id, heap[id].events, eff, prefix, stack + {id})
      case Err(e) => Err(e)
      case Ok(eff') =>
        if exists n :: n in heap[id].overrides && !Source(heap, id, n).exists_ then Err(MissingOverride)
        else Ok(Overlay(heap, id, eff', prefix))
  }

  /** Write every override's full current value over what the stamps left. */
  function Overlay(heap: Heap, id: SpecId, eff: Spec, prefix: Path): Spec
    requires Closed(heap) && id in heap
  {
    var targets := set n | n in heap[id].overrides :: Prefixed(prefix, n);
    eff.(configs := eff.configs + map m | m in targets :: Source(heap, id, Relative(prefix, m)).config)
  }

  function ComposeEvents(heap: Heap, id: SpecId, events: seq<Event>, eff: Spec, prefix: Path, stack: set<SpecId>)
    : Composed
    requires Closed(heap) && id in heap
    decreases heap.Keys - stack, 1 + |events|
  {
    if events == [] then Ok(eff)
    else
      match events[0]
      case Declared(node) =>
        ComposeEvents(heap, id, events[1..], Declare(heap[id], eff, prefix, node), prefix, stack)
      case Connected(source, target, arc) =>
        if !Source(heap, id, source).exists_ || !Source(heap, id, target).exists_ then Err(MissingEndpoint)
        else ComposeEvents(heap, id, events[1..], Connect(eff, prefix, source, target, arc), prefix, stack)
      case Stamped(path) =>
        if path !in heap[id].stamps then ComposeEvents(heap, id, events[1..], eff, prefix, stack)
        else match Compose(heap, heap[id].stamps[path], eff, prefix + path, stack)
          case Err(e) => Err(e)
          case Ok(eff') => ComposeEvents(heap, id, events[1..], eff', prefix, stack)
  }

  function Empty(completion: bool): Spec {
    Spec(completion, {}, {}, map[], map[], map[], [])
  }

  function Flatten(heap: Heap, root: SpecId): Composed
    requires Closed(heap) && root in heap
  {
    Compose(heap, root, Empty(heap[root].completion), [], {})
  }
}
