/**
  Flattening preserves meaning: whenever composition succeeds, every path of the
  flat specification means what the recursive lookup on the root says it means,
  at any stamp depth and under any layering of partial overrides.
  */
module NetMeaning {
  import opened Options
  import opened NetSpec

  /** `node` lies strictly under `prefix`. */
  predicate Under(prefix: Path, node: Node) { prefix < node.path }

  lemma PrefixedRelative(prefix: Path, node: Node)
    ensures Relative(prefix, Prefixed(prefix, node)) == node
    ensures node.path != [] ==> Under(prefix, Prefixed(prefix, node))
    ensures Under(prefix, node) ==>
              Prefixed(prefix, Relative(prefix, node)) == node && Relative(prefix, node).path != []
  {
    assert (prefix + node.path)[|prefix|..] == node.path;
    if Under(prefix, node) {
      assert node.path == node.path[..|prefix|] + node.path[|prefix|..];
    }
  }

  /** Whatever is already declared under `prefix` exists in the specification being composed there. */
  ghost predicate Sub(heap: Heap, id: SpecId, eff: Spec, prefix: Path)
    requires Closed(heap) && id in heap
  {
    forall m :: m in eff.nodes && Under(prefix, m) ==> Source(heap, id, Relative(prefix, m)).exists_
  }

  ghost predicate Unconfigured(eff: Spec, prefix: Path) {
    forall m :: m in eff.configs ==> !Under(prefix, m)
  }

  /** The flat specification, under `prefix`, means exactly what `id` means. */
  ghost predicate Means(heap: Heap, id: SpecId, eff: Spec, prefix: Path)
    requires Closed(heap) && id in heap
  {
    forall m :: Under(prefix, m) ==> Own(eff, m) == Source(heap, id, Relative(prefix, m))
  }

  /** Nothing outside `prefix` changed. */
  ghost predicate Framed(eff: Spec, eff': Spec, prefix: Path) {
    forall m :: !Under(prefix, m) ==> Own(eff', m) == Own(eff, m)
  }

  /** The meaning this level inherits at a stamp, before its own overrides. */
  function Base(heap: Heap, id: SpecId, node: Node): Meaning
    requires Closed(heap) && id in heap
  {
    var spec := heap[id];
    match StampFor(spec, node.path)
    case None => Own(spec, node)
    case Some(k) => Source(heap, spec.stamps[node.path[..k]], Node(node.kind, node.path[k..]))
  }

  lemma SourceIsLayered(heap: Heap, id: SpecId, node: Node)
    requires Closed(heap) && id in heap && node.path != []
    ensures var spec := heap[id];
            Source(heap, id, node) ==
              if StampFor(spec, node.path).Some? then Layer(spec, node, Base(heap, id, node)) else Own(spec, node)
    ensures Source(heap, id, node).exists_ == Base(heap, id, node).exists_
  {
  }

  /** The one node's part of `Means` after a prefix of the events. */
  ghost predicate Settled(heap: Heap, id: SpecId, done: seq<Event>, eff: Spec, prefix: Path, m: Node)
    requires Closed(heap) && id in heap && Under(prefix, m)
  {
    var spec, node := heap[id], Relative(prefix, m);
    match StampFor(spec, node.path)
    case None =>
      && (Declared(node) in done ==> m in eff.nodes)
      && (m in eff.configs <==> Declared(node) in done && node in spec.configs)
      && (m in eff.configs ==> eff.configs[m] == spec.configs[node])
    case Some(k) =>
      if Stamped(node.path[..k]) in done then Own(eff, m) == Base(heap, id, node) else m !in eff.configs
  }

  ghost predicate Progressed(heap: Heap, id: SpecId, done: seq<Event>, eff: Spec, prefix: Path)
    requires Closed(heap) && id in heap
  {
    && Sub(heap, id, eff, prefix)
    && forall m :: Under(prefix, m) ==> Settled(heap, id, done, eff, prefix, m)
  }

  // ---- One event ----------------------------------------------------------

  /** `Progressed` at one node. */
  ghost predicate Fits(heap: Heap, id: SpecId, done: seq<Event>, eff: Spec, prefix: Path, m: Node)
    requires Closed(heap) && id in heap && Under(prefix, m)
  {
    && Settled(heap, id, done, eff, prefix, m)
    && (m in eff.nodes ==> Source(heap, id, Relative(prefix, m)).exists_)
  }

  lemma DeclareFits(heap: Heap, id: SpecId, done: seq<Event>, eff: Spec, prefix: Path, node: Node, m: Node)
    requires Closed(heap) && id in heap && node in heap[id].nodes
    requires node.path != [] && StampFor(heap[id], node.path).None?
    requires Under(prefix, m) && Fits(heap, id, done, eff, prefix, m)
    ensures Fits(heap, id, done + [Declared(node)], Declare(heap[id], eff, prefix, node), prefix, m)
  {
    hide Source;
    hide Closed;
    PrefixedRelative(prefix, node);
    PrefixedRelative(prefix, m);
    SourceIsLayered(heap, id, Relative(prefix, m));
  }

  /** Progress is fitting at every node. */
  lemma FitsEverywhere(heap: Heap, id: SpecId, done: seq<Event>, eff: Spec, prefix: Path)
    requires Closed(heap) && id in heap
    ensures Progressed(heap, id, done, eff, prefix)
            <==> forall m :: Under(prefix, m) ==> Fits(heap, id, done, eff, prefix, m)
  {
    hide Source;
    hide Settled;
    hide Closed;
    if Progressed(heap, id, done, eff, prefix) {
      forall m | Under(prefix, m) ensures Fits(heap, id, done, eff, prefix, m) {
      }
    }
    if forall m :: Under(prefix, m) ==> Fits(heap, id, done, eff, prefix, m) {
      forall m | m in eff.nodes && Under(prefix, m) ensures Source(heap, id, Relative(prefix, m)).exists_ {
        assert Fits(heap, id, done, eff, prefix, m);
      }
      forall m | Under(prefix, m) ensures Settled(heap, id, done, eff, prefix, m) {
        assert Fits(heap, id, done, eff, prefix, m);
      }
    }
  }

  lemma DeclareFrames(spec: Spec, eff: Spec, prefix: Path, node: Node)
    requires node.path != []
    ensures Framed(eff, Declare(spec, eff, prefix, node), prefix)
  {
    PrefixedRelative(prefix, node);
    hide Relative;
    assert Under(prefix, Prefixed(prefix, node));
    hide Prefixed;
  }

  lemma OwnedNode(heap: Heap, id: SpecId, node: Node)
    requires GoodHeap(heap) && id in heap && node in heap[id].nodes
    ensures Closed(heap) && node.path != [] && StampFor(heap[id], node.path).None?
  {
    assert WellFormed(heap[id]);
    StampedMeans(heap[id], node.path);
  }

  lemma DeclareProgress(heap: Heap, id: SpecId, done: seq<Event>, eff: Spec, prefix: Path, node: Node)
    requires GoodHeap(heap) && id in heap && Progressed(heap, id, done, eff, prefix)
    requires node in heap[id].nodes
    ensures var eff' := Declare(heap[id], eff, prefix, node);
            Progressed(heap, id, done + [Declared(node)], eff', prefix) && Framed(eff, eff', prefix)
  {
    OwnedNode(heap, id, node);
    hide GoodHeap;
    hide Closed;
    hide Progressed;
    hide Fits;
    hide Declare;
    hide Framed;
    var eff' := Declare(heap[id], eff, prefix, node);
    DeclareFrames(heap[id], eff, prefix, node);
    FitsEverywhere(heap, id, done, eff, prefix);
    forall m | Under(prefix, m) ensures Fits(heap, id, done + [Declared(node)], eff', prefix, m) {
      DeclareFits(heap, id, done, eff, prefix, node, m);
    }
    FitsEverywhere(heap, id, done + [Declared(node)], eff', prefix);
  }

  lemma AddNodeFits(heap: Heap, id: SpecId, done: seq<Event>, eff: Spec, prefix: Path, node: Node, m: Node)
    requires Closed(heap) && id in heap && node.path != [] && Source(heap, id, node).exists_
    requires Under(prefix, m) && Fits(heap, id, done, eff, prefix, m)
    ensures Fits(heap, id, done, AddNode(eff, Prefixed(prefix, node)), prefix, m)
  {
    hide Source;
    hide Closed;
    PrefixedRelative(prefix, node);
    PrefixedRelative(prefix, m);
    SourceIsLayered(heap, id, Relative(prefix, m));
  }

  lemma AddNodeProgress(heap: Heap, id: SpecId, done: seq<Event>, eff: Spec, prefix: Path, node: Node)
    requires Closed(heap) && id in heap && Progressed(heap, id, done, eff, prefix)
    requires node.path != [] && Source(heap, id, node).exists_
    ensures var eff' := AddNode(eff, Prefixed(prefix, node));
            Progressed(heap, id, done, eff', prefix) && Framed(eff, eff', prefix)
  {
    hide Source;
    hide Closed;
    hide Settled;
    var eff' := AddNode(eff, Prefixed(prefix, node));
    PrefixedRelative(prefix, node);
    forall m | Under(prefix, m) ensures Fits(heap, id, done, eff', prefix, m) {
      AddNodeFits(heap, id, done, eff, prefix, node, m);
    }
  }

  /** Settling looks only at nodes and configurations, and at no connection. */
  lemma ConnectionSettlesNothing(heap: Heap, id: SpecId, done: seq<Event>, event: Event, eff: Spec, events: seq<Event>,
                                 prefix: Path, m: Node)
    requires Closed(heap) && id in heap && Under(prefix, m) && event.Connected?
    requires Settled(heap, id, done, eff, prefix, m)
    ensures Settled(heap, id, done + [event], eff.(events := events), prefix, m)
  {
    hide Source;
    hide Closed;
  }

  lemma ConnectProgress(heap: Heap, id: SpecId, done: seq<Event>, eff: Spec, prefix: Path, event: Event)
    requires Closed(heap) && id in heap && Progressed(heap, id, done, eff, prefix) && event.Connected?
    requires Source(heap, id, event.source).exists_ && Source(heap, id, event.target).exists_
    ensures var eff' := Connect(eff, prefix, event.source, event.target, event.arc);
            Progressed(heap, id, done + [event], eff', prefix) && Framed(eff, eff', prefix)
  {
    ExistsNonempty(heap, id, event.source);
    ExistsNonempty(heap, id, event.target);
    hide Source;
    hide Closed;
    hide Settled;
    AddNodeProgress(heap, id, done, eff, prefix, event.source);
    var eff1 := AddNode(eff, Prefixed(prefix, event.source));
    AddNodeProgress(heap, id, done, eff1, prefix, event.target);
    var eff2 := AddNode(eff1, Prefixed(prefix, event.target));
    var eff' := Connect(eff, prefix, event.source, event.target, event.arc);
    forall m | Under(prefix, m) ensures Settled(heap, id, done + [event], eff', prefix, m) {
      ConnectionSettlesNothing(heap, id, done, event, eff2, eff'.events, prefix, m);
    }
  }

  lemma ExistsNonempty(heap: Heap, id: SpecId, node: Node)
    requires Closed(heap) && id in heap
    ensures Source(heap, id, node).exists_ ==> node.path != []
  {
  }

  /** Before a stamp is composed, its subtree satisfies what composing it asks for. */
  lemma StampReady(heap: Heap, id: SpecId, done: seq<Event>, eff: Spec, prefix: Path, path: Path)
    requires GoodHeap(heap) && id in heap && Progressed(heap, id, done, eff, prefix)
    requires path in heap[id].stamps && Stamped(path) !in done
    ensures Sub(heap, heap[id].stamps[path], eff, prefix + path) && Unconfigured(eff, prefix + path)
  {
    var spec, target := heap[id], heap[id].stamps[path];
    forall m | Under(prefix + path, m)
      ensures m in eff.nodes ==> Source(heap, target, Relative(prefix + path, m)).exists_
      ensures m !in eff.configs
    {
      UnderStamp(spec, prefix, path, m);
      assert Settled(heap, id, done, eff, prefix, m);
      SourceIsLayered(heap, id, Relative(prefix, m));
    }
  }

  lemma UnderStamp(spec: Spec, prefix: Path, path: Path, m: Node)
    requires NonNested(spec.stamps) && path in spec.stamps && Under(prefix + path, m)
    ensures Under(prefix, m)
    ensures var node := Relative(prefix, m);
            && StampFor(spec, node.path) == Some(|path|) && node.path[..|path|] == path
            && Node(node.kind, node.path[|path|..]) == Relative(prefix + path, m)
  {
    var node := Relative(prefix, m);
    assert m.path[..|prefix + path|] == prefix + path;
    assert path <= node.path;
    StampUnique(spec, node.path, path);
  }

  lemma StampFits(heap: Heap, id: SpecId, done: seq<Event>, eff: Spec, eff': Spec, prefix: Path, path: Path, m: Node)
    requires Closed(heap) && id in heap && path in heap[id].stamps && NonNested(heap[id].stamps)
    requires Under(prefix, m) && Fits(heap, id, done, eff, prefix, m)
    requires if Under(prefix + path, m)
             then Own(eff', m) == Source(heap, heap[id].stamps[path], Relative(prefix + path, m))
             else Own(eff', m) == Own(eff, m)
    ensures Fits(heap, id, done + [Stamped(path)], eff', prefix, m)
  {
    var spec, node := heap[id], Relative(prefix, m);
    PrefixedRelative(prefix, m);
    SourceIsLayered(heap, id, node);
    AbsentAtStamp(heap, id, node);
    hide Source;
    hide Closed;
    if Under(prefix + path, m) {
      UnderStamp(spec, prefix, path, m);
    } else {
      StampElsewhere(spec, prefix, path, m);
    }
  }

  /** A stamp's own path names no node. */
  lemma AbsentAtStamp(heap: Heap, id: SpecId, node: Node)
    requires Closed(heap) && id in heap && node.path != []
    ensures StampFor(heap[id], node.path) == Some(|node.path|) ==> Base(heap, id, node) == Absent(node.kind)
  {
  }

  lemma StampProgress(heap: Heap, id: SpecId, done: seq<Event>, eff: Spec, eff': Spec, prefix: Path, path: Path)
    requires GoodHeap(heap) && id in heap && Progressed(heap, id, done, eff, prefix)
    requires path in heap[id].stamps
    requires Means(heap, heap[id].stamps[path], eff', prefix + path) && Framed(eff, eff', prefix + path)
    ensures Progressed(heap, id, done + [Stamped(path)], eff', prefix) && Framed(eff, eff', prefix)
  {
    hide Source;
    hide Settled;
    assert WellFormed(heap[id]);
    forall m | Under(prefix, m) ensures Fits(heap, id, done + [Stamped(path)], eff', prefix, m) {
      StampFits(heap, id, done, eff, eff', prefix, path, m);
    }
    forall m | !Under(prefix, m) ensures !Under(prefix + path, m) {
      assert prefix <= prefix + path;
    }
  }

  /**
    A node under `prefix` but not strictly under the stamp is not inside
    it, unless it is the stamp's own empty path.
    */
  lemma StampElsewhere(spec: Spec, prefix: Path, path: Path, m: Node)
    requires Under(prefix, m) && !Under(prefix + path, m) && path in spec.stamps && NonNested(spec.stamps)
    ensures var node := Relative(prefix, m); var k := StampFor(spec, node.path);
            k.Some? && node.path[..k.value] == path ==> node.path == path
  {
    var node := Relative(prefix, m);
    var k := StampFor(spec, node.path);
    PrefixedRelative(prefix, m);
  }

  // ---- Whole compositions -------------------------------------------------

  /** A node that does not exist has no configuration either. */
  lemma MissingIsAbsent(heap: Heap, id: SpecId, node: Node)
    requires GoodHeap(heap) && id in heap
    ensures !Source(heap, id, node).exists_ ==> Source(heap, id, node) == Absent(node.kind)
  {
    assert WellFormed(heap[id]);
  }

  lemma StartProgress(heap: Heap, id: SpecId, eff: Spec, prefix: Path)
    requires Closed(heap) && id in heap && Sub(heap, id, eff, prefix) && Unconfigured(eff, prefix)
    ensures Progressed(heap, id, [], eff, prefix)
  {
    hide Source;
  }

  lemma OverlayAt(heap: Heap, id: SpecId, eff: Spec, prefix: Path, m: Node)
    requires GoodHeap(heap) && id in heap && Under(prefix, m)
    requires Fits(heap, id, heap[id].events, eff, prefix, m)
    requires Relative(prefix, m) in heap[id].overrides ==> Source(heap, id, Relative(prefix, m)).exists_
    ensures Own(Overlay(heap, id, eff, prefix), m) == Source(heap, id, Relative(prefix, m))
  {
    var spec, node := heap[id], Relative(prefix, m);
    PrefixedRelative(prefix, m);
    SourceIsLayered(heap, id, node);
    StampedMeans(spec, node.path);
    MissingIsAbsent(heap, id, node);
    assert WellFormed(spec);
    OverlayMeans(heap, id, eff, prefix, m);
    var k := StampFor(spec, node.path);
    if k.Some? {
      assert Stamped(node.path[..k.value]) in spec.events;
      MissingIsAbsent(heap, spec.stamps[node.path[..k.value]], Node(node.kind, node.path[k.value..]));
    }
    hide Source;
    hide GoodHeap;
    hide WellFormed;
  }

  lemma OverlayMeans(heap: Heap, id: SpecId, eff: Spec, prefix: Path, m: Node)
    requires Closed(heap) && id in heap && Under(prefix, m)
    ensures var node, eff' := Relative(prefix, m), Overlay(heap, id, eff, prefix);
            && eff'.nodes == eff.nodes
            && (m in eff'.configs <==> node in heap[id].overrides || m in eff.configs)
            && (node in heap[id].overrides ==> eff'.configs[m] == Source(heap, id, node).config)
            && (m in eff'.configs && node !in heap[id].overrides ==> eff'.configs[m] == eff.configs[m])
  {
    hide Source;
    PrefixedRelative(prefix, m);
    var targets := set n | n in heap[id].overrides :: Prefixed(prefix, n);
    forall n | n in heap[id].overrides ensures Relative(prefix, Prefixed(prefix, n)) == n {
      PrefixedRelative(prefix, n);
    }
  }

  lemma OverlayFrames(heap: Heap, id: SpecId, eff: Spec, prefix: Path)
    requires GoodHeap(heap) && id in heap
    ensures Framed(eff, Overlay(heap, id, eff, prefix), prefix)
  {
    hide Source;
    assert WellFormed(heap[id]);
    forall n | n in heap[id].overrides ensures Under(prefix, Prefixed(prefix, n)) {
      PrefixedRelative(prefix, n);
    }
  }

  lemma {:induction false} ComposeMeans(heap: Heap, id: SpecId, eff: Spec, prefix: Path, stack: set<SpecId>)
    requires GoodHeap(heap) && id in heap && Compose(heap, id, eff, prefix, stack).Ok?
    requires Sub(heap, id, eff, prefix) && Unconfigured(eff, prefix)
    ensures var eff' := Compose(heap, id, eff, prefix, stack).spec;
            Means(heap, id, eff', prefix) && Framed(eff, eff', prefix)
    decreases heap.Keys - stack, 0
  {
    var spec := heap[id];
    var eff1 := ComposeEvents(heap, id, spec.events, eff, prefix, stack + {id}).spec;
    var eff' := Compose(heap, id, eff, prefix, stack).spec;
    StartProgress(heap, id, eff, prefix);
    assert [] + spec.events == spec.events;
    EventsMean(heap, id, [], spec.events, eff, prefix, stack + {id});
    forall m | Under(prefix, m) ensures Own(eff', m) == Source(heap, id, Relative(prefix, m)) {
      OverlayAt(heap, id, eff1, prefix, m);
    }
    OverlayFrames(heap, id, eff1, prefix);
  }

  lemma {:induction false} EventsMean(heap: Heap, id: SpecId, done: seq<Event>, events: seq<Event>, eff: Spec,
                                      prefix: Path, stack: set<SpecId>)
    requires GoodHeap(heap) && id in heap && done + events == heap[id].events
    requires ComposeEvents(heap, id, events, eff, prefix, stack).Ok?
    requires Progressed(heap, id, done, eff, prefix)
    ensures var eff' := ComposeEvents(heap, id, events, eff, prefix, stack).spec;
            Progressed(heap, id, heap[id].events, eff', prefix) && Framed(eff, eff', prefix)
    decreases heap.Keys - stack, 1 + |events|, 1
  {
    if events == [] {
      assert done == heap[id].events;
    } else {
      var event := events[0];
      assert event in events && event in heap[id].events;
      StampEventKnown(heap, id, event);
      FirstEvent(heap, id, events, eff, prefix, stack);
      Regroup(done, events);
      RestMeans(heap, id, done, event, events[1..], eff, prefix, stack);
    }
  }

  lemma Regroup<T>(done: seq<T>, rest: seq<T>)
    requires rest != []
    ensures (done + [rest[0]]) + rest[1..] == done + rest
    ensures done + [rest[0]] <= done + rest
  {
  }

  lemma {:induction false} RestMeans(heap: Heap, id: SpecId, done: seq<Event>, event: Event, rest: seq<Event>,
                                     eff: Spec, prefix: Path, stack: set<SpecId>)
    requires GoodHeap(heap) && id in heap && (done + [event]) + rest == heap[id].events
    requires done + [event] <= heap[id].events
    requires ComposeEvents(heap, id, [event], eff, prefix, stack).Ok?
    requires ComposeEvents(heap, id, rest, EventResult(heap, id, event, eff, prefix, stack), prefix, stack).Ok?
    requires Progressed(heap, id, done, eff, prefix)
    ensures var eff1 := EventResult(heap, id, event, eff, prefix, stack);
            var eff' := ComposeEvents(heap, id, rest, eff1, prefix, stack).spec;
            Progressed(heap, id, heap[id].events, eff', prefix) && Framed(eff, eff', prefix)
    decreases heap.Keys - stack, 2 + |rest|, 0
  {
    assert Closed(heap);
    hide GoodHeap;
    hide Closed;
    hide Progressed;
    hide Framed;
    hide ComposeEvents;
    hide EventResult;
    var eff1 := EventResult(heap, id, event, eff, prefix, stack);
    EventProgress(heap, id, done, event, eff, prefix, stack);
    EventsMean(heap, id, done + [event], rest, eff1, prefix, stack);
    FramedTransitive(eff, eff1, ComposeEvents(heap, id, rest, eff1, prefix, stack).spec, prefix);
  }

  lemma FirstEvent(heap: Heap, id: SpecId, events: seq<Event>, eff: Spec, prefix: Path, stack: set<SpecId>)
    requires Closed(heap) && id in heap && events != [] && ComposeEvents(heap, id, events, eff, prefix, stack).Ok?
    requires events[0].Stamped? ==> events[0].path in heap[id].stamps
    ensures ComposeEvents(heap, id, [events[0]], eff, prefix, stack).Ok?
    ensures ComposeEvents(heap, id, events, eff, prefix, stack)
         == ComposeEvents(heap, id, events[1..], EventResult(heap, id, events[0], eff, prefix, stack), prefix, stack)
  {
    hide Source;
    hide Compose;
    hide Declare;
    hide Connect;
  }

  lemma StampEventKnown(heap: Heap, id: SpecId, event: Event)
    requires GoodHeap(heap) && id in heap && event in heap[id].events
    ensures event.Stamped? ==> event.path in heap[id].stamps
  {
    assert WellFormed(heap[id]);
  }

  lemma FramedTransitive(a: Spec, b: Spec, c: Spec, prefix: Path)
    requires Framed(a, b, prefix) && Framed(b, c, prefix)
    ensures Framed(a, c, prefix)
  {
  }

  /** The effective specification after one event that composition accepted. */
  function EventResult(heap: Heap, id: SpecId, event: Event, eff: Spec, prefix: Path, stack: set<SpecId>): Spec
    requires Closed(heap) && id in heap
  {
    match event
    case Declared(node) => Declare(heap[id], eff, prefix, node)
    case Connected(source, target, arc) => Connect(eff, prefix, source, target, arc)
    case Stamped(path) =>
      if path !in heap[id].stamps then eff
      else
        var r := Compose(heap, heap[id].stamps[path], eff, prefix + path, stack);
        if r.Ok? then r.spec else eff
  }

  lemma {:induction false} EventProgress(heap: Heap, id: SpecId, done: seq<Event>, event: Event, eff: Spec,
                                         prefix: Path, stack: set<SpecId>)
    requires GoodHeap(heap) && id in heap && done + [event] <= heap[id].events
    requires ComposeEvents(heap, id, [event], eff, prefix, stack).Ok?
    requires Progressed(heap, id, done, eff, prefix)
    ensures var eff' := EventResult(heap, id, event, eff, prefix, stack);
            Progressed(heap, id, done + [event], eff', prefix) && Framed(eff, eff', prefix)
    decreases heap.Keys - stack, 1
  {
    var spec := heap[id];
    assert WellFormed(spec);
    assert spec.events[|done|] == event && event in spec.events;
    match event
    case Declared(node) => DeclareProgress(heap, id, done, eff, prefix, node);
    case Connected(source, target, arc) => ConnectProgress(heap, id, done, eff, prefix, event);
    case Stamped(path) =>
      assert Stamped(path) !in done by { NotYet(spec.events, done, event); }
      StampReady(heap, id, done, eff, prefix, path);
      ComposeMeans(heap, spec.stamps[path], eff, prefix + path, stack);
      StampProgress(heap, id, done, eff, EventResult(heap, id, event, eff, prefix, stack), prefix, path);
  }

  lemma NotYet(events: seq<Event>, done: seq<Event>, event: Event)
    requires done + [event] <= events && event.Stamped?
    requires forall i, j :: 0 <= i < j < |events| && events[i].Stamped? ==> events[i] != events[j]
    ensures event !in done
  {
    forall i | 0 <= i < |done| ensures done[i] != event {
      assert events[i] == done[i] && events[|done|] == event;
    }
  }

  /** Flattening preserves meaning. */
  lemma FlattenPreservesMeaning(heap: Heap, root: SpecId, node: Node)
    requires GoodHeap(heap) && root in heap && Flatten(heap, root).Ok? && node.path != []
    ensures Own(Flatten(heap, root).spec, node) == Source(heap, root, node)
  {
    ComposeMeans(heap, root, Empty(heap[root].completion), [], {});
    assert [] < node.path;
    assert Relative([], node) == node;
  }
}
