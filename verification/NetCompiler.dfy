/**
  `NetBuilder` as a loop that fills the effective specification, proved equal to
  `Compose`, and what the result looks like: a flat specification that flattening
  leaves exactly as it is, events and all.
  */
module NetCompiler {
  import opened NetSpec
  import opened NetMeaning

  method ComposeInto(heap: Heap, id: SpecId, start: Spec, prefix: Path, stack: set<SpecId>) returns (r: Composed)
    requires Closed(heap) && id in heap
    ensures r == Compose(heap, id, start, prefix, stack)
    decreases heap.Keys - stack
  {
    if id in stack {
      return Err(Cycle);
    }
    var spec := heap[id];
    if prefix != [] && spec.completion {
      return Err(RootCompletion);
    }
    var eff, within := start, stack + {id};
    assert spec.events[0..] == spec.events;
    for i := 0 to |spec.events|
      invariant ComposeEvents(heap, id, spec.events, start, prefix, within)
             == ComposeEvents(heap, id, spec.events[i..], eff, prefix, within)
    {
      assert spec.events[i..][0] == spec.events[i] && spec.events[i..][1..] == spec.events[i + 1..];
      match spec.events[i]
      case Declared(node) =>
        eff := Declare(spec, eff, prefix, node);
      case Connected(source, target, arc) =>
        if !Source(heap, id, source).exists_ || !Source(heap, id, target).exists_ {
          return Err(MissingEndpoint);
        }
        eff := Connect(eff, prefix, source, target, arc);
      case Stamped(path) =>
        if path in spec.stamps {
          var inner := ComposeInto(heap, spec.stamps[path], eff, prefix + path, within);
          if inner.Err? {
            return inner;
          }
          eff := inner.spec;
        }
    }
    r := OverlayInto(heap, id, eff, prefix);
  }

  method OverlayInto(heap: Heap, id: SpecId, eff: Spec, prefix: Path) returns (r: Composed)
    requires Closed(heap) && id in heap
    ensures r == if exists n :: n in heap[id].overrides && !Source(heap, id, n).exists_ then Err(MissingOverride)
                 else Ok(Overlay(heap, id, eff, prefix))
  {
    hide Patched;
    hide Overlay;
    var overrides := heap[id].overrides;
    var todo, configs := overrides.Keys, eff.configs;
    assert configs == Patched(heap, id, eff.configs, {}, prefix) by { PatchedNothing(heap, id, eff.configs, prefix); }
    assert overrides.Keys - todo == {};
    while todo != {}
      invariant todo <= overrides.Keys
      invariant forall n :: n in overrides && n !in todo ==> Source(heap, id, n).exists_
      invariant configs == Patched(heap, id, eff.configs, overrides.Keys - todo, prefix)
      decreases todo
    {
      var n :| n in todo;
      if !Source(heap, id, n).exists_ {
        return Err(MissingOverride);
      }
      PatchedGrows(heap, id, eff.configs, overrides.Keys - todo, prefix, n);
      assert overrides.Keys - (todo - {n}) == overrides.Keys - todo + {n};
      todo := todo - {n};
      configs := configs[Prefixed(prefix, n) := Source(heap, id, n).config];
    }
    assert overrides.Keys - todo == overrides.Keys;
    PatchedIsOverlay(heap, id, eff, prefix);
    r := Ok(eff.(configs := configs));
  }

  /** `configs` with the current value of each of `nodes` written over it. */
  function Patched(heap: Heap, id: SpecId, configs: map<Node, Config>, nodes: set<Node>,
                   prefix: Path): map<Node, Config>
    requires Closed(heap) && id in heap
  {
    var targets := set n | n in nodes :: Prefixed(prefix, n);
    configs + map m | m in targets :: Source(heap, id, Relative(prefix, m)).config
  }

  lemma PatchedNothing(heap: Heap, id: SpecId, configs: map<Node, Config>, prefix: Path)
    requires Closed(heap) && id in heap
    ensures Patched(heap, id, configs, {}, prefix) == configs
  {
    hide Source;
  }

  lemma PatchedAt(heap: Heap, id: SpecId, configs: map<Node, Config>, nodes: set<Node>, prefix: Path, m: Node)
    requires Closed(heap) && id in heap
    ensures var r := Patched(heap, id, configs, nodes, prefix);
            var hit := exists k :: k in nodes && Prefixed(prefix, k) == m;
            && (m in r <==> hit || m in configs)
            && (m in r ==> r[m] == if hit then Source(heap, id, Relative(prefix, m)).config else configs[m])
  {
    hide Source;
    hide Closed;
    hide Prefixed;
    hide Relative;
  }

  lemma PatchedGrows(heap: Heap, id: SpecId, configs: map<Node, Config>, nodes: set<Node>, prefix: Path, n: Node)
    requires Closed(heap) && id in heap
    ensures Patched(heap, id, configs, nodes + {n}, prefix)
         == Patched(heap, id, configs, nodes, prefix)[Prefixed(prefix, n) := Source(heap, id, n).config]
  {
    PrefixedRelative(prefix, n);
    hide Source;
    hide Closed;
    hide Prefixed;
    hide Relative;
    hide Patched;
    var a := Patched(heap, id, configs, nodes + {n}, prefix);
    var b := Patched(heap, id, configs, nodes, prefix)[Prefixed(prefix, n) := Source(heap, id, n).config];
    forall m ensures (m in a <==> m in b) && (m in a ==> a[m] == b[m]) {
      PatchedAt(heap, id, configs, nodes + {n}, prefix, m);
      PatchedAt(heap, id, configs, nodes, prefix, m);
    }
  }

  lemma PatchedIsOverlay(heap: Heap, id: SpecId, eff: Spec, prefix: Path)
    requires Closed(heap) && id in heap
    ensures Overlay(heap, id, eff, prefix)
         == eff.(configs := Patched(heap, id, eff.configs, heap[id].overrides.Keys, prefix))
  {
    hide Source;
    var overrides := heap[id].overrides;
    assert (set n | n in overrides :: Prefixed(prefix, n)) == set n | n in overrides.Keys :: Prefixed(prefix, n);
  }

  // ---- The shape of a flat specification ----------------------------------

  /** Every connection comes after the declarations of both its ends. */
  ghost predicate EndsFirst(events: seq<Event>) {
    forall i :: 0 <= i < |events| && events[i].Connected? ==>
      Declared(events[i].source) in events[..i] && Declared(events[i].target) in events[..i]
  }

  ghost predicate DeclaredOnce(events: seq<Event>) {
    forall i, j :: 0 <= i < j < |events| && events[i].Declared? ==> events[i] != events[j]
  }

  ghost predicate Flat(eff: Spec) {
    && eff.stamps == map[] && eff.overrides == map[] && eff.handles == eff.nodes
    && (forall n :: n in eff.nodes <==> Declared(n) in eff.events)
    && (forall e :: e in eff.events ==> !e.Stamped?)
    && EndsFirst(eff.events) && DeclaredOnce(eff.events)
  }

  lemma EmptyIsFlat(completion: bool)
    ensures Flat(Empty(completion))
  {
  }

  lemma SnocMember(events: seq<Event>, e: Event)
    ensures forall x :: x in events + [e] <==> x in events || x == e
  {
  }

  lemma SnocEndsFirst(events: seq<Event>, e: Event)
    requires EndsFirst(events) && (e.Connected? ==> Declared(e.source) in events && Declared(e.target) in events)
    ensures EndsFirst(events + [e])
  {
    var more := events + [e];
    forall i | 0 <= i < |more| && more[i].Connected?
      ensures Declared(more[i].source) in more[..i] && Declared(more[i].target) in more[..i]
    {
      if i < |events| {
        assert more[..i] == events[..i];
      } else {
        assert more[..i] == events;
      }
    }
  }

  lemma SnocOnce(events: seq<Event>, e: Event)
    requires DeclaredOnce(events) && (e.Declared? ==> e !in events)
    ensures DeclaredOnce(events + [e])
  {
  }

  lemma AddNodeFlat(eff: Spec, node: Node)
    requires Flat(eff)
    ensures Flat(AddNode(eff, node)) && Declared(node) in AddNode(eff, node).events
    ensures forall e :: e in eff.events ==> e in AddNode(eff, node).events
  {
    hide EndsFirst;
    hide DeclaredOnce;
    if node !in eff.nodes {
      SnocMember(eff.events, Declared(node));
      SnocEndsFirst(eff.events, Declared(node));
      SnocOnce(eff.events, Declared(node));
    }
  }

  lemma ConnectFlat(eff: Spec, prefix: Path, source: Node, target: Node, arc: string)
    requires Flat(eff)
    ensures Flat(Connect(eff, prefix, source, target, arc))
  {
    hide EndsFirst;
    hide DeclaredOnce;
    var s, t := Prefixed(prefix, source), Prefixed(prefix, target);
    AddNodeFlat(eff, s);
    AddNodeFlat(AddNode(eff, s), t);
    var added := AddNode(AddNode(eff, s), t);
    hide AddNode;
    SnocMember(added.events, Connected(s, t, arc));
    SnocEndsFirst(added.events, Connected(s, t, arc));
    SnocOnce(added.events, Connected(s, t, arc));
  }

  lemma DeclareFlat(spec: Spec, eff: Spec, prefix: Path, node: Node)
    requires Flat(eff)
    ensures Flat(Declare(spec, eff, prefix, node))
  {
    AddNodeFlat(eff, Prefixed(prefix, node));
  }

  lemma {:induction false} ComposeFlat(heap: Heap, id: SpecId, eff: Spec, prefix: Path, stack: set<SpecId>)
    requires Closed(heap) && id in heap && Flat(eff) && Compose(heap, id, eff, prefix, stack).Ok?
    ensures var eff' := Compose(heap, id, eff, prefix, stack).spec; Flat(eff') && eff'.completion == eff.completion
    decreases heap.Keys - stack, 0
  {
    hide Source;
    EventsFlat(heap, id, heap[id].events, eff, prefix, stack + {id});
  }

  lemma {:induction false} EventsFlat(heap: Heap, id: SpecId, events: seq<Event>, eff: Spec, prefix: Path,
                                      stack: set<SpecId>)
    requires Closed(heap) && id in heap && Flat(eff) && ComposeEvents(heap, id, events, eff, prefix, stack).Ok?
    ensures var eff' := ComposeEvents(heap, id, events, eff, prefix, stack).spec;
            Flat(eff') && eff'.completion == eff.completion
    decreases heap.Keys - stack, 1 + |events|
  {
    if events == [] {
    } else {
      hide Flat;
      hide Source;
      match events[0] {
        case Declared(node) => DeclareFlat(heap[id], eff, prefix, node);
        case Connected(source, target, arc) => ConnectFlat(eff, prefix, source, target, arc);
        case Stamped(path) =>
          if path in heap[id].stamps {
            ComposeFlat(heap, heap[id].stamps[path], eff, prefix + path, stack);
          }
      }
      EventsFlat(heap, id, events[1..], EventResult(heap, id, events[0], eff, prefix, stack), prefix, stack);
    }
  }

  // ---- Flattening twice ---------------------------------------------------

  /** What replaying the first events of a flat specification has rebuilt. */
  ghost predicate Rebuilt(flat: Spec, done: seq<Event>, eff: Spec) {
    && eff.completion == flat.completion && eff.stamps == map[] && eff.overrides == map[]
    && eff.events == done && eff.handles == eff.nodes
    && (forall n :: n in eff.nodes <==> Declared(n) in done)
    && (forall n :: n in eff.configs <==> n in flat.configs && Declared(n) in done)
    && (forall n :: n in eff.configs ==> eff.configs[n] == flat.configs[n])
  }

  lemma RebuildEvent(flat: Spec, done: seq<Event>, event: Event, eff: Spec)
    requires Flat(flat) && done + [event] <= flat.events && Rebuilt(flat, done, eff) && !event.Stamped?
    ensures var eff' := match event
                        case Declared(node) => Declare(flat, eff, [], node)
                        case Connected(source, target, arc) => Connect(eff, [], source, target, arc)
                        case Stamped(_) => eff;
            Rebuilt(flat, done + [event], eff')
  {
    match event
    case Declared(node) => RebuildDeclared(flat, done, node, eff);
    case Connected(source, target, arc) => RebuildConnected(flat, done, event, eff);
    case Stamped(_) =>
  }

  lemma RebuildDeclared(flat: Spec, done: seq<Event>, node: Node, eff: Spec)
    requires Flat(flat) && done + [Declared(node)] <= flat.events && Rebuilt(flat, done, eff)
    ensures Rebuilt(flat, done + [Declared(node)], Declare(flat, eff, [], node))
  {
    hide Flat;
    NotYetDeclared(flat, done, node);
    SnocMember(done, Declared(node));
    assert Prefixed([], node) == node;
    hide Prefixed;
  }

  lemma NotYetDeclared(flat: Spec, done: seq<Event>, node: Node)
    requires Flat(flat) && done + [Declared(node)] <= flat.events
    ensures Declared(node) !in done
  {
    var k := |done|;
    assert flat.events[k] == Declared(node) && flat.events[..k] == done;
    forall i | 0 <= i < k ensures done[i] != Declared(node) {
      assert flat.events[i] == done[i];
    }
  }

  lemma ConnectKnown(eff: Spec, source: Node, target: Node, arc: string)
    requires source in eff.nodes && target in eff.nodes && eff.handles == eff.nodes
    ensures Connect(eff, [], source, target, arc) == eff.(events := eff.events + [Connected(source, target, arc)])
  {
    assert Prefixed([], source) == source && Prefixed([], target) == target;
    assert eff.handles + {source} == eff.handles && eff.handles + {target} == eff.handles;
  }

  lemma EndsDeclared(flat: Spec, done: seq<Event>, event: Event)
    requires Flat(flat) && done + [event] <= flat.events && event.Connected?
    ensures Declared(event.source) in done && Declared(event.target) in done
  {
    assert flat.events[|done|] == event && flat.events[..|done|] == done;
  }

  lemma RebuildConnected(flat: Spec, done: seq<Event>, event: Event, eff: Spec)
    requires Flat(flat) && done + [event] <= flat.events && Rebuilt(flat, done, eff) && event.Connected?
    ensures Rebuilt(flat, done + [event], Connect(eff, [], event.source, event.target, event.arc))
  {
    hide Flat;
    hide Connect;
    EndsDeclared(flat, done, event);
    ConnectKnown(eff, event.source, event.target, event.arc);
    SnocMember(done, event);
  }

  /** A flat specification whose nodes are real paths and whose configurations belong to nodes. */
  ghost predicate Complete(flat: Spec) {
    Flat(flat) && (forall n :: n in flat.nodes ==> n.path != []) && flat.configs.Keys <= flat.nodes
  }

  lemma EndsExist(heap: Heap, id: SpecId, k: nat)
    requires Closed(heap) && id in heap && Complete(heap[id]) && k < |heap[id].events|
    requires heap[id].events[k].Connected?
    ensures var event := heap[id].events[k];
            Source(heap, id, event.source).exists_ && Source(heap, id, event.target).exists_
  {
    var event := heap[id].events[k];
    assert Declared(event.source) in heap[id].events && Declared(event.target) in heap[id].events;
  }

  /** Replaying the next event of a complete specification succeeds and leaves the rest to replay. */
  lemma RebuildNext(heap: Heap, id: SpecId, done: seq<Event>, events: seq<Event>, eff: Spec)
    requires Closed(heap) && id in heap && Complete(heap[id]) && done + events == heap[id].events && events != []
    requires Rebuilt(heap[id], done, eff)
    ensures var eff' := EventResult(heap, id, events[0], eff, [], {id});
            && Rebuilt(heap[id], done + [events[0]], eff')
            && ComposeEvents(heap, id, events, eff, [], {id}) == ComposeEvents(heap, id, events[1..], eff', [], {id})
  {
    var flat, event := heap[id], events[0];
    assert done + [event] <= flat.events && flat.events[|done|] == event;
    assert event in flat.events;
    RebuildEvent(flat, done, event, eff);
    if event.Connected? {
      EndsExist(heap, id, |done|);
    }
    hide Flat;
    hide Rebuilt;
    hide Source;
    hide Declare;
    hide Connect;
    hide Compose;
  }

  lemma {:induction false} RebuildAll(heap: Heap, id: SpecId, done: seq<Event>, events: seq<Event>, eff: Spec)
    requires Closed(heap) && id in heap && Complete(heap[id]) && done + events == heap[id].events
    requires Rebuilt(heap[id], done, eff)
    ensures var r := ComposeEvents(heap, id, events, eff, [], {id}); r.Ok? && Rebuilt(heap[id], heap[id].events, r.spec)
    decreases events
  {
    hide Complete;
    hide Rebuilt;
    hide EventResult;
    hide Closed;
    if events == [] {
      assert done == heap[id].events;
    } else {
      RebuildNext(heap, id, done, events, eff);
      hide ComposeEvents;
      assert (done + [events[0]]) + events[1..] == done + events;
      RebuildAll(heap, id, done + [events[0]], events[1..], EventResult(heap, id, events[0], eff, [], {id}));
    }
  }

  lemma RebuiltIsSame(flat: Spec, eff: Spec)
    requires Complete(flat) && Rebuilt(flat, flat.events, eff)
    ensures eff == flat
  {
    assert eff.nodes == flat.nodes;
    assert eff.configs == flat.configs;
  }

  lemma NothingRebuilt(flat: Spec)
    ensures Rebuilt(flat, [], Empty(flat.completion))
  {
  }

  lemma CompleteIsClosed(flat: Spec, id: SpecId)
    requires Complete(flat)
    ensures Closed(map[id := flat])
  {
  }

  lemma CompleteIsFixed(flat: Spec, id: SpecId)
    requires Complete(flat)
    ensures Closed(map[id := flat]) && Flatten(map[id := flat], id) == Ok(flat)
  {
    CompleteIsClosed(flat, id);
    NothingRebuilt(flat);
    hide Closed;
    hide ComposeEvents;
    hide Overlay;
    hide Rebuilt;
    hide Empty;
    var heap, empty := map[id := flat], Empty(flat.completion);
    assert [] + flat.events == flat.events;
    RebuildAll(heap, id, [], flat.events, empty);
    RebuiltIsSame(flat, ComposeEvents(heap, id, flat.events, empty, [], {id}).spec);
    NoOverlay(heap, id, flat);
    hide Complete;
    assert {} + {id} == {id};
  }

  lemma NoOverlay(heap: Heap, id: SpecId, eff: Spec)
    requires Closed(heap) && id in heap && heap[id].overrides == map[]
    ensures Overlay(heap, id, eff, []) == eff
  {
  }

  lemma FlattenIsComplete(heap: Heap, root: SpecId)
    requires GoodHeap(heap) && root in heap && Flatten(heap, root).Ok?
    ensures Complete(Flatten(heap, root).spec)
  {
    var empty, flat := Empty(heap[root].completion), Flatten(heap, root).spec;
    EmptyIsFlat(heap[root].completion);
    ComposeFlat(heap, root, empty, [], {});
    ComposeMeans(heap, root, empty, [], {});
    hide Compose;
    forall n: Node ensures n.path == [] ==> Own(flat, n) == Own(empty, n) {
      assert n.path == [] ==> !Under([], n);
    }
    forall n: Node | n.path != [] ensures n in flat.configs ==> n in flat.nodes {
      assert Relative([], n) == n;
      assert Own(flat, n) == Source(heap, root, n);
      MissingIsAbsent(heap, root, n);
    }
    forall n | n in flat.configs ensures n in flat.nodes {
      assert Own(flat, n).configured;
    }
  }

  /** Flattening a flattened specification changes nothing: not a node, a configuration, nor the order of an event. */
  lemma FlattenTwice(heap: Heap, root: SpecId, copy: SpecId)
    requires GoodHeap(heap) && root in heap && Flatten(heap, root).Ok?
    ensures Closed(map[copy := Flatten(heap, root).spec])
    ensures Flatten(map[copy := Flatten(heap, root).spec], copy) == Flatten(heap, root)
  {
    FlattenIsComplete(heap, root);
    CompleteIsFixed(Flatten(heap, root).spec, copy);
  }
}
