/**
  Authoring as the source performs it: a workshop of specification objects whose
  methods update them in place and refuse what would overlap, and the flattening
  loop that fills one effective specification.
  */
module NetAuthoring {
  import opened Options
  import opened NetSpec
  import opened NetMeaning

  /** A place takes a colour, a transition takes a behaviour. */
  predicate Suits(kind: Kind, patch: Patch) { kind == Place <==> patch.Recolour? }

  predicate Describes(kind: Kind, config: Config) { kind == Place <==> config.Colour? }

  /** The layer that replaces everything. */
  function Full(config: Config): Patch {
    match config
    case Colour(colour) => Recolour(colour)
    case Behaviour(handler, guards, timers) => Change(Some(handler), Some(guards), Some(timers))
  }

  predicate Changes(patch: Patch) { patch.Recolour? || patch.handler.Some? || patch.guards.Some? || patch.timers.Some? }

  ghost predicate Typed(spec: Spec) {
    && (forall n :: n in spec.overrides ==> Suits(n.kind, spec.overrides[n]))
    && (forall n :: n in spec.configs ==> Describes(n.kind, spec.configs[n]))
  }

  // ---- Layers -------------------------------------------------------------

  /** Outer layers beat inner ones, field by field. */
  lemma MergeIsLayering(inner: Patch, outer: Patch, config: Config)
    requires inner.Recolour? == outer.Recolour?
    ensures Apply(Merge(inner, outer), config) == Apply(outer, Apply(inner, config))
  {
  }

  /** The two heaps differ at most in what `id` says about `node` itself. */
  ghost predicate SameBut(heap: Heap, heap': Heap, id: SpecId, node: Node) {
    && heap'.Keys == heap.Keys
    && (forall j :: j in heap && j != id ==> heap'[j] == heap[j])
    && (id in heap ==>
          && heap'[id].stamps == heap[id].stamps && heap'[id].nodes == heap[id].nodes
          && (forall n :: n != node ==> (n in heap'[id].configs <==> n in heap[id].configs))
          && (forall n :: n != node && n in heap[id].configs ==> heap'[id].configs[n] == heap[id].configs[n])
          && (forall n :: n != node ==> (n in heap'[id].overrides <==> n in heap[id].overrides))
          && (forall n :: n != node && n in heap[id].overrides ==> heap'[id].overrides[n] == heap[id].overrides[n]))
  }

  /** A change at `node` cannot be seen from any shorter path, not even through stamp cycles. */
  lemma {:induction false} ShorterUnaffected(heap: Heap, heap': Heap, id: SpecId, node: Node, j: SpecId, q: Node)
    requires Closed(heap) && Closed(heap') && SameBut(heap, heap', id, node) && j in heap
    requires |q.path| < |node.path|
    ensures Source(heap', j, q) == Source(heap, j, q)
    decreases |q.path|
  {
    if q.path == [] {
    } else {
      var spec := heap[j];
      assert heap'[j].stamps == spec.stamps;
      assert StampFor(heap'[j], q.path) == StampFor(spec, q.path);
      match StampFor(spec, q.path)
      case None =>
      case Some(k) =>
        ShorterUnaffected(heap, heap', id, node, spec.stamps[q.path[..k]], Node(q.kind, q.path[k..]));
    }
  }

  lemma BaseUnaffected(heap: Heap, heap': Heap, id: SpecId, node: Node)
    requires Closed(heap) && Closed(heap') && SameBut(heap, heap', id, node) && id in heap && node.path != []
    requires StampFor(heap[id], node.path).Some?
    ensures StampFor(heap'[id], node.path) == StampFor(heap[id], node.path)
    ensures Base(heap', id, node) == Base(heap, id, node)
  {
    var spec := heap[id];
    assert heap'[id].stamps == spec.stamps;
    var k := StampFor(spec, node.path).value;
    ShorterUnaffected(heap, heap', id, node, spec.stamps[node.path[..k]], Node(node.kind, node.path[k..]));
  }

  // ---- Edits --------------------------------------------------------------

  /** `_node`: a handle, and the declaration of an unstamped path on first use. */
  function WithHandle(spec: Spec, node: Node): Spec {
    var held := spec.(handles := spec.handles + {node});
    if StampFor(spec, node.path).None? && node !in spec.nodes then
      held.(nodes := spec.nodes + {node}, events := spec.events + [Declared(node)])
    else held
  }

  /** `place(...)` and `transition(...)`: state a configuration, or refuse a conflicting one. */
  function WithConfig(heap: Heap, id: SpecId, node: Node, config: Config): Option<Spec>
    requires Closed(heap) && id in heap
  {
    var spec, m := heap[id], Source(heap, id, node);
    if !m.exists_ || (m.configured && m.config != config) then None
    else if StampFor(spec, node.path).Some? then Some(spec.(overrides := spec.overrides[node := Full(config)]))
    else Some(spec.(configs := spec.configs[node := config]))
  }

  /** `override(...)`: layer a partial change over the current meaning. */
  function WithOverride(heap: Heap, id: SpecId, node: Node, patch: Patch): Option<Spec>
    requires Closed(heap) && id in heap
  {
    var spec, m := heap[id], Source(heap, id, node);
    if !m.exists_ || !m.configured || !Changes(patch) then None
    else if StampFor(spec, node.path).Some? then
      var layer := if node in spec.overrides then Merge(spec.overrides[node], patch) else patch;
      Some(spec.(overrides := spec.overrides[node := layer]))
    else Some(spec.(configs := spec.configs[node := Apply(patch, m.config)]))
  }

  predicate Overlaps(spec: Spec, path: Path) {
    || (exists p :: p in spec.stamps && p != path && (p <= path || path <= p))
    || (exists n :: n in spec.nodes && path <= n.path)
  }

  function Outside(overrides: map<Node, Patch>, path: Path): map<Node, Patch> {
    map n | n in overrides && !(path <= n.path) :: overrides[n]
  }

  /** `stamp(...)`: a scope holds one stamp and nothing else; stamping again replaces it and drops its overrides. */
  function WithStamp(spec: Spec, path: Path, source: SpecId): Option<Spec> {
    if path == [] || Overlaps(spec, path) then None
    else Some(spec.(stamps := spec.stamps[path := source],
                    overrides := Outside(spec.overrides, path),
                    events := if path in spec.stamps then spec.events else spec.events + [Stamped(path)]))
  }

  /** A scope may be stamped, or stamped again, unless it meets another stamp or contains an owned node. */
  lemma StampsWhen(spec: Spec, path: Path, source: SpecId)
    ensures WithStamp(spec, path, source).Some? <==>
            && path != []
            && (forall p :: p in spec.stamps && p != path ==> !(p <= path) && !(path <= p))
            && (forall n :: n in spec.nodes ==> !(path <= n.path))
  {
  }

  /** What every authoring sequence keeps of all specifications together. */
  ghost predicate Authored(heap: Heap) {
    GoodHeap(heap) && forall id :: id in heap ==> Typed(heap[id])
  }

  lemma UpdateKeeps(heap: Heap, id: SpecId, spec: Spec)
    requires Authored(heap) && WellFormed(spec) && Typed(spec)
    requires forall p :: p in spec.stamps ==> spec.stamps[p] in heap || spec.stamps[p] == id
    ensures Authored(heap[id := spec])
  {
    hide NonNested;
    hide Disjoint;
    hide Handled;
    hide Inherited;
    hide Eventful;
  }

  // ---- Edits and meaning --------------------------------------------------

  lemma HandleAuthors(heap: Heap, id: SpecId, node: Node)
    requires Authored(heap) && id in heap && node.path != []
    ensures Authored(heap[id := WithHandle(heap[id], node)])
  {
    hide Closed;
    assert WellFormed(heap[id]) && Typed(heap[id]);
    HandleKeeps(heap[id], node, WithHandle(heap[id], node));
    TargetsKnown(heap, id);
    hide WellFormed;
    UpdateKeeps(heap, id, WithHandle(heap[id], node));
  }

  lemma TargetsKnown(heap: Heap, id: SpecId)
    requires Closed(heap) && id in heap
    ensures forall p :: p in heap[id].stamps ==> heap[id].stamps[p] in heap
  {
  }

  lemma UnstampedHandle(heap: Heap, id: SpecId, node: Node)
    requires Authored(heap) && id in heap && node in heap[id].handles && StampFor(heap[id], node.path).None?
    ensures node in heap[id].nodes
  {
    assert WellFormed(heap[id]);
    StampedMeans(heap[id], node.path);
  }

  /** Stating a configuration succeeds exactly when nothing different is configured, and is then what the node means. */
  lemma ConfigureMeans(heap: Heap, id: SpecId, node: Node, config: Config)
    requires Authored(heap) && id in heap && node in heap[id].handles && node.path != [] && Describes(node.kind, config)
    ensures var r, m := WithConfig(heap, id, node, config), Source(heap, id, node);
            && (r.Some? <==> m.exists_ && (m.configured ==> m.config == config))
            && (r.Some? ==>
                  && Authored(heap[id := r.value]) && SameBut(heap, heap[id := r.value], id, node)
                  && Source(heap[id := r.value], id, node) == Meaning(true, true, config))
  {
    var r := WithConfig(heap, id, node, config);
    if r.Some? {
      var spec, heap' := heap[id], heap[id := r.value];
      assert WellFormed(spec) && Typed(spec);
      TargetsKnown(heap, id);
      SourceIsLayered(heap, id, node);
      if StampFor(spec, node.path).Some? {
        StampedMeans(spec, node.path);
        OverrideKeeps(spec, node, Full(config));
        hide WellFormed;
        UpdateKeeps(heap, id, r.value);
        LayeredAfter(heap, id, node, Full(config));
        SuitableBase(heap, id, node);
      } else {
        UnstampedHandle(heap, id, node);
        ConfigKeeps(spec, node, config);
        hide WellFormed;
        UpdateKeeps(heap, id, r.value);
        OwnAfter(heap, id, node, config);
      }
    }
  }

  /** An override succeeds exactly on configured nodes, and then changes the current meaning by exactly its fields. */
  lemma OverrideMeans(heap: Heap, id: SpecId, node: Node, patch: Patch)
    requires Authored(heap) && id in heap && node in heap[id].handles && node.path != [] && Suits(node.kind, patch)
    ensures var r, m := WithOverride(heap, id, node, patch), Source(heap, id, node);
            && (r.Some? <==> m.exists_ && m.configured
                             && (patch.Recolour? || patch.handler.Some? || patch.guards.Some? || patch.timers.Some?))
            && (r.Some? ==>
                  && Authored(heap[id := r.value]) && SameBut(heap, heap[id := r.value], id, node)
                  && Source(heap[id := r.value], id, node) == Meaning(true, true, Apply(patch, m.config)))
  {
    var r := WithOverride(heap, id, node, patch);
    if r.Some? {
      var spec := heap[id];
      assert WellFormed(spec) && Typed(spec);
      TargetsKnown(heap, id);
      SourceIsLayered(heap, id, node);
      if StampFor(spec, node.path).Some? {
        var layer := if node in spec.overrides then Merge(spec.overrides[node], patch) else patch;
        StampedMeans(spec, node.path);
        OverrideKeeps(spec, node, layer);
        hide WellFormed;
        UpdateKeeps(heap, id, r.value);
        LayeredAfter(heap, id, node, layer);
        if node in spec.overrides {
          MergeIsLayering(spec.overrides[node], patch, Base(heap, id, node).config);
        }
      } else {
        UnstampedHandle(heap, id, node);
        ConfigKeeps(spec, node, Apply(patch, spec.configs[node]));
        hide WellFormed;
        UpdateKeeps(heap, id, r.value);
        OwnAfter(heap, id, node, Apply(patch, spec.configs[node]));
      }
    }
  }

  lemma LayeredAfter(heap: Heap, id: SpecId, node: Node, layer: Patch)
    requires Closed(heap) && id in heap && node.path != [] && StampFor(heap[id], node.path).Some?
    requires Closed(heap[id := heap[id].(overrides := heap[id].overrides[node := layer])])
    ensures var heap' := heap[id := heap[id].(overrides := heap[id].overrides[node := layer])];
            && SameBut(heap, heap', id, node)
            && (Base(heap, id, node).exists_ ==>
                  Source(heap', id, node) == Meaning(true, true, Apply(layer, Base(heap, id, node).config)))
  {
    var heap' := heap[id := heap[id].(overrides := heap[id].overrides[node := layer])];
    BaseUnaffected(heap, heap', id, node);
    SourceIsLayered(heap', id, node);
  }

  lemma OwnAfter(heap: Heap, id: SpecId, node: Node, config: Config)
    requires Closed(heap) && id in heap && node.path != [] && StampFor(heap[id], node.path).None?
    requires Closed(heap[id := heap[id].(configs := heap[id].configs[node := config])])
    requires node in heap[id].nodes
    ensures var heap' := heap[id := heap[id].(configs := heap[id].configs[node := config])];
            SameBut(heap, heap', id, node) && Source(heap', id, node) == Meaning(true, true, config)
  {
    var heap' := heap[id := heap[id].(configs := heap[id].configs[node := config])];
    assert heap'[id].stamps == heap[id].stamps;
    SourceIsLayered(heap', id, node);
  }

  lemma StampAuthors(heap: Heap, id: SpecId, path: Path, source: SpecId)
    requires Authored(heap) && id in heap && source in heap && WithStamp(heap[id], path, source).Some?
    ensures Authored(heap[id := WithStamp(heap[id], path, source).value])
  {
    var spec, spec' := heap[id], WithStamp(heap[id], path, source).value;
    assert WellFormed(spec) && Typed(spec);
    TargetsKnown(heap, id);
    StampKeeps(spec, path, source, spec');
    UpdateKeeps(heap, id, spec');
  }

  /** After stamping, everything below the scope means what the source means, with no override left over. */
  lemma StampMeans(heap: Heap, id: SpecId, path: Path, source: SpecId, node: Node)
    requires Authored(heap) && id in heap && source in heap && WithStamp(heap[id], path, source).Some?
    requires node.path != []
    ensures var heap' := heap[id := WithStamp(heap[id], path, source).value];
            && Authored(heap')
            && Source(heap', id, Prefixed(path, node)) == Source(heap', source, node)
  {
    var heap' := heap[id := WithStamp(heap[id], path, source).value];
    StampAuthors(heap, id, path, source);
    MissingIsAbsent(heap', source, node);
    assert NonNested(heap'[id].stamps) by { assert WellFormed(heap'[id]); }
    assert path <= Prefixed(path, node).path;
    hide WellFormed;
    BareStamp(heap', id, path, node);
  }

  /** A stamp without an override at a node passes the source's meaning through. */
  lemma BareStamp(heap: Heap, id: SpecId, path: Path, node: Node)
    requires Closed(heap) && id in heap && NonNested(heap[id].stamps) && path in heap[id].stamps && node.path != []
    requires Prefixed(path, node) !in heap[id].overrides
    requires var m := Source(heap, heap[id].stamps[path], node); !m.exists_ ==> m == Absent(node.kind)
    ensures Source(heap, id, Prefixed(path, node)) == Source(heap, heap[id].stamps[path], node)
  {
    var inner := Prefixed(path, node);
    assert path <= inner.path && inner.path[|path|..] == node.path;
    StampUnique(heap[id], inner.path, path);
    hide NonNested;
    SourceIsLayered(heap, id, inner);
  }

  // ---- The workshop -------------------------------------------------------

  class Workshop {
    var heap: Heap
    var next: SpecId

    ghost predicate Valid()
      reads this
    {
      Authored(heap) && forall id :: id in heap ==> id < next
    }

    constructor ()
      ensures Valid() && heap == map[]
    {
      heap, next := map[], 0;
    }

    method NewSpec(completion: bool) returns (id: SpecId)
      requires Valid()
      modifies this
      ensures Valid() && id !in old(heap) && heap == old(heap)[id := Empty(completion)]
    {
      id := next;
      UpdateKeeps(heap, id, Empty(completion));
      heap := heap[id := Empty(completion)];
      next := next + 1;
    }

    method Handle(id: SpecId, node: Node)
      requires Valid() && id in heap && node.path != []
      modifies this`heap
      ensures Valid() && heap == old(heap)[id := WithHandle(old(heap)[id], node)]
    {
      HandleAuthors(heap, id, node);
      hide Authored;
      hide StampFor;
      var spec := heap[id].(handles := heap[id].handles + {node});
      if StampFor(heap[id], node.path).None? && node !in spec.nodes {
        spec := spec.(nodes := spec.nodes + {node}, events := spec.events + [Declared(node)]);
      }
      heap := heap[id := spec];
    }

    method Configure(id: SpecId, node: Node, config: Config) returns (ok: bool)
      requires Valid() && id in heap && node in heap[id].handles && node.path != [] && Describes(node.kind, config)
      modifies this`heap
      ensures Valid() && ok == WithConfig(old(heap), id, node, config).Some?
      ensures heap == if ok then old(heap)[id := WithConfig(old(heap), id, node, config).value] else old(heap)
    {
      ConfigureMeans(heap, id, node, config);
      hide Authored;
      hide SameBut;
      var spec, m := heap[id], Source(heap, id, node);
      ok := m.exists_ && (m.configured ==> m.config == config);
      if ok {
        if StampFor(spec, node.path).Some? {
          spec := spec.(overrides := spec.overrides[node := Full(config)]);
        } else {
          spec := spec.(configs := spec.configs[node := config]);
        }
        heap := heap[id := spec];
      }
    }

    method Override(id: SpecId, node: Node, patch: Patch) returns (ok: bool)
      requires Valid() && id in heap && node in heap[id].handles && node.path != [] && Suits(node.kind, patch)
      modifies this`heap
      ensures Valid() && ok == WithOverride(old(heap), id, node, patch).Some?
      ensures heap == if ok then old(heap)[id := WithOverride(old(heap), id, node, patch).value] else old(heap)
    {
      assert Closed(heap);
      hide Authored;
      hide SameBut;
      hide Source;
      hide StampFor;
      hide Apply;
      hide Merge;
      hide Changes;
      OverrideMeans(heap, id, node, patch);
      var spec, m := heap[id], Source(heap, id, node);
      ok := m.exists_ && m.configured && Changes(patch);
      if ok {
        if StampFor(spec, node.path).Some? {
          var layer := if node in spec.overrides then Merge(spec.overrides[node], patch) else patch;
          spec := spec.(overrides := spec.overrides[node := layer]);
        } else {
          spec := spec.(configs := spec.configs[node := Apply(patch, m.config)]);
        }
        assert WithOverride(heap, id, node, patch) == Some(spec);
        hide WithOverride;
        heap := heap[id := spec];
      }
    }

    method ConnectNodes(id: SpecId, source: Node, target: Node, arc: string)
      requires Valid() && id in heap && source in heap[id].handles && target in heap[id].handles
      modifies this`heap
      ensures Valid()
      ensures heap == old(heap)[id := old(heap)[id].(events := old(heap)[id].events + [Connected(source, target, arc)])]
    {
      var spec := heap[id];
      assert WellFormed(spec) && Typed(spec);
      ConnectKeeps(spec, Connected(source, target, arc));
      TargetsKnown(heap, id);
      UpdateKeeps(heap, id, spec.(events := spec.events + [Connected(source, target, arc)]));
      heap := heap[id := spec.(events := spec.events + [Connected(source, target, arc)])];
    }

    method Stamp(id: SpecId, path: Path, source: SpecId) returns (ok: bool)
      requires Valid() && id in heap && source in heap
      modifies this`heap
      ensures Valid() && ok == WithStamp(old(heap)[id], path, source).Some?
      ensures heap == if ok then old(heap)[id := WithStamp(old(heap)[id], path, source).value] else old(heap)
    {
      hide Overlaps;
      ok := path != [] && !Overlaps(heap[id], path);
      if ok {
        StampAuthors(heap, id, path, source);
        hide Authored;
        hide Outside;
        var spec := heap[id];
        var events := spec.events;
        if path !in spec.stamps {
          events := events + [Stamped(path)];
        }
        heap := heap[id := spec.(stamps := spec.stamps[path := source],
                                 overrides := Outside(spec.overrides, path),
                                 events := events)];
      }
    }
  }

  // ---- What each update keeps ---------------------------------------------

  lemma HandleKeeps(spec: Spec, node: Node, spec': Spec)
    requires WellFormed(spec) && Typed(spec) && node.path != []
    requires spec' == WithHandle(spec, node)
    ensures WellFormed(spec') && Typed(spec')
  {
    StampedMeans(spec, node.path);
    hide WellFormed;
    hide Typed;
    if StampFor(spec, node.path).None? && node !in spec.nodes {
      NewNodeKeeps(spec, node);
    } else {
      OldHandleKeeps(spec, node);
    }
  }

  lemma NewNodeKeeps(spec: Spec, node: Node)
    requires WellFormed(spec) && Typed(spec) && node.path != [] && !StampedBy(spec.stamps, node.path)
    ensures var spec' := spec.(handles := spec.handles + {node}, nodes := spec.nodes + {node},
                               events := spec.events + [Declared(node)]);
            WellFormed(spec') && Typed(spec')
  {
    hide NonNested;
    hide StampedBy;
    DeclaredOnce(spec, node);
    hide Eventful;
  }

  lemma OldHandleKeeps(spec: Spec, node: Node)
    requires WellFormed(spec) && Typed(spec) && (StampedBy(spec.stamps, node.path) || node in spec.nodes)
    ensures var spec' := spec.(handles := spec.handles + {node}); WellFormed(spec') && Typed(spec')
  {
    hide NonNested;
    hide StampedBy;
    hide Eventful;
  }

  lemma DeclaredOnce(spec: Spec, node: Node)
    requires Eventful(spec.nodes, spec.stamps, spec.events)
    ensures Eventful(spec.nodes + {node}, spec.stamps, spec.events + [Declared(node)])
  {
  }

  lemma OverrideKeeps(spec: Spec, node: Node, patch: Patch)
    requires WellFormed(spec) && Typed(spec) && StampedBy(spec.stamps, node.path) && Suits(node.kind, patch)
    ensures var spec' := spec.(overrides := spec.overrides[node := patch]); WellFormed(spec') && Typed(spec')
  {
    hide NonNested;
    hide Disjoint;
    hide Handled;
    hide StampedBy;
    hide Eventful;
  }

  lemma ConfigKeeps(spec: Spec, node: Node, config: Config)
    requires WellFormed(spec) && Typed(spec) && node in spec.nodes && Describes(node.kind, config)
    ensures var spec' := spec.(configs := spec.configs[node := config]); WellFormed(spec') && Typed(spec')
  {
    hide NonNested;
    hide Disjoint;
    hide Handled;
    hide Inherited;
    hide Eventful;
  }

  lemma ConnectKeeps(spec: Spec, event: Event)
    requires WellFormed(spec) && Typed(spec) && event.Connected?
    ensures var spec' := spec.(events := spec.events + [event]); WellFormed(spec') && Typed(spec')
  {
    hide NonNested;
    hide Disjoint;
    hide Handled;
    hide Inherited;
  }

  lemma StampKeeps(spec: Spec, path: Path, source: SpecId, spec': Spec)
    requires WellFormed(spec) && Typed(spec) && WithStamp(spec, path, source) == Some(spec')
    ensures WellFormed(spec') && Typed(spec')
  {
    forall p ensures StampedBy(spec'.stamps, p) <==> StampedBy(spec.stamps, p) || path <= p {
      if StampedBy(spec.stamps, p) {
        var q :| q in spec.stamps && q <= p;
        assert q in spec'.stamps;
      }
      if path <= p { assert path in spec'.stamps; }
    }
  }

  /** What a stamp hands up to a node suits the node's kind. */
  lemma {:induction false} SuitableBase(heap: Heap, id: SpecId, node: Node)
    requires Closed(heap) && id in heap && node.path != [] && StampFor(heap[id], node.path).Some?
    requires forall j :: j in heap ==> Typed(heap[j])
    ensures Describes(node.kind, Base(heap, id, node).config)
  {
    var k := StampFor(heap[id], node.path).value;
    SuitableSource(heap, heap[id].stamps[node.path[..k]], Node(node.kind, node.path[k..]));
  }

  lemma {:induction false} SuitableSource(heap: Heap, id: SpecId, node: Node)
    requires Closed(heap) && id in heap
    requires forall j :: j in heap ==> Typed(heap[j])
    ensures Describes(node.kind, Source(heap, id, node).config)
    decreases |node.path|
  {
    var spec := heap[id];
    assert Typed(spec);
    if node.path != [] && StampFor(spec, node.path).Some? {
      var k := StampFor(spec, node.path).value;
      SuitableSource(heap, spec.stamps[node.path[..k]], Node(node.kind, node.path[k..]));
    }
  }
}
