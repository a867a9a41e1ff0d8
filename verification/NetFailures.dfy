/**
  When flattening fails: a walk along stamps leads from the root to what is wrong,
  and if no walk leads to anything wrong, flattening succeeds.
  */
module NetFailures {
  import opened NetSpec
  import opened NetMeaning

  // ---- Walks along stamps -------------------------------------------------

  /** Each specification of the walk stamps the next one. */
  ghost predicate Walk(heap: Heap, ids: seq<SpecId>) {
    ids == [] ||
    (&& ids[0] in heap
     && (|ids| > 1 ==> ids[1] in heap[ids[0]].stamps.Values)
     && Walk(heap, ids[1..]))
  }

  function Last(ids: seq<SpecId>): SpecId
    requires ids != []
  {
    ids[|ids| - 1]
  }

  lemma {:induction false} WalkEnds(heap: Heap, ids: seq<SpecId>)
    requires Walk(heap, ids) && ids != []
    ensures Last(ids) in heap
  {
    if |ids| == 1 {
    } else {
      WalkEnds(heap, ids[1..]);
    }
  }

  lemma WalkFrom(heap: Heap, id: SpecId, ids: seq<SpecId>)
    requires Walk(heap, ids) && ids != [] && id in heap && ids[0] in heap[id].stamps.Values
    ensures Walk(heap, [id] + ids) && Last([id] + ids) == Last(ids)
  {
    assert ([id] + ids)[1..] == ids;
  }

  // ---- What can be wrong --------------------------------------------------

  /** A connection of this specification has an end that does not exist. */
  ghost predicate Dangling(heap: Heap, id: SpecId)
    requires Closed(heap) && id in heap
  {
    exists e :: e in heap[id].events && e.Connected?
                && (!Source(heap, id, e.source).exists_ || !Source(heap, id, e.target).exists_)
  }

  ghost predicate Orphaned(heap: Heap, id: SpecId)
    requires Closed(heap) && id in heap
  {
    exists n :: n in heap[id].overrides && !Source(heap, id, n).exists_
  }

  /**
    The walk ends at a specification that is wrong in the way `e` says;
    `stack` is what was being composed before it.
    */
  ghost predicate Blames(heap: Heap, ids: seq<SpecId>, stamped: bool, stack: set<SpecId>, e: Error)
    requires Closed(heap)
  {
    && Walk(heap, ids) && ids != [] && Last(ids) in heap
    && match e
       case Cycle => Last(ids) in stack || Last(ids) in ids[..|ids| - 1]
       case RootCompletion => heap[Last(ids)].completion && (stamped || |ids| > 1)
       case MissingEndpoint => Dangling(heap, Last(ids))
       case MissingOverride => Orphaned(heap, Last(ids))
  }

  // ---- Every failure has its reason ---------------------------------------

  lemma BlamesHere(heap: Heap, id: SpecId, stamped: bool, stack: set<SpecId>, e: Error)
    requires Closed(heap) && id in heap
    requires match e
             case Cycle => id in stack
             case RootCompletion => heap[id].completion && stamped
             case MissingEndpoint => Dangling(heap, id)
             case MissingOverride => Orphaned(heap, id)
    ensures Blames(heap, [id], stamped, stack, e)
  {
    hide Dangling;
    hide Orphaned;
    assert [id][1..] == [] && Walk(heap, []);
    assert Walk(heap, [id]) && Last([id]) == id;
  }

  lemma BlamesBelow(heap: Heap, id: SpecId, ids: seq<SpecId>, stamped: bool, stack: set<SpecId>, e: Error)
    requires Closed(heap) && id in heap && Blames(heap, ids, true, stack + {id}, e) && ids[0] in heap[id].stamps.Values
    ensures Blames(heap, [id] + ids, stamped, stack, e)
  {
    hide Dangling;
    hide Orphaned;
    WalkFrom(heap, id, ids);
    var all := [id] + ids;
    assert all[..|all| - 1] == [id] + ids[..|ids| - 1];
  }

  /** A composition that fails was led to what is wrong by a walk from where it started. */
  lemma {:induction false} ComposeExplained(heap: Heap, id: SpecId, eff: Spec, prefix: Path, stack: set<SpecId>)
    returns (ids: seq<SpecId>)
    requires GoodHeap(heap) && id in heap && Compose(heap, id, eff, prefix, stack).Err?
    ensures Blames(heap, ids, prefix != [], stack, Compose(heap, id, eff, prefix, stack).error) && ids[0] == id
    decreases heap.Keys - stack, 2 + |heap[id].events|
  {
    hide Source;
    hide GoodHeap;
    hide Blames;
    GoodIsClosed(heap);
    var e := Compose(heap, id, eff, prefix, stack).error;
    if id in stack || (prefix != [] && heap[id].completion) {
      BlamesHere(heap, id, prefix != [], stack, e);
      ids := [id];
    } else if ComposeEvents(heap, id, heap[id].events, eff, prefix, stack + {id}).Err? {
      ids := EventsExplained(heap, id, heap[id].events, eff, prefix, stack);
    } else {
      BlamesHere(heap, id, prefix != [], stack, e);
      ids := [id];
    }
  }

  lemma GoodIsClosed(heap: Heap)
    requires GoodHeap(heap)
    ensures Closed(heap)
    ensures forall id, path :: id in heap && path in heap[id].stamps ==> path != [] && heap[id].stamps[path] in heap
  {
    forall id | id in heap ensures forall path :: path in heap[id].stamps ==> path != [] {
      assert WellFormed(heap[id]);
    }
  }

  lemma {:induction false} EventsExplained(heap: Heap, id: SpecId, events: seq<Event>, eff: Spec, prefix: Path,
                                           stack: set<SpecId>)
    returns (ids: seq<SpecId>)
    requires GoodHeap(heap) && id in heap && id !in stack && (forall e :: e in events ==> e in heap[id].events)
    requires ComposeEvents(heap, id, events, eff, prefix, stack + {id}).Err?
    ensures Blames(heap, ids, prefix != [], stack, ComposeEvents(heap, id, events, eff, prefix, stack + {id}).error)
            && ids[0] == id
    decreases heap.Keys - stack, 1 + |events|
  {
    hide GoodHeap;
    hide Blames;
    hide Source;
    hide Declare;
    hide Connect;
    GoodIsClosed(heap);
    var event, rest, now := events[0], events[1..], stack + {id};
    assert event in heap[id].events;
    match event {
      case Declared(node) =>
        ids := EventsExplained(heap, id, rest, Declare(heap[id], eff, prefix, node), prefix, stack);
      case Connected(source, target, arc) =>
        if !Source(heap, id, source).exists_ || !Source(heap, id, target).exists_ {
          BlamesHere(heap, id, prefix != [], stack, MissingEndpoint);
          ids := [id];
        } else {
          ids := EventsExplained(heap, id, rest, Connect(eff, prefix, source, target, arc), prefix, stack);
        }
      case Stamped(path) =>
        if path !in heap[id].stamps {
          ids := EventsExplained(heap, id, rest, eff, prefix, stack);
        } else {
          var inner := Compose(heap, heap[id].stamps[path], eff, prefix + path, now);
          if inner.Err? {
            assert heap.Keys - now < heap.Keys - stack;
            var below := ComposeExplained(heap, heap[id].stamps[path], eff, prefix + path, now);
            BlamesBelow(heap, id, below, prefix != [], stack, inner.error);
            ids := [id] + below;
          } else {
            ids := EventsExplained(heap, id, rest, inner.spec, prefix, stack);
          }
        }
    }
  }

  // ---- Success means that nothing is wrong --------------------------------

  /** If composition succeeds, every stamp target of a composed specification was composed too, on a longer stack. */
  lemma {:induction false} TargetsComposed(heap: Heap, id: SpecId, events: seq<Event>, eff: Spec, prefix: Path,
                                           stack: set<SpecId>, path: Path)
    returns (eff': Spec)
    requires Closed(heap) && id in heap && ComposeEvents(heap, id, events, eff, prefix, stack).Ok?
    requires path in heap[id].stamps && Stamped(path) in events
    ensures Compose(heap, heap[id].stamps[path], eff', prefix + path, stack).Ok?
    decreases events
  {
    hide Source;
    hide Declare;
    hide Connect;
    hide Closed;
    if events[0] == Stamped(path) {
      eff' := eff;
    } else {
      var next := EventResult(heap, id, events[0], eff, prefix, stack);
      eff' := TargetsComposed(heap, id, events[1..], next, prefix, stack, path);
    }
  }

  lemma StampTo(heap: Heap, id: SpecId, target: SpecId) returns (path: Path)
    requires GoodHeap(heap) && id in heap && target in heap[id].stamps.Values
    ensures path in heap[id].stamps && heap[id].stamps[path] == target && Stamped(path) in heap[id].events && path != []
  {
    assert WellFormed(heap[id]);
    path :| path in heap[id].stamps && heap[id].stamps[path] == target;
  }

  lemma {:induction false} NoDangling(heap: Heap, id: SpecId, events: seq<Event>, eff: Spec, prefix: Path,
                                      stack: set<SpecId>, e: Event)
    requires Closed(heap) && id in heap && ComposeEvents(heap, id, events, eff, prefix, stack).Ok?
    requires e in events && e.Connected?
    ensures Source(heap, id, e.source).exists_ && Source(heap, id, e.target).exists_
    decreases events
  {
    hide Source;
    hide Declare;
    hide Connect;
    hide Closed;
    if events[0] == e {
    } else {
      NoDangling(heap, id, events[1..], EventResult(heap, id, events[0], eff, prefix, stack), prefix, stack, e);
    }
  }

  /** What composed is itself in order. */
  lemma ComposedHere(heap: Heap, id: SpecId, eff: Spec, prefix: Path, stack: set<SpecId>)
    requires Closed(heap) && id in heap && Compose(heap, id, eff, prefix, stack).Ok?
    ensures id !in stack && !(prefix != [] && heap[id].completion) && !Dangling(heap, id) && !Orphaned(heap, id)
  {
    hide Source;
    forall e | e in heap[id].events && e.Connected?
      ensures Source(heap, id, e.source).exists_ && Source(heap, id, e.target).exists_
    {
      NoDangling(heap, id, heap[id].events, eff, prefix, stack + {id}, e);
    }
  }

  lemma AbsolvedBelow(heap: Heap, id: SpecId, rest: seq<SpecId>, stamped: bool, stack: set<SpecId>, e: Error)
    requires Closed(heap) && Walk(heap, [id] + rest) && rest != []
    requires !Blames(heap, rest, true, stack + {id}, e) && forall i :: 0 <= i < |rest| ==> rest[i] !in stack + {id}
    ensures !Blames(heap, [id] + rest, stamped, stack, e)
  {
    var ids := [id] + rest;
    hide Dangling;
    hide Orphaned;
    assert ids[1..] == rest;
    assert ids[..|ids| - 1] == [id] + rest[..|rest| - 1];
    WalkEnds(heap, rest);
    assert Last(ids) == Last(rest) == rest[|rest| - 1];
  }

  lemma AbsolvedHere(heap: Heap, id: SpecId, stamped: bool, stack: set<SpecId>, e: Error)
    requires Closed(heap) && id in heap && id !in stack && !(stamped && heap[id].completion)
    requires !Dangling(heap, id) && !Orphaned(heap, id)
    ensures !Blames(heap, [id], stamped, stack, e)
  {
    hide Dangling;
    hide Orphaned;
    assert Last([id]) == id && [id][..0] == [];
  }

  lemma NextComposed(heap: Heap, id: SpecId, target: SpecId, eff: Spec, prefix: Path, stack: set<SpecId>)
    returns (eff': Spec, path: Path)
    requires GoodHeap(heap) && id in heap && target in heap[id].stamps.Values
             && Compose(heap, id, eff, prefix, stack).Ok?
    ensures path != [] && target in heap && Compose(heap, target, eff', prefix + path, stack + {id}).Ok?
  {
    path := StampTo(heap, id, target);
    hide ComposeEvents;
    hide Source;
    eff' := TargetsComposed(heap, id, heap[id].events, eff, prefix, stack + {id}, path);
  }

  /** From a specification that composes, no walk leads to anything wrong. */
  lemma {:induction false} ComposedIsSound(heap: Heap, ids: seq<SpecId>, eff: Spec, prefix: Path, stack: set<SpecId>,
                                           e: Error)
    requires GoodHeap(heap) && Walk(heap, ids) && ids != [] && Compose(heap, ids[0], eff, prefix, stack).Ok?
    ensures forall i :: 0 <= i < |ids| ==> ids[i] !in stack
    ensures !Blames(heap, ids, prefix != [], stack, e)
    decreases |ids|
  {
    hide GoodHeap;
    hide Compose;
    hide Dangling;
    hide Orphaned;
    hide Blames;
    GoodIsClosed(heap);
    ComposedHere(heap, ids[0], eff, prefix, stack);
    if |ids| == 1 {
      AbsolvedHere(heap, ids[0], prefix != [], stack, e);
      assert ids == [ids[0]];
    } else {
      var rest := ids[1..];
      var eff', path := NextComposed(heap, ids[0], ids[1], eff, prefix, stack);
      ComposedIsSound(heap, rest, eff', prefix + path, stack + {ids[0]}, e);
      assert ids == [ids[0]] + rest;
      AbsolvedBelow(heap, ids[0], rest, prefix != [], stack, e);
    }
  }

  // ---- Flattening ---------------------------------------------------------

  /** The error flattening raises is really there: a walk from the root leads to it; a cycle error to a stamp cycle. */
  lemma FlattenExplained(heap: Heap, root: SpecId) returns (ids: seq<SpecId>)
    requires GoodHeap(heap) && root in heap && Flatten(heap, root).Err?
    ensures Blames(heap, ids, false, {}, Flatten(heap, root).error) && ids[0] == root
  {
    ids := ComposeExplained(heap, root, Empty(heap[root].completion), [], {});
  }

  /** Flattening succeeds if and only if no walk from the root leads to anything wrong. */
  lemma FlattenSucceeds(heap: Heap, root: SpecId)
    requires GoodHeap(heap) && root in heap
    ensures Flatten(heap, root).Ok?
            <==> forall ids, e :: ids != [] && ids[0] == root ==> !Blames(heap, ids, false, {}, e)
  {
    if Flatten(heap, root).Ok? {
      forall ids, e | ids != [] && ids[0] == root ensures !Blames(heap, ids, false, {}, e) {
        if Walk(heap, ids) {
          ComposedIsSound(heap, ids, Empty(heap[root].completion), [], {}, e);
        }
      }
    } else {
      var ids := FlattenExplained(heap, root);
    }
  }

  /** Where stamp cycles are all that is wrong, a reachable one raises the cycle error. */
  lemma CycleFails(heap: Heap, root: SpecId, ids: seq<SpecId>)
    requires GoodHeap(heap) && root in heap && Blames(heap, ids, false, {}, Cycle) && ids[0] == root
    ensures Flatten(heap, root).Err?
    ensures (forall other, e :: other != [] && other[0] == root && Blames(heap, other, false, {}, e) ==> e == Cycle) ==>
              Flatten(heap, root) == Err(Cycle)
  {
    FlattenSucceeds(heap, root);
    var found := FlattenExplained(heap, root);
    hide Blames;
    hide Flatten;
  }
}
