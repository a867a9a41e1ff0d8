/**
  Where every event of a flat specification comes from.  A route names an event by
  its place in the root's log, or by a stamp's place there and a route into what the
  stamp brings in.  Flattening writes the events of all routes, each once, in the
  order of the routes, every node declared where it is first mentioned.
  */
module NetRoutes {
  import opened Options
  import opened NetSpec
  import opened NetMeaning
  import opened NetCompiler

  type Route = seq<nat>

  /** The event that a route leads to, its nodes under all the prefixes passed on the way. */
  function At(heap: Heap, id: SpecId, prefix: Path, route: Route): Option<Event>
    decreases |route|
  {
    if route == [] || id !in heap || |heap[id].events| <= route[0] then None
    else match heap[id].events[route[0]]
      case Declared(node) => if |route| == 1 then Some(Declared(Prefixed(prefix, node))) else None
      case Connected(source, target, arc) =>
        if |route| == 1 then Some(Connected(Prefixed(prefix, source), Prefixed(prefix, target), arc)) else None
      case Stamped(path) =>
        if path in heap[id].stamps then At(heap, heap[id].stamps[path], prefix + path, route[1..]) else None
  }

  /** Log order, stamps opened in place. */
  ghost predicate Before(a: Route, b: Route) {
    exists k :: 0 <= k < |a| && k < |b| && a[..k] == b[..k] && a[k] < b[k]
  }

  /** `routes` are all the routes into `id` from event `from` on, in order, and `events` is what they lead to. */
  ghost predicate Lists(heap: Heap, id: SpecId, prefix: Path, from: nat, routes: seq<Route>, events: seq<Event>) {
    && |routes| == |events|
    && (forall i :: 0 <= i < |routes| ==>
          routes[i] != [] && from <= routes[i][0] && At(heap, id, prefix, routes[i]) == Some(events[i]))
    && (forall i, j :: 0 <= i < j < |routes| ==> Before(routes[i], routes[j]))
    && (forall r: Route :: r != [] && from <= r[0] && At(heap, id, prefix, r).Some? ==> r in routes)
  }

  function Noted(events: seq<Event>, node: Node): seq<Event> {
    if Declared(node) in events then events else events + [Declared(node)]
  }

  /** `log` with `events` written after it, every node declared at its first mention. */
  function Written(log: seq<Event>, events: seq<Event>): seq<Event>
    decreases events
  {
    if events == [] then log
    else
      var next := match events[0]
                  case Declared(node) => Noted(log, node)
                  case Connected(source, target, _) => Noted(Noted(log, source), target) + [events[0]]
                  case Stamped(_) => log;
      Written(next, events[1..])
  }

  function Connections(events: seq<Event>): seq<Event> {
    if events == [] then []
    else
      var last := events[|events| - 1];
      Connections(events[..|events| - 1]) + if last.Connected? then [last] else []
  }

  // ---- Putting routes together --------------------------------------------

  lemma BeforeHere(a: Route, b: Route)
    requires a != [] && b != [] && a[0] < b[0]
    ensures Before(a, b)
  {
    assert a[..0] == b[..0];
  }

  lemma BeforeBelow(k: nat, a: Route, b: Route)
    requires Before(a, b)
    ensures Before([k] + a, [k] + b)
  {
    var j :| 0 <= j < |a| && j < |b| && a[..j] == b[..j] && a[j] < b[j];
    assert ([k] + a)[..j + 1] == [k] + a[..j] && ([k] + b)[..j + 1] == [k] + b[..j];
    assert ([k] + a)[j + 1] < ([k] + b)[j + 1];
  }

  function Under(k: nat, routes: seq<Route>): seq<Route> {
    seq(|routes|, i requires 0 <= i < |routes| => [k] + routes[i])
  }

  /** The event at `from` is the specification's own. */
  lemma ListsOwn(heap: Heap, id: SpecId, prefix: Path, from: nat, routes: seq<Route>, events: seq<Event>)
    requires id in heap && from < |heap[id].events| && !heap[id].events[from].Stamped?
    requires Lists(heap, id, prefix, from + 1, routes, events)
    ensures At(heap, id, prefix, [from]).Some?
    ensures Lists(heap, id, prefix, from, [[from]] + routes, [At(heap, id, prefix, [from]).value] + events)
  {
    var all := [[from]] + routes;
    forall i, j | 0 <= i < j < |all| ensures Before(all[i], all[j]) {
      if i == 0 {
        BeforeHere(all[0], all[j]);
      } else {
        assert all[i] == routes[i - 1] && all[j] == routes[j - 1];
      }
    }
    forall r: Route | r != [] && from <= r[0] && At(heap, id, prefix, r).Some? ensures r in all {
      if r[0] == from {
        assert r == [from];
        assert all[0] == r;
      } else {
        assert r in routes;
      }
    }
  }

  lemma UnderLeads(heap: Heap, id: SpecId, prefix: Path, from: nat, path: Path, route: Route)
    requires id in heap && from < |heap[id].events| && heap[id].events[from] == Stamped(path)
    ensures At(heap, id, prefix, [from] + route)
            == if path in heap[id].stamps then At(heap, heap[id].stamps[path], prefix + path, route) else None
  {
    assert ([from] + route)[1..] == route;
  }

  lemma ListsNothing(heap: Heap, id: SpecId, prefix: Path, from: nat, routes: seq<Route>, events: seq<Event>)
    requires id in heap && from < |heap[id].events| && heap[id].events[from].Stamped?
    requires heap[id].events[from].path !in heap[id].stamps && Lists(heap, id, prefix, from + 1, routes, events)
    ensures Lists(heap, id, prefix, from, routes, events)
  {
    forall r: Route | r != [] && from <= r[0] && At(heap, id, prefix, r).Some? ensures r in routes {
      assert r[0] != from;
    }
  }

  lemma ListsOrdered(from: nat, inner: seq<Route>, routes: seq<Route>)
    requires forall i, j :: 0 <= i < j < |inner| ==> Before(inner[i], inner[j])
    requires forall i, j :: 0 <= i < j < |routes| ==> Before(routes[i], routes[j])
    requires forall i :: 0 <= i < |routes| ==> routes[i] != [] && from < routes[i][0]
    ensures var all := Under(from, inner) + routes;
            forall i, j :: 0 <= i < j < |all| ==> Before(all[i], all[j])
  {
    hide Before;
    var all := Under(from, inner) + routes;
    forall i, j | 0 <= i < j < |all| ensures Before(all[i], all[j]) {
      if j < |inner| {
        BeforeBelow(from, inner[i], inner[j]);
      } else if i < |inner| {
        assert all[j] == routes[j - |inner|];
        BeforeHere(all[i], all[j]);
      } else {
        assert all[i] == routes[i - |inner|] && all[j] == routes[j - |inner|];
      }
    }
  }

  /** The event at `from` opens a stamp. */
  lemma ListsStamp(heap: Heap, id: SpecId, prefix: Path, from: nat, path: Path, inner: seq<Route>,
                   below: seq<Event>, routes: seq<Route>, events: seq<Event>)
    requires id in heap && from < |heap[id].events| && heap[id].events[from] == Stamped(path)
    requires path in heap[id].stamps && Lists(heap, heap[id].stamps[path], prefix + path, 0, inner, below)
    requires Lists(heap, id, prefix, from + 1, routes, events)
    ensures Lists(heap, id, prefix, from, Under(from, inner) + routes, below + events)
  {
    hide Before;
    hide At;
    ListsOrdered(from, inner, routes);
    var all := Under(from, inner) + routes;
    forall i | 0 <= i < |all|
      ensures all[i] != [] && from <= all[i][0] && At(heap, id, prefix, all[i]) == Some((below + events)[i])
    {
      if i < |inner| {
        UnderLeads(heap, id, prefix, from, path, inner[i]);
      } else {
        assert all[i] == routes[i - |inner|];
      }
    }
    forall r: Route | r != [] && from <= r[0] && At(heap, id, prefix, r).Some? ensures r in all {
      if r[0] == from {
        assert r == [from] + r[1..];
        UnderLeads(heap, id, prefix, from, path, r[1..]);
        LeadsSomewhere(heap, heap[id].stamps[path], prefix + path, r[1..]);
        var i :| 0 <= i < |inner| && inner[i] == r[1..];
        assert all[i] == r;
      } else {
        assert r in routes;
      }
    }
  }

  lemma LeadsSomewhere(heap: Heap, id: SpecId, prefix: Path, route: Route)
    requires At(heap, id, prefix, route).Some?
    ensures route != [] && id in heap && route[0] < |heap[id].events|
  {
  }

  // ---- Writing ------------------------------------------------------------

  lemma {:induction false} WrittenTwice(log: seq<Event>, a: seq<Event>, b: seq<Event>)
    ensures Written(log, a + b) == Written(Written(log, a), b)
    decreases a
  {
    hide Noted;
    if a == [] {
      assert a + b == b;
    } else {
      assert (a + b)[0] == a[0] && (a + b)[1..] == a[1..] + b;
      var next := match a[0]
                  case Declared(node) => Noted(log, node)
                  case Connected(source, target, _) => Noted(Noted(log, source), target) + [a[0]]
                  case Stamped(_) => log;
      WrittenTwice(next, a[1..], b);
    }
  }

  lemma OneMoreConnection(events: seq<Event>, e: Event)
    ensures Connections(events + [e]) == Connections(events) + if e.Connected? then [e] else []
  {
    assert (events + [e])[..|events|] == events;
  }

  lemma NotedConnects(events: seq<Event>, node: Node)
    ensures Connections(Noted(events, node)) == Connections(events)
  {
    OneMoreConnection(events, Declared(node));
  }

  lemma {:induction false} ConnectionsJoin(a: seq<Event>, b: seq<Event>)
    ensures Connections(a + b) == Connections(a) + Connections(b)
    decreases |b|
  {
    if b == [] {
      assert a + b == a;
    } else {
      hide Connections;
      var start, last := b[..|b| - 1], b[|b| - 1];
      assert b == start + [last] && a + b == (a + start) + [last];
      ConnectionsJoin(a, start);
      OneMoreConnection(a + start, last);
      OneMoreConnection(start, last);
    }
  }

  /** Writing keeps every connection, and the order of the connections. */
  lemma {:induction false} WrittenConnects(log: seq<Event>, events: seq<Event>)
    ensures Connections(Written(log, events)) == Connections(log) + Connections(events)
    decreases events
  {
    hide Noted;
    hide Connections;
    if events == [] {
      assert Connections([]) == [] by { OneMoreNothing(); }
    } else {
      var e, rest := events[0], events[1..];
      assert events == [e] + rest;
      ConnectionsJoin([e], rest);
      OneMoreNothing();
      OneMoreConnection([], e);
      assert [] + [e] == [e];
      match e {
        case Declared(node) =>
          NotedConnects(log, node);
          WrittenConnects(Noted(log, node), rest);
        case Connected(source, target, _) =>
          var noted := Noted(Noted(log, source), target);
          NotedConnects(log, source);
          NotedConnects(Noted(log, source), target);
          OneMoreConnection(noted, e);
          WrittenConnects(noted + [e], rest);
        case Stamped(_) => WrittenConnects(log, rest);
      }
    }
  }

  lemma OneMoreNothing()
    ensures Connections([]) == []
  {
  }

  // ---- Flattening lists the routes ----------------------------------------

  lemma AddNodeNotes(eff: Spec, node: Node)
    requires Flat(eff)
    ensures AddNode(eff, node).events == Noted(eff.events, node)
  {
  }

  /** One own event is written as `Written` says. */
  lemma OwnEventWrites(heap: Heap, id: SpecId, from: nat, eff: Spec, prefix: Path, stack: set<SpecId>)
    requires Closed(heap) && id in heap && Flat(eff) && from < |heap[id].events| && !heap[id].events[from].Stamped?
    requires At(heap, id, prefix, [from]).Some?
    ensures EventResult(heap, id, heap[id].events[from], eff, prefix, stack).events
            == Written(eff.events, [At(heap, id, prefix, [from]).value])
  {
    hide Flat;
    hide Noted;
    var e := At(heap, id, prefix, [from]).value;
    assert [e][1..] == [];
    match heap[id].events[from] {
      case Declared(node) => AddNodeNotes(eff, Prefixed(prefix, node));
      case Connected(source, target, arc) =>
        var s, t := Prefixed(prefix, source), Prefixed(prefix, target);
        AddNodeNotes(eff, s);
        AddNodeFlat(eff, s);
        AddNodeNotes(AddNode(eff, s), t);
    }
  }

  lemma {:induction false} ComposeLists(heap: Heap, id: SpecId, eff: Spec, prefix: Path, stack: set<SpecId>)
    returns (routes: seq<Route>, events: seq<Event>)
    requires Closed(heap) && id in heap && Flat(eff) && Compose(heap, id, eff, prefix, stack).Ok?
    ensures Lists(heap, id, prefix, 0, routes, events)
    ensures Compose(heap, id, eff, prefix, stack).spec.events == Written(eff.events, events)
    decreases heap.Keys - stack, 0
  {
    hide Source;
    hide Flat;
    hide Lists;
    hide Written;
    assert heap[id].events[0..] == heap[id].events;
    routes, events := EventsList(heap, id, 0, eff, prefix, stack + {id});
  }

  lemma {:induction false} EventsList(heap: Heap, id: SpecId, from: nat, eff: Spec, prefix: Path, stack: set<SpecId>)
    returns (routes: seq<Route>, events: seq<Event>)
    requires Closed(heap) && id in heap && Flat(eff) && from <= |heap[id].events|
    requires ComposeEvents(heap, id, heap[id].events[from..], eff, prefix, stack).Ok?
    ensures Lists(heap, id, prefix, from, routes, events)
    ensures ComposeEvents(heap, id, heap[id].events[from..], eff, prefix, stack).spec.events
            == Written(eff.events, events)
    decreases heap.Keys - stack, 1 + |heap[id].events| - from
  {
    hide Source;
    hide Flat;
    hide Declare;
    hide Connect;
    if from == |heap[id].events| {
      routes, events := [], [];
    } else {
      var rest := heap[id].events[from..];
      var event := heap[id].events[from];
      assert rest[0] == event && rest[1..] == heap[id].events[from + 1..];
      hide Lists;
      hide Written;
      var eff1 := EventResult(heap, id, event, eff, prefix, stack);
      EventFlat(heap, id, event, eff, prefix, stack);
      var routes1, events1 := EventsList(heap, id, from + 1, eff1, prefix, stack);
      if !event.Stamped? {
        ListsOwn(heap, id, prefix, from, routes1, events1);
        var e := At(heap, id, prefix, [from]).value;
        OwnEventWrites(heap, id, from, eff, prefix, stack);
        WrittenTwice(eff.events, [e], events1);
        routes, events := [[from]] + routes1, [e] + events1;
      } else if event.path in heap[id].stamps {
        var inner, below := ComposeLists(heap, heap[id].stamps[event.path], eff, prefix + event.path, stack);
        ListsStamp(heap, id, prefix, from, event.path, inner, below, routes1, events1);
        WrittenTwice(eff.events, below, events1);
        routes, events := Under(from, inner) + routes1, below + events1;
      } else {
        ListsNothing(heap, id, prefix, from, routes1, events1);
        routes, events := routes1, events1;
      }
    }
  }

  lemma EventFlat(heap: Heap, id: SpecId, event: Event, eff: Spec, prefix: Path, stack: set<SpecId>)
    requires Closed(heap) && id in heap && Flat(eff) && ComposeEvents(heap, id, [event], eff, prefix, stack).Ok?
    ensures Flat(EventResult(heap, id, event, eff, prefix, stack))
  {
    hide Flat;
    hide Source;
    hide Declare;
    hide Connect;
    assert [event][1..] == [];
    match event {
      case Declared(node) => DeclareFlat(heap[id], eff, prefix, node);
      case Connected(source, target, arc) => ConnectFlat(eff, prefix, source, target, arc);
      case Stamped(path) =>
        if path in heap[id].stamps {
          ComposeFlat(heap, heap[id].stamps[path], eff, prefix + path, stack);
        }
    }
  }

  /**
    A flat specification holds exactly what the routes from the root lead to, in
    route order: all its connections, none lost, none twice, each end under the
    prefixes of its route, and every node declared where it is first mentioned.
    */
  lemma FlattenLists(heap: Heap, root: SpecId) returns (routes: seq<Route>, events: seq<Event>)
    requires Closed(heap) && root in heap && Flatten(heap, root).Ok?
    ensures Lists(heap, root, [], 0, routes, events)
    ensures Flatten(heap, root).spec.events == Written([], events)
    ensures Connections(Flatten(heap, root).spec.events) == Connections(events)
  {
    hide Compose;
    hide Flat;
    hide Lists;
    hide Connections;
    EmptyIsFlat(heap[root].completion);
    OneMoreNothing();
    routes, events := ComposeLists(heap, root, Empty(heap[root].completion), [], {});
    WrittenConnects([], events);
  }

  lemma {:induction false} ConnectionsHold(events: seq<Event>, e: Event)
    ensures e in Connections(events) <==> e.Connected? && e in events
  {
    if events == [] {
    } else {
      ConnectionsHold(events[..|events| - 1], e);
      assert events == events[..|events| - 1] + [events[|events| - 1]];
    }
  }

  /** A flat connection is there if and only if some route from the root leads to it. */
  lemma ArcsHaveRoutes(heap: Heap, root: SpecId, e: Event)
    requires Closed(heap) && root in heap && Flatten(heap, root).Ok? && e.Connected?
    ensures e in Flatten(heap, root).spec.events <==> exists r: Route :: At(heap, root, [], r) == Some(e)
  {
    hide Flatten;
    hide Written;
    hide Connections;
    hide At;
    var routes, events := FlattenLists(heap, root);
    ConnectionsHold(events, e);
    ConnectionsHold(Flatten(heap, root).spec.events, e);
    assert e in Flatten(heap, root).spec.events <==> e in events;
    if e in events {
      var i :| 0 <= i < |events| && events[i] == e;
      assert At(heap, root, [], routes[i]) == Some(e);
    }
    forall r: Route | At(heap, root, [], r) == Some(e) ensures e in events {
      LeadsSomewhere(heap, root, [], r);
      var i :| 0 <= i < |routes| && routes[i] == r;
      assert events[i] == e;
    }
  }
}
