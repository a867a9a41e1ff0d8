/**
  Implementation-free simulation (`simulation.py`) over the firing rule of
  `petrinet/firing.py`, `petrinet/enabledness.py` and `petrinet/routing.py`.
  Filters, guards and timers only narrow which binding is chosen, so a binding is
  any choice of present tokens that the consuming arcs' colours admit.
  */
module Admission {
  import opened Options
  import opened Sifting

  type Path = string

  const MAX_PLACES: nat := 128
  const MAX_TRANSITIONS: nat := 128
  const MAX_ARCS: nat := 512
  const MAX_INITIAL_TOKENS: nat := 512
  const MAX_ACTIONS: nat := 256
  const MAX_RETAINED_TOKENS: nat := 4096
  const MAX_CANDIDATE_OFFERS: nat := 10000

  datatype Mode = Consume | Read | Inhibit
  datatype Token = Token(color: Option<string>, data: string)
  datatype Arc = Arc(source: Path, target: Path, mode: Mode, weight: int, color: Option<string>)

  /** `handled` are the transitions that name a handler. */
  datatype Net = Net(places: seq<Path>, colors: map<Path, string>, transitions: seq<Path>, handled: set<Path>,
                     arcs: seq<Arc>)

  /** Sparse: a place without tokens is absent. */
  type Marking = map<Path, seq<Token>>

  /** The tokens each consuming input arc selects, in arc order. */
  type Binding = seq<(Path, seq<Token>)>

  predicate Distinct(paths: seq<Path>) { forall i, j :: 0 <= i < j < |paths| ==> paths[i] != paths[j] }

  /** What the Net's own construction guarantees. */
  predicate WellFormed(net: Net) {
    && Distinct(net.places) && Distinct(net.transitions)
    && (forall p :: p in net.places ==> p !in net.transitions)
    && (forall a :: a in net.arcs ==>
          || (a.source in net.places && a.target in net.transitions)
          || (a.source in net.transitions && a.target in net.places))
  }

  function Queue(m: Marking, p: Path): seq<Token> { if p in m then m[p] else [] }

  function WithQueue(m: Marking, p: Path, q: seq<Token>): Marking { if q == [] then m - {p} else m[p := q] }

  /** Tokens held at the listed places. */
  function Total(m: Marking, places: seq<Path>): nat {
    if places == [] then 0 else |Queue(m, places[0])| + Total(m, places[1..])
  }

  // ---- Arcs ---------------------------------------------------------------

  predicate Selecting(net: Net, t: Path, a: Arc) { a.target == t && a.source in net.places && !a.mode.Inhibit? }

  predicate Consuming(net: Net, t: Path, a: Arc) { a.target == t && a.source in net.places && a.mode.Consume? }

  predicate Output(net: Net, t: Path, a: Arc) { a.source == t && a.target in net.places }

  function Pick(arcs: seq<Arc>, f: Arc -> bool): (r: seq<Arc>)
    ensures forall a :: a in r ==> a in arcs && f(a)
  {
    if arcs == [] then [] else (if f(arcs[0]) then [arcs[0]] else []) + Pick(arcs[1..], f)
  }

  function Consumers(net: Net, t: Path): seq<Arc> { Pick(net.arcs, (a: Arc) => Consuming(net, t, a)) }

  function Selectors(net: Net, t: Path): seq<Arc> { Pick(net.arcs, (a: Arc) => Selecting(net, t, a)) }

  function Outputs(net: Net, t: Path): seq<Arc> { Pick(net.arcs, (a: Arc) => Output(net, t, a)) }

  predicate Admits(a: Arc, t: Token) { a.color.None? || a.color == t.color }

  function Admitted(a: Arc, tokens: seq<Token>): (r: seq<Token>)
    ensures |r| <= |tokens| && forall t :: t in r ==> Admits(a, t)
  {
    if tokens == [] then [] else (if Admits(a, tokens[0]) then [tokens[0]] else []) + Admitted(a, tokens[1..])
  }

  // ---- Firing -------------------------------------------------------------

  /** Remove the front-most equal occurrence. */
  function RemoveOne(queue: seq<Token>, t: Token): Option<seq<Token>> {
    if queue == [] then None
    else if queue[0] == t then Some(queue[1..])
    else
      var rest := RemoveOne(queue[1..], t);
      if rest.None? then None else Some([queue[0]] + rest.value)
  }

  function RemoveAll(queue: seq<Token>, tokens: seq<Token>): Option<seq<Token>>
    decreases |tokens|
  {
    if tokens == [] then Some(queue)
    else
      var rest := RemoveOne(queue, tokens[0]);
      if rest.None? then None else RemoveAll(rest.value, tokens[1..])
  }

  /** `begin_firing`: every selection leaves its place. */
  function Begin(m: Marking, b: Binding): Option<Marking>
    decreases |b|
  {
    if b == [] then Some(m)
    else
      var rest := RemoveAll(Queue(m, b[0].0), b[0].1);
      if rest.None? then None else Begin(WithQueue(m, b[0].0, rest.value), b[1..])
  }

  function Carried(b: Binding): seq<Token> { if b == [] then [] else b[0].1 + Carried(b[1..]) }

  /** What one place receives: each output arc to it, in arc order, forwards every token it admits. */
  function RoutedTo(tokens: seq<Token>, outputs: seq<Arc>, p: Path): seq<Token> {
    if outputs == [] then []
    else
      var n := |outputs| - 1;
      RoutedTo(tokens, outputs[..n], p) + if outputs[n].target == p then Admitted(outputs[n], tokens) else []
  }

  predicate Deposits(outputs: seq<Arc>, p: Path, t: Token) {
    exists i :: 0 <= i < |outputs| && outputs[i].target == p && Admits(outputs[i], t)
  }

  function Deposited(outputs: seq<Arc>, p: Path, tokens: seq<Token>): seq<Token> {
    if tokens == [] then []
    else (if Deposits(outputs, p, tokens[0]) then [tokens[0]] else []) + Deposited(outputs, p, tokens[1..])
  }

  /** `complete_firing` on routed tokens, filtered once more by the output arcs. */
  function Complete(m: Marking, outputs: seq<Arc>, routed: Marking): Marking {
    map p | p in m.Keys + routed.Keys :: Queue(m, p) + Deposited(outputs, p, Queue(routed, p))
  }

  predicate Selected(a: Arc, selection: (Path, seq<Token>), m: Marking) {
    && selection.0 == a.source && |selection.1| == a.weight
    && forall t :: t in selection.1 ==> Admits(a, t) && t in Queue(m, a.source)
  }

  predicate Enabled(net: Net, m: Marking, t: Path, b: Binding) {
    var arcs := Consumers(net, t);
    && t in net.transitions && (exists a :: a in net.arcs && a.target == t && a.source in net.places)
    && |b| == |arcs| && forall i :: 0 <= i < |b| ==> Selected(arcs[i], b[i], m)
  }

  /** The result of `route` as a value. */
  function Routed(tokens: seq<Token>, outputs: seq<Arc>): Marking {
    map p | p in Targets(outputs) && RoutedTo(tokens, outputs, p) != [] :: RoutedTo(tokens, outputs, p)
  }

  function Targets(outputs: seq<Arc>): set<Path> { set i | 0 <= i < |outputs| :: outputs[i].target }

  lemma {:induction false} RoutedElsewhere(tokens: seq<Token>, outputs: seq<Arc>, p: Path)
    requires p !in Targets(outputs)
    ensures RoutedTo(tokens, outputs, p) == []
  {
    if outputs == [] {
    } else {
      var n := |outputs| - 1;
      assert outputs[n].target in Targets(outputs);
      forall i | 0 <= i < n ensures outputs[..n][i].target in Targets(outputs) {
      }
      RoutedElsewhere(tokens, outputs[..n], p);
    }
  }

  lemma RoutedQueue(tokens: seq<Token>, outputs: seq<Arc>, p: Path)
    ensures Queue(Routed(tokens, outputs), p) == RoutedTo(tokens, outputs, p)
  {
    if p !in Targets(outputs) {
      RoutedElsewhere(tokens, outputs, p);
    }
  }

  ghost predicate Delivers(routed: Marking, tokens: seq<Token>, outputs: seq<Arc>) {
    && (forall p :: Queue(routed, p) == RoutedTo(tokens, outputs, p))
    && (forall p :: p in routed ==> routed[p] != [])
  }

  function Extended(routed: Marking, p: Path, more: seq<Token>): Marking {
    if more == [] then routed else routed[p := Queue(routed, p) + more]
  }

  lemma DeliversNothing(tokens: seq<Token>)
    ensures Delivers(map[], tokens, [])
  {
  }

  lemma DeliversOne(routed: Marking, tokens: seq<Token>, outputs: seq<Arc>, arc: Arc)
    requires Delivers(routed, tokens, outputs)
    ensures Delivers(Extended(routed, arc.target, Admitted(arc, tokens)), tokens, outputs + [arc])
  {
    var more := Admitted(arc, tokens);
    var extended := Extended(routed, arc.target, more);
    forall p ensures Queue(extended, p) == RoutedTo(tokens, outputs + [arc], p) {
      assert (outputs + [arc])[..|outputs|] == outputs;
      assert Queue(routed, p) == RoutedTo(tokens, outputs, p);
    }
  }

  lemma DeliversIsRouted(routed: Marking, tokens: seq<Token>, outputs: seq<Arc>)
    requires Delivers(routed, tokens, outputs)
    ensures routed == Routed(tokens, outputs)
  {
    var other := Routed(tokens, outputs);
    forall p ensures (p in routed <==> p in other) && (p in routed ==> routed[p] == other[p]) {
      RoutedQueue(tokens, outputs, p);
      assert Queue(routed, p) == RoutedTo(tokens, outputs, p);
    }
  }

  /** `route`: tokens follow every admitting output arc, concatenated per target. */
  method Route(tokens: seq<Token>, outputs: seq<Arc>) returns (routed: Marking)
    ensures routed == Routed(tokens, outputs)
    ensures forall p :: Queue(routed, p) == RoutedTo(tokens, outputs, p)
  {
    hide RoutedTo, Targets, Routed;
    routed := map[];
    var n := 0;
    DeliversNothing(tokens);
    while n < |outputs|
      invariant 0 <= n <= |outputs| && Delivers(routed, tokens, outputs[..n])
    {
      var arc := outputs[n];
      var admitted := Admitted(arc, tokens);
      DeliversOne(routed, tokens, outputs[..n], arc);
      assert outputs[..n + 1] == outputs[..n] + [arc];
      if admitted != [] {
        routed := routed[arc.target := Queue(routed, arc.target) + admitted];
      }
      n := n + 1;
    }
    assert outputs[..n] == outputs;
    DeliversIsRouted(routed, tokens, outputs);
  }

  /** One firing of a handler-free transition. */
  function Fire(net: Net, m: Marking, t: Path, b: Binding): Option<Marking> {
    var taken := Begin(m, b);
    if taken.None? then None
    else Some(Complete(taken.value, Outputs(net, t), Routed(Carried(b), Outputs(net, t))))
  }

  // ---- Conservation -------------------------------------------------------

  lemma {:induction false} TotalElsewhere(m: Marking, m': Marking, places: seq<Path>)
    requires forall p :: p in places ==> Queue(m', p) == Queue(m, p)
    ensures Total(m', places) == Total(m, places)
  {
    if places == [] {
    } else {
      TotalElsewhere(m, m', places[1..]);
    }
  }

  lemma {:induction false} TotalWithQueue(m: Marking, places: seq<Path>, p: Path, q: seq<Token>)
    requires Distinct(places) && p in places
    ensures Total(WithQueue(m, p, q), places) + |Queue(m, p)| == Total(m, places) + |q|
  {
    if places[0] == p {
      TotalElsewhere(m, WithQueue(m, p, q), places[1..]);
    } else {
      TotalWithQueue(m, places[1..], p, q);
    }
  }

  lemma {:induction false} RemoveOneCounts(queue: seq<Token>, t: Token)
    ensures RemoveOne(queue, t).Some? <==> t in queue
    ensures RemoveOne(queue, t).Some? ==> |RemoveOne(queue, t).value| == |queue| - 1
  {
    if queue != [] && queue[0] != t {
      RemoveOneCounts(queue[1..], t);
    }
  }

  lemma SkipOne(queue: seq<Token>, k: nat)
    requires 0 < k < |queue|
    ensures var tail := queue[1..];
            [queue[0]] + (tail[..k - 1] + tail[k..]) == queue[..k] + queue[k + 1..] && tail[..k - 1] == queue[1..k]
  {
  }

  /** Removal takes the front-most equal token and leaves the others in order. */
  lemma {:induction false} RemovesFrontmost(queue: seq<Token>, t: Token) returns (k: nat)
    requires t in queue
    ensures k < |queue| && queue[k] == t && (forall i :: 0 <= i < k ==> queue[i] != t)
    ensures RemoveOne(queue, t) == Some(queue[..k] + queue[k + 1..])
  {
    if queue[0] == t {
      k := 0;
      assert queue[..0] + queue[1..] == queue[1..];
    } else {
      var tail := queue[1..];
      var rest := RemovesFrontmost(tail, t);
      k := rest + 1;
      assert RemoveOne(queue, t) == Some([queue[0]] + RemoveOne(tail, t).value);
      hide RemoveOne;
      SkipOne(queue, k);
      forall i | 0 <= i < k ensures queue[i] != t {
        assert i > 0 ==> queue[i] == tail[i - 1];
      }
    }
  }

  lemma {:induction false} RemoveAllCounts(queue: seq<Token>, tokens: seq<Token>)
    ensures RemoveAll(queue, tokens).Some? ==> |RemoveAll(queue, tokens).value| + |tokens| == |queue|
    decreases |tokens|
  {
    if tokens == [] {
    } else {
      RemoveOneCounts(queue, tokens[0]);
      var rest := RemoveOne(queue, tokens[0]);
      if rest.Some? {
        RemoveAllCounts(rest.value, tokens[1..]);
      }
    }
  }

  lemma {:induction false} BeginCounts(m: Marking, b: Binding, places: seq<Path>)
    requires Distinct(places) && (forall i :: 0 <= i < |b| ==> b[i].0 in places) && Begin(m, b).Some?
    ensures Total(Begin(m, b).value, places) + |Carried(b)| == Total(m, places)
    decreases |b|
  {
    if b == [] {
    } else {
      RemoveAllCounts(Queue(m, b[0].0), b[0].1);
      var rest := RemoveAll(Queue(m, b[0].0), b[0].1).value;
      TotalWithQueue(m, places, b[0].0, rest);
      BeginCounts(WithQueue(m, b[0].0, rest), b[1..], places);
    }
  }

  /** How many tokens the outputs receive, counted arc by arc. */
  function Forwarded(tokens: seq<Token>, outputs: seq<Arc>): nat {
    if outputs == [] then 0
    else Forwarded(tokens, outputs[..|outputs| - 1]) + |Admitted(outputs[|outputs| - 1], tokens)|
  }

  function RoutedTotal(tokens: seq<Token>, outputs: seq<Arc>, places: seq<Path>): nat {
    if places == [] then 0 else |RoutedTo(tokens, outputs, places[0])| + RoutedTotal(tokens, outputs, places[1..])
  }

  lemma {:induction false} LastArcOnce(tokens: seq<Token>, outputs: seq<Arc>, places: seq<Path>)
    requires Distinct(places) && outputs != []
    ensures var last := outputs[|outputs| - 1];
            RoutedTotal(tokens, outputs, places)
            == RoutedTotal(tokens, outputs[..|outputs| - 1], places)
               + if last.target in places then |Admitted(last, tokens)| else 0
  {
    if places == [] {
    } else {
      LastArcOnce(tokens, outputs, places[1..]);
    }
  }

  lemma {:induction false} RoutedCounts(tokens: seq<Token>, outputs: seq<Arc>, places: seq<Path>)
    requires Distinct(places) && forall i :: 0 <= i < |outputs| ==> outputs[i].target in places
    ensures RoutedTotal(tokens, outputs, places) == Forwarded(tokens, outputs)
    decreases |outputs|
  {
    if outputs == [] {
      NothingRouted(tokens, places);
    } else {
      LastArcOnce(tokens, outputs, places);
      RoutedCounts(tokens, outputs[..|outputs| - 1], places);
    }
  }

  lemma {:induction false} NothingRouted(tokens: seq<Token>, places: seq<Path>)
    ensures RoutedTotal(tokens, [], places) == 0
  {
    if places == [] {
    } else {
      NothingRouted(tokens, places[1..]);
    }
  }

  lemma {:induction false} DepositedAll(outputs: seq<Arc>, p: Path, tokens: seq<Token>)
    requires forall t :: t in tokens ==> Deposits(outputs, p, t)
    ensures Deposited(outputs, p, tokens) == tokens
  {
    if tokens == [] {
    } else {
      DepositedAll(outputs, p, tokens[1..]);
    }
  }

  lemma {:induction false} RoutedAreDeposited(tokens: seq<Token>, outputs: seq<Arc>, p: Path, t: Token)
    requires t in RoutedTo(tokens, outputs, p)
    ensures Deposits(outputs, p, t)
  {
    var n := |outputs| - 1;
    if t in RoutedTo(tokens, outputs[..n], p) {
      RoutedAreDeposited(tokens, outputs[..n], p, t);
      var i :| 0 <= i < n && outputs[..n][i].target == p && Admits(outputs[..n][i], t);
      assert outputs[i].target == p;
    } else {
      assert outputs[n].target == p;
    }
  }

  /** The second filter drops nothing: each place gains exactly what was routed to it. */
  lemma CompleteQueue(m: Marking, tokens: seq<Token>, outputs: seq<Arc>, p: Path)
    ensures Queue(Complete(m, outputs, Routed(tokens, outputs)), p) == Queue(m, p) + RoutedTo(tokens, outputs, p)
  {
    RoutedQueue(tokens, outputs, p);
    forall t | t in RoutedTo(tokens, outputs, p) ensures Deposits(outputs, p, t) {
      RoutedAreDeposited(tokens, outputs, p, t);
    }
    DepositedAll(outputs, p, RoutedTo(tokens, outputs, p));
  }

  lemma {:induction false} CompleteCounts(m: Marking, tokens: seq<Token>, outputs: seq<Arc>, places: seq<Path>)
    ensures Total(Complete(m, outputs, Routed(tokens, outputs)), places)
            == Total(m, places) + RoutedTotal(tokens, outputs, places)
  {
    if places == [] {
    } else {
      CompleteQueue(m, tokens, outputs, places[0]);
      CompleteCounts(m, tokens, outputs, places[1..]);
    }
  }

  /** For every Net: a firing removes the tokens it carries and adds one per token and admitting output arc. */
  lemma FiringConserves(net: Net, m: Marking, t: Path, b: Binding)
    requires WellFormed(net) && Enabled(net, m, t, b) && Fire(net, m, t, b).Some?
    ensures Total(Fire(net, m, t, b).value, net.places) + |Carried(b)|
            == Total(m, net.places) + Forwarded(Carried(b), Outputs(net, t))
  {
    var outputs := Outputs(net, t);
    forall i | 0 <= i < |b| ensures b[i].0 in net.places {
      assert Selected(Consumers(net, t)[i], b[i], m);
      assert Consumers(net, t)[i] in Consumers(net, t);
    }
    BeginCounts(m, b, net.places);
    forall i | 0 <= i < |outputs| ensures outputs[i].target in net.places {
      assert outputs[i] in outputs;
    }
    CompleteCounts(Begin(m, b).value, Carried(b), outputs, net.places);
    RoutedCounts(Carried(b), outputs, net.places);
  }

  // ---- Which tokens move, and in which order ------------------------------

  /** `rest` is `queue` with some tokens left out, the others in order; `at` says where each was. */
  ghost predicate Keeps(rest: seq<Token>, queue: seq<Token>, at: seq<nat>) {
    && |at| == |rest| && (forall i :: 0 <= i < |at| ==> at[i] < |queue| && rest[i] == queue[at[i]])
    && (forall i, j :: 0 <= i < j < |at| ==> at[i] < at[j])
  }

  lemma KeepsAll(queue: seq<Token>) returns (at: seq<nat>)
    ensures Keeps(queue, queue, at)
  {
    at := seq(|queue|, i requires 0 <= i < |queue| => i);
  }

  lemma KeepsTwice(a: seq<Token>, b: seq<Token>, c: seq<Token>, f: seq<nat>, g: seq<nat>) returns (at: seq<nat>)
    requires Keeps(a, b, f) && Keeps(b, c, g)
    ensures Keeps(a, c, at)
  {
    at := seq(|f|, i requires 0 <= i < |f| => g[f[i]]);
  }

  lemma LeftOut(queue: seq<Token>, k: nat) returns (at: seq<nat>)
    requires k < |queue|
    ensures Keeps(queue[..k] + queue[k + 1..], queue, at)
  {
    var rest := queue[..k] + queue[k + 1..];
    at := seq(|rest|, i requires 0 <= i < |rest| => if i < k then i else i + 1);
    forall i | 0 <= i < |rest| ensures rest[i] == queue[at[i]] {
      assert i >= k ==> rest[i] == queue[k + 1..][i - k];
    }
  }

  lemma RemoveOneKeeps(queue: seq<Token>, t: Token) returns (at: seq<nat>)
    requires RemoveOne(queue, t).Some?
    ensures var rest := RemoveOne(queue, t).value;
            Keeps(rest, queue, at) && multiset(rest) + multiset{t} == multiset(queue)
  {
    hide Keeps;
    RemoveOneCounts(queue, t);
    hide RemoveOne;
    var k := RemovesFrontmost(queue, t);
    at := LeftOut(queue, k);
    assert queue == queue[..k] + [t] + queue[k + 1..];
  }

  lemma {:induction false} RemoveAllKeeps(queue: seq<Token>, tokens: seq<Token>) returns (at: seq<nat>)
    requires RemoveAll(queue, tokens).Some?
    ensures var rest := RemoveAll(queue, tokens).value;
            Keeps(rest, queue, at) && multiset(rest) + multiset(tokens) == multiset(queue)
    decreases |tokens|
  {
    hide RemoveOne;
    hide Keeps;
    if tokens == [] {
      at := KeepsAll(queue);
    } else {
      var f := RemoveOneKeeps(queue, tokens[0]);
      var less := RemoveOne(queue, tokens[0]).value;
      var g := RemoveAllKeeps(less, tokens[1..]);
      at := KeepsTwice(RemoveAll(less, tokens[1..]).value, less, queue, g, f);
      assert tokens == [tokens[0]] + tokens[1..];
    }
  }

  /** The tokens that a binding takes from one place. */
  function TakenFrom(b: Binding, p: Path): seq<Token> {
    if b == [] then [] else (if b[0].0 == p then b[0].1 else []) + TakenFrom(b[1..], p)
  }

  lemma QueueAfter(m: Marking, q: Path, rest: seq<Token>, p: Path)
    ensures Queue(WithQueue(m, q, rest), p) == if p == q then rest else Queue(m, p)
  {
  }

  lemma {:induction false} BeginTakes(m: Marking, b: Binding, p: Path) returns (at: seq<nat>)
    requires Begin(m, b).Some?
    ensures var rest := Queue(Begin(m, b).value, p);
            Keeps(rest, Queue(m, p), at) && multiset(rest) + multiset(TakenFrom(b, p)) == multiset(Queue(m, p))
    decreases |b|
  {
    hide RemoveAll;
    hide Keeps;
    hide Queue;
    hide WithQueue;
    if b == [] {
      at := KeepsAll(Queue(m, p));
    } else {
      var less := RemoveAll(Queue(m, b[0].0), b[0].1).value;
      QueueAfter(m, b[0].0, less, p);
      at := BeginTakes(WithQueue(m, b[0].0, less), b[1..], p);
      if b[0].0 == p {
        var f := RemoveAllKeeps(Queue(m, p), b[0].1);
        at := KeepsTwice(Queue(Begin(m, b).value, p), less, Queue(m, p), at, f);
      }
    }
  }

  /**
    What a firing leaves at every place: the tokens it did not select from there, in
    their order, followed by what its output arcs route there; no other token moves.
    */
  lemma FiringMoves(net: Net, m: Marking, t: Path, b: Binding, p: Path) returns (rest: seq<Token>, at: seq<nat>)
    requires Fire(net, m, t, b).Some?
    ensures Queue(Fire(net, m, t, b).value, p) == rest + RoutedTo(Carried(b), Outputs(net, t), p)
    ensures Keeps(rest, Queue(m, p), at)
    ensures multiset(rest) + multiset(TakenFrom(b, p)) == multiset(Queue(m, p))
  {
    hide Keeps;
    at := BeginTakes(m, b, p);
    rest := Queue(Begin(m, b).value, p);
    CompleteQueue(Begin(m, b).value, Carried(b), Outputs(net, t), p);
    hide Begin;
  }

  /** What is carried follows the binding: the tokens of one arc before those of the next. */
  lemma {:induction false} CarriedInOrder(first: Binding, then_: Binding)
    ensures Carried(first + then_) == Carried(first) + Carried(then_)
    decreases |first|
  {
    if first == [] {
      assert first + then_ == then_;
    } else {
      assert (first + then_)[0] == first[0] && (first + then_)[1..] == first[1..] + then_;
      CarriedInOrder(first[1..], then_);
    }
  }

  function Forwards(tokens: seq<Token>, arc: Arc, p: Path): seq<Token> {
    if arc.target == p then Admitted(arc, tokens) else []
  }

  lemma RoutedLast(tokens: seq<Token>, outputs: seq<Arc>, last: Arc, p: Path)
    ensures RoutedTo(tokens, outputs + [last], p) == RoutedTo(tokens, outputs, p) + Forwards(tokens, last, p)
  {
    assert (outputs + [last])[..|outputs|] == outputs;
  }

  /** Routing follows the arcs in order: what the first arcs route comes before what the later ones do. */
  lemma {:induction false} RoutedInOrder(tokens: seq<Token>, first: seq<Arc>, then_: seq<Arc>, p: Path)
    ensures RoutedTo(tokens, first + then_, p) == RoutedTo(tokens, first, p) + RoutedTo(tokens, then_, p)
    decreases |then_|
  {
    if then_ == [] {
      assert first + then_ == first;
    } else {
      hide RoutedTo, Forwards;
      var init, last := then_[..|then_| - 1], then_[|then_| - 1];
      assert then_ == init + [last] && first + then_ == (first + init) + [last];
      RoutedLast(tokens, first + init, last, p);
      RoutedLast(tokens, init, last, p);
      RoutedInOrder(tokens, first, init, p);
      Regroup(RoutedTo(tokens, first, p), RoutedTo(tokens, init, p), Forwards(tokens, last, p));
    }
  }

  lemma Regroup(a: seq<Token>, b: seq<Token>, c: seq<Token>)
    ensures (a + b) + c == a + (b + c)
  {
  }

  /** One arc forwards exactly the tokens of its colour, each once, in order. */
  lemma {:induction false} AdmittedExactly(a: Arc, tokens: seq<Token>)
    ensures Sifts(tokens, Admitted(a, tokens), (t: Token) => a.color.None? || a.color == t.color)
  {
    var wanted := (t: Token) => a.color.None? || a.color == t.color;
    hide Sifts;
    if tokens == [] {
      NothingSifts(wanted);
    } else {
      AdmittedExactly(a, tokens[1..]);
      OneInFront(tokens[0], tokens[1..], Admitted(a, tokens[1..]), wanted);
      assert [tokens[0]] + tokens[1..] == tokens;
    }
  }

  /** What the Net's construction does to arcs: a coloured place lends its colour to every arc at it. */
  predicate Resolved(net: Net) {
    forall a :: a in net.arcs ==>
      && (a.source in net.colors ==> a.color == Some(net.colors[a.source]))
      && (a.target in net.colors ==> a.color == Some(net.colors[a.target]))
  }

  ghost predicate PlaceColoured(net: Net, p: Path, queue: seq<Token>) {
    p in net.colors ==> forall i :: 0 <= i < |queue| ==> queue[i].color == Some(net.colors[p])
  }

  lemma {:induction false} RoutedColoured(net: Net, tokens: seq<Token>, outputs: seq<Arc>, p: Path)
    requires Resolved(net) && forall i :: 0 <= i < |outputs| ==> outputs[i] in net.arcs
    ensures PlaceColoured(net, p, RoutedTo(tokens, outputs, p))
    decreases |outputs|
  {
    if outputs == [] {
    } else {
      var n := |outputs| - 1;
      assert outputs[n] in net.arcs;
      RoutedColoured(net, tokens, outputs[..n], p);
      AdmittedExactly(outputs[n], tokens);
      var wanted := (t: Token) => outputs[n].color.None? || outputs[n].color == t.color;
      forall i | 0 <= i < |Admitted(outputs[n], tokens)|
        ensures outputs[n].color.None? || Admitted(outputs[n], tokens)[i].color == outputs[n].color
      {
        var k := SiftedIsWanted(tokens, Admitted(outputs[n], tokens), wanted, i);
      }
    }
  }

  /** A firing keeps every coloured place to its colour. */
  lemma FiringColoured(net: Net, m: Marking, t: Path, b: Binding, p: Path)
    requires Resolved(net) && PlaceColoured(net, p, Queue(m, p)) && Fire(net, m, t, b).Some?
    ensures PlaceColoured(net, p, Queue(Fire(net, m, t, b).value, p))
  {
    var rest, at := FiringMoves(net, m, t, b, p);
    RoutedColoured(net, Carried(b), Outputs(net, t), p);
    hide Fire, RoutedTo;
  }

  /** In every run, whatever a Net is made to fire, a coloured place holds tokens of its own colour only. */
  lemma {:induction false} PlayColoured(net: Net, m: Marking, firings: seq<Firing>, p: Path)
    requires Resolved(net) && PlaceColoured(net, p, Queue(m, p))
    ensures PlaceColoured(net, p, Queue(Play(net, m, firings), p))
    decreases |firings|
  {
    hide Fire, Enabled, Resolved, PlaceColoured;
    if firings == [] {
    } else {
      var last := firings[|firings| - 1];
      var before := Play(net, m, firings[..|firings| - 1]);
      PlayColoured(net, m, firings[..|firings| - 1], p);
      if Fire(net, before, last.transition, last.binding).Some? {
        FiringColoured(net, before, last.transition, last.binding, p);
      }
    }
  }

  // ---- Admission ----------------------------------------------------------

  predicate Input(net: Net, a: Arc) { a.source in net.places && a.target in net.transitions }

  /** Input arcs leaving place `p`. */
  function Incidence(net: Net, arcs: seq<Arc>, p: Path): nat {
    if arcs == [] then 0
    else Incidence(net, arcs[..|arcs| - 1], p)
         + if arcs[|arcs| - 1].source == p && arcs[|arcs| - 1].target in net.transitions then 1 else 0
  }

  /** Greatest incidence over the listed places, 0 when there are none. */
  function MaxIncidence(net: Net, places: seq<Path>): nat {
    if places == [] then 0
    else
      var n := |places| - 1;
      var rest, mine := MaxIncidence(net, places[..n]), Incidence(net, net.arcs, places[n]);
      if mine > rest then mine else rest
  }

  lemma {:induction false} MaxIncidenceMeans(net: Net, places: seq<Path>)
    ensures forall p :: p in places ==> Incidence(net, net.arcs, p) <= MaxIncidence(net, places)
    ensures MaxIncidence(net, places) == 0
            || exists p :: p in places && Incidence(net, net.arcs, p) == MaxIncidence(net, places)
  {
    hide Incidence;
    if places == [] {
    } else {
      var n := |places| - 1;
      MaxIncidenceMeans(net, places[..n]);
      assert places == places[..n] + [places[n]];
      if Incidence(net, net.arcs, places[n]) <= MaxIncidence(net, places[..n]) {
        if p :| p in places[..n] && Incidence(net, net.arcs, p) == MaxIncidence(net, places[..n]) {
          assert p in places;
        }
      } else {
        assert places[n] in places;
      }
    }
  }

  predicate Unbranched(net: Net, t: Path) {
    && t !in net.handled
    && |Selectors(net, t)| <= 1 && (forall a :: a in Selectors(net, t) ==> a.mode.Consume?)
    && |Outputs(net, t)| <= 1
  }

  predicate Coloured(net: Net, m: Marking) {
    forall p :: p in m ==>
      p in net.places && forall t :: t in m[p] && p in net.colors ==> t.color == Some(net.colors[p])
  }

  predicate Structural(net: Net) {
    && |net.places| <= MAX_PLACES && |net.transitions| <= MAX_TRANSITIONS && |net.arcs| <= MAX_ARCS
    && (forall a :: a in net.arcs ==> a.weight == 1)
    && (forall t :: t in net.transitions ==> Unbranched(net, t))
  }

  predicate Admissible(net: Net, m: Marking, maxActions: int) {
    && 1 <= maxActions <= MAX_ACTIONS && Structural(net) && Coloured(net, m)
    && Total(m, net.places) <= MAX_INITIAL_TOKENS
    && Total(m, net.places) * MaxIncidence(net, net.places) <= MAX_CANDIDATE_OFFERS
  }

  /** The rules of admission, in terms of single arcs and places. */
  ghost predicate Lawful(net: Net, m: Marking, maxActions: int) {
    && 1 <= maxActions <= 256 && |net.places| <= 128 && |net.transitions| <= 128 && |net.arcs| <= 512
    && (forall i :: 0 <= i < |net.arcs| ==> net.arcs[i].weight == 1)
    && (forall t :: t in net.transitions ==> t !in net.handled)
    && (forall t, i, j :: t in net.transitions && 0 <= i < j < |net.arcs| ==>
          && !(Selecting(net, t, net.arcs[i]) && Selecting(net, t, net.arcs[j]))
          && !(Output(net, t, net.arcs[i]) && Output(net, t, net.arcs[j])))
    && (forall i :: 0 <= i < |net.arcs| && net.arcs[i].source in net.places && net.arcs[i].target in net.transitions ==>
          !net.arcs[i].mode.Read?)
    && (forall p :: p in m ==> p in net.places && PlaceColoured(net, p, m[p]))
    && Total(m, net.places) <= 512
    && forall p :: p in net.places ==> Total(m, net.places) * Incidence(net, net.arcs, p) <= 10000
  }

  /** At most one arc is picked if and only if no two are wanted. */
  lemma {:induction false} PicksOne(arcs: seq<Arc>, f: Arc -> bool)
    ensures |Pick(arcs, f)| <= 1 <==> forall i, j :: 0 <= i < j < |arcs| ==> !(f(arcs[i]) && f(arcs[j]))
    ensures Pick(arcs, f) == [] <==> forall i :: 0 <= i < |arcs| ==> !f(arcs[i])
    ensures forall i :: 0 <= i < |arcs| && f(arcs[i]) ==> arcs[i] in Pick(arcs, f)
  {
    if arcs == [] {
    } else {
      var rest := arcs[1..];
      PicksOne(rest, f);
      assert forall i :: 0 < i < |arcs| ==> arcs[i] == rest[i - 1];
      assert forall i :: 0 <= i < |rest| ==> rest[i] == arcs[i + 1];
    }
  }

  lemma UnbranchedMeans(net: Net, t: Path)
    ensures Unbranched(net, t) <==>
            && t !in net.handled
            && (forall i, j :: 0 <= i < j < |net.arcs| ==>
                  && !(Selecting(net, t, net.arcs[i]) && Selecting(net, t, net.arcs[j]))
                  && !(Output(net, t, net.arcs[i]) && Output(net, t, net.arcs[j])))
            && (forall i :: 0 <= i < |net.arcs| && net.arcs[i].target == t && net.arcs[i].source in net.places ==>
                  !net.arcs[i].mode.Read?)
  {
    PicksOne(net.arcs, (a: Arc) => Selecting(net, t, a));
    PicksOne(net.arcs, (a: Arc) => Output(net, t, a));
    hide Pick;
    assert forall a :: a in Selectors(net, t) ==> a in net.arcs && Selecting(net, t, a);
  }

  lemma ProductBound(net: Net, tokens: nat)
    ensures tokens * MaxIncidence(net, net.places) <= 10000
            <==> forall p :: p in net.places ==> tokens * Incidence(net, net.arcs, p) <= 10000
  {
    var top := MaxIncidence(net, net.places);
    MaxIncidenceMeans(net, net.places);
    assert top == 0 || exists p :: p in net.places && Incidence(net, net.arcs, p) == top;
    forall p | p in net.places ensures tokens * Incidence(net, net.arcs, p) <= tokens * top {
      Times(Incidence(net, net.arcs, p), 0, top, tokens);
    }
    hide Incidence, MaxIncidence;
    if top == 0 {
      assert tokens * top == 0;
    }
  }

  /** A Net, a marking and an action limit are admitted if and only if they keep every rule. */
  lemma AdmissibleMeans(net: Net, m: Marking, maxActions: int)
    ensures Admissible(net, m, maxActions) <==> Lawful(net, m, maxActions)
  {
    hide Unbranched;
    hide Total;
    hide MaxIncidence;
    hide Incidence;
    hide Selecting;
    hide Output;
    ProductBound(net, Total(m, net.places));
    forall t | t in net.transitions
      ensures Unbranched(net, t) <==>
              && t !in net.handled
              && (forall i, j :: 0 <= i < j < |net.arcs| ==>
                    && !(Selecting(net, t, net.arcs[i]) && Selecting(net, t, net.arcs[j]))
                    && !(Output(net, t, net.arcs[i]) && Output(net, t, net.arcs[j])))
              && (forall i :: 0 <= i < |net.arcs| && net.arcs[i].target == t && net.arcs[i].source in net.places ==>
                    !net.arcs[i].mode.Read?)
    {
      UnbranchedMeans(net, t);
    }
    assert forall a :: a in net.arcs <==> exists i :: 0 <= i < |net.arcs| && net.arcs[i] == a;
  }

  /** `_input_scan_bound`: the queue lengths seen by all input arcs. */
  function InputScans(net: Net, arcs: seq<Arc>, m: Marking): nat {
    if arcs == [] then 0
    else InputScans(net, arcs[..|arcs| - 1], m)
         + if Input(net, arcs[|arcs| - 1]) then |Queue(m, arcs[|arcs| - 1].source)| else 0
  }

  // ---- The static bound covers every scan ---------------------------------

  function Weighted(net: Net, arcs: seq<Arc>, m: Marking, places: seq<Path>): nat {
    if places == [] then 0
    else Product(Incidence(net, arcs, places[0]), |Queue(m, places[0])|) + Weighted(net, arcs, m, places[1..])
  }

  function Product(n: nat, q: nat): nat { n * q }

  lemma ProductSuccessor(n: nat, q: nat)
    ensures Product(n + 1, q) == Product(n, q) + q && Product(0, q) == 0
  {
  }

  lemma IncidenceLast(net: Net, arcs: seq<Arc>, p: Path)
    requires arcs != []
    ensures var last := arcs[|arcs| - 1];
            Incidence(net, arcs, p)
            == Incidence(net, arcs[..|arcs| - 1], p)
               + if last.source == p && last.target in net.transitions then 1 else 0
  {
  }

  /** One more arc adds its source's queue once. */
  lemma OneMoreArc(net: Net, arcs: seq<Arc>, m: Marking, p: Path)
    requires arcs != []
    ensures var last := arcs[|arcs| - 1];
            Product(Incidence(net, arcs, p), |Queue(m, p)|)
            == Product(Incidence(net, arcs[..|arcs| - 1], p), |Queue(m, p)|)
               + if last.source == p && last.target in net.transitions then |Queue(m, p)| else 0
  {
    hide Product, Queue, Incidence;
    IncidenceLast(net, arcs, p);
    ProductSuccessor(Incidence(net, arcs[..|arcs| - 1], p), |Queue(m, p)|);
  }

  lemma {:induction false} WeightedArc(net: Net, arcs: seq<Arc>, m: Marking, places: seq<Path>)
    requires arcs != [] && Distinct(places)
    ensures var last := arcs[|arcs| - 1];
            Weighted(net, arcs, m, places)
            == Weighted(net, arcs[..|arcs| - 1], m, places)
               + if last.source in places && last.target in net.transitions then |Queue(m, last.source)| else 0
  {
    if places == [] {
    } else {
      hide Incidence, Queue, Product;
      OneMoreArc(net, arcs, m, places[0]);
      WeightedArc(net, arcs, m, places[1..]);
      assert forall p :: p in places <==> p == places[0] || p in places[1..];
    }
  }

  lemma {:induction false} WeightedNone(net: Net, m: Marking, places: seq<Path>)
    ensures Weighted(net, [], m, places) == 0
  {
    if places == [] {
    } else {
      WeightedNone(net, m, places[1..]);
    }
  }

  /** Counting scans arc by arc or place by place comes to the same. */
  lemma {:induction false} ScansByPlace(net: Net, arcs: seq<Arc>, m: Marking)
    requires Distinct(net.places)
    ensures InputScans(net, arcs, m) == Weighted(net, arcs, m, net.places)
    decreases |arcs|
  {
    if arcs == [] {
      WeightedNone(net, m, net.places);
    } else {
      WeightedArc(net, arcs, m, net.places);
      ScansByPlace(net, arcs[..|arcs| - 1], m);
    }
  }

  lemma Times(a: nat, b: nat, c: nat, k: nat)
    requires a <= c
    ensures a * k <= c * k && c * (k + b) == c * k + c * b
  {
  }

  lemma {:induction false} WeightedBound(net: Net, m: Marking, places: seq<Path>, top: nat)
    requires forall p :: p in places ==> Incidence(net, net.arcs, p) <= top
    ensures Weighted(net, net.arcs, m, places) <= top * Total(m, places)
  {
    if places == [] {
    } else {
      WeightedBound(net, m, places[1..], top);
      Times(Incidence(net, net.arcs, places[0]), Total(m, places[1..]), top, |Queue(m, places[0])|);
    }
  }

  /** For every Net and marking, the scans are at most the tokens times the greatest place incidence. */
  lemma ScansBounded(net: Net, m: Marking)
    requires Distinct(net.places)
    ensures InputScans(net, net.arcs, m) <= Total(m, net.places) * MaxIncidence(net, net.places)
  {
    ScansByPlace(net, net.arcs, m);
    MaxIncidenceMeans(net, net.places);
    WeightedBound(net, m, net.places, MaxIncidence(net, net.places));
  }

  // ---- Every run of an admitted Net ---------------------------------------

  lemma {:induction false} ConsumersAreSelectors(net: Net, t: Path, arcs: seq<Arc>)
    ensures |Pick(arcs, (a: Arc) => Consuming(net, t, a))| <= |Pick(arcs, (a: Arc) => Selecting(net, t, a))|
  {
    if arcs == [] {
    } else {
      ConsumersAreSelectors(net, t, arcs[1..]);
    }
  }

  lemma SingleBegins(m: Marking, b: Binding)
    requires |b| == 1 && |b[0].1| == 1 && b[0].1[0] in Queue(m, b[0].0)
    ensures Begin(m, b).Some? && |Carried(b)| == 1
  {
    var q, t := Queue(m, b[0].0), b[0].1[0];
    RemoveOneCounts(q, t);
    assert b[0].1[1..] == [] && b[1..] == [];
    assert RemoveAll(RemoveOne(q, t).value, b[0].1[1..]).Some?;
    assert Carried(b[1..]) == [];
  }

  /** An enabled binding of an admitted Net carries at most one token, and firing it never fails or adds a token. */
  lemma FiringShrinks(net: Net, m: Marking, t: Path, b: Binding)
    requires WellFormed(net) && Structural(net) && Enabled(net, m, t, b)
    ensures Fire(net, m, t, b).Some?
    ensures Total(Fire(net, m, t, b).value, net.places) <= Total(m, net.places)
  {
    assert Unbranched(net, t);
    ConsumersAreSelectors(net, t, net.arcs);
    if |b| == 1 {
      var a := Consumers(net, t)[0];
      assert a in Consumers(net, t);
      assert Selected(a, b[0], m);
      assert b[0].1[0] in b[0].1;
      SingleBegins(m, b);
    }
    assert |Carried(b)| <= 1;
    FiringConserves(net, m, t, b);
    ForwardedBound(Carried(b), Outputs(net, t));
    assert |Outputs(net, t)| * |Carried(b)| <= |Carried(b)|;
  }

  lemma {:induction false} ForwardedBound(tokens: seq<Token>, outputs: seq<Arc>)
    ensures Forwarded(tokens, outputs) <= |outputs| * |tokens|
  {
    if outputs == [] {
    } else {
      ForwardedBound(tokens, outputs[..|outputs| - 1]);
      assert |outputs| * |tokens| == (|outputs| - 1) * |tokens| + |tokens|;
    }
  }

  datatype Firing = Firing(transition: Path, binding: Binding)

  /** Play firings for as long as each is enabled. */
  function Play(net: Net, m: Marking, firings: seq<Firing>): Marking
    decreases |firings|
  {
    if firings == [] then m
    else
      var last := firings[|firings| - 1];
      var before := Play(net, m, firings[..|firings| - 1]);
      if Enabled(net, before, last.transition, last.binding) && Fire(net, before, last.transition, last.binding).Some?
      then Fire(net, before, last.transition, last.binding).value
      else before
  }

  lemma {:induction false} PlayShrinks(net: Net, m: Marking, firings: seq<Firing>)
    requires WellFormed(net) && Structural(net)
    ensures Total(Play(net, m, firings), net.places) <= Total(m, net.places)
    decreases |firings|
  {
    if firings == [] {
    } else {
      var last := firings[|firings| - 1];
      PlayShrinks(net, m, firings[..|firings| - 1]);
      var before := Play(net, m, firings[..|firings| - 1]);
      if Enabled(net, before, last.transition, last.binding) {
        FiringShrinks(net, before, last.transition, last.binding);
      }
    }
  }

  /** In every reachable marking of an admitted run neither dynamic limit can be exceeded. */
  lemma ChecksUnreachable(net: Net, m: Marking, maxActions: int, firings: seq<Firing>)
    requires WellFormed(net) && Admissible(net, m, maxActions)
    ensures InputScans(net, net.arcs, Play(net, m, firings)) <= MAX_CANDIDATE_OFFERS
    ensures Total(Play(net, m, firings), net.places) <= MAX_INITIAL_TOKENS <= MAX_RETAINED_TOKENS
  {
    PlayShrinks(net, m, firings);
    var top := MaxIncidence(net, net.places);
    var now := Play(net, m, firings);
    ScansBounded(net, now);
    Times(Total(now, net.places), 0, Total(m, net.places), top);
  }

  // ---- The loops of the source --------------------------------------------

  method CountPicked(net: Net, t: Path) returns (selecting: seq<Arc>, outputs: seq<Arc>)
    ensures selecting == Selectors(net, t) && outputs == Outputs(net, t)
  {
    selecting, outputs := [], [];
    var n := |net.arcs|;
    while n > 0
      invariant 0 <= n <= |net.arcs|
      invariant selecting == Pick(net.arcs[n..], (a: Arc) => Selecting(net, t, a))
      invariant outputs == Pick(net.arcs[n..], (a: Arc) => Output(net, t, a))
    {
      n := n - 1;
      var a := net.arcs[n];
      assert net.arcs[n..] == [a] + net.arcs[n + 1..];
      if Selecting(net, t, a) {
        selecting := [a] + selecting;
      }
      if Output(net, t, a) {
        outputs := [a] + outputs;
      }
    }
    assert net.arcs[0..] == net.arcs;
  }

  /** The structural half of `_admit`. */
  method AdmitStructure(net: Net) returns (ok: bool)
    ensures ok <==> Structural(net)
  {
    if |net.places| > MAX_PLACES || |net.transitions| > MAX_TRANSITIONS || |net.arcs| > MAX_ARCS {
      return false;
    }
    var i := 0;
    while i < |net.arcs|
      invariant 0 <= i <= |net.arcs| && forall k :: 0 <= k < i ==> net.arcs[k].weight == 1
    {
      if net.arcs[i].weight != 1 {
        assert net.arcs[i] in net.arcs;
        return false;
      }
      i := i + 1;
    }
    i := 0;
    while i < |net.transitions|
      invariant 0 <= i <= |net.transitions| && forall k :: 0 <= k < i ==> Unbranched(net, net.transitions[k])
    {
      var t := net.transitions[i];
      var selecting, outputs := CountPicked(net, t);
      if t in net.handled || |selecting| > 1 || (|selecting| == 1 && !selecting[0].mode.Consume?) || |outputs| > 1 {
        assert !Unbranched(net, t);
        return false;
      }
      i := i + 1;
    }
    return true;
  }

  /** The token total, accumulated. */
  method CountTokens(net: Net, m: Marking) returns (tokens: nat)
    ensures tokens == Total(m, net.places)
  {
    tokens := 0;
    var i := |net.places|;
    while i > 0
      invariant 0 <= i <= |net.places| && tokens == Total(m, net.places[i..])
    {
      i := i - 1;
      tokens := tokens + |Queue(m, net.places[i])|;
    }
    assert net.places[0..] == net.places;
  }

  /** The greatest place incidence, accumulated. */
  method GreatestIncidence(net: Net) returns (incidence: nat)
    ensures incidence == MaxIncidence(net, net.places)
  {
    hide Incidence;
    incidence := 0;
    var i := 0;
    while i < |net.places|
      invariant 0 <= i <= |net.places| && incidence == MaxIncidence(net, net.places[..i])
    {
      var mine := CountIncidence(net, net.places[i]);
      assert net.places[..i + 1][..i] == net.places[..i];
      if mine > incidence {
        incidence := mine;
      }
      i := i + 1;
    }
    assert net.places[..i] == net.places;
  }

  method CountIncidence(net: Net, p: Path) returns (n: nat)
    ensures n == Incidence(net, net.arcs, p)
  {
    n := 0;
    var i := 0;
    while i < |net.arcs|
      invariant 0 <= i <= |net.arcs| && n == Incidence(net, net.arcs[..i], p)
    {
      assert net.arcs[..i + 1][..i] == net.arcs[..i];
      if net.arcs[i].source == p && net.arcs[i].target in net.transitions {
        n := n + 1;
      }
      i := i + 1;
    }
    assert net.arcs[..i] == net.arcs;
  }

  method CountScans(net: Net, m: Marking) returns (n: nat)
    ensures n == InputScans(net, net.arcs, m)
  {
    n := 0;
    var i := 0;
    while i < |net.arcs|
      invariant 0 <= i <= |net.arcs| && n == InputScans(net, net.arcs[..i], m)
    {
      assert net.arcs[..i + 1][..i] == net.arcs[..i];
      if Input(net, net.arcs[i]) {
        n := n + |Queue(m, net.arcs[i].source)|;
      }
      i := i + 1;
    }
    assert net.arcs[..i] == net.arcs;
  }

  /** `_admit`, without the limits on encoded sizes. */
  method Admit(net: Net, m: Marking, maxActions: int) returns (ok: bool)
    ensures ok <==> Admissible(net, m, maxActions)
  {
    var structural := AdmitStructure(net);
    var tokens := CountTokens(net, m);
    var incidence := GreatestIncidence(net);
    hide Structural, Total, MaxIncidence, Coloured;
    return 1 <= maxActions <= MAX_ACTIONS && structural && Coloured(net, m)
           && tokens <= MAX_INITIAL_TOKENS && tokens * incidence <= MAX_CANDIDATE_OFFERS;
  }

  datatype Verdict = NotAdmitted | ScanLimit | TokenLimit | ActionLimit | Rest

  /** What filters, guards and timers allow on top of enabledness, and what the engine picks of it. */
  datatype Engine = Engine(ready: (Marking, Firing) -> bool, offer: Marking -> Option<Firing>)

  /** Nothing that is enabled is also ready. */
  ghost predicate AtRest(net: Net, engine: Engine, m: Marking) {
    forall f: Firing :: Enabled(net, m, f.transition, f.binding) ==> !engine.ready(m, f)
  }

  /** The engine offers something enabled and ready whenever there is something. */
  ghost predicate Offering(net: Net, engine: Engine) {
    forall m ::
      match engine.offer(m)
      case Some(f) => Enabled(net, m, f.transition, f.binding) && engine.ready(m, f)
      case None => AtRest(net, engine, m)
  }

  lemma OffersEnabled(net: Net, engine: Engine, m: Marking)
    requires Offering(net, engine)
    ensures match engine.offer(m)
            case Some(f) => Enabled(net, m, f.transition, f.binding) && engine.ready(m, f)
            case None => AtRest(net, engine, m)
  {
    hide Enabled;
  }

  /**
    `simulate`: an admitted run ends at rest, with nothing ready, or at its action
    limit, never at a dynamic limit; and it made exactly the firings the engine offered.
    */
  method Simulate(net: Net, initial: Marking, maxActions: int, engine: Engine)
    returns (verdict: Verdict, marking: Marking, fired: seq<Firing>)
    requires WellFormed(net) && Offering(net, engine)
    ensures verdict.NotAdmitted? <==> !Admissible(net, initial, maxActions)
    ensures verdict.NotAdmitted? || verdict.ActionLimit? || verdict.Rest?
    ensures marking == Play(net, initial, fired)
    ensures forall k :: 0 <= k < |fired| ==> engine.offer(Play(net, initial, fired[..k])) == Some(fired[k])
    ensures verdict.NotAdmitted? ==> fired == []
    ensures verdict.ActionLimit? ==> |fired| == maxActions
    ensures verdict.Rest? ==> |fired| < maxActions && AtRest(net, engine, marking)
  {
    hide Admissible, WellFormed, Total, Play, Fire, Enabled, MaxIncidence, InputScans, Offering, AtRest;
    marking, fired := initial, [];
    PlayNothing(net, initial, maxActions);
    var admitted := Admit(net, initial, maxActions);
    if !admitted {
      return NotAdmitted, marking, fired;
    }
    verdict := ActionLimit;
    while |fired| < maxActions
      invariant |fired| <= maxActions && verdict.ActionLimit? && marking == Play(net, initial, fired)
      invariant forall k :: 0 <= k < |fired| ==> engine.offer(Play(net, initial, fired[..k])) == Some(fired[k])
      decreases maxActions - |fired|
    {
      ChecksUnreachable(net, initial, maxActions, fired);
      var scans := CountScans(net, marking);
      if scans > MAX_CANDIDATE_OFFERS {
        verdict := ScanLimit;
        break;
      }
      OffersEnabled(net, engine, marking);
      var offer := engine.offer(marking);
      if offer.None? {
        verdict := Rest;
        break;
      }
      var f := offer.value;
      PlayOne(net, initial, maxActions, fired, f);
      marking := Fire(net, marking, f.transition, f.binding).value;
      SnocPrefixes(fired, f);
      fired := fired + [f];
      ChecksUnreachable(net, initial, maxActions, fired);
      var retained := CountTokens(net, marking);
      if retained > MAX_RETAINED_TOKENS {
        verdict := TokenLimit;
        break;
      }
    }
  }

  lemma SnocPrefixes(fired: seq<Firing>, f: Firing)
    ensures (fired + [f])[..|fired|] == fired
    ensures forall k :: 0 <= k <= |fired| ==> (fired + [f])[..k] == fired[..k]
  {
  }

  lemma PlayNothing(net: Net, m: Marking, maxActions: int)
    ensures Play(net, m, []) == m
    ensures Admissible(net, m, maxActions) ==> 1 <= maxActions
  {
  }

  lemma PlayOne(net: Net, m: Marking, maxActions: int, fired: seq<Firing>, f: Firing)
    requires WellFormed(net) && Admissible(net, m, maxActions)
    requires Enabled(net, Play(net, m, fired), f.transition, f.binding)
    ensures var before := Play(net, m, fired);
            && Fire(net, before, f.transition, f.binding).Some?
            && Play(net, m, fired + [f]) == Fire(net, before, f.transition, f.binding).value
  {
    hide Fire, Enabled, WellFormed, Structural, Coloured;
    assert (fired + [f])[..|fired|] == fired;
    FiringShrinks(net, Play(net, m, fired), f.transition, f.binding);
  }
}
