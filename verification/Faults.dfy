/**
  Armed faults under any sequence of consultations: each fires exactly once, at
  the consultation of its own target that its occurrence names, whatever else is
  armed or consulted.  And the whole of a profile operation's script: what each of
  its consultations is told, and what they leave of the services.
  */
module Faults {
  import opened Options
  import opened World

  /** What stays armed after consulting `targets` in order. */
  function Consulted(armed: seq<ActiveFault>, targets: seq<string>): seq<ActiveFault>
    decreases |targets|
  {
    if targets == [] then armed
    else Retained(Consulted(armed, targets[..|targets| - 1]), targets[|targets| - 1])
  }

  function Visits(targets: seq<string>, target: string): nat {
    if targets == [] then 0
    else Visits(targets[..|targets| - 1], target) + if targets[|targets| - 1] == target then 1 else 0
  }

  lemma Regroup<T>(a: seq<T>, b: seq<T>, c: seq<T>)
    ensures (a + b) + c == a + (b + c)
  {
  }

  lemma {:induction false} MatchedSplits(a: seq<ActiveFault>, b: seq<ActiveFault>, target: string)
    ensures Matched(a + b, target) == Matched(a, target) + Matched(b, target)
  {
    if a == [] {
      assert a + b == b;
    } else {
      assert (a + b)[0] == a[0] && (a + b)[1..] == a[1..] + b;
      MatchedSplits(a[1..], b, target);
      var head := if a[0].fault.target == target && a[0].seen + 1 == a[0].fault.occurrence then [a[0].fault] else [];
      assert Matched(a, target) == head + Matched(a[1..], target);
      assert Matched(a + b, target) == head + Matched(a[1..] + b, target);
      hide Matched;
      Regroup(head, Matched(a[1..], target), Matched(b, target));
    }
  }

  lemma {:induction false} RetainedSplits(a: seq<ActiveFault>, b: seq<ActiveFault>, target: string)
    ensures Retained(a + b, target) == Retained(a, target) + Retained(b, target)
  {
    if a == [] {
      assert a + b == b;
    } else {
      assert (a + b)[0] == a[0] && (a + b)[1..] == a[1..] + b;
      RetainedSplits(a[1..], b, target);
      var head := if a[0].fault.target != target then [a[0]]
                  else if a[0].seen + 1 == a[0].fault.occurrence then []
                  else [ActiveFault(a[0].fault, a[0].seen + 1)];
      assert Retained(a, target) == head + Retained(a[1..], target);
      assert Retained(a + b, target) == head + Retained(a[1..] + b, target);
      hide Retained;
      Regroup(head, Retained(a[1..], target), Retained(b, target));
    }
  }

  lemma {:induction false} ConsultedSplits(a: seq<ActiveFault>, b: seq<ActiveFault>, targets: seq<string>)
    ensures Consulted(a + b, targets) == Consulted(a, targets) + Consulted(b, targets)
    decreases |targets|
  {
    if targets == [] {
    } else {
      var init := targets[..|targets| - 1];
      ConsultedSplits(a, b, init);
      RetainedSplits(Consulted(a, init), Consulted(b, init), targets[|targets| - 1]);
    }
  }

  lemma SingleFault(a: ActiveFault, target: string)
    ensures Matched([a], target)
            == if a.fault.target == target && a.seen + 1 == a.fault.occurrence then [a.fault] else []
    ensures Retained([a], target)
            == if a.fault.target != target then [a]
               else if a.seen + 1 == a.fault.occurrence then []
               else [ActiveFault(a.fault, a.seen + 1)]
  {
    assert [a][1..] == [];
    assert Matched([], target) == [] && Retained([], target) == [];
  }

  lemma NothingArmed(target: string)
    ensures Matched([], target) == [] && Retained([], target) == []
  {
  }

  /** A fault alone: armed until its target has been consulted often enough, gone from then on. */
  lemma {:induction false} CountsDown(a: ActiveFault, targets: seq<string>)
    requires a.seen < a.fault.occurrence
    ensures var seen := a.seen + Visits(targets, a.fault.target);
            Consulted([a], targets) == if seen < a.fault.occurrence then [ActiveFault(a.fault, seen)] else []
    decreases |targets|
  {
    hide Matched;
    hide Retained;
    if targets == [] {
    } else {
      var init, last := targets[..|targets| - 1], targets[|targets| - 1];
      CountsDown(a, init);
      var seen := a.seen + Visits(init, a.fault.target);
      if seen < a.fault.occurrence {
        SingleFault(ActiveFault(a.fault, seen), last);
      } else {
        NothingArmed(last);
      }
    }
  }

  /**
    Fault `a`, armed between any others, contributes to the consultation at `j`
    exactly when that is the consultation of its target its occurrence names; the
    others contribute what they would have without it.
    */
  lemma FiresOnce(before: seq<ActiveFault>, a: ActiveFault, after: seq<ActiveFault>, targets: seq<string>, j: nat)
    requires a.seen < a.fault.occurrence && j < |targets|
    ensures var due := targets[j] == a.fault.target
                       && a.seen + Visits(targets[..j + 1], a.fault.target) == a.fault.occurrence;
            Matched(Consulted(before + [a] + after, targets[..j]), targets[j])
            == Matched(Consulted(before, targets[..j]), targets[j])
               + (if due then [a.fault] else [])
               + Matched(Consulted(after, targets[..j]), targets[j])
  {
    var past, target := targets[..j], targets[j];
    assert targets[..j + 1][..j] == past;
    ConsultedSplits(before + [a], after, past);
    ConsultedSplits(before, [a], past);
    MatchedSplits(Consulted(before + [a], past), Consulted(after, past), target);
    MatchedSplits(Consulted(before, past), Consulted([a], past), target);
    CountsDown(a, past);
    SingleFault(ActiveFault(a.fault, a.seen + Visits(past, a.fault.target)), target);
  }

  // ---- A whole script -----------------------------------------------------

  /** The targets of the fault consultations among `asked`, in order. */
  function Targets(asked: seq<Service>): seq<string> {
    if asked == [] then []
    else
      var last := asked[|asked| - 1];
      Targets(asked[..|asked| - 1]) + if last.AskFaults? then [last.target] else []
  }

  /** How often an identity of the namespace was asked for. */
  function Asked(asked: seq<Service>, namespace: string): nat {
    if asked == [] then 0
    else Asked(asked[..|asked| - 1], namespace) + if asked[|asked| - 1] == AskId(namespace) then 1 else 0
  }

  function Issued(s: Services, namespace: string): nat { if namespace in s.ids then s.ids[namespace] else 0 }

  /** What consultation `i` is told: the instant, a fresh identity, or the faults due among those then armed. */
  ghost predicate Told(s: Services, asked: seq<Service>, i: nat, instant: nat, answer: Answer)
    requires i < |asked|
  {
    match asked[i]
    case AskNow => answer == NowIs(instant)
    case AskId(namespace) => answer == IdIs(namespace, Issued(s, namespace) + Asked(asked[..i], namespace) + 1)
    case AskFaults(target) =>
      answer == FaultsAre(Matched(Consulted(s.faults, Targets(asked[..i])), target))
  }

  /** What the consultations leave of the services. */
  ghost predicate Reflects(s: Services, asked: seq<Service>, s': Services) {
    && s'.faults == Consulted(s.faults, Targets(asked))
    && forall namespace :: Issued(s', namespace) == Issued(s, namespace) + Asked(asked, namespace)
  }

  /** Each consultation was chosen from the answers before it, and told the truth. */
  ghost predicate Session<A>(script: Script<A>, instant: nat, s: Services, asked: seq<Service>, answers: seq<Answer>,
                             s': Services) {
    && |asked| == |answers| <= script.rounds && Reflects(s, asked, s')
    && (forall i :: 0 <= i < |asked| ==>
          script.next(answers[..i]) == Some(asked[i]) && Told(s, asked, i, instant, answers[i]))
  }

  lemma OneMoreAsked(asked: seq<Service>, service: Service)
    ensures Targets(asked + [service])
            == Targets(asked) + (if service.AskFaults? then [service.target] else [])
    ensures forall namespace ::
              Asked(asked + [service], namespace)
              == Asked(asked, namespace) + if service == AskId(namespace) then 1 else 0
  {
    assert (asked + [service])[..|asked|] == asked;
  }

  lemma OneMoreTarget(armed: seq<ActiveFault>, targets: seq<string>, target: string)
    ensures Consulted(armed, targets + [target]) == Retained(Consulted(armed, targets), target)
  {
    assert (targets + [target])[..|targets|] == targets;
  }

  lemma ConsultReflects(s: Services, asked: seq<Service>, s': Services, service: Service, instant: nat)
    requires Reflects(s, asked, s')
    ensures var (answer, s'') := Consult(service, instant, s');
            Reflects(s, asked + [service], s'') && Told(s, asked + [service], |asked|, instant, answer)
  {
    hide Consulted;
    hide Targets;
    hide Asked;
    OneMoreAsked(asked, service);
    assert (asked + [service])[..|asked|] == asked;
    if service.AskFaults? {
      OneMoreTarget(s.faults, Targets(asked), service.target);
    } else {
      assert Targets(asked) + [] == Targets(asked);
    }
  }

  lemma SessionGrows<A>(script: Script<A>, instant: nat, s: Services, asked: seq<Service>, answers: seq<Answer>,
                        s': Services, service: Service)
    requires Session(script, instant, s, asked, answers, s')
    requires |answers| < script.rounds && script.next(answers) == Some(service)
    ensures var (answer, s'') := Consult(service, instant, s');
            Session(script, instant, s, asked + [service], answers + [answer], s'')
  {
    ConsultReflects(s, asked, s', service, instant);
    hide Consult;
    hide Reflects;
    var (answer, s'') := Consult(service, instant, s');
    var more, told := asked + [service], answers + [answer];
    forall i | 0 <= i < |more|
      ensures script.next(told[..i]) == Some(more[i]) && Told(s, more, i, instant, told[i])
    {
      assert told[..i] == answers[..i];
      if i < |asked| {
        assert more[i] == asked[i] && told[i] == answers[i] && more[..i] == asked[..i];
      } else {
        assert answers[..i] == answers;
      }
    }
  }

  lemma {:induction false} RunContinues<A>(script: Script<A>, instant: nat, s: Services, asked: seq<Service>,
                                           answers: seq<Answer>, s': Services)
    returns (all: seq<Service>, told: seq<Answer>)
    requires Session(script, instant, s, asked, answers, s')
    ensures Session(script, instant, s, all, told, Run(script, answers, instant, s').1)
    ensures Run(script, answers, instant, s').0 == script.finish(told)
    ensures |told| == script.rounds || script.next(told).None?
    decreases script.rounds - |answers|
  {
    if |answers| < script.rounds && script.next(answers).Some? {
      var service := script.next(answers).value;
      SessionGrows(script, instant, s, asked, answers, s', service);
      hide Session;
      var (answer, s'') := Consult(service, instant, s');
      all, told := RunContinues(script, instant, s, asked + [service], answers + [answer], s'');
    } else {
      all, told := asked, answers;
    }
  }

  /**
    A profile operation, whatever its script: it ends with what it makes of its
    answers, having stopped by itself or at its bound; every identity it was given is
    the next of its namespace and no other's, and every fault it was shown was due.
    */
  lemma ScriptIsServed<A>(script: Script<A>, instant: nat, s: Services)
    returns (asked: seq<Service>, answers: seq<Answer>)
    ensures Session(script, instant, s, asked, answers, Run(script, [], instant, s).1)
    ensures Run(script, [], instant, s).0 == script.finish(answers)
    ensures |answers| == script.rounds || script.next(answers).None?
  {
    asked, answers := RunContinues(script, instant, s, [], [], s);
  }
}
