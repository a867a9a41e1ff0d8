/**
  What a gateway's counters count: every request, every admitted result and every
  rejection, each answered id and each call still on its way exactly once.
  */
module HandsTallies {
  import opened Options
  import opened Hands
  import opened HandsSafety
  import opened HandsRuns

  /** The ids answered with an accepted, and with a rejected, result. */
  function Yeses(g: Gateway): set<CallId> { set id | id in g.claims && g.claims[id].reply == Some(Accepted) }

  function Noes(g: Gateway): set<CallId> {
    set id | id in g.claims && g.claims[id].reply.Some? && g.claims[id].reply.value.Rejected?
  }

  /** Counted as admitted, not yet in the ledger. */
  predicate Admitting(x: Stage) { x == Recorded(Accepted) }

  /** Counted as rejected, not yet in the ledger, or never to be: it claimed nothing. */
  predicate Denying(x: Stage) { x.Refused? || (x.Recorded? && x.reply.Rejected?) }

  function AdmittingAt(i: nat): Call -> nat { (c: Call) => One(c.gateway == i && Admitting(c.stage)) }
  function DenyingAt(i: nat): Call -> nat { (c: Call) => One(c.gateway == i && Denying(c.stage)) }
  function SentTo(i: nat): Call -> nat { (c: Call) => One(c.gateway == i) }

  ghost predicate Answered(s: State, i: nat)
    requires i < |s.gateways|
  {
    var g := s.gateways[i];
    && g.admitted == |Yeses(g)| + Sum(s.calls, AdmittingAt(i))
    && g.rejections == |Noes(g)| + Sum(s.calls, DenyingAt(i))
    && g.requests == Sum(s.calls, SentTo(i))
  }

  ghost predicate AllAnswered(s: State) { forall i :: 0 <= i < |s.gateways| ==> Answered(s, i) }

  // ---- One section --------------------------------------------------------

  ghost predicate Counts(x: Stage, g: Gateway, x': Stage, g': Gateway) {
    && g'.admitted - |Yeses(g')| - One(Admitting(x')) == g.admitted - |Yeses(g)| - One(Admitting(x))
    && g'.rejections - |Noes(g')| - One(Denying(x')) == g.rejections - |Noes(g)| - One(Denying(x))
    && g'.requests == g.requests
  }

  /** A claim that is not answered changes neither. */
  lemma Unanswered(g: Gateway, id: CallId, r: Request)
    requires id !in g.claims
    ensures Yeses(Claiming(g, r.(call := id))) == Yeses(g) && Noes(Claiming(g, r.(call := id))) == Noes(g)
  {
  }

  lemma YesesAfter(g: Gateway, g': Gateway, id: CallId, claim: Claim)
    requires g'.claims == g.claims[id := claim]
    ensures Yeses(g') == if claim.reply == Some(Accepted) then Yeses(g) + {id} else Yeses(g) - {id}
  {
    var after := if claim.reply == Some(Accepted) then Yeses(g) + {id} else Yeses(g) - {id};
    forall x ensures x in Yeses(g') <==> x in after {
    }
  }

  lemma NoesAfter(g: Gateway, g': Gateway, id: CallId, claim: Claim)
    requires g'.claims == g.claims[id := claim]
    ensures Noes(g') == if claim.reply.Some? && claim.reply.value.Rejected? then Noes(g) + {id} else Noes(g) - {id}
  {
    var after := if claim.reply.Some? && claim.reply.value.Rejected? then Noes(g) + {id} else Noes(g) - {id};
    forall x ensures x in Noes(g') <==> x in after {
    }
  }

  lemma AddedOne(s: set<CallId>, id: CallId)
    requires id !in s
    ensures |s + {id}| == |s| + 1 && s - {id} == s
  {
  }

  lemma PublishCounts(g: Gateway, r: Request, reply: Reply)
    requires r.call in g.claims && g.claims[r.call].reply.None?
    ensures var g' := Published(g, r, reply);
            && |Yeses(g')| == |Yeses(g)| + One(reply.Accepted?) && |Noes(g')| == |Noes(g)| + One(reply.Rejected?)
  {
    assert r.call !in Yeses(g) && r.call !in Noes(g);
    hide Yeses, Noes;
    var g' := Published(g, r, reply);
    YesesAfter(g, g', r.call, Claim(r, Some(reply)));
    NoesAfter(g, g', r.call, Claim(r, Some(reply)));
    AddedOne(Yeses(g), r.call);
    AddedOne(Noes(g), r.call);
  }

  lemma SameClaims(g: Gateway, g': Gateway)
    requires g'.claims == g.claims
    ensures Yeses(g') == Yeses(g) && Noes(g') == Noes(g)
  {
  }

  /** Sections other than claiming and publishing leave the ledger alone. */
  lemma QuietCounts(v: Local, t: nat, w: Write, r: Request, fence: Option<Category>, act: Act)
    requires !act.TryClaim? && !act.Publish?
    ensures var v' := Acted(v, t, w, r, fence, act); Counts(v.stage, v.gateway, v'.stage, v'.gateway)
  {
    hide Yeses, Noes;
    var v' := Acted(v, t, w, r, fence, act);
    if BeforeAdapter(act) {
      hide ActedAfter;
      SameClaims(v.gateway, v'.gateway);
    } else {
      hide ActedBefore;
      SameClaims(v.gateway, v'.gateway);
    }
  }

  lemma ActedCounts(s: State, t: nat, act: Act)
    requires At(s, t) && Owns(s, t)
    ensures var c, v := s.calls[t], ActedAt(s, t, act);
            Counts(c.stage, s.gateways[c.gateway], v.stage, v.gateway)
  {
    hide Yeses, Noes;
    var c, v := s.calls[t], ActedAt(s, t, act);
    var g := s.gateways[c.gateway];
    if act.TryClaim? {
      hide ActedAfter;
      if c.request.call !in g.claims {
        Unanswered(g, c.request.call, c.request);
        assert c.request.(call := c.request.call) == c.request;
        SameClaims(g, Rejection(g));
      }
    } else if act.Publish? {
      hide ActedBefore;
      if c.stage.Recorded? {
        PublishCounts(g, c.request, c.stage.reply);
      }
    } else {
      QuietCounts(View(s, t), t, Write(c.gateway, c.request.call), c.request, Fence(s), act);
      hide Acted;
    }
  }

  lemma MoveKeepsAnswered(s: State, t: nat, v: Local, i: nat)
    requires At(s, t) && i < |s.gateways| && Answered(s, i)
    requires Counts(s.calls[t].stage, s.gateways[s.calls[t].gateway], v.stage, v.gateway)
    ensures Answered(Put(s, t, v), i)
  {
    hide Yeses, Noes, Admitting, Denying;
    var c := s.calls[t].(stage := v.stage);
    SumMove(s.calls, t, c, AdmittingAt(i));
    SumMove(s.calls, t, c, DenyingAt(i));
    SumMove(s.calls, t, c, SentTo(i));
  }

  // ---- Every step ---------------------------------------------------------

  lemma SubmitAnswered(s: State, g: nat, c: Call)
    requires AllAnswered(s) && g < |s.gateways| && c.gateway == g && (c.stage.Parsed? || c.stage.Unparsed?)
    ensures AllAnswered(Submitted(s, g, c))
  {
    var s' := Submitted(s, g, c);
    forall i | 0 <= i < |s'.gateways| ensures Answered(s', i) {
      assert Answered(s, i);
      SameClaims(s.gateways[i], s'.gateways[i]);
      hide Yeses, Noes;
      SumAppend(s.calls, c, AdmittingAt(i));
      SumAppend(s.calls, c, DenyingAt(i));
      SumAppend(s.calls, c, SentTo(i));
    }
  }

  lemma NewGatewayAnswered(s: State, maxCalls: nat)
    requires AllAnswered(s) && Placed(s)
    ensures AllAnswered(s.(gateways := s.gateways + [NewGatewayRecord(maxCalls)]))
  {
    var s', n := s.(gateways := s.gateways + [NewGatewayRecord(maxCalls)]), |s.gateways|;
    SumZero(s.calls, AdmittingAt(n));
    SumZero(s.calls, DenyingAt(n));
    SumZero(s.calls, SentTo(n));
    assert Yeses(NewGatewayRecord(maxCalls)) == {} && Noes(NewGatewayRecord(maxCalls)) == {};
    forall i | 0 <= i < |s'.gateways| ensures Answered(s', i) {
      assert i < n ==> Answered(s, i);
    }
  }

  lemma SettleAnswered(s: State, step: Step)
    requires AllAnswered(s)
    ensures AllAnswered(Settle(s, step))
  {
    var s' := Settle(s, step);
    SettleCounts(s, step);
    hide Settle;
    forall i | 0 <= i < |s'.gateways| ensures Answered(s', i) {
      assert Answered(s, i);
      SameClaims(s.gateways[i], s'.gateways[i]);
      hide Yeses, Noes;
    }
  }

  lemma SettleCounts(s: State, step: Step)
    ensures var s' := Settle(s, step);
            && s'.calls == s.calls && |s'.gateways| == |s.gateways|
            && forall i :: 0 <= i < |s.gateways| ==>
                 && s'.gateways[i].claims == s.gateways[i].claims && s'.gateways[i].admitted == s.gateways[i].admitted
                 && s'.gateways[i].rejections == s.gateways[i].rejections
                 && s'.gateways[i].requests == s.gateways[i].requests
  {
    hide Opened, Closed;
  }

  lemma StepAnswered(s: State, step: Step)
    requires Inv(s) && AllAnswered(s)
    ensures AllAnswered(Next(s, step))
  {
    match step {
      case Submit(g, request) =>
        if g < |s.gateways| {
          SubmitAnswered(s, g, Call(g, request, Parsed));
        }
      case SubmitUnparsed(g) =>
        if g < |s.gateways| {
          SubmitAnswered(s, g, Call(g, Request("", 0, false, ""), Unparsed));
        }
      case Advance(t, act) =>
        if At(s, t) {
          assert Owns(s, t);
          ActedCounts(s, t, act);
          var v := ActedAt(s, t, act);
          hide ActedAt, Counts, Answered, Inv;
          forall i | 0 <= i < |s.gateways| ensures Answered(Put(s, t, v), i) {
            MoveKeepsAnswered(s, t, v, i);
          }
        }
      case NewGateway(maxCalls) => NewGatewayAnswered(s, maxCalls);
      case _ => SettleAnswered(s, step);
    }
    hide Inv, AllAnswered, Settle, Submitted, ActedAt, NewGatewayRecord;
  }

  /**
    In every run, of every gateway: the results it counts as admitted and as rejected
    are the answers its ledger gives, plus what is recorded and not yet published and
    what was refused without a claim; and it counted every request.
    */
  lemma {:induction false} RunAnswered(s: State, steps: seq<Step>)
    requires Inv(s) && AllAnswered(s)
    ensures AllAnswered(Run(s, steps))
    decreases steps
  {
    hide Inv, Next, AllAnswered;
    if steps == [] {
    } else {
      StepAnswered(s, steps[0]);
      NextKeeps(s, steps[0]);
      RunAnswered(Next(s, steps[0]), steps[1..]);
    }
  }

  lemma StartAnswered()
    ensures Inv(Start()) && AllAnswered(Start())
  {
    StartInv();
  }
}
