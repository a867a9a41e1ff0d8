/**
  What every run of the custody ledger keeps, with a crash possible between any
  two writes: rows always decode, one live obligation per territory operation,
  epochs that only advance, and retirement that cannot be undone.
  */
module RetentionSafety {
  import opened Options
  import opened Retention

  predicate Ending(p: Phase) { p.Retiring? || p.Retired? }

  /** A row as the ledger writes it. */
  ghost predicate RowOk(r: Row) {
    && Valid(r)
    && (r.phase.Claiming? || r.phase.Attached? ==> r.target.Some? && r.target.value.epoch == r.source.epoch + 1)
    && (r.phase.Releasing? ==> r.archive.None? && r.target.None?)
    && (r.phase.Retired? <==> r.cleanup.Some?)
  }

  ghost predicate RowsOk(rows: Rows) { forall id :: id in rows ==> RowOk(rows[id]) }

  ghost predicate SameTerritory(rows: Rows, a: CustodyId, b: CustodyId)
    requires a in rows && b in rows
  {
    && rows[a].lease.identity.provider == rows[b].lease.identity.provider
    && rows[a].lease.identity.operation == rows[b].lease.identity.operation
  }

  /** At most one unretired row per (provider, operation). */
  ghost predicate OneLive(rows: Rows) {
    forall a, b :: a in rows && b in rows && a != b && SameTerritory(rows, a, b) ==>
      rows[a].phase.Retired? || rows[b].phase.Retired?
  }

  /** An unused ticket still speaks of the current generation, untouched unless it is being retired. */
  ghost predicate TicketOk(rows: Rows, t: Ticket) {
    t.used || (t.id in rows && rows[t.id].generation == t.expected.generation
               && ((rows[t.id] == t.expected && t.expected.phase.Releasing?) || Ending(rows[t.id].phase)))
  }

  ghost predicate ClaimOk(rows: Rows, c: Claim) {
    !c.pending || (c.id in rows && rows[c.id].generation == c.generation
                   && (rows[c.id].phase.Claiming? || Ending(rows[c.id].phase)))
  }

  ghost predicate RetirementOk(rows: Rows, j: Retirement) {
    j.id in rows && rows[j.id].lease.identity == j.identity && Ending(rows[j.id].phase)
  }

  ghost predicate TicketsOk(s: State) {
    && (forall k :: 0 <= k < |s.tickets| ==> TicketOk(s.rows, s.tickets[k]))
    && (forall j, k :: 0 <= j < k < |s.tickets| && !s.tickets[j].used && !s.tickets[k].used ==>
          s.tickets[j].id != s.tickets[k].id)
  }

  ghost predicate ClaimsOk(s: State) {
    && (forall k :: 0 <= k < |s.claims| ==> ClaimOk(s.rows, s.claims[k]))
    && (forall j, k :: 0 <= j < k < |s.claims| && s.claims[j].pending && s.claims[k].pending ==>
          s.claims[j].id != s.claims[k].id)
  }

  ghost predicate RetirementsOk(s: State) {
    && (forall k :: 0 <= k < |s.retirements| ==> RetirementOk(s.rows, s.retirements[k]))
    && (forall id :: id in s.rows && s.rows[id].phase.Retired? ==> s.rows[id].lease.identity in s.destroyed)
  }

  ghost predicate Inv(s: State) { RowsOk(s.rows) && OneLive(s.rows) && TicketsOk(s) && ClaimsOk(s) && RetirementsOk(s) }

  // ---- How one row may change ---------------------------------------------

  /** What any single write may do to a row that exists. */
  ghost predicate RowAdvances(r: Row, r': Row) {
    && r'.owner == r.owner && r'.lease.identity == r.lease.identity
    && r'.generation >= r.generation
    && r'.source.epoch - r.source.epoch == r'.generation - r.generation
    && (r'.generation == r.generation ==> r'.source == r.source)
    && (Ending(r.phase) ==> r'.generation == r.generation && Ending(r'.phase))
    && (r.phase.Retired? ==> r' == r)
  }

  ghost predicate Advances(rows: Rows, rows': Rows) {
    forall id :: id in rows ==> id in rows' && RowAdvances(rows[id], rows'[id])
  }

  /** One write to one row. */
  ghost predicate Touches(rows: Rows, rows': Rows, id: CustodyId) {
    id in rows' && rows' == rows[id := rows'[id]]
  }

  lemma OneLiveKept(rows: Rows, rows': Rows)
    requires OneLive(rows) && rows'.Keys == rows.Keys
    requires forall id :: id in rows ==>
               rows'[id].lease == rows[id].lease && (rows[id].phase.Retired? ==> rows'[id].phase.Retired?)
    ensures OneLive(rows')
  {
    forall a, b | a in rows' && b in rows' && a != b && SameTerritory(rows', a, b)
      ensures rows'[a].phase.Retired? || rows'[b].phase.Retired?
    {
      assert SameTerritory(rows, a, b);
    }
  }

  // ---- Each step ----------------------------------------------------------

  lemma StillOneLive(rows: Rows, id: CustodyId, row: Row)
    requires OneLive(rows) && !Taken(rows, id, row.lease.identity)
    ensures OneLive(rows[id := row])
  {
    var rows' := rows[id := row];
    forall a, b | a in rows' && b in rows' && a != b && SameTerritory(rows', a, b)
      ensures rows'[a].phase.Retired? || rows'[b].phase.Retired?
    {
      if a != id && b != id {
        assert SameTerritory(rows, a, b);
      }
    }
  }

  lemma BeginKeeps(s: State, id: CustodyId, owner: string, source: Coordinates, lease: Lease, retainUntil: real,
                   now: real)
    requires Inv(s)
    ensures var s' := BeginReleaseStep(s, id, owner, source, lease, retainUntil, now);
            Inv(s') && Advances(s.rows, s'.rows)
  {
    var s' := BeginReleaseStep(s, id, owner, source, lease, retainUntil, now);
    if s' != s {
      StillOneLive(s.rows, id, ReleaseRow(s.rows, id, owner, source, lease, retainUntil));
      hide Taken, OneLive;
      assert TicketOk(s'.rows, s'.tickets[|s.tickets|]);
      forall k | 0 <= k < |s.tickets| ensures TicketOk(s'.rows, s.tickets[k]) {
        assert TicketOk(s.rows, s.tickets[k]);
      }
      forall k | 0 <= k < |s.claims| ensures ClaimOk(s'.rows, s.claims[k]) {
        assert ClaimOk(s.rows, s.claims[k]);
      }
    }
  }

  /** A write that keeps generation, lease and source of one row, under guards that the pending work respects. */
  lemma PhaseKeeps(s: State, rows': Rows, id: CustodyId)
    requires Inv(s) && id in s.rows && Touches(s.rows, rows', id)
    requires var r, r' := s.rows[id], rows'[id];
             RowOk(r') && RowAdvances(r, r') && r'.generation == r.generation && r'.lease == r.lease
                 && !r.phase.Retired?
             && (r'.phase.Retired? ==> r.lease.identity in s.destroyed)
    requires forall k :: 0 <= k < |s.tickets| ==> TicketOk(rows', s.tickets[k])
    requires forall k :: 0 <= k < |s.claims| ==> ClaimOk(rows', s.claims[k])
    ensures Inv(s.(rows := rows')) && Advances(s.rows, rows')
  {
    OneLiveKept(s.rows, rows');
    forall k | 0 <= k < |s.retirements| ensures RetirementOk(rows', s.retirements[k]) {
      assert RetirementOk(s.rows, s.retirements[k]);
    }
  }

  /** Retiring a row disturbs no ticket and no claim. */
  lemma RetiringKeeps(s: State, id: CustodyId, expected: Phase)
    requires Inv(s) && !expected.Retired?
    ensures Inv(s.(rows := SetPhase(s.rows, id, expected, Retiring)))
            && Advances(s.rows, SetPhase(s.rows, id, expected, Retiring))
  {
    var rows' := SetPhase(s.rows, id, expected, Retiring);
    if id in s.rows && s.rows[id].phase == expected {
      assert RowOk(s.rows[id]);
      forall k | 0 <= k < |s.tickets| ensures TicketOk(rows', s.tickets[k]) {
        assert TicketOk(s.rows, s.tickets[k]);
      }
      forall k | 0 <= k < |s.claims| ensures ClaimOk(rows', s.claims[k]) {
        assert ClaimOk(s.rows, s.claims[k]);
      }
      PhaseKeeps(s, rows', id);
    } else {
      assert rows' == s.rows;
      assert s.(rows := rows') == s;
    }
  }

  lemma UseTicket(s: State, k: nat)
    requires Inv(s) && k < |s.tickets|
    ensures Inv(s.(tickets := s.tickets[k := s.tickets[k].(used := true)]))
  {
  }

  lemma AcceptKeeps(s: State, k: nat, coordinates: Coordinates, accepted: Lease, archive: string, now: real)
    requires Inv(s)
    ensures var s' := AcceptStep(s, k, coordinates, accepted, archive, now); Inv(s') && Advances(s.rows, s'.rows)
  {
    var s' := AcceptStep(s, k, coordinates, accepted, archive, now);
    if s'.tickets != s.tickets {
      var t := s.tickets[k];
      var mid := s.(tickets := s.tickets[k := t.(used := true)]);
      UseTicket(s, k);
      assert TicketOk(s.rows, t);
      if s'.rows == s.rows {
        assert s' == mid;
      } else if t.expected.retainUntil <= now {
        RetiringKeeps(mid, t.id, Releasing);
      } else {
        forall j | 0 <= j < |mid.tickets| ensures TicketOk(s'.rows, mid.tickets[j]) {
          assert TicketOk(s.rows, mid.tickets[j]);
        }
        forall j | 0 <= j < |s.claims| ensures ClaimOk(s'.rows, s.claims[j]) {
          assert ClaimOk(s.rows, s.claims[j]);
        }
        assert RowOk(s.rows[t.id]);
        PhaseKeeps(mid, s'.rows, t.id);
      }
    }
  }

  lemma ClaimedKeeps(s: State, id: CustodyId, target: Coordinates)
    requires Inv(s) && id in s.rows && s.rows[id].phase.Retained? && target.epoch == s.rows[id].source.epoch + 1
    ensures var s' := s.(rows := s.rows[id := s.rows[id].(phase := Claiming, target := Some(target))],
                         claims := s.claims + [Claim(id, s.rows[id].generation, true)]);
            Inv(s') && Advances(s.rows, s'.rows)
  {
    var rows' := s.rows[id := s.rows[id].(phase := Claiming, target := Some(target))];
    assert RowOk(s.rows[id]);
    forall k | 0 <= k < |s.tickets| ensures TicketOk(rows', s.tickets[k]) {
      assert TicketOk(s.rows, s.tickets[k]);
    }
    forall k | 0 <= k < |s.claims|
      ensures ClaimOk(rows', s.claims[k]) && (s.claims[k].pending ==> s.claims[k].id != id) {
      assert ClaimOk(s.rows, s.claims[k]);
    }
    PhaseKeeps(s, rows', id);
  }

  lemma ReclaimKeeps(s: State, id: CustodyId, owner: string, episode: string, attachment: string,
                     observed: Option<Observed>, now: real)
    requires Inv(s)
    ensures var s' := ReclaimStep(s, id, owner, episode, attachment, observed, now);
            Inv(s') && Advances(s.rows, s'.rows)
  {
    hide Inv, SetPhase, Advances;
    RetiringKeeps(s, id, Retained);
    SelfAdvances(s.rows);
    if id in s.rows && s.rows[id].phase.Retained? {
      ClaimedKeeps(s, id, Coordinates(episode, attachment, s.rows[id].source.epoch + 1));
    }
  }

  lemma SelfAdvances(rows: Rows)
    ensures Advances(rows, rows)
  {
  }

  lemma FinishClaimKeeps(s: State, k: nat, ok: bool)
    requires Inv(s)
    ensures var s' := FinishClaimStep(s, k, ok); Inv(s') && Advances(s.rows, s'.rows)
  {
    SelfAdvances(s.rows);
    if k < |s.claims| && s.claims[k].pending {
      var c := s.claims[k];
      var mid := s.(claims := s.claims[k := c.(pending := false)]);
      assert ClaimOk(s.rows, c);
      assert Inv(mid);
      if !ok {
        RetiringKeeps(mid, c.id, Claiming);
      } else {
        AttachKeeps(s, mid, k);
      }
    }
  }

  lemma AttachKeeps(s: State, mid: State, k: nat)
    requires Inv(s) && k < |s.claims| && s.claims[k].pending
    requires mid == s.(claims := s.claims[k := s.claims[k].(pending := false)]) && Inv(mid)
    ensures var rows' := SetPhase(s.rows, s.claims[k].id, Claiming, Attached);
            Inv(mid.(rows := rows')) && Advances(s.rows, rows')
  {
    var id := s.claims[k].id;
    var rows' := SetPhase(s.rows, id, Claiming, Attached);
    if rows' == s.rows {
      assert mid.(rows := rows') == mid;
    } else {
      assert RowOk(s.rows[id]);
      forall j | 0 <= j < |s.tickets| ensures TicketOk(rows', s.tickets[j]) {
        assert TicketOk(s.rows, s.tickets[j]);
      }
      forall j | 0 <= j < |mid.claims| ensures ClaimOk(rows', mid.claims[j]) {
        assert ClaimOk(s.rows, s.claims[j]);
      }
      PhaseKeeps(mid, rows', id);
    }
  }

  lemma RecoverKeeps(s: State, now: real)
    requires Inv(s)
    ensures Inv(s.(rows := Recovered(s.rows, now))) && Advances(s.rows, Recovered(s.rows, now))
  {
    var rows' := Recovered(s.rows, now);
    forall id | id in s.rows ensures RowOk(rows'[id]) && RowAdvances(s.rows[id], rows'[id]) {
      assert RowOk(s.rows[id]);
    }
    OneLiveKept(s.rows, rows');
    forall k | 0 <= k < |s.tickets| ensures TicketOk(rows', s.tickets[k]) {
      assert TicketOk(s.rows, s.tickets[k]);
    }
    forall k | 0 <= k < |s.claims| ensures ClaimOk(rows', s.claims[k]) {
      assert ClaimOk(s.rows, s.claims[k]);
    }
    forall k | 0 <= k < |s.retirements| ensures RetirementOk(rows', s.retirements[k]) {
      assert RetirementOk(s.rows, s.retirements[k]);
    }
  }

  lemma AddRetirement(s: State, id: CustodyId)
    requires Inv(s) && id in s.rows && s.rows[id].phase.Retiring?
    ensures Inv(s.(retirements := s.retirements + [Retirement(id, s.rows[id].lease.identity, true)]))
  {
    hide RowsOk, OneLive;
    assert RetirementOk(s.rows, Retirement(id, s.rows[id].lease.identity, true));
  }

  lemma RetireKeeps(s: State, id: CustodyId, owner: string, seen: Option<Identity>)
    requires Inv(s)
    ensures var s' := RetireStep(s, id, owner, seen); Inv(s') && Advances(s.rows, s'.rows)
  {
    hide Inv, Advances;
    RetiringKeeps(s, id, Retained);
    SelfAdvances(s.rows);
    var rows' := SetPhase(s.rows, id, Retained, Retiring);
    if id in s.rows && rows'[id].phase.Retiring? {
      AddRetirement(s.(rows := rows'), id);
    }
    hide SetPhase;
  }

  lemma FinishRetireKeeps(s: State, k: nat, cleaned: Identity, verified: bool, disposition: string)
    requires Inv(s)
    ensures var s' := FinishRetireStep(s, k, cleaned, verified, disposition); Inv(s') && Advances(s.rows, s'.rows)
  {
    SelfAdvances(s.rows);
    var s' := FinishRetireStep(s, k, cleaned, verified, disposition);
    if k < |s.retirements| && s.retirements[k].pending {
      var job := s.retirements[k];
      assert RetirementOk(s.rows, job);
      var mid := s'.(rows := s.rows);
      assert Inv(mid);
      if s'.rows == s.rows {
        assert s' == mid;
      } else {
        assert RowOk(s.rows[job.id]);
        forall j | 0 <= j < |s.tickets| ensures TicketOk(s'.rows, s.tickets[j]) {
          assert TicketOk(s.rows, s.tickets[j]);
        }
        forall j | 0 <= j < |s.claims| ensures ClaimOk(s'.rows, s.claims[j]) {
          assert ClaimOk(s.rows, s.claims[j]);
        }
        PhaseKeeps(mid, s'.rows, job.id);
      }
    }
  }

  lemma NextKeeps(s: State, step: Step)
    requires Inv(s)
    ensures Inv(Next(s, step)) && Advances(s.rows, Next(s, step).rows)
  {
    match step {
      case BeginRelease(id, owner, source, lease, retainUntil, now) =>
        BeginKeeps(s, id, owner, source, lease, retainUntil, now);
        hide Inv, Advances, BeginReleaseStep;
      case AcceptRelease(k, coordinates, accepted, archive, now) =>
        AcceptKeeps(s, k, coordinates, accepted, archive, now);
        hide Inv, Advances, AcceptStep;
      case Reclaim(id, owner, episode, attachment, observed, now) =>
        ReclaimKeeps(s, id, owner, episode, attachment, observed, now);
        hide Inv, Advances, ReclaimStep;
      case FinishClaim(k, ok) =>
        FinishClaimKeeps(s, k, ok);
        hide Inv, Advances, FinishClaimStep;
      case Recover(now) =>
        RecoverKeeps(s, now);
        hide Inv, Advances, Recovered;
      case Retire(id, owner, seen) =>
        RetireKeeps(s, id, owner, seen);
        hide Inv, Advances, RetireStep;
      case FinishRetire(k, cleaned, verified, disposition) =>
        FinishRetireKeeps(s, k, cleaned, verified, disposition);
        hide Inv, Advances, FinishRetireStep;
      case Crash => SelfAdvances(s.rows);
    }
  }

  // ---- Whole runs ---------------------------------------------------------

  lemma AdvancesTwice(a: Rows, b: Rows, c: Rows)
    requires Advances(a, b) && Advances(b, c)
    ensures Advances(a, c)
  {
    forall id | id in a ensures id in c && RowAdvances(a[id], c[id]) {
      assert RowAdvances(a[id], b[id]) && RowAdvances(b[id], c[id]);
    }
  }

  /**
    Every run keeps the invariant, and every row only ever advances: same owner and
    territory, one epoch further for each time its custody cycles, never back out
    of retirement, and a retired row never changes again.
    */
  lemma {:induction false} RunKeeps(s: State, steps: seq<Step>)
    requires Inv(s)
    ensures Inv(Run(s, steps)) && Advances(s.rows, Run(s, steps).rows)
    decreases steps
  {
    hide Inv, Next;
    if steps == [] {
      SelfAdvances(s.rows);
    } else {
      NextKeeps(s, steps[0]);
      RunKeeps(Next(s, steps[0]), steps[1..]);
      AdvancesTwice(s.rows, Next(s, steps[0]).rows, Run(s, steps).rows);
    }
  }

  lemma StartInv()
    ensures Inv(Start())
  {
  }

  /**
    Every row of every run decodes, a retired one had its exact lease
    verifiably destroyed, and live territories are single.
    */
  lemma LedgerIsSound(steps: seq<Step>)
    ensures var s := Run(Start(), steps);
            && (forall id :: id in s.rows ==> Valid(s.rows[id]))
            && (forall id :: id in s.rows && s.rows[id].phase.Retired? ==> s.rows[id].lease.identity in s.destroyed)
            && OneLive(s.rows)
  {
    StartInv();
    RunKeeps(Start(), steps);
    var s := Run(Start(), steps);
    hide Run;
    forall id | id in s.rows ensures Valid(s.rows[id]) {
      assert RowOk(s.rows[id]);
    }
  }

  /** Each release of a custody id that is already known comes from a strictly later epoch. */
  lemma CyclesAdvance(before: seq<Step>, after: seq<Step>, id: CustodyId)
    requires id in Run(Start(), before).rows
    ensures id in Run(Run(Start(), before), after).rows
    ensures var r, r' := Run(Start(), before).rows[id], Run(Run(Start(), before), after).rows[id];
            && r'.lease.identity == r.lease.identity && r'.owner == r.owner
            && (r'.generation > r.generation <==> r'.source.epoch > r.source.epoch)
            && (r'.generation == r.generation ==> r'.source == r.source)
  {
    StartInv();
    RunKeeps(Start(), before);
    RunKeeps(Run(Start(), before), after);
    hide Run, Inv;
    assert RowAdvances(Run(Start(), before).rows[id], Run(Run(Start(), before), after).rows[id]);
  }

  /**
    Once retiring, a row is retiring or retired for ever, and retired only
    when its own lease was verifiably destroyed.
    */
  lemma RetiringIsFinal(before: seq<Step>, after: seq<Step>, id: CustodyId)
    requires id in Run(Start(), before).rows && Run(Start(), before).rows[id].phase.Retiring?
    ensures var s' := Run(Run(Start(), before), after);
            && id in s'.rows && Ending(s'.rows[id].phase)
            && s'.rows[id].lease.identity == Run(Start(), before).rows[id].lease.identity
            && (s'.rows[id].phase.Retired? ==> s'.rows[id].lease.identity in s'.destroyed)
  {
    StartInv();
    RunKeeps(Start(), before);
    RunKeeps(Run(Start(), before), after);
    hide Run;
    assert RowAdvances(Run(Start(), before).rows[id], Run(Run(Start(), before), after).rows[id]);
  }

  /** A row leaves retirement only through a completed destruction of exactly its lease. */
  lemma RetiredOnlyByCleanup(s: State, step: Step, id: CustodyId)
    requires Inv(s) && id in s.rows && !s.rows[id].phase.Retired?
    requires id in Next(s, step).rows && Next(s, step).rows[id].phase.Retired?
    ensures s.rows[id].phase.Retiring?
    ensures step.FinishRetire? && step.verified && step.cleaned == s.rows[id].lease.identity
    ensures step.retirement < |s.retirements| && s.retirements[step.retirement].id == id
  {
    assert step.FinishRetire?;
    assert RetirementOk(s.rows, s.retirements[step.retirement]);
  }

  /**
    The phase change made for an expired ticket is guarded by phase but not by
    generation.  It still only ever hits the ticket's own generation: in every run
    an unused ticket names the row exactly as it was written, or a row already
    being retired.
    */
  lemma TicketsAreCurrent(steps: seq<Step>, k: nat)
    requires k < |Run(Start(), steps).tickets| && !Run(Start(), steps).tickets[k].used
    ensures var s := Run(Start(), steps); var t := s.tickets[k];
            && t.id in s.rows && s.rows[t.id].generation == t.expected.generation
            && (s.rows[t.id].phase.Releasing? ==> s.rows[t.id] == t.expected)
  {
    StartInv();
    RunKeeps(Start(), steps);
    var s := Run(Start(), steps);
    hide Run;
    assert TicketOk(s.rows, s.tickets[k]);
  }

  /** Recovery leaves no releasing, claiming or attached row, and no expired retained one. */
  lemma RecoverFences(s: State, now: real)
    ensures forall id :: id in s.rows ==> id in Next(s, Recover(now)).rows
    ensures forall id :: id in Next(s, Recover(now)).rows ==>
              var r := Next(s, Recover(now)).rows[id];
              Ending(r.phase) || (r.phase.Retained? && now < r.retainUntil && s.rows[id] == r)
  {
  }

  /** Nothing in progress can change this row any more. */
  ghost predicate Disarmed(s: State, id: CustodyId) {
    && id in s.rows && Ending(s.rows[id].phase)
    && (forall k, coordinates, lease, archive, now :: 0 <= k < |s.tickets| && s.tickets[k].id == id ==>
          Next(s, AcceptRelease(k, coordinates, lease, archive, now)).rows == s.rows)
    && (forall k, ok :: 0 <= k < |s.claims| && s.claims[k].id == id ==> Next(s, FinishClaim(k, ok)).rows == s.rows)
  }

  lemma EndingDisarms(s: State, id: CustodyId)
    requires id in s.rows && Ending(s.rows[id].phase)
    ensures Disarmed(s, id)
  {
  }

  /**
    A release or claim still open when recovery ran is void for ever: in every
    continuation its row is being retired, and neither its own completion nor any
    other of that custody id changes a row.
    */
  lemma RecoveryDisarms(s: State, now: real, after: seq<Step>, id: CustodyId)
    requires Inv(s)
    requires (exists k :: 0 <= k < |s.tickets| && s.tickets[k].id == id && !s.tickets[k].used)
             || (exists k :: 0 <= k < |s.claims| && s.claims[k].id == id && s.claims[k].pending)
    ensures Disarmed(Run(Next(s, Recover(now)), after), id)
  {
    var s1 := Next(s, Recover(now));
    RecoverKeeps(s, now);
    OpenMeansEnding(s, now, id);
    RunKeeps(s1, after);
    hide Run, Next, Inv;
    assert RowAdvances(s1.rows[id], Run(s1, after).rows[id]);
    EndingDisarms(Run(s1, after), id);
  }

  lemma OpenMeansEnding(s: State, now: real, id: CustodyId)
    requires Inv(s)
    requires (exists k :: 0 <= k < |s.tickets| && s.tickets[k].id == id && !s.tickets[k].used)
             || (exists k :: 0 <= k < |s.claims| && s.claims[k].id == id && s.claims[k].pending)
    ensures var rows := Next(s, Recover(now)).rows; id in rows && Ending(rows[id].phase)
  {
    if k :| 0 <= k < |s.tickets| && s.tickets[k].id == id && !s.tickets[k].used {
      assert TicketOk(s.rows, s.tickets[k]);
    } else {
      var k :| 0 <= k < |s.claims| && s.claims[k].id == id && s.claims[k].pending;
      assert ClaimOk(s.rows, s.claims[k]);
    }
  }

  /** A ticket or claim that was already spent stays spent for as long as the process lives. */
  lemma {:induction false} SpentStaysSpent(s: State, after: seq<Step>)
    requires Crash !in after
    ensures var s' := Run(s, after);
            && |s.tickets| <= |s'.tickets| && |s.claims| <= |s'.claims|
            && (forall k :: 0 <= k < |s.tickets| ==>
                  s'.tickets[k].id == s.tickets[k].id && s'.tickets[k].expected == s.tickets[k].expected
                  && (s.tickets[k].used ==> s'.tickets[k].used))
            && (forall k :: 0 <= k < |s.claims| ==>
                  s'.claims[k].id == s.claims[k].id && (s'.claims[k].pending ==> s.claims[k].pending))
    decreases after
  {
    if after == [] {
    } else {
      SpentStep(s, after[0]);
      hide Next;
      SpentStaysSpent(Next(s, after[0]), after[1..]);
    }
  }

  lemma SpentStep(s: State, step: Step)
    requires !step.Crash?
    ensures var s' := Next(s, step);
            && |s.tickets| <= |s'.tickets| && |s.claims| <= |s'.claims|
            && (forall k :: 0 <= k < |s.tickets| ==>
                  s'.tickets[k].id == s.tickets[k].id && s'.tickets[k].expected == s.tickets[k].expected
                  && (s.tickets[k].used ==> s'.tickets[k].used))
            && (forall k :: 0 <= k < |s.claims| ==>
                  s'.claims[k].id == s.claims[k].id && (s'.claims[k].pending ==> s.claims[k].pending))
  {
    hide AcceptWrite, SetPhase, Recovered, RetireWrite, Taken, MayRelease;
  }

  /** A row is claimed only by its owner, unexpired, for a different episode, with exactly its lease seen ready. */
  lemma ClaimsOnlyReady(s: State, step: Step, id: CustodyId)
    requires id in s.rows && !s.rows[id].phase.Claiming?
    requires id in Next(s, step).rows && Next(s, step).rows[id].phase.Claiming?
    ensures step.Reclaim? && step.id == id && s.rows[id].phase.Retained?
    ensures step.owner == s.rows[id].owner && step.now < s.rows[id].retainUntil
    ensures step.observed == Some(Observed(s.rows[id].lease.identity, true))
    ensures step.episode != s.rows[id].source.episode && step.attachment != s.rows[id].source.attachment
  {
    assert step.Reclaim?;
  }

  /** A row is retained only by the release that its current ticket announced, with that release's archive. */
  lemma RetainedOnlyByTicket(s: State, step: Step, id: CustodyId)
    requires Inv(s) && id in s.rows && !s.rows[id].phase.Retained?
    requires id in Next(s, step).rows && Next(s, step).rows[id].phase.Retained?
    ensures step.AcceptRelease? && step.ticket < |s.tickets| && s.tickets[step.ticket] == Ticket(id, s.rows[id], false)
    ensures step.accepted == s.rows[id].lease && step.coordinates == s.rows[id].source
            && step.now < s.rows[id].retainUntil
    ensures Next(s, step).rows[id].archive == Some(step.archive)
  {
    assert step.AcceptRelease?;
    assert TicketOk(s.rows, s.tickets[step.ticket]);
  }
}
